/** `POST /api/leads/reply`: sends a user-written reply under the lead's
    source post and, only when that succeeds, appends it to the lead's
    conversation and marks the lead engaged. */
module LeadsReplyRoute {
  import opened Wrappers
  import opened Seqs
  import opened Records
  import opened External
  import opened Db
  import opened Poster
  import opened Http
  import opened LeadsRoute

  /** The update after a reply went out: engaged, with the reply appended.
      The last message is left as it was. */
  function RepliedPatch(l: Lead, message: string, now: int): LeadPatch {
    LeadPatch(Some(Engaged), None, Some(l.conversations + [Message(AiRole, message, now)]), None)
  }

  /** The error text of a failed reply, with a default for an empty one. */
  function ReplyError(e: string): (r: string)
    ensures r != ""
    ensures e != "" ==> r == e
  {
    if e == "" then "Failed to post reply" else e
  }

  /** The guard chain: missing fields, then an unknown lead, then a lead
      without a post to reply under; the platform is asked only after all
      three pass, and the lead changes only when it answers with success. */
  method ReplyToLead(db: Store, leadId: Option<Id>, message: string, projectId: Option<Id>, now: int, env: Env)
    returns (resp: Response<Id>, calls: seq<Call>)
    requires db.Valid()
    modifies db`leads
    ensures db.Valid()
    ensures resp.status != 200 ==> db.leads == old(db.leads)
    ensures leadId.None? || message == "" || projectId.None? ==>
      resp == Error(400, "Missing required fields") && calls == []
    ensures leadId.Some? && message != "" && projectId.Some? ==>
      var i := FindIndex(old(db.leads), LeadWithId(leadId.value));
      && (i < 0 || old(db.leads)[i].projectId != projectId.value ==>
            resp == Error(404, "Lead not found") && calls == [])
      && (0 <= i && old(db.leads)[i].projectId == projectId.value ==>
            var l := old(db.leads)[i];
            && (!Present(l.metadata.sourceId) ==> resp.status == 400 && calls == [])
            && (Present(l.metadata.sourceId) ==>
                  var a := PostReply(old(db.accounts), projectId.value, l.platform, l.metadata.sourceId.value,
                                     message, env.net);
                  && calls == a.calls
                  && (a.result.Failure? ==> resp == Error(500, ReplyError(a.result.error)))
                  && (a.result.Success? ==>
                        && resp == Ok(200, leadId.value)
                        && db.leads == old(db.leads)[i := MergeLead(l, RepliedPatch(l, message, now))])))
  {
    if leadId.None? || message == "" || projectId.None? {
      return Error(400, "Missing required fields"), [];
    }
    var lead := Find(db.GetLeads(projectId.value), LeadWithId(leadId.value));
    FindInProject(db.leads, projectId.value, leadId.value);
    if lead.None? {
      return Error(404, "Lead not found"), [];
    }
    var l := lead.value;
    if !Present(l.metadata.sourceId) {
      return Error(400, "Cannot reply: No source post/tweet ID found for this lead. This might be a simulated lead."), [];
    }
    var a := PostReply(db.accounts, projectId.value, l.platform, l.metadata.sourceId.value, message, env.net);
    calls := a.calls;
    if a.result.Failure? {
      return Error(500, ReplyError(a.result.error)), calls;
    }
    var _ := db.UpdateLead(leadId.value, RepliedPatch(l, message, now));
    resp := Ok(200, leadId.value);
  }

  /** A successful reply engages the lead and appends exactly the message
      sent, as ours, without touching the last message or metadata. */
  lemma RepliedLead(l: Lead, message: string, now: int)
    ensures var e := MergeLead(l, RepliedPatch(l, message, now));
      && e.(status := l.status, conversations := l.conversations) == l
      && e.status == Engaged
      && |e.conversations| == |l.conversations| + 1
      && e.conversations[..|l.conversations|] == l.conversations
      && e.conversations[|l.conversations|] == Message(AiRole, message, now)
  {
    var e := MergeLead(l, RepliedPatch(l, message, now));
    assert e.conversations == l.conversations + [Message(AiRole, message, now)];
  }
}
