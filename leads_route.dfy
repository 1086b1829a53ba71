/** `PATCH /api/leads`: sets a lead's status, or engages it: replies on its
    platform when it has a post to reply under, then records the reply in
    its conversation and marks it engaged. */
module LeadsRoute {
  import opened Wrappers
  import opened Seqs
  import opened Records
  import opened External
  import opened Db
  import opened Poster
  import opened Http

  /** The reply: the lead's drafted message, else one generated from the
      project, the lead and its conversation so far. */
  function RouteReply(l: Lead, project: Project, ai: Ai): string {
    if Present(l.lastMessage) then l.lastMessage.value
    else ai.draftReply(project.name, project.vision, l.name, l.painPoint, l.conversations)
  }

  /** The requests drafting the reply makes. */
  function DraftCalls(l: Lead): seq<Call> {
    if Present(l.lastMessage) then [] else [DraftReply(l.name, l.painPoint)]
  }

  /** The update that engages a lead with `reply`. */
  function EngagePatch(l: Lead, reply: string, now: int): LeadPatch {
    LeadPatch(Some(Engaged), Some(reply), Some(l.conversations + [Message(AiRole, reply, now)]),
              Some(l.metadata.(replySent := Some(true), replyTime := Some(now))))
  }

  /** Engaging keeps who the lead is, appends exactly one message of ours
      carrying the reply, makes the reply the last message and marks the
      reply as sent, keeping the rest of the metadata. */
  lemma EngagedLead(l: Lead, reply: string, now: int)
    ensures var e := MergeLead(l, EngagePatch(l, reply, now));
      && e.(status := l.status, lastMessage := l.lastMessage, conversations := l.conversations,
            metadata := l.metadata) == l
      && e.status == Engaged && e.lastMessage == Some(reply)
      && |e.conversations| == |l.conversations| + 1
      && e.conversations[..|l.conversations|] == l.conversations
      && e.conversations[|l.conversations|] == Message(AiRole, reply, now)
      && e.metadata.(replySent := l.metadata.replySent, replyTime := l.metadata.replyTime) == l.metadata
      && e.metadata.replySent == Some(true)
  {
    var e := MergeLead(l, EngagePatch(l, reply, now));
    assert e.conversations == l.conversations + [Message(AiRole, reply, now)];
  }

  /** Looking a lead up among the project's leads finds the stored lead
      with that id exactly when it belongs to the project. */
  lemma FindInProject(leads: seq<Lead>, projectId: Id, id: Id)
    requires DistinctLeadIds(leads)
    ensures var i := FindIndex(leads, LeadWithId(id));
      Find(Filter(leads, LeadsOf(projectId)), LeadWithId(id))
        == if 0 <= i && leads[i].projectId == projectId then Some(leads[i]) else None
  {
    var i := FindIndex(leads, LeadWithId(id));
    var mine := Filter(leads, LeadsOf(projectId));
    var found := Find(mine, LeadWithId(id));
    if found.Some? {
      LeadAt(leads, found.value);
    } else if 0 <= i && leads[i].projectId == projectId {
      FilterKeeps(leads, LeadsOf(projectId), leads[i]);
      assert false;
    }
  }

  /** Whether the request engages the lead: a reply was asked for in a
      project that exists and the lead belongs to it. */
  predicate Engaging(projects: seq<Project>, l: Lead, sendReply: bool, projectId: Option<Id>) {
    sendReply && projectId.Some? && l.projectId == projectId.value
    && exists k :: 0 <= k < |projects| && projects[k].id == projectId.value
  }

  /** The engagement of a lead: the reply is posted first when the lead has
      a source post, and a failure there stops the engagement; a lead
      without one is engaged with no platform request. */
  function EngageOutcome(accounts: seq<SocialAccount>, l: Lead, project: Project, projectId: Id,
                         now: int, env: Env): (r: Attempt<LeadPatch>)
    ensures !Present(l.metadata.sourceId) ==>
      r == Attempt(Success(EngagePatch(l, RouteReply(l, project, env.ai), now)), DraftCalls(l))
    ensures Present(l.metadata.sourceId) ==>
      var a := PostReply(accounts, projectId, l.platform, l.metadata.sourceId.value,
                         RouteReply(l, project, env.ai), env.net);
      && r.calls == DraftCalls(l) + a.calls
      && (r.result.Success? <==> a.result.Success?)
      && (a.result.Failure? ==> r.result == Failure("Failed to post reply: " + a.result.error))
      && (a.result.Success? ==> r.result == Success(EngagePatch(l, RouteReply(l, project, env.ai), now)))
  {
    var reply := RouteReply(l, project, env.ai);
    if Present(l.metadata.sourceId) then
      var a := PostReply(accounts, projectId, l.platform, l.metadata.sourceId.value, reply, env.net);
      match a.result
      case Failure(e) => Attempt(Failure("Failed to post reply: " + e), DraftCalls(l) + a.calls)
      case Success(_) => Attempt(Success(EngagePatch(l, reply, now)), DraftCalls(l) + a.calls)
    else
      Attempt(Success(EngagePatch(l, reply, now)), DraftCalls(l))
  }

  /** The update the route applies to an existing lead, with the requests
      it makes: the body's status alone unless the lead is engaged. */
  function PatchOutcome(projects: seq<Project>, accounts: seq<SocialAccount>, l: Lead, status: Option<LeadStatus>,
                        sendReply: bool, projectId: Option<Id>, now: int, env: Env): Attempt<LeadPatch>
  {
    if !Engaging(projects, l, sendReply, projectId) then
      Attempt(Success(LeadPatch(status, None, None, None)), [])
    else
      var k :| 0 <= k < |projects| && projects[k].id == projectId.value;
      assert ProjectWithId(projectId.value)(projects[k]);
      EngageOutcome(accounts, l, projects[FindIndex(projects, ProjectWithId(projectId.value))],
                    projectId.value, now, env)
  }

  /** Builds the update for the request: the body's status, replaced by
      the engagement when a reply is asked for in an existing project and
      the lead is one of its leads. */
  method BuildUpdates(db: Store, leadId: Id, status: Option<LeadStatus>, sendReply: bool,
                      projectId: Option<Id>, now: int, env: Env)
    returns (outcome: Attempt<LeadPatch>)
    requires db.Valid()
    ensures var i := FindIndex(db.leads, LeadWithId(leadId));
      && (i < 0 ==> outcome == Attempt(Success(LeadPatch(status, None, None, None)), []))
      && (0 <= i ==> outcome == PatchOutcome(db.projects, db.accounts, db.leads[i], status, sendReply, projectId, now, env))
  {
    outcome := Attempt(Success(LeadPatch(status, None, None, None)), []);
    if sendReply && projectId.Some? {
      var project := db.GetProject(projectId.value);
      var lead := Find(db.GetLeads(projectId.value), LeadWithId(leadId));
      FindInProject(db.leads, projectId.value, leadId);
      if project.Some? && lead.Some? {
        var l := lead.value;
        assert Engaging(db.projects, l, sendReply, projectId);
        assert project.value == db.projects[FindIndex(db.projects, ProjectWithId(projectId.value))];
        outcome := EngageOutcome(db.accounts, l, project.value, projectId.value, now, env);
      }
    }
  }

  /** A failed reply is the only way an existing lead is left as it was:
      otherwise the route answers 200 with the merged lead. */
  method PatchLead(db: Store, leadId: Option<Id>, status: Option<LeadStatus>, sendReply: bool,
                   projectId: Option<Id>, now: int, env: Env)
    returns (resp: Response<Lead>, calls: seq<Call>)
    requires db.Valid()
    modifies db`leads
    ensures db.Valid()
    ensures leadId.None? ==> resp == Error(400, "leadId required") && calls == [] && db.leads == old(db.leads)
    ensures leadId.Some? && FindIndex(old(db.leads), LeadWithId(leadId.value)) < 0 ==>
      resp == Error(404, "Lead not found") && calls == [] && db.leads == old(db.leads)
    ensures leadId.Some? && 0 <= FindIndex(old(db.leads), LeadWithId(leadId.value)) ==>
      var i := FindIndex(old(db.leads), LeadWithId(leadId.value));
      var outcome := PatchOutcome(old(db.projects), old(db.accounts), old(db.leads)[i], status,
                                  sendReply, projectId, now, env);
      && calls == outcome.calls
      && (outcome.result.Failure? ==> resp == Error(500, outcome.result.error) && db.leads == old(db.leads))
      && (outcome.result.Success? ==>
            && resp == Ok(200, MergeLead(old(db.leads)[i], outcome.result.value))
            && db.leads == old(db.leads)[i := resp.body.value])
  {
    if leadId.None? {
      return Error(400, "leadId required"), [];
    }
    var outcome := BuildUpdates(db, leadId.value, status, sendReply, projectId, now, env);
    calls := outcome.calls;
    if outcome.result.Failure? {
      return Error(500, outcome.result.error), calls;
    }
    var updated := db.UpdateLead(leadId.value, outcome.result.value);
    if updated.None? {
      return Error(404, "Lead not found"), calls;
    }
    resp := Ok(200, updated.value);
  }
}
