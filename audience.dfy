/** Turning what discovery found into saved leads: real people from the
    social platforms, each with a drafted reply, and AI-imagined personas
    marked as simulated. */
module Audience {
  import opened Wrappers
  import opened Seqs
  import opened Text
  import opened Records
  import opened External
  import opened Db
  import opened SocialData

  /** A vision word worth searching for: longer than four characters. */
  function LongWord(): string -> bool {
    (w: string) => |w| > 4
  }

  /** The search keywords: the AI's suggestions, or when there are none the
      project name followed by its first two long vision words. */
  function SearchKeywords(suggested: seq<string>, name: string, vision: string): (k: seq<string>)
    ensures |suggested| > 0 ==> k == suggested
    ensures |suggested| == 0 ==>
      && 1 <= |k| <= 3 && k[0] == name
      && forall i :: 1 <= i < |k| ==> |k[i]| > 4 && k[i] in Split(vision, ' ')
  {
    if |suggested| > 0 then suggested
    else [name] + Take(Filter(Split(vision, ' '), LongWord()), 2)
  }

  /** The fallback keeps the vision's word order. */
  lemma FallbackKeywordsInOrder(name: string, vision: string)
    ensures SearchKeywords([], name, vision)[1..] <= Filter(Split(vision, ' '), LongWord())
  {
  }

  /** A lead for a person found on a platform, with the reply drafted for
      them as its first message. */
  function RealLead(projectId: Id, l: SocialLead, reply: string, now: int): (n: NewLead)
    ensures n.projectId == projectId && n.status == Discovered && n.platform == l.platform && n.name == l.name
    ensures n.metadata.isSimulated == Some(false) && n.metadata.sourceId == l.sourceId
    ensures n.lastMessage == Some(reply)
    ensures |n.conversations| == 2 && n.conversations[1].message == reply
    ensures forall k :: 0 <= k < |n.conversations| ==> n.conversations[k].role == AiRole
  {
    NewLead(projectId, l.name, l.platform, l.profileUrl,
            "Detected via " + l.platform + " interaction: " + l.lastInteraction,
            Discovered, Some(reply),
            [Message(AiRole, "Found via " + l.platform + ". " + l.lastInteraction, now),
             Message(AiRole, reply, now)],
            LeadMetadata(l.sourceId, None, Some(false), None, None))
  }

  /** A lead for an imagined persona, never to be replied to through a
      platform. */
  function SimulatedLead(projectId: Id, l: AiLead, now: int): (n: NewLead)
    ensures n.projectId == projectId && n.status == Discovered
    ensures n.metadata.isSimulated == Some(true) && n.metadata.sourceId == None
    ensures n.lastMessage == Some(l.suggestedReply)
    ensures n.conversations == [Message(AiRole, l.suggestedReply, now)]
    ensures n.name == l.name && n.platform == l.platform && n.painPoint == l.painPoint
  {
    NewLead(projectId, l.name, l.platform, l.profileUrl, l.painPoint, Discovered,
            Some(l.suggestedReply), [Message(AiRole, l.suggestedReply, now)],
            LeadMetadata(None, None, Some(true), None, None))
  }

  /** The request drafting the reply to a platform lead. */
  function DraftRequest(lead: SocialLead): Call {
    DraftReply(lead.name, lead.lastInteraction)
  }

  /** The platform leads with the reply drafted for each, in order. */
  function DraftedLeads(projectId: Id, social: seq<SocialLead>, project: Project, ai: Ai, now: int): (r: seq<NewLead>)
    ensures |r| == |social|
    ensures forall k :: 0 <= k < |r| ==>
      r[k] == RealLead(projectId, social[k],
                       ai.draftReply(project.name, project.vision, social[k].name, social[k].lastInteraction, []), now)
    ensures forall k :: 0 <= k < |r| ==> r[k].status == Discovered && r[k].projectId == projectId
    ensures forall k :: 0 <= k < |r| ==> r[k].metadata.isSimulated == Some(false)
  {
    seq(|social|, k requires 0 <= k < |social| =>
      RealLead(projectId, social[k],
               ai.draftReply(project.name, project.vision, social[k].name, social[k].lastInteraction, []), now))
  }

  /** The AI personas as leads, in order. */
  function PersonaLeads(projectId: Id, personas: seq<AiLead>, now: int): (r: seq<NewLead>)
    ensures |r| == |personas|
    ensures forall k :: 0 <= k < |r| ==> r[k] == SimulatedLead(projectId, personas[k], now)
  {
    seq(|personas|, k requires 0 <= k < |personas| => SimulatedLead(projectId, personas[k], now))
  }

  /** What was saved: discovered leads of the project under consecutive
      ids from `base`, first the drafted platform leads `found` and then
      one simulated lead per persona. */
  predicate SavedLeads(saved: seq<Lead>, projectId: Id, found: seq<NewLead>, personas: seq<AiLead>, base: nat, now: int)
  {
    && |saved| == |found| + |personas|
    && forall k :: 0 <= k < |saved| ==>
         saved[k].status == Discovered && saved[k].projectId == projectId &&
         (k < |found| ==> saved[k] == NewLeadRecord(found[k], base + k, now) && saved[k].metadata.isSimulated == Some(false)) &&
         (k >= |found| ==> saved[k] == NewLeadRecord(SimulatedLead(projectId, personas[k - |found|], now), base + k, now))
  }

  /** Saving the drafted leads followed by the personas gives `SavedLeads`. */
  lemma SavedInOrder(found: seq<NewLead>, personas: seq<AiLead>, saved: seq<Lead>, projectId: Id, base: nat, now: int)
    requires forall k :: 0 <= k < |found| ==>
      found[k].status == Discovered && found[k].projectId == projectId && found[k].metadata.isSimulated == Some(false)
    requires |saved| == |found| + |personas|
    requires forall k :: 0 <= k < |saved| ==>
      saved[k] == NewLeadRecord((found + PersonaLeads(projectId, personas, now))[k], base + k, now)
    ensures SavedLeads(saved, projectId, found, personas, base, now)
  {
    var simulated := PersonaLeads(projectId, personas, now);
    forall k | 0 <= k < |saved|
      ensures saved[k].status == Discovered && saved[k].projectId == projectId
      ensures k < |found| ==> saved[k] == NewLeadRecord(found[k], base + k, now)
      ensures k < |found| ==> saved[k].metadata.isSimulated == Some(false)
      ensures k >= |found| ==>
        saved[k] == NewLeadRecord(SimulatedLead(projectId, personas[k - |found|], now), base + k, now)
    {
      if k < |found| {
        assert (found + simulated)[k] == found[k];
      } else {
        assert (found + simulated)[k] == simulated[k - |found|];
      }
    }
  }

  /** The keywords the social search uses for a project. */
  function ProjectKeywords(project: Project, ai: Ai): seq<string> {
    SearchKeywords(ai.suggestKeywords(project.name, project.vision), project.name, project.vision)
  }

  /** `discoverAndSaveLeads`: asks for the personas, searches the platforms
      with the suggested keywords and drafts a reply to every lead found,
      then saves the real leads followed by the simulated ones. A persona
      answer without leads fails only after the search and the drafts, and
      nothing is saved. `social` is what the search found and `instagram`
      its Instagram part. */
  method DiscoverAndSaveLeads(db: Store, projectId: Id, now: int, env: Env)
    returns (r: Result<seq<Lead>, string>, calls: seq<Call>, ghost social: Discovery, ghost instagram: Discovery)
    requires db.Valid()
    modifies db`leads, db`nextId
    ensures db.Valid()
    ensures old(db.GetProject(projectId)).None? ==>
      r == Failure("Project not found") && calls == [] && db.leads == old(db.leads)
    ensures r.Failure? ==> db.leads == old(db.leads) && db.nextId == old(db.nextId)
    ensures old(db.GetProject(projectId)).Some? ==>
      var project := old(db.GetProject(projectId)).value;
      var personas := env.ai.discoverAudience(project.name, project.vision);
      && SocialFound(old(db.accounts), projectId, ProjectKeywords(project, env.ai), env.net, social, instagram)
      && calls == [DiscoverAudience(project.name), SuggestKeywords(project.name)] + social.calls
                  + Map(social.leads, DraftRequest)
      && (personas.Failure? ==> r == Failure(personas.error))
      && (personas.Success? ==>
            && r.Success?
            && db.leads == old(db.leads) + r.value
            && SavedLeads(r.value, projectId, DraftedLeads(projectId, social.leads, project, env.ai, now),
                          personas.value.leads, old(db.nextId), now))
  {
    var project := db.GetProject(projectId);
    if project.None? {
      return Failure("Project not found"), [], Discovery([], []), Discovery([], []);
    }
    var p := project.value;
    var aiResult := env.ai.discoverAudience(p.name, p.vision);
    var keywords := ProjectKeywords(p, env.ai);
    var searched;
    searched, instagram := DiscoverSocialLeads(db.accounts, projectId, keywords, env.net);
    social := searched;
    calls := [DiscoverAudience(p.name), SuggestKeywords(p.name)] + searched.calls + Map(searched.leads, DraftRequest);
    var found := DraftedLeads(projectId, searched.leads, p, env.ai, now);
    if aiResult.Failure? {
      return Failure(aiResult.error), calls, social, instagram;
    }
    var saved := db.AddLeads(found + PersonaLeads(projectId, aiResult.value.leads, now), now);
    SavedInOrder(found, aiResult.value.leads, saved, projectId, old(db.nextId), now);
    r := Success(saved);
  }
}
