/** One autonomous cycle for a project: top up the drafts, draw the missing
    images, publish one ready item, discover leads, reply to one lead and
    stamp the project's last run. A failing step is recorded and the cycle
    goes on; only a missing project stops it. */
module Agent {
  import opened Wrappers
  import opened Seqs
  import opened Text
  import opened Records
  import opened External
  import opened Db
  import opened Poster
  import opened Audience

  /** The entries of the cycle's `errors` list, one constructor per prefix
      ("Content Gen", "Image Gen (<id>)", "Post (<id>)", "Discovery",
      "Engage (<id>)", "Critical"). */
  datatype CycleError =
    | ContentGenError(message: string)
    | ImageGenError(contentId: Id, message: string)
    | PostError(contentId: Id, message: string)
    | DiscoveryError(message: string)
    | EngageError(leadId: Id, message: string)
    | CriticalError(message: string)

  datatype AgentRunResult = AgentRunResult(
    projectId: Id,
    contentGenerated: nat,
    imagesGenerated: nat,
    postsPublished: nat,
    leadsDiscovered: nat,
    leadsEngaged: nat,
    errors: seq<CycleError>)

  /** Below this many pending items the cycle asks for new content. */
  const MinDrafts := 3

  function PendingItem(): ContentItem -> bool { (c: ContentItem) => Pending(c) }
  function Caption(): ContentItem -> string { (c: ContentItem) => c.caption }

  /** A generated post saved as a draft of the project. */
  function DraftOf(projectId: Id, post: GeneratedPost): NewContent {
    NewContent(projectId, post.kind, post.caption, post.hashtags.GetOr([]), post.platform,
               post.imagePrompt, None, Draft)
  }

  function DraftsOf(projectId: Id, posts: seq<GeneratedPost>): (r: seq<NewContent>)
    ensures |r| == |posts|
    ensures forall k :: 0 <= k < |r| ==> r[k] == DraftOf(projectId, posts[k])
  {
    seq(|posts|, k requires 0 <= k < |posts| => DraftOf(projectId, posts[k]))
  }

  /** The stored drafts for the generated posts, under consecutive ids from
      `base`. */
  function SavedDrafts(projectId: Id, posts: seq<GeneratedPost>, base: nat, now: int): (r: seq<ContentItem>)
    ensures |r| == |posts|
    ensures forall k :: 0 <= k < |r| ==> r[k].projectId == projectId && r[k].status == Draft
  {
    seq(|posts|, k requires 0 <= k < |posts| => NewContentItem(DraftOf(projectId, posts[k]), base + k, now))
  }

  /** Appending items of the project that are all pending adds exactly
      them to the project's pending items. */
  lemma AddedDraftsArePending(content: seq<ContentItem>, added: seq<ContentItem>, projectId: Id)
    requires forall k :: 0 <= k < |added| ==> added[k].projectId == projectId && added[k].status == Draft
    ensures Filter(Filter(content + added, ContentOf(projectId)), PendingItem())
         == Filter(Filter(content, ContentOf(projectId)), PendingItem()) + added
  {
    FilterAppend(content, added, ContentOf(projectId));
    FilterAll(added, ContentOf(projectId));
    FilterAppend(Filter(content, ContentOf(projectId)), added, PendingItem());
    FilterAll(added, PendingItem());
  }

  /** Saves the generated posts as drafts of the project. */
  method SaveDrafts(db: Store, projectId: Id, posts: seq<GeneratedPost>, now: int)
    requires db.Valid()
    modifies db`content, db`nextId
    ensures db.Valid()
    ensures db.content == old(db.content) + SavedDrafts(projectId, posts, old(db.nextId), now)
    ensures |Filter(db.GetContent(projectId), PendingItem())|
         == |Filter(old(db.GetContent(projectId)), PendingItem())| + |posts|
  {
    var added := db.AddContent(DraftsOf(projectId, posts), now);
    assert added == SavedDrafts(projectId, posts, old(db.nextId), now);
    AddedDraftsArePending(old(db.content), added, projectId);
  }

  /** Step 1: with fewer than three pending items, asks for new posts
      (avoiding the existing captions) and saves them all as drafts; the
      project then has as many more pending items as posts were saved. */
  method GenerateContentStep(db: Store, project: Project, now: int, ai: Ai)
    returns (generated: nat, errors: seq<CycleError>, calls: seq<Call>)
    requires db.Valid()
    modifies db`content, db`nextId
    ensures db.Valid()
    ensures |Filter(db.GetContent(project.id), PendingItem())|
         == |Filter(old(db.GetContent(project.id)), PendingItem())| + generated
    ensures var existing := old(db.GetContent(project.id));
      var answer := ai.generateContent(project.name, project.vision, project.githubUrl,
                                       Map(existing, Caption()), project.targetLanguages);
      if |Filter(existing, PendingItem())| >= MinDrafts then
        generated == 0 && errors == [] && calls == [] && db.content == old(db.content)
      else if answer.Failure? then
        generated == 0 && errors == [ContentGenError(answer.error)] && calls == [GenerateContent(project.name)]
        && db.content == old(db.content)
      else
        generated == |answer.value| && errors == [] && calls == [GenerateContent(project.name)]
        && db.content == old(db.content) + SavedDrafts(project.id, answer.value, old(db.nextId), now)
  {
    var existing := db.GetContent(project.id);
    if |Filter(existing, PendingItem())| >= MinDrafts {
      return 0, [], [];
    }
    calls := [GenerateContent(project.name)];
    var answer := ai.generateContent(project.name, project.vision, project.githubUrl,
                                     Map(existing, Caption()), project.targetLanguages);
    if answer.Failure? {
      return 0, [ContentGenError(answer.error)], calls;
    }
    SaveDrafts(db, project.id, answer.value, now);
    generated, errors := |answer.value|, [];
  }

  // ----- step 2: images -----

  /** A pending item of any project that has no image yet. */
  function Unimaged(): ContentItem -> bool {
    (c: ContentItem) => Pending(c) && !Present(c.imageUrl)
  }

  /** The image prompt, falling back to the caption. */
  function ImagePrompt(c: ContentItem): string {
    OrElse(c.imagePrompt, c.caption)
  }

  function ImageAnswer(c: ContentItem, logo: string, ai: Ai): Result<string, string> {
    ai.generateImage(ImagePrompt(c), c.id, logo, c.kind)
  }

  function ImageDrawn(logo: string, ai: Ai): ContentItem -> bool {
    (c: ContentItem) => ImageAnswer(c, logo, ai).Success?
  }

  function ImageCall(): ContentItem -> Call {
    (c: ContentItem) => GenerateImage(ImagePrompt(c), c.id)
  }

  function ImageFailure(logo: string, ai: Ai): ContentItem -> CycleError {
    (c: ContentItem) =>
      ImageGenError(c.id, match ImageAnswer(c, logo, ai) case Failure(e) => e case Success(_) => "")
  }

  /** What the image step makes of one stored item: an unimaged pending
      item of the project gets the image drawn for it, when one is drawn;
      every other item stays as it was. */
  function Imaged(c: ContentItem, projectId: Id, logo: string, ai: Ai): (d: ContentItem)
    ensures d.id == c.id && d.projectId == c.projectId && d.status == c.status
    ensures c.projectId == projectId && Unimaged()(c) && ImageAnswer(c, logo, ai).Success? ==>
      d == c.(imageUrl := Some(ImageAnswer(c, logo, ai).value))
    ensures !(c.projectId == projectId && Unimaged()(c) && ImageAnswer(c, logo, ai).Success?) ==> d == c
  {
    if c.projectId == projectId && Unimaged()(c) && ImageAnswer(c, logo, ai).Success?
    then c.(imageUrl := Some(ImageAnswer(c, logo, ai).value))
    else c
  }

  /** The content as the image step leaves it after the items whose ids are
      in `done` have been handled. */
  predicate ImagedSoFar(content: seq<ContentItem>, c0: seq<ContentItem>, done: set<Id>,
                        projectId: Id, logo: string, ai: Ai) {
    && |content| == |c0|
    && forall j :: 0 <= j < |c0| ==>
         content[j] == if c0[j].id in done then Imaged(c0[j], projectId, logo, ai) else c0[j]
  }

  /** The store finds an unhandled-or-handled item of the snapshot at its
      one position, since ids are distinct. */
  lemma ImagedIndex(content: seq<ContentItem>, c0: seq<ContentItem>, done: set<Id>,
                    projectId: Id, logo: string, ai: Ai, j0: nat)
    requires DistinctContentIds(c0) && j0 < |c0|
    requires ImagedSoFar(content, c0, done, projectId, logo, ai)
    ensures FindIndex(content, ContentWithId(c0[j0].id)) == j0
  {
    assert ContentWithId(c0[j0].id)(content[j0]);
  }

  /** Handling one more item of the snapshot keeps `ImagedSoFar`: the image,
      when one is drawn, lands at the item's position. */
  lemma ImagedStep(content: seq<ContentItem>, after: seq<ContentItem>, c0: seq<ContentItem>, done: set<Id>,
                   projectId: Id, logo: string, ai: Ai, j0: nat)
    requires DistinctContentIds(c0) && j0 < |c0|
    requires c0[j0].projectId == projectId && Unimaged()(c0[j0])
    requires ImagedSoFar(content, c0, done, projectId, logo, ai)
    requires ImageAnswer(c0[j0], logo, ai).Success? ==>
      after == content[j0 := content[j0].(imageUrl := Some(ImageAnswer(c0[j0], logo, ai).value))]
    requires ImageAnswer(c0[j0], logo, ai).Failure? ==> after == content
    ensures ImagedSoFar(after, c0, done + {c0[j0].id}, projectId, logo, ai)
  {
  }

  /** The ids handled so far grow by the next item's. */
  lemma HandledGrows(toImage: seq<ContentItem>, i: nat, done: set<Id>)
    requires i < |toImage|
    requires forall k :: 0 <= k < i ==> toImage[k].id in done
    ensures forall k :: 0 <= k < i + 1 ==> toImage[k].id in done + {toImage[i].id}
  {
  }

  /** Where an item that needs an image sits among the items to image. */
  lemma TargetAt(c0: seq<ContentItem>, toImage: seq<ContentItem>, projectId: Id, j: nat) returns (k: nat)
    requires toImage == Filter(Filter(c0, ContentOf(projectId)), Unimaged())
    requires j < |c0| && c0[j].projectId == projectId && Unimaged()(c0[j])
    ensures k < |toImage| && toImage[k] == c0[j]
  {
    var k1 := FilterKeepsAt(c0, ContentOf(projectId), j);
    k := FilterKeepsAt(Filter(c0, ContentOf(projectId)), Unimaged(), k1);
  }

  /** Every target of the snapshot handled means every item of the
      project that needed an image was handled. */
  lemma TargetsHandled(c0: seq<ContentItem>, done: set<Id>, toImage: seq<ContentItem>, projectId: Id)
    requires toImage == Filter(Filter(c0, ContentOf(projectId)), Unimaged())
    requires forall k :: 0 <= k < |toImage| ==> toImage[k].id in done
    ensures forall j :: 0 <= j < |c0| && c0[j].projectId == projectId && Unimaged()(c0[j]) ==> c0[j].id in done
  {
    forall j | 0 <= j < |c0| && c0[j].projectId == projectId && Unimaged()(c0[j])
      ensures c0[j].id in done
    {
      var k := TargetAt(c0, toImage, projectId, j);
    }
  }

  /** Once every item that needed an image is handled, every stored item
      is as `Imaged` says. */
  lemma ImagedAll(content: seq<ContentItem>, c0: seq<ContentItem>, done: set<Id>,
                  projectId: Id, logo: string, ai: Ai)
    requires ImagedSoFar(content, c0, done, projectId, logo, ai)
    requires forall j :: 0 <= j < |c0| && c0[j].projectId == projectId && Unimaged()(c0[j]) ==> c0[j].id in done
    ensures |content| == |c0|
    ensures forall j :: 0 <= j < |c0| ==> content[j] == Imaged(c0[j], projectId, logo, ai)
  {
  }

  /** One turn of the image loop: draws the item's image and, when one is
      drawn, stores it on the item. */
  method DrawImage(db: Store, item: ContentItem, ghost c0: seq<ContentItem>, ghost done: set<Id>,
                   projectId: Id, logo: string, ai: Ai)
    returns (answer: Result<string, string>)
    requires db.Valid() && DistinctContentIds(c0)
    requires item in c0 && item.projectId == projectId && Unimaged()(item)
    requires ImagedSoFar(db.content, c0, done, projectId, logo, ai)
    modifies db`content
    ensures db.Valid()
    ensures answer == ImageAnswer(item, logo, ai)
    ensures ImagedSoFar(db.content, c0, done + {item.id}, projectId, logo, ai)
  {
    answer := ai.generateImage(ImagePrompt(item), item.id, logo, item.kind);
    ghost var j0 :| 0 <= j0 < |c0| && c0[j0] == item;
    ghost var before := db.content;
    if answer.Success? {
      ImagedIndex(db.content, c0, done, projectId, logo, ai, j0);
      var _ := db.UpdateContentImage(item.id, answer.value);
    }
    ImagedStep(before, db.content, c0, done, projectId, logo, ai, j0);
  }

  /** The image loop's report after `i` items: one request per item, the
      drawn ones counted and the failed ones listed. */
  predicate Tallied(toImage: seq<ContentItem>, i: nat, drawn: nat, errors: seq<CycleError>, calls: seq<Call>,
                    logo: string, ai: Ai)
    requires i <= |toImage|
  {
    && calls == Map(toImage[..i], ImageCall())
    && drawn == |Filter(toImage[..i], ImageDrawn(logo, ai))|
    && errors == Map(Filter(toImage[..i], Not(ImageDrawn(logo, ai))), ImageFailure(logo, ai))
  }

  /** The image step's report on the snapshot `toImage`: one request per
      item in order, the drawn images counted, one error per failure in
      order, and so every item either counted or listed. */
  predicate ImageReport(toImage: seq<ContentItem>, drawn: nat, errors: seq<CycleError>, calls: seq<Call>,
                        logo: string, ai: Ai)
  {
    && calls == Map(toImage, ImageCall())
    && drawn == |Filter(toImage, ImageDrawn(logo, ai))|
    && errors == Map(Filter(toImage, Not(ImageDrawn(logo, ai))), ImageFailure(logo, ai))
    && drawn + |errors| == |toImage|
  }

  /** The loop's tally over the whole snapshot is the report. */
  lemma TalliedReport(toImage: seq<ContentItem>, drawn: nat, errors: seq<CycleError>, calls: seq<Call>,
                      logo: string, ai: Ai)
    requires Tallied(toImage, |toImage|, drawn, errors, calls, logo, ai)
    ensures ImageReport(toImage, drawn, errors, calls, logo, ai)
  {
    assert toImage[..|toImage|] == toImage;
    FilterPartition(toImage, ImageDrawn(logo, ai));
  }

  /** The image loop's state after `i` items of the snapshot `toImage` of
      the stored content `c0`: the items handled have their ids in `done`,
      the store holds what `ImagedSoFar` says, and the report is tallied. */
  ghost predicate ImageLoop(content: seq<ContentItem>, c0: seq<ContentItem>, done: set<Id>,
                            toImage: seq<ContentItem>, i: nat, drawn: nat, errors: seq<CycleError>,
                            calls: seq<Call>, projectId: Id, logo: string, ai: Ai)
  {
    && i <= |toImage|
    && toImage == Filter(Filter(c0, ContentOf(projectId)), Unimaged())
    && DistinctContentIds(c0)
    && ImagedSoFar(content, c0, done, projectId, logo, ai)
    && (forall k :: 0 <= k < i ==> toImage[k].id in done)
    && Tallied(toImage, i, drawn, errors, calls, logo, ai)
  }

  /** The body of the image loop, for item `i` of the snapshot `toImage`. */
  method ImageTurn(db: Store, toImage: seq<ContentItem>, i: nat, ghost c0: seq<ContentItem>, ghost done: set<Id>,
                   project: Project, ai: Ai, drawn: nat, errors: seq<CycleError>, calls: seq<Call>)
    returns (drawn': nat, errors': seq<CycleError>, calls': seq<Call>, ghost done': set<Id>)
    requires i < |toImage| && db.Valid()
    requires ImageLoop(db.content, c0, done, toImage, i, drawn, errors, calls, project.id, project.logo, ai)
    modifies db`content
    ensures db.Valid()
    ensures ImageLoop(db.content, c0, done', toImage, i + 1, drawn', errors', calls', project.id, project.logo, ai)
  {
    var item := toImage[i];
    TallyStep(toImage, i, ImageDrawn(project.logo, ai), ImageCall(), ImageFailure(project.logo, ai));
    assert item in Filter(c0, ContentOf(project.id));
    calls' := calls + [GenerateImage(ImagePrompt(item), item.id)];
    var answer := DrawImage(db, item, c0, done, project.id, project.logo, ai);
    if answer.Success? {
      drawn', errors' := drawn + 1, errors;
    } else {
      drawn', errors' := drawn, errors + [ImageGenError(item.id, answer.error)];
    }
    HandledGrows(toImage, i, done);
    done' := done + {item.id};
  }

  /** Step 2: draws an image for every unimaged pending item of the
      project, in order; each failure is recorded and the loop goes on. */
  method GenerateImagesStep(db: Store, project: Project, ai: Ai)
    returns (drawn: nat, errors: seq<CycleError>, calls: seq<Call>)
    requires db.Valid()
    modifies db`content
    ensures db.Valid()
    ensures ImageReport(Filter(old(db.GetContent(project.id)), Unimaged()), drawn, errors, calls, project.logo, ai)
    ensures |db.content| == |old(db.content)|
    ensures forall j :: 0 <= j < |db.content| ==>
      db.content[j] == Imaged(old(db.content)[j], project.id, project.logo, ai)
  {
    ghost var c0 := db.content;
    var toImage := Filter(db.GetContent(project.id), Unimaged());
    drawn, errors, calls := 0, [], [];
    ghost var done: set<Id> := {};
    var i := 0;
    while i < |toImage|
      invariant db.Valid()
      invariant ImageLoop(db.content, c0, done, toImage, i, drawn, errors, calls, project.id, project.logo, ai)
    {
      drawn, errors, calls, done := ImageTurn(db, toImage, i, c0, done, project, ai, drawn, errors, calls);
      i := i + 1;
    }
    TalliedReport(toImage, drawn, errors, calls, project.logo, ai);
    TargetsHandled(c0, done, toImage, project.id);
    ImagedAll(db.content, c0, done, project.id, project.logo, ai);
  }

  // ----- step 3: publish -----

  /** A draft with an image, ready to go out. */
  function ReadyToPost(): ContentItem -> bool {
    (c: ContentItem) => c.status == Draft && Present(c.imageUrl)
  }

  /** `postContent` with only what step 3 uses: its answer and requests,
      the two failures that need no request, and success only on a platform
      it publishes to. */
  method PostItem(db: Store, projectId: Id, item: ContentItem, platform: string, now: int, env: Env)
    returns (result: Result<string, string>, calls: seq<Call>)
    requires db.Valid()
    modifies db`accounts
    ensures db.Valid() && SameRoutes(old(db.accounts), db.accounts)
    ensures LookupSocial(old(db.accounts), projectId, platform).None? ==>
      result == Failure("No connected " + platform + " account") && calls == []
    ensures LookupSocial(old(db.accounts), projectId, platform).Some? && !Publishable(platform) ==>
      result == Failure("Unsupported platform: " + platform) && calls == []
    ensures result.Success? ==> Publishable(platform)
    ensures Attempt(result, calls) == PostOutcome(old(db.accounts), projectId, item, platform, now, env)
  {
    var r;
    r, calls := PostContent(db, projectId, item, platform, now, env);
    result := r.result;
  }

  /** Step 3: publishes the first ready item of the project through the
      account for its lower-cased platform and marks it posted. */
  method PublishStep(db: Store, projectId: Id, now: int, env: Env)
    returns (published: nat, errors: seq<CycleError>, calls: seq<Call>)
    requires db.Valid()
    modifies db`content, db`accounts
    ensures db.Valid()
    ensures SameRoutes(old(db.accounts), db.accounts)
    ensures published <= 1 && published + |errors| <= 1
    ensures Filter(old(db.GetContent(projectId)), ReadyToPost()) == [] ==>
      published == 0 && errors == [] && calls == [] &&
      db.content == old(db.content) && db.accounts == old(db.accounts)
    ensures published == 0 ==> db.content == old(db.content)
    ensures Filter(old(db.GetContent(projectId)), ReadyToPost()) != [] ==>
      var item := Filter(old(db.GetContent(projectId)), ReadyToPost())[0];
      var platform := ToLower(item.platform);
      && published + |errors| == 1
      && (errors != [] ==> errors[0].PostError? && errors[0].contentId == item.id)
      && (LookupSocial(old(db.accounts), projectId, platform).None? ==>
            errors == [PostError(item.id, "No connected " + platform + " account")] && calls == [])
      && (LookupSocial(old(db.accounts), projectId, platform).Some? && !Publishable(platform) ==>
            errors == [PostError(item.id, "Unsupported platform: " + platform)] && calls == [])
      && (published == 1 ==>
            var i := FindIndex(old(db.content), ContentWithId(item.id));
            && Publishable(platform)
            && 0 <= i && old(db.content)[i] == item && |db.content| == |old(db.content)|)
    ensures Filter(old(db.GetContent(projectId)), ReadyToPost()) != [] ==>
      var item := Filter(old(db.GetContent(projectId)), ReadyToPost())[0];
      var o := PostOutcome(old(db.accounts), projectId, item, ToLower(item.platform), now, env);
      var i := FindIndex(old(db.content), ContentWithId(item.id));
      && calls == o.calls
      && (published == 1 <==> o.result.Success?)
      && (o.result.Failure? ==> errors == [PostError(item.id, o.result.error)])
      && (o.result.Success? ==>
            db.content == old(db.content)[i := item.(status := Posted,
              postUrl := if Present(Some(o.result.value)) then Some(o.result.value) else item.postUrl)])
  {
    var ready := Filter(db.GetContent(projectId), ReadyToPost());
    if ready == [] {
      return 0, [], [];
    }
    var item := ready[0];
    assert item in db.GetContent(projectId);
    ContentAt(db.content, item);
    var result;
    result, calls := PostItem(db, projectId, item, ToLower(item.platform), now, env);
    if result.Success? {
      var _ := db.UpdateContentStatus(item.id, Posted, Some(result.value));
      published, errors := 1, [];
    } else {
      published, errors := 0, [PostError(item.id, result.error)];
    }
  }

  // ----- step 5: engage -----

  /** A lead the agent may reply to: discovered and not simulated. */
  function Engageable(): Lead -> bool {
    (l: Lead) => l.status == Discovered && l.metadata.isSimulated != Some(true)
  }

  /** The post to reply under: the source id, else the tweet id. */
  function ReplySource(l: Lead): Option<string> {
    if Present(l.metadata.sourceId) then l.metadata.sourceId else l.metadata.tweetId
  }

  /** The agent only replies where it has a post to reply under and the
      lead is on Twitter (written "twitter" or "x"). */
  predicate ReplyChannel(l: Lead) {
    Present(ReplySource(l)) && (ToLower(l.platform) == "twitter" || ToLower(l.platform) == "x")
  }

  /** The reply: the one drafted at discovery, else a freshly drafted one. */
  function ReplyText(l: Lead, project: Project, ai: Ai): string {
    if Present(l.lastMessage) then l.lastMessage.value
    else ai.draftReply(project.name, project.vision, l.name, l.painPoint, [])
  }

  /** The answer of the reply route for the lead. */
  function SendReply(accounts: seq<SocialAccount>, project: Project, l: Lead, reply: string, net: Net): Attempt<()>
    requires Present(ReplySource(l))
  {
    PostReply(accounts, project.id, l.platform, ReplySource(l).value, reply, net)
  }

  /** Step 5: replies to the first engageable lead of the project when it
      has a Twitter post to reply under, and marks it engaged. */
  method EngageStep(db: Store, project: Project, env: Env)
    returns (engaged: nat, errors: seq<CycleError>, calls: seq<Call>)
    requires db.Valid()
    modifies db`leads
    ensures db.Valid()
    ensures engaged <= 1 && engaged + |errors| <= 1
    ensures engaged == 0 ==> db.leads == old(db.leads)
    ensures var candidates := Filter(old(db.GetLeads(project.id)), Engageable());
      candidates == [] || !ReplyChannel(candidates[0]) ==> engaged == 0 && errors == [] && calls == []
    ensures var candidates := Filter(old(db.GetLeads(project.id)), Engageable());
      candidates != [] && ReplyChannel(candidates[0]) ==>
        var lead := candidates[0];
        var reply := ReplyText(lead, project, env.ai);
        var answer := SendReply(db.accounts, project, lead, reply, env.net);
        && calls == (if Present(lead.lastMessage) then [] else [DraftReply(lead.name, lead.painPoint)])
                    + (if reply == "" then [] else answer.calls)
        && (engaged == 1 <==> reply != "" && answer.result.Success?)
        && (errors != [] <==> reply != "" && answer.result.Failure?)
        && (errors != [] ==> errors == [EngageError(lead.id, answer.result.error)])
    ensures engaged == 1 ==>
      var lead := Filter(old(db.GetLeads(project.id)), Engageable())[0];
      var i := FindIndex(old(db.leads), LeadWithId(lead.id));
      && ToLower(lead.platform) == "twitter"
      && 0 <= i && old(db.leads)[i] == lead
      && db.leads == old(db.leads)[i := MergeLead(lead, LeadPatch(Some(Engaged), Some(ReplyText(lead, project, env.ai)), None, None))]
  {
    var candidates := Filter(db.GetLeads(project.id), Engageable());
    engaged, errors, calls := 0, [], [];
    if candidates == [] {
      return;
    }
    var lead := candidates[0];
    var source := ReplySource(lead);
    if !(Present(source) && (ToLower(lead.platform) == "twitter" || ToLower(lead.platform) == "x")) {
      return;
    }
    var reply := lead.lastMessage.GetOr("");
    if !Present(lead.lastMessage) {
      calls := [DraftReply(lead.name, lead.painPoint)];
      reply := env.ai.draftReply(project.name, project.vision, lead.name, lead.painPoint, []);
    }
    if reply != "" {
      var answer := PostReply(db.accounts, project.id, lead.platform, source.value, reply, env.net);
      calls := calls + answer.calls;
      if answer.result.Success? {
        assert lead in db.GetLeads(project.id);
        LeadAt(db.leads, lead);
        var _ := db.UpdateLead(lead.id, LeadPatch(Some(Engaged), Some(reply), None, None));
        engaged := 1;
      } else {
        errors := [EngageError(lead.id, answer.result.error)];
      }
    }
  }

  // ----- the cycle -----

  /** The patch that stamps a project's last run. */
  function LastRunPatch(now: int): ProjectPatch {
    ProjectPatch(None, None, None, Some(now))
  }

  /** No error of the cycle's own catch-all: every step reports its
      failures with its own tag. */
  predicate NoCritical(errors: seq<CycleError>) {
    forall k :: 0 <= k < |errors| ==> !errors[k].CriticalError?
  }

  lemma NoCriticalJoin(a: seq<CycleError>, b: seq<CycleError>)
    requires NoCritical(a) && NoCritical(b)
    ensures NoCritical(a + b)
  {
  }

  /** Steps 1 and 2, which write the project's content. */
  method CreatePhase(db: Store, p: Project, now: int, ai: Ai)
    returns (generated: nat, drawn: nat, errors: seq<CycleError>, calls: seq<Call>)
    requires db.Valid()
    modifies db`content, db`nextId
    ensures db.Valid()
    ensures NoCritical(errors)
  {
    var errors1, errors2, calls1, calls2;
    generated, errors1, calls1 := GenerateContentStep(db, p, now, ai);
    assert NoCritical(errors1);
    drawn, errors2, calls2 := GenerateImagesStep(db, p, ai);
    assert NoCritical(errors2);
    NoCriticalJoin(errors1, errors2);
    errors := errors1 + errors2;
    calls := calls1 + calls2;
  }

  /** Step 3 with only what the cycle reports of it. */
  method PublishPhase(db: Store, p: Project, now: int, env: Env)
    returns (published: nat, errors: seq<CycleError>, calls: seq<Call>)
    requires db.Valid()
    modifies db`content, db`accounts
    ensures db.Valid()
    ensures SameRoutes(old(db.accounts), db.accounts)
    ensures published <= 1
    ensures NoCritical(errors)
  {
    published, errors, calls := PublishStep(db, p.id, now, env);
  }

  /** Step 4: discovery; a failure is reported as a discovery error. */
  method DiscoveryStep(db: Store, p: Project, now: int, env: Env)
    returns (found: nat, errors: seq<CycleError>, calls: seq<Call>)
    requires db.Valid()
    modifies db`leads, db`nextId
    ensures db.Valid()
    ensures |db.leads| == |old(db.leads)| + found
    ensures |errors| <= 1 && (errors != [] ==> found == 0)
    ensures forall k :: 0 <= k < |errors| ==> errors[k].DiscoveryError?
  {
    var discovered, c, _, _ := DiscoverAndSaveLeads(db, p.id, now, env);
    calls := c;
    errors := [];
    found := 0;
    if discovered.Success? {
      found := |discovered.value|;
    } else {
      errors := [DiscoveryError(discovered.error)];
    }
  }

  /** Steps 4 and 5, which work on the project's leads. */
  method AudiencePhase(db: Store, p: Project, now: int, env: Env)
    returns (found: nat, engaged: nat, errors: seq<CycleError>, calls: seq<Call>)
    requires db.Valid() && db.GetProject(p.id) == Some(p)
    modifies db`leads, db`nextId
    ensures db.Valid()
    ensures |db.leads| == |old(db.leads)| + found
    ensures engaged <= 1
    ensures NoCritical(errors)
  {
    var errors4, calls4;
    found, errors4, calls4 := DiscoveryStep(db, p, now, env);
    var errors5, calls5;
    engaged, errors5, calls5 := EngageStep(db, p, env);
    NoCriticalJoin(errors4, errors5);
    errors := errors4 + errors5;
    calls := calls4 + calls5;
  }

  /** `runAgentCycle`: the five steps in order, then the last-run stamp;
      for a missing project only the critical error is reported and nothing
      is touched. */
  method RunAgentCycle(db: Store, projectId: Id, now: int, env: Env)
    returns (result: AgentRunResult, calls: seq<Call>)
    requires db.Valid()
    modifies db
    ensures db.Valid()
    ensures result.projectId == projectId
    ensures old(db.GetProject(projectId)).None? ==>
      && result == AgentRunResult(projectId, 0, 0, 0, 0, 0, [CriticalError("Project not found")])
      && calls == []
      && db.projects == old(db.projects) && db.accounts == old(db.accounts)
      && db.content == old(db.content) && db.leads == old(db.leads) && db.nextId == old(db.nextId)
    ensures old(db.GetProject(projectId)).Some? ==>
      var i := FindIndex(old(db.projects), ProjectWithId(projectId));
      && 0 <= i
      && db.projects == old(db.projects)[i := old(db.projects)[i].(lastRun := Some(now))]
      && SameRoutes(old(db.accounts), db.accounts)
      && result.postsPublished <= 1 && result.leadsEngaged <= 1
      && NoCritical(result.errors)
      && |old(db.leads)| + result.leadsDiscovered == |db.leads|
  {
    var project := db.GetProject(projectId);
    if project.None? {
      return AgentRunResult(projectId, 0, 0, 0, 0, 0, [CriticalError("Project not found")]), [];
    }
    var p := project.value;
    var generated, drawn, errors1, calls1 := CreatePhase(db, p, now, env.ai);
    var published, errors2, calls2 := PublishPhase(db, p, now, env);
    var found, engaged, errors3, calls3 := AudiencePhase(db, p, now, env);
    var _ := db.UpdateProject(projectId, LastRunPatch(now));
    calls := calls1 + calls2 + calls3;
    NoCriticalJoin(errors1, errors2);
    NoCriticalJoin(errors1 + errors2, errors3);
    result := AgentRunResult(projectId, generated, drawn, published, found, engaged, errors1 + errors2 + errors3);
  }
}
