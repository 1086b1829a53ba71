/** `POST /api/content/post`: publishes one named item to a named platform,
    or else every unposted item of the project that has a connected
    account; an item is marked posted only when its post succeeded. */
module ContentPostRoute {
  import opened Wrappers
  import opened Seqs
  import opened Records
  import opened External
  import opened Db
  import opened Poster
  import opened Http

  /** The JSON body: the single post's result, or the auto-post summary. */
  datatype PostBody =
    | Single(result: PostResult)
    | Summary(total: nat, successful: nat, failed: nat, results: seq<PostResult>)

  function Succeeded(): PostResult -> bool {
    (r: PostResult) => r.result.Success?
  }

  /** What `updateContentStatus(id, 'posted', url)` makes of an item. */
  function MarkPosted(c: ContentItem, url: string): ContentItem {
    c.(status := Posted, postUrl := if url != "" then Some(url) else c.postUrl)
  }

  /** A stored item after the status updates for `results`, in order: each
      successful result naming it marks it posted. Only the status and the
      post URL can change; an item no successful result names is left
      alone, and one that some successful result names ends up posted. */
  function AfterPosts(c: ContentItem, results: seq<PostResult>): (d: ContentItem)
    ensures d.(status := c.status, postUrl := c.postUrl) == c
    ensures (forall k :: 0 <= k < |results| && results[k].contentId == c.id ==> results[k].result.Failure?) ==> d == c
    ensures (exists k :: 0 <= k < |results| && results[k].contentId == c.id && results[k].result.Success?) ==>
      d.status == Posted
    decreases |results|
  {
    if results == [] then c
    else
      var d := AfterPosts(c, results[..|results| - 1]);
      var r := results[|results| - 1];
      if r.contentId == c.id && r.result.Success? then MarkPosted(d, r.result.value) else d
  }

  lemma AfterPostsStep(c: ContentItem, results: seq<PostResult>, i: nat)
    requires i < |results|
    ensures AfterPosts(c, results[..i + 1])
         == if results[i].contentId == c.id && results[i].result.Success?
            then MarkPosted(AfterPosts(c, results[..i]), results[i].result.value)
            else AfterPosts(c, results[..i])
  {
    assert results[..i + 1][..i] == results[..i];
  }

  /** The store after the status updates for the first `i` results. */
  predicate MarkedSoFar(content: seq<ContentItem>, c0: seq<ContentItem>, results: seq<PostResult>, i: nat) {
    && i <= |results| && |content| == |c0|
    && forall j :: 0 <= j < |c0| ==> content[j] == AfterPosts(c0[j], results[..i])
  }

  /** One result: a successful post marks its item posted. */
  method MarkResult(db: Store, ghost c0: seq<ContentItem>, results: seq<PostResult>, i: nat)
    requires db.Valid() && i < |results| && MarkedSoFar(db.content, c0, results, i)
    modifies db`content
    ensures db.Valid() && MarkedSoFar(db.content, c0, results, i + 1)
  {
    var r := results[i];
    ghost var before := db.content;
    if r.result.Success? {
      var _ := db.UpdateContentStatus(r.contentId, Posted, Some(r.result.value));
    }
    forall j | 0 <= j < |c0|
      ensures db.content[j] == AfterPosts(c0[j], results[..i + 1])
    {
      AfterPostsStep(c0[j], results, i);
      assert before[j].id == c0[j].id;
    }
  }

  /** Marks the item of every successful result posted, in order. */
  method MarkAll(db: Store, results: seq<PostResult>)
    requires db.Valid()
    modifies db`content
    ensures db.Valid()
    ensures |db.content| == |old(db.content)|
    ensures forall j :: 0 <= j < |db.content| ==> db.content[j] == AfterPosts(old(db.content)[j], results)
  {
    ghost var c0 := db.content;
    var i := 0;
    while i < |results|
      invariant 0 <= i <= |results|
      invariant db.Valid() && MarkedSoFar(db.content, c0, results, i)
    {
      MarkResult(db, c0, results, i);
      i := i + 1;
    }
    assert results[..i] == results;
  }

  /** The summary counts: every result is either a success or a failure. */
  function Summarize(results: seq<PostResult>): (b: PostBody)
    ensures b.Summary? && b.results == results && b.total == |results|
    ensures b.successful == |Filter(results, Succeeded())| && b.failed == |Filter(results, Not(Succeeded()))|
    ensures b.successful + b.failed == b.total
  {
    FilterPartition(results, Succeeded());
    Summary(|results|, |Filter(results, Succeeded())|, |Filter(results, Not(Succeeded()))|, results)
  }

  /** `postContent` with only what the route relies on: the result names
      the item and the platform and is the publisher's answer, and account
      routes survive. */
  method Publish(db: Store, projectId: Id, item: ContentItem, platform: string, now: int, env: Env)
    returns (r: PostResult, calls: seq<Call>)
    requires db.Valid()
    modifies db`accounts
    ensures db.Valid() && SameRoutes(old(db.accounts), db.accounts)
    ensures r.contentId == item.id && r.platform == platform
    ensures Attempt(r.result, calls) == PostOutcome(old(db.accounts), projectId, item, platform, now, env)
  {
    r, calls := PostContent(db, projectId, item, platform, now, env);
  }

  /** Single mode: the item is looked up among the project's content and
      marked posted only when the platform answers with success; the
      answer goes back with 200 or 500 accordingly. */
  method PostSingle(db: Store, projectId: Id, contentId: Id, platform: string, now: int, env: Env)
    returns (resp: Response<PostBody>, calls: seq<Call>)
    requires db.Valid()
    modifies db`content, db`accounts
    ensures db.Valid()
    ensures SameRoutes(old(db.accounts), db.accounts)
    ensures var i := FindIndex(old(db.content), ContentWithId(contentId));
      && (i < 0 || old(db.content)[i].projectId != projectId ==>
            resp == Error(404, "Content not found") && calls == [] && db.content == old(db.content))
      && (0 <= i && old(db.content)[i].projectId == projectId ==>
            && resp.body.Success? && resp.body.value.Single?
            && resp.body.value.result.contentId == contentId && resp.body.value.result.platform == platform
            && Attempt(resp.body.value.result.result, calls) ==
                 PostOutcome(old(db.accounts), projectId, old(db.content)[i], platform, now, env)
            && (resp.body.value.result.result.Success? ==>
                  resp.status == 200
                  && db.content == old(db.content)[i := MarkPosted(old(db.content)[i],
                                                                   resp.body.value.result.result.value)])
            && (resp.body.value.result.result.Failure? ==> resp.status == 500 && db.content == old(db.content)))
  {
    var item := Find(db.GetContent(projectId), ContentWithId(contentId));
    ghost var i := FindIndex(db.content, ContentWithId(contentId));
    if item.None? {
      if 0 <= i && db.content[i].projectId == projectId {
        FilterKeeps(db.content, ContentOf(projectId), db.content[i]);
        assert false;
      }
      return Error(404, "Content not found"), [];
    }
    ContentAt(db.content, item.value);
    var r;
    r, calls := Publish(db, projectId, item.value, platform, now, env);
    if r.result.Success? {
      var _ := db.UpdateContentStatus(contentId, Posted, Some(r.result.value));
      resp := Response(200, Success(Single(r)));
    } else {
      resp := Response(500, Success(Single(r)));
    }
  }

  /** The route: 400 without a project id; single mode when both a content
      id and a platform are given; otherwise auto mode, which marks posted
      exactly the items whose results are successes and answers with the
      summary. */
  method PostRoute(db: Store, projectId: Option<Id>, contentId: Option<Id>, platform: Option<string>,
                   now: int, env: Env)
    returns (resp: Response<PostBody>, calls: seq<Call>)
    requires db.Valid()
    modifies db`content, db`accounts
    ensures db.Valid()
    ensures SameRoutes(old(db.accounts), db.accounts)
    ensures projectId.None? ==>
      resp == Error(400, "projectId required") && calls == [] && db.content == old(db.content)
    ensures projectId.Some? && !(contentId.Some? && Present(platform)) ==>
      && resp.status == 200 && resp.body.Success? && resp.body.value.Summary?
      && resp.body.value == Summarize(resp.body.value.results)
      && Reports(resp.body.value.results,
                 Filter(old(db.GetContent(projectId.value)), Attempted(projectId.value, old(db.accounts))))
      && AutoRun(resp.body.value.results, calls, db.accounts) ==
           AutoPosted(old(db.GetContent(projectId.value)), projectId.value, old(db.accounts), now, env)
      && |db.content| == |old(db.content)|
      && forall j :: 0 <= j < |db.content| ==> db.content[j] == AfterPosts(old(db.content)[j], resp.body.value.results)
  {
    if projectId.None? {
      return Error(400, "projectId required"), [];
    }
    if contentId.Some? && Present(platform) {
      resp, calls := PostSingle(db, projectId.value, contentId.value, platform.value, now, env);
      return;
    }
    var results;
    results, calls := AutoPostAllContent(db, projectId.value, now, env);
    MarkAll(db, results);
    resp := Ok(200, Summarize(results));
  }

  /** In auto mode an item that was not attempted (already posted, of
      another project, or without a connected account) is never marked. */
  lemma UnattemptedUntouched(content: seq<ContentItem>, projectId: Id, accounts: seq<SocialAccount>,
                             results: seq<PostResult>, j: nat)
    requires DistinctContentIds(content) && j < |content|
    requires Reports(results, Filter(Filter(content, ContentOf(projectId)), Attempted(projectId, accounts)))
    requires !(ContentOf(projectId)(content[j]) && Attempted(projectId, accounts)(content[j]))
    ensures AfterPosts(content[j], results) == content[j]
  {
    var attempted := Filter(Filter(content, ContentOf(projectId)), Attempted(projectId, accounts));
    forall k | 0 <= k < |results|
      ensures results[k].contentId != content[j].id
    {
      assert attempted[k] in Filter(content, ContentOf(projectId));
      var m :| 0 <= m < |content| && content[m] == attempted[k];
      assert m != j;
    }
  }
}
