/** `POST /api/content/generate-image`: draws an image for one named item,
    or for every item of the project that has none, one at a time; a
    failure is reported for its item and the next item is still drawn. */
module GenerateImageRoute {
  import opened Wrappers
  import opened Seqs
  import opened Records
  import opened External
  import opened Db
  import opened Http

  datatype ImageStatus = Generated | Failed

  datatype ImageResult = ImageResult(contentId: Id, imageUrl: string, status: ImageStatus)

  /** An item with no image. */
  function NoImage(): ContentItem -> bool {
    (c: ContentItem) => !Present(c.imageUrl)
  }

  /** The items to draw: the one named, or else every item without an
      image, whatever its status. */
  function Targets(content: seq<ContentItem>, contentId: Option<Id>): seq<ContentItem> {
    if contentId.Some? then Filter(content, ContentWithId(contentId.value))
    else Filter(content, NoImage())
  }

  /** The prompt: the item's own, else a generic one for the project. */
  function RoutePrompt(c: ContentItem, project: Project): string {
    OrElse(c.imagePrompt, "Professional social media graphic for " + project.name)
  }

  function RouteAnswer(c: ContentItem, project: Project, ai: Ai): Result<string, string> {
    ai.generateImage(RoutePrompt(c, project), c.id, project.logo, c.kind)
  }

  function RouteCall(project: Project): ContentItem -> Call {
    (c: ContentItem) => GenerateImage(RoutePrompt(c, project), c.id)
  }

  /** What is reported for one target: its image, or a failure with an
      empty URL. */
  function Outcome(project: Project, ai: Ai): ContentItem -> ImageResult {
    (c: ContentItem) =>
      match RouteAnswer(c, project, ai)
      case Success(url) => ImageResult(c.id, url, Generated)
      case Failure(_) => ImageResult(c.id, "", Failed)
  }

  /** A stored item after the targets have been drawn in order: each target
      with its id whose image was drawn sets its image URL. Only the image
      URL can change, and an item that is no target is left alone. */
  function AfterImages(c: ContentItem, targets: seq<ContentItem>, project: Project, ai: Ai): (d: ContentItem)
    ensures d.(imageUrl := c.imageUrl) == c
    ensures (forall k :: 0 <= k < |targets| ==> targets[k].id != c.id) ==> d == c
    decreases |targets|
  {
    if targets == [] then c
    else
      var d := AfterImages(c, targets[..|targets| - 1], project, ai);
      var t := targets[|targets| - 1];
      if t.id == c.id && RouteAnswer(t, project, ai).Success?
      then d.(imageUrl := Some(RouteAnswer(t, project, ai).value))
      else d
  }

  lemma AfterImagesStep(c: ContentItem, targets: seq<ContentItem>, i: nat, project: Project, ai: Ai)
    requires i < |targets|
    ensures AfterImages(c, targets[..i + 1], project, ai)
         == if targets[i].id == c.id && RouteAnswer(targets[i], project, ai).Success?
            then AfterImages(c, targets[..i], project, ai).(imageUrl := Some(RouteAnswer(targets[i], project, ai).value))
            else AfterImages(c, targets[..i], project, ai)
  {
    assert targets[..i + 1][..i] == targets[..i];
  }

  /** A target drawn successfully ends up with the drawn image, when the
      targets have distinct ids. */
  lemma {:induction false} DrawnTargetGetsImage(targets: seq<ContentItem>, k: nat, project: Project, ai: Ai)
    requires k < |targets| && DistinctContentIds(targets)
    requires RouteAnswer(targets[k], project, ai).Success?
    ensures AfterImages(targets[k], targets, project, ai)
         == targets[k].(imageUrl := Some(RouteAnswer(targets[k], project, ai).value))
  {
    var n := |targets| - 1;
    if k < n {
      var front := targets[..n];
      assert front[k] == targets[k];
      DrawnTargetGetsImage(front, k, project, ai);
      assert targets[n].id != targets[k].id;
    } else {
      var front := targets[..n];
      assert forall j :: 0 <= j < |front| ==> front[j].id != targets[k].id by {
        forall j | 0 <= j < |front| ensures front[j].id != targets[k].id {
          assert front[j] == targets[j];
        }
      }
    }
  }

  /** Drawing for a named item leaves every item with another id alone. */
  lemma NamedTargetOnly(content: seq<ContentItem>, contentId: Id, c: ContentItem, project: Project, ai: Ai)
    requires c.id != contentId
    ensures AfterImages(c, Targets(content, Some(contentId)), project, ai) == c
  {
    var targets := Targets(content, Some(contentId));
    assert forall k :: 0 <= k < |targets| ==> ContentWithId(contentId)(targets[k]);
  }

  /** Drawing for every imageless item of a project never touches a stored
      item that already has an image. */
  lemma ImagedItemsUntouched(content: seq<ContentItem>, projectId: Id, j: nat, project: Project, ai: Ai)
    requires DistinctContentIds(content) && j < |content| && Present(content[j].imageUrl)
    ensures AfterImages(content[j], Targets(Filter(content, ContentOf(projectId)), None), project, ai) == content[j]
  {
    var targets := Targets(Filter(content, ContentOf(projectId)), None);
    forall k | 0 <= k < |targets|
      ensures targets[k].id != content[j].id
    {
      assert targets[k] in Filter(content, ContentOf(projectId));
      assert NoImage()(targets[k]);
      var m :| 0 <= m < |content| && content[m] == targets[k];
      assert m != j;
    }
  }

  /** The store and the report after the first `i` targets. */
  predicate DrawnSoFar(content: seq<ContentItem>, c0: seq<ContentItem>, targets: seq<ContentItem>, i: nat,
                       results: seq<ImageResult>, calls: seq<Call>, project: Project, ai: Ai) {
    && i <= |targets| && |content| == |c0|
    && (forall j :: 0 <= j < |c0| ==> content[j] == AfterImages(c0[j], targets[..i], project, ai))
    && results == Map(targets[..i], Outcome(project, ai))
    && calls == Map(targets[..i], RouteCall(project))
  }

  /** One target: ask for its image and store it when one comes back. */
  method DrawTarget(db: Store, ghost c0: seq<ContentItem>, targets: seq<ContentItem>, i: nat,
                    results: seq<ImageResult>, calls: seq<Call>, project: Project, ai: Ai)
    returns (results': seq<ImageResult>, calls': seq<Call>)
    requires db.Valid() && i < |targets|
    requires DrawnSoFar(db.content, c0, targets, i, results, calls, project, ai)
    modifies db`content
    ensures db.Valid()
    ensures DrawnSoFar(db.content, c0, targets, i + 1, results', calls', project, ai)
  {
    var t := targets[i];
    TallyStep(targets, i, NoImage(), RouteCall(project), Outcome(project, ai));
    MapSnoc(targets[..i], t, Outcome(project, ai));
    PrefixSnoc(targets, i);
    var prompt := RoutePrompt(t, project);
    var answer := ai.generateImage(prompt, t.id, project.logo, t.kind);
    calls' := calls + [GenerateImage(prompt, t.id)];
    ghost var before := db.content;
    if answer.Success? {
      var _ := db.UpdateContentImage(t.id, answer.value);
      results' := results + [ImageResult(t.id, answer.value, Generated)];
    } else {
      results' := results + [ImageResult(t.id, "", Failed)];
    }
    forall j | 0 <= j < |c0|
      ensures db.content[j] == AfterImages(c0[j], targets[..i + 1], project, ai)
    {
      AfterImagesStep(c0[j], targets, i, project, ai);
      assert before[j].id == c0[j].id;
    }
  }

  /** Every target in order, each drawn whatever became of the ones
      before it. */
  method DrawAll(db: Store, targets: seq<ContentItem>, project: Project, ai: Ai)
    returns (results: seq<ImageResult>, calls: seq<Call>)
    requires db.Valid()
    modifies db`content
    ensures db.Valid()
    ensures results == Map(targets, Outcome(project, ai)) && calls == Map(targets, RouteCall(project))
    ensures |db.content| == |old(db.content)|
    ensures forall j :: 0 <= j < |db.content| ==> db.content[j] == AfterImages(old(db.content)[j], targets, project, ai)
  {
    ghost var c0 := db.content;
    results, calls := [], [];
    var i := 0;
    while i < |targets|
      invariant 0 <= i <= |targets|
      invariant db.Valid()
      invariant DrawnSoFar(db.content, c0, targets, i, results, calls, project, ai)
    {
      results, calls := DrawTarget(db, c0, targets, i, results, calls, project, ai);
      i := i + 1;
    }
    assert targets[..i] == targets;
  }

  /** The route: 400 without a project id, 404 for an unknown project,
      200 with nothing drawn when no item needs an image, else 201 with one
      result per target in order. The store changes only by the images
      drawn. */
  method GenerateImages(db: Store, projectId: Option<Id>, contentId: Option<Id>, ai: Ai)
    returns (resp: Response<seq<ImageResult>>, calls: seq<Call>)
    requires db.Valid()
    modifies db`content
    ensures db.Valid()
    ensures projectId.None? ==> resp == Error(400, "projectId required") && calls == [] && db.content == old(db.content)
    ensures projectId.Some? && old(db.GetProject(projectId.value)).None? ==>
      resp == Error(404, "Project not found") && calls == [] && db.content == old(db.content)
    ensures projectId.Some? && old(db.GetProject(projectId.value)).Some? ==>
      var project := old(db.GetProject(projectId.value)).value;
      var targets := Targets(old(db.GetContent(projectId.value)), contentId);
      && (|targets| == 0 ==> resp == Ok(200, []) && calls == [] && db.content == old(db.content))
      && (|targets| > 0 ==>
            resp == Ok(201, Map(targets, Outcome(project, ai))) && calls == Map(targets, RouteCall(project)))
      && |db.content| == |old(db.content)|
      && forall j :: 0 <= j < |db.content| ==> db.content[j] == AfterImages(old(db.content)[j], targets, project, ai)
  {
    if projectId.None? {
      return Error(400, "projectId required"), [];
    }
    var project := db.GetProject(projectId.value);
    if project.None? {
      return Error(404, "Project not found"), [];
    }
    var targets := Targets(db.GetContent(projectId.value), contentId);
    if |targets| == 0 {
      return Ok(200, []), [];
    }
    var results;
    results, calls := DrawAll(db, targets, project.value, ai);
    resp := Ok(201, results);
  }
}
