/** The scheduler: a project is due once its frequency in hours has passed
    since its last run (or its creation), and a sweep runs one cycle for
    each due project, in list order. */
module Runner {
  import opened Wrappers
  import opened Seqs
  import opened Records
  import opened External
  import opened Db
  import opened Agent

  const HourMs := 60 * 60 * 1000
  /** How often the sweep (or the dedicated project's cycle) is repeated. */
  const PollIntervalMs := 15 * 60 * 1000

  /** The time of the project's next run. */
  function NextRun(p: Project): int {
    (if p.lastRun.Some? then p.lastRun.value else p.createdAt) + p.agentFrequency * HourMs
  }

  predicate IsDue(p: Project, now: int) {
    now >= NextRun(p)
  }

  function Due(now: int): Project -> bool {
    (p: Project) => IsDue(p, now)
  }

  function ProjectId(): Project -> Id {
    (p: Project) => p.id
  }

  /** A project is due from its next-run instant on: one millisecond
      earlier it is not, and once due it stays due until it runs. */
  lemma DueBoundary(p: Project, now: int)
    ensures IsDue(p, NextRun(p)) && !IsDue(p, NextRun(p) - 1)
    ensures IsDue(p, now) ==> forall later :: later >= now ==> IsDue(p, later)
  {
  }

  /** A daily project run at `t` is due again exactly 24 hours later. */
  lemma DailyProjectRunsDaily(p: Project, t: int, now: int)
    requires p.agentFrequency == 24
    ensures IsDue(p.(lastRun := Some(t)), now) <==> now >= t + 86400000
  {
  }

  /** Stamping the last run pushes the next run forward: a project with a
      positive frequency that has just run is not due again at once. */
  lemma JustRunIsNotDue(p: Project, now: int)
    requires p.agentFrequency > 0
    ensures !IsDue(p.(lastRun := Some(now)), now)
    ensures NextRun(p.(lastRun := Some(now))) >= now + HourMs
  {
  }

  /** `runCycleSafe`: runs the cycle when the project exists and does
      nothing otherwise. The cycle reports its failures in its result, so
      nothing escapes. */
  method RunCycleSafe(db: Store, projectId: Id, now: int, env: Env) returns (ran: bool)
    requires db.Valid()
    modifies db
    ensures db.Valid()
    ensures ran <==> old(db.GetProject(projectId)).Some?
    ensures !ran ==>
      && db.projects == old(db.projects) && db.accounts == old(db.accounts)
      && db.content == old(db.content) && db.leads == old(db.leads) && db.nextId == old(db.nextId)
    ensures ran ==>
      var i := FindIndex(old(db.projects), ProjectWithId(projectId));
      && 0 <= i
      && db.projects == old(db.projects)[i := old(db.projects)[i].(lastRun := Some(now))]
  {
    var project := db.GetProject(projectId);
    if project.None? {
      return false;
    }
    var _, _ := RunAgentCycle(db, projectId, now, env);
    ran := true;
  }

  /** The store's projects after the sweep has passed the first `i` of the
      list it started from: those that were due carry the new stamp. */
  predicate Swept(start: seq<Project>, projects: seq<Project>, i: nat, ran: seq<Id>, now: int) {
    && i <= |start| && |projects| == |start|
    && ran == Map(Filter(start[..i], Due(now)), ProjectId())
    && forall j :: 0 <= j < |start| ==>
         projects[j] == if j < i && IsDue(start[j], now) then start[j].(lastRun := Some(now)) else start[j]
  }

  lemma SweptIds(start: seq<Project>, projects: seq<Project>, i: nat, ran: seq<Id>, now: int)
    requires Swept(start, projects, i, ran, now) && DistinctProjectIds(start)
    ensures DistinctProjectIds(projects)
    ensures forall j :: 0 <= j < |start| ==> projects[j].id == start[j].id
  {
  }

  /** One project of the sweep: its cycle runs when it is due. */
  method SweepTurn(db: Store, start: seq<Project>, i: nat, ran: seq<Id>, now: int, env: Env)
    returns (ran': seq<Id>)
    requires db.Valid() && DistinctProjectIds(start) && i < |start|
    requires Swept(start, db.projects, i, ran, now)
    modifies db
    ensures db.Valid()
    ensures Swept(start, db.projects, i + 1, ran', now)
  {
    var p := start[i];
    FilterStep(start, i, Due(now));
    MapSnoc(Filter(start[..i], Due(now)), p, ProjectId());
    SweptIds(start, db.projects, i, ran, now);
    ProjectAt(db.projects, i);
    ghost var before := db.projects;
    ran' := ran;
    if IsDue(p, now) {
      assert before[i] == p;
      var _ := RunCycleSafe(db, p.id, now, env);
      ran' := ran + [p.id];
    }
  }

  /** `checkAndRunProjects`: goes through the projects as they were when
      the sweep began and runs a cycle for each due one, in order. */
  method CheckAndRunProjects(db: Store, now: int, env: Env) returns (ran: seq<Id>)
    requires db.Valid()
    modifies db
    ensures db.Valid()
    ensures ran == Map(Filter(old(db.projects), Due(now)), ProjectId())
    ensures |db.projects| == |old(db.projects)|
    ensures forall j :: 0 <= j < |db.projects| ==>
      db.projects[j] == if IsDue(old(db.projects)[j], now) then old(db.projects)[j].(lastRun := Some(now))
                        else old(db.projects)[j]
  {
    var start := db.projects;
    ran := [];
    var i := 0;
    while i < |start|
      invariant 0 <= i <= |start|
      invariant db.Valid()
      invariant Swept(start, db.projects, i, ran, now)
    {
      ran := SweepTurn(db, start, i, ran, now, env);
      i := i + 1;
    }
    assert start[..i] == start;
  }
}
