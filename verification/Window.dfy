/** A run in which a claim reads the snapshot rows between the two inserts of POST /jobs and wins the job without any:
    the one exception of Runs.HandsOutWholePlan does occur. */
module Window {
  import opened Basics
  import opened Vault
  import opened Tables
  import opened Pipeline
  import opened Identity
  import WorkerStore

  function ThePlan(): seq<PlainProvider> {
    [Provider("p", "openai_compatible", "https://provider", "model", Some("key"), 1, None, None)]
  }

  function ThePost(stage: PostStage): Request {
    var begun := Post("job", Firebase, "user", false, 1, "user", 0, None, [], Begun);
    if stage == Begun || stage == Prechecked then begun.(stage := stage) else begun.(plan := ThePlan(), stage := stage)
  }

  function TheJob(): Job {
    NewJob(ThePost(Planned), 0)
  }

  /** The world with the job row, if it is there, and these requests. */
  function At(jobs: map<JobId, Job>, requests: seq<Request>, log: seq<Event>): World {
    World(0, jobs, map[], map[], map[], requests, {}, log)
  }

  function Given(): Action { OfPost(PostPlanGiven(0, ThePlan())) }

  lemma Posting()
    ensures var begin := OfPost(PostBegin("job", Firebase, "user", false, 1, "user"));
            Enabled(Initial(0), begin) && Apply(Initial(0), begin) == At(map[], [ThePost(Begun)], [])
    ensures var w := At(map[], [ThePost(Begun)], []);
            Enabled(w, OfPost(PostPrecheck(0))) && Apply(w, OfPost(PostPrecheck(0))) == At(map[], [ThePost(Prechecked)], [])
    ensures var w := At(map[], [ThePost(Prechecked)], []);
            Enabled(w, Given()) && Apply(w, Given()) == At(map[], [ThePost(Planned)], [])
  {
    hide Apply;
    var begin := OfPost(PostBegin("job", Firebase, "user", false, 1, "user"));
    WorkerStore.MovesOnly(Initial(0), begin);
    WorkerStore.MovesOnly(At(map[], [ThePost(Begun)], []), OfPost(PostPrecheck(0)));
    WorkerStore.MovesOnly(At(map[], [ThePost(Prechecked)], []), Given());
  }

  lemma Inserting()
    ensures var w := At(map[], [ThePost(Planned)], []);
            Enabled(w, OfPost(PostInsert(0)))
            && Apply(w, OfPost(PostInsert(0))) == At(map["job" := TheJob()], [ThePost(JobInserted)], [])
  {
    var w := At(map[], [ThePost(Planned)], []);
    WorkerStore.InsertedRow(w, 0);
    hide NewJob, JobsAfter;
    assert w.jobs["job" := TheJob()] == map["job" := TheJob()];
  }

  function Table(): map<JobId, Job> {
    map["job" := TheJob()]
  }

  function Claiming(claim: ClaimStage): seq<Request> {
    [ThePost(JobInserted), Claim("worker", claim)]
  }

  function Swept1(): seq<Event> {
    [Sweep(0, {})]
  }

  function TheSettings(): Legacy<string> {
    LegacyOf(ThePlan()[0])
  }

  lemma Asking()
    ensures var w := At(Table(), [ThePost(JobInserted)], []);
            Enabled(w, OfClaim(ClaimBegin("worker"))) && Apply(w, OfClaim(ClaimBegin("worker"))) == At(Table(), Claiming(Asked), [])
  {
    hide Apply, NewJob;
    WorkerStore.MovesOnly(At(Table(), [ThePost(JobInserted)], []), OfClaim(ClaimBegin("worker")));
  }

  lemma Sweeping()
    ensures var w := At(Table(), Claiming(Asked), []);
            Enabled(w, OfClaim(ClaimSweep(1))) && Apply(w, OfClaim(ClaimSweep(1))) == At(Table(), Claiming(Swept), Swept1())
  {
    hide JobsAfter;
    var w := At(Table(), Claiming(Asked), []);
    WorkerStore.UpdateAll(w, OfClaim(ClaimSweep(1)), Table());
    assert (set j | j in w.jobs && LeaseLost(w.jobs[j], w.clock)) == {};
  }

  lemma Picking()
    ensures var w := At(Table(), Claiming(Swept), Swept1());
            var select := OfClaim(ClaimSelect(1, Some("job")));
            Enabled(w, select) && Apply(w, select) == At(Table(), Claiming(Picked("job", TheJob().legacy)), Swept1())
  {
    hide Apply;
    WorkerStore.MovesOnly(At(Table(), Claiming(Swept), Swept1()), OfClaim(ClaimSelect(1, Some("job"))));
  }

  lemma Reading()
    ensures var w := At(Table(), Claiming(Picked("job", TheJob().legacy)), Swept1());
            var read := OfClaim(ClaimRead(1, []));
            Enabled(w, read) && Apply(w, read) == At(Table(), Claiming(Opened("job", TheSettings(), [], 0)), Swept1())
  {
    hide Apply;
    var w := At(Table(), Claiming(Picked("job", TheJob().legacy)), Swept1());
    var none: seq<SealedProvider> := [];
    assert OrderedRows(SnapshotRows(w, "job"), none, Priority);
    assert OpenAll(none, SnapshotContext("job")) == [];
    assert Enabled(w, OfClaim(ClaimRead(1, [])));
    WorkerStore.MovesOnly(w, OfClaim(ClaimRead(1, [])));
  }

  lemma Taking()
    ensures var w := At(Table(), Claiming(Opened("job", TheSettings(), [], 0)), Swept1());
            var take := OfClaim(ClaimTake(1, 0));
            Enabled(w, take)
            && Apply(w, take) == At(map["job" := TakeRow(TheJob(), "worker", 0)],
                                    Claiming(Replied(Won("job", TheSettings(), []))), Swept1() + [Take("job", 0)])
  {
    hide JobsAfter, NewPercent;
    var w := At(Table(), Claiming(Opened("job", TheSettings(), [], 0)), Swept1());
    WorkerStore.UpdateOne(w, OfClaim(ClaimTake(1, 0)), "job", TakeRow(TheJob(), "worker", 0));
    assert Table()["job" := TakeRow(TheJob(), "worker", 0)] == map["job" := TakeRow(TheJob(), "worker", 0)];
  }

  /** The run: the POST up to its first insert, then a whole claim. */
  lemma EmptyHandOutHappens() returns (ws: seq<World>, acts: seq<Action>)
    ensures IsRun(ws, acts) && |acts| == 9
    ensures acts[7] == OfClaim(ClaimRead(1, [])) && IsPostOf(ws[7].requests[0], "job") && ws[7].requests[0].plan == ThePlan()
    ensures ws[9].requests == Claiming(Replied(Won("job", TheSettings(), [])))
  {
    hide Apply, Enabled, TheJob, ThePost, TheSettings, TakeRow;
    Posting();
    Inserting();
    Asking();
    Sweeping();
    Picking();
    Reading();
    Taking();
    var jobs := Table();
    acts := [OfPost(PostBegin("job", Firebase, "user", false, 1, "user")), OfPost(PostPrecheck(0)), Given(), OfPost(PostInsert(0)),
             OfClaim(ClaimBegin("worker")), OfClaim(ClaimSweep(1)), OfClaim(ClaimSelect(1, Some("job"))),
             OfClaim(ClaimRead(1, [])), OfClaim(ClaimTake(1, 0))];
    ws := [Initial(0), At(map[], [ThePost(Begun)], []), At(map[], [ThePost(Prechecked)], []), At(map[], [ThePost(Planned)], []),
           At(jobs, [ThePost(JobInserted)], []), At(jobs, Claiming(Asked), []), At(jobs, Claiming(Swept), Swept1()),
           At(jobs, Claiming(Picked("job", TheJob().legacy)), Swept1()),
           At(jobs, Claiming(Opened("job", TheSettings(), [], 0)), Swept1()),
           At(map["job" := TakeRow(TheJob(), "worker", 0)], Claiming(Replied(Won("job", TheSettings(), []))),
              Swept1() + [Take("job", 0)])];
    ItIsThePost();
  }

  lemma ItIsThePost()
    ensures IsPostOf(ThePost(JobInserted), "job") && ThePost(JobInserted).plan == ThePlan()
  {
  }
}
