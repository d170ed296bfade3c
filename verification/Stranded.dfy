/** A history in which an agent, the only one, waits with the event clear while a job whose wake it was sent can be
    claimed: its claim picked an older job whose upload then failed, and the empty reply ended the drain. */
module Stranded {
  import opened Basics
  import opened Tables
  import opened Pipeline
  import opened Runs
  import opened Wakeup
  import WorkerStore

  // ---------- reachable systems

  ghost predicate Reachable(s: System) {
    exists ss, steps :: IsHistory(ss, steps) && ss[|ss| - 1] == s
  }

  lemma StartReachable(clock: int)
    ensures Reachable(Start(clock))
  {
    hide Start, After, CanStep;
    StartsAt(clock);
    assert IsHistory([Start(clock)], []);
  }

  lemma StartsAt(clock: int)
    ensures Start(clock).w.clock == clock
  {
  }

  lemma StepReachable(s: System, e: Step)
    requires Reachable(s) && CanStep(s, e)
    ensures Reachable(After(s, e))
  {
    hide After, CanStep, Start;
    var ss, steps :| IsHistory(ss, steps) && ss[|ss| - 1] == s;
    var ss', steps' := ss + [After(s, e)], steps + [e];
    forall k | 0 <= k < |steps'|
      ensures CanStep(ss'[k], steps'[k]) && ss'[k + 1] == After(ss'[k], steps'[k])
    {
      if k < |steps| {
        assert ss'[k] == ss[k] && ss'[k + 1] == ss[k + 1] && steps'[k] == steps[k];
      }
    }
    assert ss'[0] == ss[0];
    assert IsHistory(ss', steps');
  }

  /** A step of the Worker while the agent's claim does not look. */
  lemma WorkReachable(s: System, a: Action, w: World)
    requires Reachable(s) && Enabled(s.w, a) && Apply(s.w, a) == w && !Looks(s, a)
    ensures Reachable(s.(w := w))
  {
    hide Apply, Enabled, Reachable;
    StepReachable(s, Work(a));
  }

  // ---------- a POST up to its reservation

  function ThePlan(): seq<PlainProvider> {
    [Provider("p", "openai_compatible", "https://provider", "model", Some("key"), 1, None, None)]
  }

  function Posting(id: JobId, stage: PostStage): Request {
    Post(id, Firebase, id, false, 1, id, 0, None, if stage in {Begun, Prechecked} then [] else ThePlan(), stage)
  }

  function JobRow(id: JobId): Job {
    NewJob(Posting(id, Planned), 0)
  }

  ghost predicate NewTo(w: World, id: JobId) {
    w.clock == 0 && IsFresh(w, id) && Retention.ColonFree(id) && id !in w.jobs && UsageKey(Firebase, id, 0) !in w.usage
  }

  function WithPost(w: World, id: JobId, stage: PostStage): World {
    w.(requests := w.requests + [Posting(id, stage)])
  }

  lemma Replaced(w: World, id: JobId, stage: PostStage, stage': PostStage)
    ensures (w.requests + [Posting(id, stage)])[|w.requests| := Posting(id, stage')] == w.requests + [Posting(id, stage')]
  {
  }

  lemma Begins(w: World, id: JobId)
    requires NewTo(w, id)
    ensures Enabled(w, OfPost(PostBegin(id, Firebase, id, false, 1, id)))
    ensures Apply(w, OfPost(PostBegin(id, Firebase, id, false, 1, id))) == WithPost(w, id, Begun)
  {
    hide Apply;
    WorkerStore.MovesOnly(w, OfPost(PostBegin(id, Firebase, id, false, 1, id)));
  }

  lemma Prechecks(w: World, id: JobId)
    requires NewTo(w, id)
    ensures Enabled(WithPost(w, id, Begun), OfPost(PostPrecheck(|w.requests|)))
    ensures Apply(WithPost(w, id, Begun), OfPost(PostPrecheck(|w.requests|))) == WithPost(w, id, Prechecked)
  {
    hide Apply;
    WorkerStore.MovesOnly(WithPost(w, id, Begun), OfPost(PostPrecheck(|w.requests|)));
    Replaced(w, id, Begun, Prechecked);
  }

  lemma Plans(w: World, id: JobId)
    requires NewTo(w, id)
    ensures Enabled(WithPost(w, id, Prechecked), OfPost(PostPlanGiven(|w.requests|, ThePlan())))
    ensures Apply(WithPost(w, id, Prechecked), OfPost(PostPlanGiven(|w.requests|, ThePlan()))) == WithPost(w, id, Planned)
  {
    hide Apply;
    WorkerStore.MovesOnly(WithPost(w, id, Prechecked), OfPost(PostPlanGiven(|w.requests|, ThePlan())));
    Replaced(w, id, Prechecked, Planned);
  }

  function WithRow(w: World, id: JobId): World {
    w.(jobs := w.jobs[id := JobRow(id)])
  }

  function WithSnapshots(w: World, id: JobId): World {
    w.(snapshots := w.snapshots[id := SealAll(ThePlan(), Vault.SnapshotContext(id))])
  }

  function WithUsage(w: World, id: JobId): World {
    w.(usage := w.usage[UsageKey(Firebase, id, 0) := Usage(1, 1)])
  }

  lemma Inserts(w: World, id: JobId)
    requires NewTo(w, id)
    ensures Enabled(WithPost(w, id, Planned), OfPost(PostInsert(|w.requests|)))
    ensures Apply(WithPost(w, id, Planned), OfPost(PostInsert(|w.requests|))) == WithPost(WithRow(w, id), id, JobInserted)
  {
    hide JobsAfter, NewJob;
    var v := WithPost(w, id, Planned);
    WorkerStore.InsertedRow(v, |w.requests|);
    Replaced(w, id, Planned, JobInserted);
    assert v.log + [] == v.log;
  }

  lemma Snapshots(w: World, id: JobId)
    requires w.clock == 0
    ensures Enabled(WithPost(w, id, JobInserted), OfPost(PostSnapshot(|w.requests|)))
    ensures Apply(WithPost(w, id, JobInserted), OfPost(PostSnapshot(|w.requests|))) ==
            WithPost(WithSnapshots(w, id), id, SnapshotsInserted)
  {
    hide JobsAfter, SealAll;
    var v := WithPost(w, id, JobInserted);
    WorkerStore.UpdateAll(v, OfPost(PostSnapshot(|w.requests|)), v.jobs);
    Replaced(w, id, JobInserted, SnapshotsInserted);
    assert v.log + [] == v.log;
  }

  lemma Reserves(w: World, id: JobId)
    requires w.clock == 0 && UsageKey(Firebase, id, 0) !in w.usage
    ensures Enabled(WithPost(w, id, SnapshotsInserted), OfPost(PostReserve(|w.requests|)))
    ensures Apply(WithPost(w, id, SnapshotsInserted), OfPost(PostReserve(|w.requests|))) ==
            WithPost(WithUsage(w, id), id, Reserved)
  {
    hide JobsAfter;
    var v := WithPost(w, id, SnapshotsInserted);
    WorkerStore.UpdateAll(v, OfPost(PostReserve(|w.requests|)), v.jobs);
    Replaced(w, id, SnapshotsInserted, Reserved);
    assert v.log + [] == v.log;
  }

  /** The world after a POST has its reservation. */
  function Posted(w: World, id: JobId): World {
    WithPost(WithUsage(WithSnapshots(WithRow(w, id), id), id), id, Reserved)
  }

  lemma PostReachable(s: System, id: JobId)
    requires Reachable(s) && s.agent.Top? && NewTo(s.w, id)
    ensures Reachable(s.(w := Posted(s.w, id)))
  {
    hide Apply, Enabled, Reachable, Posting, JobRow, SealAll, ThePlan;
    var w, r := s.w, |s.w.requests|;
    Begins(w, id);
    WorkReachable(s, OfPost(PostBegin(id, Firebase, id, false, 1, id)), WithPost(w, id, Begun));
    Prechecks(w, id);
    WorkReachable(s.(w := WithPost(w, id, Begun)), OfPost(PostPrecheck(r)), WithPost(w, id, Prechecked));
    Plans(w, id);
    WorkReachable(s.(w := WithPost(w, id, Prechecked)), OfPost(PostPlanGiven(r, ThePlan())), WithPost(w, id, Planned));
    Inserts(w, id);
    var w1 := WithRow(w, id);
    WorkReachable(s.(w := WithPost(w, id, Planned)), OfPost(PostInsert(r)), WithPost(w1, id, JobInserted));
    Snapshots(w1, id);
    var w2 := WithSnapshots(w1, id);
    WorkReachable(s.(w := WithPost(w1, id, JobInserted)), OfPost(PostSnapshot(r)), WithPost(w2, id, SnapshotsInserted));
    Reserves(w2, id);
    WorkReachable(s.(w := WithPost(w2, id, SnapshotsInserted)), OfPost(PostReserve(r)), Posted(w, id));
  }

  // ---------- two POSTs, then one claim

  function BothPosted(): World {
    Posted(Posted(Initial(0), "old"), "young")
  }

  function Requests(old': PostStage, claims: seq<ClaimStage>): seq<Request> {
    [Posting("old", old'), Posting("young", Answered(Accepted))] +
    seq(|claims|, i requires 0 <= i < |claims| => Claim("agent", claims[i]))
  }

  lemma Both()
    ensures NewTo(Initial(0), "old") && NewTo(Posted(Initial(0), "old"), "young")
    ensures BothPosted().requests == [Posting("old", Reserved), Posting("young", Reserved)]
    ensures BothPosted().clock == 0 && BothPosted().log == []
    ensures BothPosted().jobs == map["old" := JobRow("old"), "young" := JobRow("young")]
    ensures "old" in BothPosted().snapshots && BothPosted().snapshots["old"] == SealAll(ThePlan(), Vault.SnapshotContext("old"))
  {
    hide NewJob, SealAll;
  }

  lemma Accepts(w: World)
    requires w.requests == [Posting("old", Reserved), Posting("young", Reserved)]
    ensures Enabled(w, OfPost(PostAccept(1)))
    ensures Apply(w, OfPost(PostAccept(1))) == w.(requests := Requests(Reserved, []))
  {
    hide Apply;
    WorkerStore.MovesOnly(w, OfPost(PostAccept(1)));
  }

  lemma Asks(w: World)
    requires w.requests == Requests(Reserved, [])
    ensures Enabled(w, OfClaim(ClaimBegin("agent")))
    ensures Apply(w, OfClaim(ClaimBegin("agent"))) == w.(requests := Requests(Reserved, [Asked]))
  {
    hide Apply;
    WorkerStore.MovesOnly(w, OfClaim(ClaimBegin("agent")));
    assert Requests(Reserved, []) + [Claim("agent", Asked)] == Requests(Reserved, [Asked]);
  }

  ghost predicate OneClaim(w: World, old': PostStage, claim: ClaimStage) {
    w.requests == Requests(old', [claim]) && w.clock == 0
  }

  lemma TheClaim(w: World, old': PostStage, claim: ClaimStage)
    requires OneClaim(w, old', claim)
    ensures |w.requests| == 3 && w.requests[2] == Claim("agent", claim)
    ensures w.requests[0] == Posting("old", old') && w.requests[1] == Posting("young", Answered(Accepted))
    ensures forall c :: w.requests[2 := Claim("agent", c)] == Requests(old', [c])
    ensures forall stage :: w.requests[0 := Posting("old", stage)] == Requests(stage, [claim])
  {
    forall c
      ensures w.requests[2 := Claim("agent", c)] == Requests(old', [c])
    {
    }
    forall stage
      ensures w.requests[0 := Posting("old", stage)] == Requests(stage, [claim])
    {
    }
  }

  /** Both jobs queued, and can be claimed. */
  predicate BothQueued(w: World) {
    w.clock == 0 && w.jobs == map["old" := JobRow("old"), "young" := JobRow("young")]
  }

  lemma Sweeps(w: World)
    requires OneClaim(w, Reserved, Asked) && BothQueued(w)
    ensures var a := OfClaim(ClaimSweep(2));
            Enabled(w, a) && Apply(w, a) == w.(requests := Requests(Reserved, [Swept]), log := w.log + [Sweep(0, {})])
  {
    hide JobsAfter;
    TheClaim(w, Reserved, Asked);
    WorkerStore.UpdateAll(w, OfClaim(ClaimSweep(2)), w.jobs);
    assert (set j | j in w.jobs && LeaseLost(w.jobs[j], w.clock)) == {};
  }

  lemma Selects(w: World)
    requires OneClaim(w, Reserved, Swept) && BothQueued(w)
    ensures var a := OfClaim(ClaimSelect(2, Some("old")));
            && Enabled(w, a)
            && Apply(w, a) == w.(requests := Requests(Reserved, [Picked("old", JobRow("old").legacy)]))
  {
    hide Apply;
    TheClaim(w, Reserved, Swept);
    WorkerStore.MovesOnly(w, OfClaim(ClaimSelect(2, Some("old"))));
  }

  lemma SealedOpens(id: JobId)
    ensures Opens(JobRow(id).legacy.key, Vault.LegacyContext(id))
  {
  }

  lemma ReadsRows(w: World) returns (rows: seq<SealedProvider>, claim: ClaimStage)
    requires OneClaim(w, Reserved, Picked("old", JobRow("old").legacy))
    ensures claim.Opened? && claim.ready == "old" && claim.readAt == 0
    ensures var a := OfClaim(ClaimRead(2, rows));
            Enabled(w, a) && Apply(w, a) == w.(requests := Requests(Reserved, [claim]))
  {
    hide Apply, JobRow, OpenAll, Opens;
    TheClaim(w, Reserved, Picked("old", JobRow("old").legacy));
    SealedOpens("old");
    rows := SomeAnswer(SnapshotRows(w, "old"));
    var a := OfClaim(ClaimRead(2, rows));
    assert Enabled(w, a);
    WorkerStore.MovesOnly(w, a);
    claim := ClaimNext(w, ClaimRead(2, rows)).claim;
    assert ClaimNext(w, ClaimRead(2, rows)) == Claim("agent", claim);
  }

  /** Every query has an answer. */
  lemma {:induction false} SomeAnswer(rows: seq<SealedProvider>) returns (answer: seq<SealedProvider>)
    ensures OrderedRows(rows, answer, Priority)
  {
    if rows == [] {
      answer := [];
    } else {
      var rest := SomeAnswer(rows[1..]);
      answer := InsertByPriority(rest, rows[0]);
      assert rows == [rows[0]] + rows[1..];
    }
  }

  lemma {:induction false} InsertByPriority(rows: seq<SealedProvider>, row: SealedProvider) returns (all: seq<SealedProvider>)
    requires SortedBy(rows, Priority)
    ensures SortedBy(all, Priority) && multiset(all) == multiset{row} + multiset(rows)
  {
    if rows == [] || Priority(row) <= Priority(rows[0]) {
      all := [row] + rows;
    } else {
      var rest := InsertByPriority(rows[1..], row);
      all := [rows[0]] + rest;
      assert rows == [rows[0]] + rows[1..];
      forall i | 0 <= i < |rest|
        ensures Priority(rows[0]) <= Priority(rest[i])
      {
        assert rest[i] in multiset(rest);
        if rest[i] != row {
          assert rest[i] in multiset(rows[1..]);
        }
      }
    }
  }

  lemma FailsUpload(w: World, claim: ClaimStage)
    requires OneClaim(w, Reserved, claim) && BothQueued(w)
    ensures var a := OfPost(PostUploadFailed(0));
            var w' := Apply(w, a);
            && Enabled(w, a) && OneClaim(w', Answered(UploadFailed), claim) && w'.log == w.log
            && w'.jobs == map["old" := JobRow("old").(status := Failed), "young" := JobRow("young")]
  {
    hide JobsAfter, NewJob, Refund;
    TheClaim(w, Reserved, claim);
    var row := JobRow("old").(status := Failed);
    WorkerStore.UpdateOne(w, OfPost(PostUploadFailed(0)), "old", row);
    assert w.jobs["old" := row] == map["old" := row, "young" := JobRow("young")];
  }

  lemma LosesRace(w: World, claim: ClaimStage)
    requires OneClaim(w, Answered(UploadFailed), claim) && claim.Opened? && claim.ready == "old" && claim.readAt == 0
    requires w.jobs == map["old" := JobRow("old").(status := Failed), "young" := JobRow("young")]
    ensures var a := OfClaim(ClaimTake(2, 0));
            var w' := Apply(w, a);
            && Enabled(w, a) && w'.jobs == w.jobs && OneClaim(w', Answered(UploadFailed), Replied(LostRace("old")))
  {
    hide JobsAfter, NewJob;
    TheClaim(w, Answered(UploadFailed), claim);
    WorkerStore.UpdateAll(w, OfClaim(ClaimTake(2, 0)), w.jobs);
  }

  lemma YoungIsClaimable(w: World)
    requires w.clock == 0 && "young" in w.jobs && w.jobs["young"] == JobRow("young")
    ensures Claimable(w, "young")
  {
  }

  // ---------- the history

  ghost predicate HasAsked(s: System) {
    && s.agent == Asking(2) && !s.flag && s.delivered == {"young"}
    && OneClaim(s.w, Reserved, Asked) && BothQueued(s.w)
  }

  /** Both jobs are posted, the younger one is accepted and its wake delivered, and the agent begins a drain. */
  lemma AgentAsks() returns (s: System)
    ensures Reachable(s) && HasAsked(s)
  {
    hide Apply, Enabled, Reachable, Posted, JobRow, NewTo;
    StartReachable(0);
    Both();
    PostReachable(Start(0), "old");
    PostReachable(Start(0).(w := Posted(Initial(0), "old")), "young");
    var posted := Start(0).(w := BothPosted());
    Accepts(BothPosted());
    var w := BothPosted().(requests := Requests(Reserved, []));
    WorkReachable(posted, OfPost(PostAccept(1)), w);
    s := DrainBegins(Start(0).(w := w));
  }

  lemma DrainBegins(s: System) returns (s': System)
    requires Reachable(s) && s.agent.Top? && s.delivered == {}
    requires s.w.requests == Requests(Reserved, []) && BothQueued(s.w)
    ensures Reachable(s') && HasAsked(s')
  {
    hide Apply, Reachable, JobRow;
    assert AnsweredOk(s.w, 1, "young");
    StepReachable(s, Wake("young", 1));
    var s1 := After(s, Wake("young", 1));
    StepReachable(s1, Clear);
    var s2 := After(s1, Clear);
    StepReachable(s2, Ask("agent"));
    Asks(s2.w);
    s' := After(s2, Ask("agent"));
  }

  ghost predicate HasPicked(s: System) {
    && s.agent == Asking(2) && !s.flag && s.delivered == {"young"} && BothQueued(s.w)
    && s.w.requests == Requests(Reserved, [Picked("old", JobRow("old").legacy)])
  }

  lemma AgentPicks(s: System) returns (s': System)
    requires Reachable(s) && HasAsked(s)
    ensures Reachable(s') && HasPicked(s')
  {
    hide Apply, Enabled, Reachable, JobRow, Requests;
    Sweeps(s.w);
    var w1 := Apply(s.w, OfClaim(ClaimSweep(2)));
    WorkReachable(s, OfClaim(ClaimSweep(2)), w1);
    var s1 := s.(w := w1);
    Selects(w1);
    var select := OfClaim(ClaimSelect(2, Some("old")));
    StepReachable(s1, Work(select));
    s' := After(s1, Work(select));
  }

  /** The upload of the older job fails, the claim loses it, and the agent waits. */
  lemma AgentWaits(s: System) returns (s': System)
    requires Reachable(s) && HasPicked(s)
    ensures Reachable(s') && s'.agent == Waiting(Some(LostRace("old"))) && !s'.flag && s'.delivered == {"young"}
    ensures Claimable(s'.w, "young")
  {
    hide Apply, Enabled, Reachable, JobRow, Requests, Claimable;
    var rows, claim := ReadsRows(s.w);
    var w1 := Apply(s.w, OfClaim(ClaimRead(2, rows)));
    WorkReachable(s, OfClaim(ClaimRead(2, rows)), w1);
    FailsUpload(w1, claim);
    var w2 := Apply(w1, OfPost(PostUploadFailed(0)));
    WorkReachable(s.(w := w1), OfPost(PostUploadFailed(0)), w2);
    LosesRace(w2, claim);
    var w3 := Apply(w2, OfClaim(ClaimTake(2, 0)));
    WorkReachable(s.(w := w2), OfClaim(ClaimTake(2, 0)), w3);
    var s3 := s.(w := w3);
    TheClaim(w3, Answered(UploadFailed), Replied(LostRace("old")));
    StepReachable(s3, Answer);
    s' := After(s3, Answer);
    YoungIsClaimable(w3);
  }

  /** The history: from the empty database to an agent that waits, with the event clear, while the job whose wake it was
      sent can be claimed. */
  lemma LostRaceHappens() returns (ss: seq<System>, steps: seq<Step>)
    ensures IsHistory(ss, steps)
    ensures ss[|ss| - 1].agent == Waiting(Some(LostRace("old"))) && !ss[|ss| - 1].flag
    ensures "young" in ss[|ss| - 1].delivered && Claimable(ss[|ss| - 1].w, "young")
  {
    hide After, CanStep, Start, HasAsked, HasPicked, Claimable;
    var s := AgentAsks();
    s := AgentPicks(s);
    s := AgentWaits(s);
    ss, steps :| IsHistory(ss, steps) && ss[|ss| - 1] == s;
  }
}
