/** The lease protocol over whole runs: who holds a job, how often it was won, recovered and finished, and why
    it was recovered. */
module Lease {
  import opened Basics
  import opened Tables
  import opened Pipeline
  import opened Identity
  import opened Rows

  // ---------- what a history says about one job

  predicate Requeues(e: Event, j: JobId) { e.Sweep? && j in e.requeued }

  predicate Takes(e: Event, j: JobId) { e.Take? && e.taken == j }

  predicate Finishes(e: Event, j: JobId) { e.Finish? && e.finished == j }

  predicate Beats(e: Event, j: JobId) { (e.Take? && e.taken == j) || (e.Beat? && e.beating == j) }

  function Last(log: seq<Event>): Event
    requires log != []
  {
    log[|log| - 1]
  }

  function Front(log: seq<Event>): seq<Event>
    requires log != []
  {
    log[..|log| - 1]
  }

  function Wins(log: seq<Event>, j: JobId): nat {
    if log == [] then 0 else Wins(Front(log), j) + if Takes(Last(log), j) then 1 else 0
  }

  function Recoveries(log: seq<Event>, j: JobId): nat {
    if log == [] then 0 else Recoveries(Front(log), j) + if Requeues(Last(log), j) then 1 else 0
  }

  function FinishCount(log: seq<Event>, j: JobId): nat {
    if log == [] then 0 else FinishCount(Front(log), j) + if Finishes(Last(log), j) then 1 else 0
  }

  /** When the job's lease was last renewed: the stamp of its last claim or running report. */
  function LastBeat(log: seq<Event>, j: JobId): Option<int> {
    if log == [] then None
    else if Beats(Last(log), j) then Some(Last(log).stamp)
    else LastBeat(Front(log), j)
  }

  datatype Holding = Free | Held | Broken

  /** The lease automaton: a claim needs a free job, a recovery a held one. */
  function HoldingAfter(log: seq<Event>, j: JobId): Holding {
    if log == [] then Free
    else
      var before := HoldingAfter(Front(log), j);
      if Takes(Last(log), j) then (if before == Free then Held else Broken)
      else if Requeues(Last(log), j) then (if before == Held then Free else Broken)
      else before
  }

  /** Every recovery found a lease that had not been renewed for two hours. */
  ghost predicate SweepsJustified(log: seq<Event>) {
    forall k, j :: 0 <= k < |log| && Requeues(log[k], j) ==>
      LastBeat(log[..k], j).Some? && LastBeat(log[..k], j).value <= log[k].at - LEASE_MS
  }

  // ---------- the invariant

  function RowOf(w: World, j: JobId): Option<Job> {
    if j in w.jobs then Some(w.jobs[j]) else None
  }

  ghost predicate Consistent(log: seq<Event>, j: JobId, unborn: bool, row: Option<Job>) {
    && HoldingAfter(log, j) != Broken
    && FinishCount(log, j) <= 1
    && (unborn ==> HoldingAfter(log, j) == Free && FinishCount(log, j) == 0)
    && (row.Some? ==>
          match row.value.status
          case Queued => HoldingAfter(log, j) == Free && FinishCount(log, j) == 0
          case Running => HoldingAfter(log, j) == Held && FinishCount(log, j) == 0
                          && LastBeat(log, j) == row.value.claimedAt
          case Completed => HoldingAfter(log, j) == Held && FinishCount(log, j) == 1
          case Failed => true)
  }

  ghost predicate JobLog(w: World, j: JobId) {
    Consistent(w.log, j, Unborn(w.requests, j), RowOf(w, j))
  }

  ghost predicate LogOk(w: World) {
    (forall j :: JobLog(w, j)) && SweepsJustified(w.log)
  }

  /** At most one event a step; what it adds to the history of one job. */
  lemma OneEvent(w: World, a: Action)
    requires Enabled(w, a)
    ensures |EventsOf(w, a)| <= 1
  {
  }

  lemma HistoryGrows(log: seq<Event>, e: Event, j: JobId)
    ensures HoldingAfter(log + [e], j) ==
            if Takes(e, j) then (if HoldingAfter(log, j) == Free then Held else Broken)
            else if Requeues(e, j) then (if HoldingAfter(log, j) == Held then Free else Broken)
            else HoldingAfter(log, j)
    ensures FinishCount(log + [e], j) == FinishCount(log, j) + if Finishes(e, j) then 1 else 0
    ensures LastBeat(log + [e], j) == if Beats(e, j) then Some(e.stamp) else LastBeat(log, j)
  {
    assert Front(log + [e]) == log && Last(log + [e]) == e;
  }

  /** How the row of job j and the event of the step go together. */
  datatype RowEvent = Unrelated | Claimed(stamp: int) | Renewed(stamp: int) | Lost | Ended

  ghost predicate Related(e: seq<Event>, j: JobId, x: RowEvent) {
    match x
    case Unrelated => e == [] || (!Takes(e[0], j) && !Requeues(e[0], j) && !Finishes(e[0], j) && !Beats(e[0], j))
    case Claimed(stamp) => e == [Take(j, stamp)]
    case Renewed(stamp) => e == [Beat(j, stamp)]
    case Lost => |e| == 1 && Requeues(e[0], j)
    case Ended => |e| == 1 && Finishes(e[0], j)
  }

  ghost predicate RowMoves(before: Job, after: Job, x: RowEvent) {
    match x
    case Unrelated =>
      || (after.status == before.status && after.claimedAt == before.claimedAt)
      || after.status == Failed
    case Claimed(stamp) => before.status == Queued && after.status == Running && after.claimedAt == Some(stamp)
    case Renewed(stamp) => before.status == Running && after.status == Running && after.claimedAt == Some(stamp)
    case Lost => before.status == Running && after.status == Queued
    case Ended => before.status == Running && (after.status == Completed || after.status == Failed)
  }

  function RowEventOf(w: World, a: Action, j: JobId): RowEvent
    requires Enabled(w, a) && j in w.jobs
  {
    match a
    case OfClaim(ClaimSweep(r)) => if LeaseLost(w.jobs[j], w.clock) then Lost else Unrelated
    case OfClaim(ClaimTake(r, stamp)) =>
      if w.requests[r].claim.ready == j && CanTake(w, j) then Claimed(stamp) else Unrelated
    case OfReport(ReportWrite(r, text)) =>
      var q := w.requests[r];
      if q.job != j || !IsRunning(w, j) then Unrelated
      else if q.says == SaysFailed || q.says == SaysCompleted then Ended
      else Renewed(q.stamp)
    case OfReport(Succeeded(id, stamp, text)) => if id == j && IsRunning(w, j) then Ended else Unrelated
    case OfReport(FailedReport(id, stamp)) => if id == j && IsRunning(w, j) then Ended else Unrelated
    case _ => Unrelated
  }

  lemma StepRelates(w: World, a: Action, j: JobId)
    requires Enabled(w, a) && j in w.jobs
    ensures Related(EventsOf(w, a), j, RowEventOf(w, a, j))
    ensures RowMoves(w.jobs[j], Updated(w, a, j), RowEventOf(w, a, j))
  {
    hide NewPercent;
  }

  /** A job without a row is in no event. */
  lemma NoRowNoEvent(w: World, a: Action, j: JobId)
    requires Enabled(w, a) && j !in w.jobs
    ensures Related(EventsOf(w, a), j, Unrelated)
  {
  }

  lemma ConsistentKept(log: seq<Event>, e: seq<Event>, j: JobId, x: RowEvent,
                       unborn: bool, unborn': bool, row: Option<Job>, row': Option<Job>)
    requires |e| <= 1 && Related(e, j, x)
    requires Consistent(log, j, unborn, row)
    requires unborn' ==> unborn && row.None?
    requires row.None? ==> x.Unrelated? && (row'.Some? ==> unborn && row'.value.status == Queued)
    requires row.Some? && row'.None? ==> x.Unrelated?
    requires row.Some? && row'.Some? ==> RowMoves(row.value, row'.value, x)
    ensures Consistent(log + e, j, unborn', row')
  {
    if e == [] {
      assert log + e == log;
    } else {
      assert e == [e[0]];
      HistoryGrows(log, e[0], j);
    }
  }

  /** What the step did to job j's row, in the terms of ConsistentKept. */
  lemma RowStep(w: World, a: Action, j: JobId)
    requires Enabled(w, a) && Owned(w)
    ensures var x := if j in w.jobs then RowEventOf(w, a, j) else Unrelated;
            && Related(EventsOf(w, a), j, x)
            && (j in w.jobs && j !in JobsAfter(w, a) ==> x.Unrelated?)
            && (j in w.jobs && j in JobsAfter(w, a) ==> RowMoves(w.jobs[j], JobsAfter(w, a)[j], x))
            && (j !in w.jobs && j in JobsAfter(w, a) ==>
                Unborn(w.requests, j) && JobsAfter(w, a)[j].status == Queued)
  {
    if j in w.jobs {
      StepRelates(w, a, j);
    } else {
      NoRowNoEvent(w, a, j);
      if a.OfPost? && a.post.PostInsert? {
        EarlyIsUnborn(w.requests, a.post.r);
      }
    }
    hide EventsOf, Updated, Unborn;
  }

  lemma JobLogKept(w: World, a: Action, j: JobId)
    requires Enabled(w, a) && Owned(w) && JobLog(w, j)
    ensures JobLog(Apply(w, a), j)
  {
    var w' := Apply(w, a);
    RequestsEvolve(w, a);
    if Unborn(w'.requests, j) {
      UnbornBefore(w.requests, w'.requests, j);
    }
    RowStep(w, a, j);
    OneEvent(w, a);
    hide EventsOf, RequestsAfter, JobsAfter, Updated, Enabled, Unborn, RowMoves, Related, Consistent, RowEventOf;
    ConsistentKept(w.log, EventsOf(w, a), j, if j in w.jobs then RowEventOf(w, a, j) else Unrelated,
                   Unborn(w.requests, j), Unborn(w'.requests, j), RowOf(w, j), RowOf(w', j));
  }

  lemma SweepsJustifiedKept(w: World, a: Action)
    requires Enabled(w, a) && LogOk(w)
    ensures SweepsJustified(Apply(w, a).log)
  {
    var e := EventsOf(w, a);
    OneEvent(w, a);
    var log' := w.log + e;
    forall k, j | 0 <= k < |log'| && Requeues(log'[k], j)
      ensures LastBeat(log'[..k], j).Some? && LastBeat(log'[..k], j).value <= log'[k].at - LEASE_MS
    {
      if k < |w.log| {
        assert log'[..k] == w.log[..k] && log'[k] == w.log[k];
      } else {
        assert log'[..k] == w.log && JobLog(w, j);
      }
    }
    hide EventsOf, Updated, RequestsAfter;
  }

  lemma LogOkKept(w: World, a: Action)
    requires Enabled(w, a) && Owned(w) && LogOk(w)
    ensures LogOk(Apply(w, a))
  {
    hide Apply, JobLog, Enabled, SweepsJustified;
    forall j
      ensures JobLog(Apply(w, a), j)
    {
      JobLogKept(w, a, j);
    }
    SweepsJustifiedKept(w, a);
  }

  // ---------- what the invariant means

  /** Claims won are recoveries, plus one while the lease is held. */
  lemma {:induction false} WinsCount(log: seq<Event>, j: JobId)
    requires HoldingAfter(log, j) != Broken
    ensures Wins(log, j) == Recoveries(log, j) + if HoldingAfter(log, j) == Held then 1 else 0
  {
    if log != [] {
      WinsCount(Front(log), j);
    }
  }

  lemma {:induction false} NeverBrokenBefore(log: seq<Event>, j: JobId, k: nat)
    requires HoldingAfter(log, j) != Broken && k <= |log|
    ensures HoldingAfter(log[..k], j) != Broken
  {
    if k == |log| {
      assert log[..k] == log;
    } else {
      NeverBrokenBefore(Front(log), j, k);
      assert Front(log)[..k] == log[..k];
    }
  }

  lemma {:induction false} HeldUntilRecovered(log: seq<Event>, j: JobId, i: nat, k: nat)
    requires i < k <= |log|
    requires HoldingAfter(log[..k], j) != Broken
    requires Takes(log[i], j)
    requires forall m :: i < m < k ==> !Requeues(log[m], j)
    ensures HoldingAfter(log[..k], j) == Held
  {
    assert Front(log[..k]) == log[..k - 1] && Last(log[..k]) == log[k - 1];
    if k > i + 1 {
      HeldUntilRecovered(log, j, i, k - 1);
    }
  }

  /** Between two successful claims of one job there is a recovery of it. */
  lemma RecoveryBetweenWins(log: seq<Event>, j: JobId, i: nat, k: nat)
    requires HoldingAfter(log, j) != Broken
    requires i < k < |log| && Takes(log[i], j) && Takes(log[k], j)
    ensures exists m :: i < m < k && Requeues(log[m], j)
  {
    NeverBrokenBefore(log, j, k);
    NeverBrokenBefore(log, j, k + 1);
    assert Front(log[..k + 1]) == log[..k] && Last(log[..k + 1]) == log[k];
    if forall m :: i < m < k ==> !Requeues(log[m], j) {
      HeldUntilRecovered(log, j, i, k);
      assert false;
    }
  }

  /** For each job: claims won are recoveries when queued, recoveries plus one when running or completed. */
  lemma ClaimExclusivity(w: World, j: JobId)
    requires LogOk(w) && j in w.jobs
    ensures w.jobs[j].status == Queued ==> Wins(w.log, j) == Recoveries(w.log, j)
    ensures w.jobs[j].status in {Running, Completed} ==> Wins(w.log, j) == Recoveries(w.log, j) + 1
    ensures w.jobs[j].status == Failed ==> Recoveries(w.log, j) <= Wins(w.log, j) <= Recoveries(w.log, j) + 1
  {
    assert JobLog(w, j);
    WinsCount(w.log, j);
  }

  /** After the recovery batch at time t every undeleted running job was renewed within two hours, and no
      undeleted expired public job is queued or running. */
  lemma SweepIsComplete(w: World, r: nat, j: JobId)
    requires Enabled(w, OfClaim(ClaimSweep(r))) && RowsOk(w)
    requires j in Apply(w, OfClaim(ClaimSweep(r))).jobs
    ensures var job := Apply(w, OfClaim(ClaimSweep(r))).jobs[j];
            !job.deleted ==>
              && (job.status == Running ==> job.claimedAt.Some? && job.claimedAt.value > w.clock - LEASE_MS)
              && (job.owner == Public && job.status in {Queued, Running} ==> job.publicExpiry.value > w.clock)
  {
    assert RowOk(w.jobs[j]);
    hide RequestsAfter, EventsOf;
  }

  /** The same batch is also safe: it changes a row only when its lease is lost or its public life is over. */
  lemma SweepIsSafe(w: World, r: nat, j: JobId)
    requires Enabled(w, OfClaim(ClaimSweep(r))) && j in w.jobs
    ensures j in Apply(w, OfClaim(ClaimSweep(r))).jobs
    ensures Apply(w, OfClaim(ClaimSweep(r))).jobs[j] != w.jobs[j] <==>
            LeaseLost(w.jobs[j], w.clock) || PublicOverdue(w.jobs[j], w.clock)
  {
    hide RequestsAfter, EventsOf;
  }
}
