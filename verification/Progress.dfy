/** The stored percent over runs: it never falls while no report for a job is written between the read and the write of
    another, and none says "failed", across requeues and re-claims too; otherwise a stale read can lower it. */
module Progress {
  import opened Basics
  import opened Tables
  import opened Pipeline
  import opened Identity
  import opened Rows
  import opened Finality
  import opened Runs

  /** Report i for job j has read the percent and not yet written. */
  predicate Reading(q: Request, j: JobId) {
    q.Report? && q.job == j && q.report.Read?
  }

  /** Progress reports for j that are written say "running" or "completed". */
  ghost predicate SaysProgress(w: World, a: Action, j: JobId)
    requires Enabled(w, a)
  {
    a.OfReport? && a.report.ReportWrite? && w.requests[a.report.r].job == j ==>
      w.requests[a.report.r].says in {SaysRunning, SaysCompleted}
  }

  predicate Active(w: World, j: JobId) {
    j in w.jobs && w.jobs[j].status in {Queued, Running}
  }

  /** Finished jobs do not become active again, and other steps leave the percent of an active one alone. */
  lemma ActiveStep(w: World, a: Action, j: JobId)
    requires Enabled(w, a) && Owned(w) && RowsOk(w) && Active(Apply(w, a), j)
    ensures Unborn(w.requests, j) || Active(w, j)
    ensures Active(w, j) && !WritesProgress(w, a, j) ==> Apply(w, a).jobs[j].percent == w.jobs[j].percent
  {
    hide Apply, Updated, Unborn, Owned, WritesProgress;
    if j in w.jobs {
      JobPersists(w, a, j);
      PercentDropsOnlyByReport(w, a, j);
      if w.jobs[j].status == Failed {
        FailedStays(w, a, j);
      } else if w.jobs[j].status == Completed {
        CompletedLeft(w, a, j);
      }
    } else if !Unborn(w.requests, j) {
      GoneStaysGone(w, a, j);
    }
  }

  /** A request that is reading after the step was reading before, or has just read. */
  lemma ReadingStep(w: World, a: Action, j: JobId, i: nat)
    requires Enabled(w, a) && i < |RequestsAfter(w, a)| && Reading(RequestsAfter(w, a)[i], j)
    ensures i < |w.requests|
    ensures if a.OfReport? && a.report.ReportRead? && a.report.r == i
            then j in w.jobs && RequestsAfter(w, a)[i].report.percent == w.jobs[j].percent
            else RequestsAfter(w, a)[i] == w.requests[i]
                 && !(a.OfReport? && a.report.ReportWrite? && a.report.r == i)
  {
    RequestsEvolve(w, a);
    if i < |w.requests| {
      assert SameOrigin(w.requests[i], RequestsAfter(w, a)[i]);
    }
    hide PostNext, ClaimNext;
  }

  lemma RowIsBorn(w: World, j: JobId)
    requires Owned(w) && j in w.jobs
    ensures !Unborn(w.requests, j)
  {
    hide Unborn;
  }

  /** One step never lowers the percent when its report, if any, read the value that is still stored and says progress. */
  lemma PercentStep(w: World, a: Action, j: JobId)
    requires Enabled(w, a) && RowsOk(w) && SaysProgress(w, a, j)
    requires WritesProgress(w, a, j) ==> w.requests[a.report.r].report.percent == w.jobs[j].percent
    requires j in w.jobs && j in Apply(w, a).jobs
    ensures Apply(w, a).jobs[j].percent >= w.jobs[j].percent
  {
    hide Apply, Updated, NewPercent, RowsOk;
    JobPersists(w, a, j);
    PercentDropsOnlyByReport(w, a, j);
    if WritesProgress(w, a, j) {
      RunningReportNeedsStaleRead(w, a, j);
    }
  }

  // ---------- where the value of a report comes from

  predicate Reads(a: Action, r: nat) {
    a.OfReport? && a.report.ReportRead? && a.report.r == r
  }

  predicate Writes(a: Action, r: nat) {
    a.OfReport? && a.report.ReportWrite? && a.report.r == r
  }

  /** No other report for j is written between the read and the write of one report for j. Reports that read and are then
      abandoned do not matter. */
  ghost predicate WritesApart(ws: seq<World>, acts: seq<Action>, j: JobId)
    requires IsRun(ws, acts)
  {
    forall l, n, m, r ::
      0 <= l < n < m < |acts| && Reads(acts[l], r) && Writes(acts[m], r) && WritesProgress(ws[m], acts[m], j) ==>
        !WritesProgress(ws[n], acts[n], j)
  }

  /** A report that is between its read and its write read the percent of its job at an earlier step, the only read of it. */
  lemma {:induction false} ReadHasOrigin(ws: seq<World>, acts: seq<Action>, m: nat, r: nat, j: JobId) returns (l: nat)
    requires IsRun(ws, acts) && m < |ws| && r < |ws[m].requests| && Reading(ws[m].requests[r], j)
    ensures l < m && Reads(acts[l], r) && j in ws[l].jobs
    ensures ws[m].requests[r].report.percent == ws[l].jobs[j].percent
  {
    hide Chained, Apply, Enabled, Owned, RowsOk;
    assert m > 0 by {
      NoRequestsAtFirst(ws, acts);
    }
    StepOf(ws, acts, m - 1);
    ApplyRequests(ws[m - 1], acts[m - 1]);
    ReadingStep(ws[m - 1], acts[m - 1], j, r);
    if Reads(acts[m - 1], r) {
      l := m - 1;
    } else {
      l := ReadHasOrigin(ws, acts, m - 1, r, j);
    }
    hide RequestsAfter;
  }

  lemma NoRequestsAtFirst(ws: seq<World>, acts: seq<Action>)
    requires IsRun(ws, acts)
    ensures ws[0].requests == []
  {
  }

  /** While no report for j is written, the percent of an active job stays what it is. */
  lemma {:induction false} PercentKept(ws: seq<World>, acts: seq<Action>, l: nat, m: nat, j: JobId)
    requires IsRun(ws, acts) && l <= m < |ws| && j in ws[l].jobs && Active(ws[m], j)
    requires forall n :: l <= n < m ==> !WritesProgress(ws[n], acts[n], j)
    ensures Active(ws[l], j) && ws[m].jobs[j].percent == ws[l].jobs[j].percent
  {
    hide Chained, Apply, Enabled, Owned, RowsOk, Unborn, WritesProgress;
    if l < m {
      BornAndPresent(ws, acts, l, m - 1, j);
      StepOf(ws, acts, m - 1);
      ActiveStep(ws[m - 1], acts[m - 1], j);
      PercentKept(ws, acts, l, m - 1, j);
    }
  }

  lemma WriterWasReading(w: World, a: Action, j: JobId)
    requires Enabled(w, a) && WritesProgress(w, a, j)
    ensures a.report.r < |w.requests| && Reading(w.requests[a.report.r], j) && Writes(a, a.report.r) && Active(w, j)
    ensures forall r :: !Reads(a, r)
  {
  }

  lemma ReaderWritesNothing(w: World, a: Action, r: nat, j: JobId)
    requires Enabled(w, a) && Reads(a, r)
    ensures !WritesProgress(w, a, j)
  {
  }

  lemma EveryStepEnabled(ws: seq<World>, acts: seq<Action>)
    requires IsRun(ws, acts)
    ensures forall n :: 0 <= n < |acts| ==> Enabled(ws[n], acts[n])
  {
    hide Enabled, Apply;
  }

  /** A report that is written apart from others carries the percent that is still stored. */
  lemma WrittenReadIsCurrent(ws: seq<World>, acts: seq<Action>, m: nat, j: JobId)
    requires IsRun(ws, acts) && m < |acts| && Enabled(ws[m], acts[m]) && WritesProgress(ws[m], acts[m], j)
    requires WritesApart(ws, acts, j)
    ensures ws[m].requests[acts[m].report.r].report.percent == ws[m].jobs[j].percent
  {
    hide Chained, Apply, Enabled, WritesProgress, Invariant, Reading, Active, Reads, Writes;
    WriterWasReading(ws[m], acts[m], j);
    var r := acts[m].report.r;
    var l := ReadHasOrigin(ws, acts, m, r, j);
    StepOf(ws, acts, l);
    ReaderWritesNothing(ws[l], acts[l], r, j);
    EveryStepEnabled(ws, acts);
    PercentKept(ws, acts, l, m, j);
  }

  /** No report with another status is written for j in the run. */
  ghost predicate OnlyProgress(ws: seq<World>, acts: seq<Action>, j: JobId)
    requires IsRun(ws, acts)
  {
    forall m :: 0 <= m < |acts| ==> SaysProgress(ws[m], acts[m], j)
  }

  lemma PercentInRange(ws: seq<World>, acts: seq<Action>, k: nat, j: JobId)
    requires IsRun(ws, acts) && k < |ws| && j in ws[k].jobs
    ensures 0 <= ws[k].jobs[j].percent <= 100
  {
    InvariantHolds(ws, acts, k);
    assert RowOk(ws[k].jobs[j]);
    hide Chained;
  }

  /** The last step of PercentNeverFalls. */
  lemma PercentRunStep(ws: seq<World>, acts: seq<Action>, k: nat, j: JobId)
    requires IsRun(ws, acts) && k < |acts|
    requires WritesApart(ws, acts, j)
    requires OnlyProgress(ws, acts, j)
    requires !Unborn(ws[k].requests, j) && j in ws[k + 1].jobs
    ensures j in ws[k].jobs && ws[k].jobs[j].percent <= ws[k + 1].jobs[j].percent
  {
    assert SaysProgress(ws[k], acts[k], j);
    hide Chained, Apply, Enabled, SaysProgress, Unborn, Owned, RowsOk, WritesApart, WritesProgress;
    StepOf(ws, acts, k);
    if j !in ws[k].jobs {
      GoneStaysGone(ws[k], acts[k], j);
      assert false;
    }
    if WritesProgress(ws[k], acts[k], j) {
      WrittenReadIsCurrent(ws, acts, k, j);
    }
    PercentStep(ws[k], acts[k], j);
  }

  /** Progress never goes backwards, across requeues and re-claims too, as long as each report for the job that is written
      is written before another one is read and written, and none says failed. */
  lemma {:induction false} PercentNeverFalls(ws: seq<World>, acts: seq<Action>, i: nat, k: nat, j: JobId)
    requires IsRun(ws, acts) && i <= k < |ws|
    requires WritesApart(ws, acts, j)
    requires OnlyProgress(ws, acts, j)
    requires j in ws[i].jobs && j in ws[k].jobs
    ensures 0 <= ws[i].jobs[j].percent <= ws[k].jobs[j].percent <= 100
  {
    hide Chained, WritesApart, OnlyProgress, Unborn;
    PercentInRange(ws, acts, k, j);
    if k > i {
      BornAndPresent(ws, acts, i, k - 1, j);
      PercentRunStep(ws, acts, k - 1, j);
      PercentNeverFalls(ws, acts, i, k - 1, j);
    }
  }

  lemma {:induction false} BornAndPresent(ws: seq<World>, acts: seq<Action>, i: nat, k: nat, j: JobId)
    requires IsRun(ws, acts) && i <= k < |ws| && j in ws[i].jobs
    ensures !Unborn(ws[k].requests, j)
  {
    hide Chained, Apply, Enabled, Unborn, Owned;
    if k == i {
      InvariantHolds(ws, acts, k);
      RowIsBorn(ws[k], j);
    } else {
      BornAndPresent(ws, acts, i, k - 1, j);
      StepOf(ws, acts, k - 1);
      StaysBorn(ws[k - 1], acts[k - 1], j);
      ApplyRequests(ws[k - 1], acts[k - 1]);
      hide RequestsAfter;
    }
  }

  // ---------- two reports handled together

  lemma BeginReport(w: World, j: JobId, sent: real)
    requires IsRunning(w, j)
    ensures var a := OfReport(ReportBegin(j, SaysRunning, Some(sent)));
            var w' := Apply(w, a);
            && Enabled(w, a) && j in w'.jobs && w'.jobs[j] == w.jobs[j]
            && w'.requests == w.requests + [Report(j, SaysRunning, Some(sent), w.clock, Arrived)]
  {
    JobPersists(w, OfReport(ReportBegin(j, SaysRunning, Some(sent))), j);
    hide Apply;
  }

  lemma ReadReport(w: World, j: JobId, r: nat)
    requires IsRunning(w, j) && ReportAt(w, r) && w.requests[r].job == j && w.requests[r].report == Arrived
    ensures var a := OfReport(ReportRead(r));
            var w' := Apply(w, a);
            && Enabled(w, a) && j in w'.jobs && w'.jobs[j] == w.jobs[j]
            && w'.requests == w.requests[r := w.requests[r].(report := Read(w.jobs[j].percent, w.clock))]
  {
    JobPersists(w, OfReport(ReportRead(r)), j);
    hide Apply;
  }

  lemma WriteReport(w: World, j: JobId, r: nat, n: int)
    requires IsRunning(w, j) && ReportAt(w, r) && w.requests[r].job == j && w.requests[r].report.Read?
    requires w.requests[r].says == SaysRunning && w.requests[r].sent == Some(n as real)
    requires w.requests[r].report.percent <= n <= 100 && 0 <= n
    ensures var a := OfReport(ReportWrite(r, ""));
            var w' := Apply(w, a);
            && Enabled(w, a) && IsRunning(w', j) && w'.jobs[j].percent == n
            && w'.requests == w.requests[r := w.requests[r].(report := Written)]
  {
    JobPersists(w, OfReport(ReportWrite(r, "")), j);
    assert JsRound(n as real) == n;
    hide Apply, JsRound;
  }

  function StaleActions(w: World, j: JobId, low: int, high: int): seq<Action> {
    var r := |w.requests|;
    [OfReport(ReportBegin(j, SaysRunning, Some(high as real))), OfReport(ReportBegin(j, SaysRunning, Some(low as real))),
     OfReport(ReportRead(r)), OfReport(ReportRead(r + 1)), OfReport(ReportWrite(r, "")), OfReport(ReportWrite(r + 1, ""))]
  }

  /** From every world in which j is running: two running reports that both read before either writes take the stored
      percent up to the one and then down to the other. */
  lemma StaleReadLowersPercent(w: World, j: JobId, low: int, high: int) returns (ws: seq<World>)
    requires IsRunning(w, j) && 0 <= w.jobs[j].percent <= low < high <= 100
    ensures |ws| == 7 && ws[0] == w
    ensures var acts := StaleActions(w, j, low, high);
            forall k :: 0 <= k < 6 ==> Enabled(ws[k], acts[k]) && ws[k + 1] == Apply(ws[k], acts[k])
    ensures IsRunning(ws[5], j) && ws[5].jobs[j].percent == high
    ensures IsRunning(ws[6], j) && ws[6].jobs[j].percent == low
  {
    hide Apply, Enabled, NewPercent;
    var r := |w.requests|;
    var acts := StaleActions(w, j, low, high);
    BeginReport(w, j, high as real);
    var w1 := Apply(w, acts[0]);
    BeginReport(w1, j, low as real);
    var w2 := Apply(w1, acts[1]);
    ReadReport(w2, j, r);
    var w3 := Apply(w2, acts[2]);
    ReadReport(w3, j, r + 1);
    var w4 := Apply(w3, acts[3]);
    WriteReport(w4, j, r, high);
    var w5 := Apply(w4, acts[4]);
    WriteReport(w5, j, r + 1, low);
    ws := [w, w1, w2, w3, w4, w5, Apply(w5, acts[5])];
  }
}
