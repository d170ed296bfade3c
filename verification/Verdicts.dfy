/** A claimed job among everything else that goes on in the Worker: it stays running exactly until something ends its
    lease, and the first terminal report decides it for good. */
module Verdicts {
  import opened Basics
  import opened Tables
  import opened Pipeline
  import opened Identity
  import opened Rows
  import opened Lease
  import opened Quota
  import opened Snapshots
  import opened Tokens
  import opened Runs
  import Agent

  /** A report that ends a running job. */
  predicate Ends(w: World, m: ReportStep, j: JobId)
    requires ReportEnabled(w, m)
  {
    match m
    case ReportWrite(r, text) => w.requests[r].job == j && w.requests[r].says in {SaysFailed, SaysCompleted}
    case Succeeded(id, stamp, text) => id == j
    case FailedReport(id, stamp) => id == j
    case _ => false
  }

  predicate SaysDone(w: World, m: ReportStep)
    requires ReportEnabled(w, m)
  {
    m.Succeeded? || (m.ReportWrite? && w.requests[m.r].says == SaysCompleted)
  }

  /** The step does not end the lease of running job j. */
  predicate Harmless(w: World, a: Action, j: JobId)
    requires Enabled(w, a) && j in w.jobs
  {
    match a
    case OfClaim(ClaimSweep(r)) => !LeaseLost(w.jobs[j], w.clock) && !PublicOverdue(w.jobs[j], w.clock)
    case OfClaim(ClaimReject(r)) => w.requests[r].claim.picked != j
    case OfPost(PostUploadFailed(r)) => w.requests[r].id != j
    case OfReport(m) => !Ends(w, m, j)
    case _ => true
  }

  /** A running job stays running exactly over harmless steps. */
  lemma StaysRunning(w: World, a: Action, j: JobId)
    requires Enabled(w, a) && j in w.jobs && w.jobs[j].status == Running
    ensures Updated(w, a, j).status == Running <==> Harmless(w, a, j)
    ensures a.OfReport? && Ends(w, a.report, j) ==>
      && Updated(w, a, j).status == (if SaysDone(w, a.report) then Completed else Failed)
      && Updated(w, a, j).finishedAt.Some?
  {
    hide NewPercent;
  }

  lemma {:induction false} AcceptedForever(ws: seq<World>, acts: seq<Action>, i: nat, k: nat, p: nat, j: JobId)
    requires IsRun(ws, acts) && i <= k < |ws| && AnsweredOk(ws[i], p, j)
    ensures AnsweredOk(ws[k], p, j) && j in ws[k].jobs
  {
    hide Chained, Apply, Enabled, RowsOk, LogOk, QuotaOk, SnapshotsOk, TokensOk, UniqueIds, Unborn;
    InvariantHolds(ws, acts, k);
    if k > i {
      AcceptedForever(ws, acts, i, k - 1, p, j);
      StepOf(ws, acts, k - 1);
      AcceptedRests(ws[k - 1], acts[k - 1], p, j);
    }
  }

  /** While only harmless steps are taken. */
  ghost predicate Undisturbed(ws: seq<World>, acts: seq<Action>, i: nat, k: nat, j: JobId)
    requires IsRun(ws, acts) && i <= k < |ws|
  {
    forall m :: i <= m < k && j in ws[m].jobs ==> Harmless(ws[m], acts[m], j)
  }

  lemma RunningStep(w: World, a: Action, j: JobId)
    requires Enabled(w, a) && j in w.jobs && w.jobs[j].status == Running && j in Apply(w, a).jobs
    ensures Apply(w, a).jobs[j].status == Running <==> Harmless(w, a, j)
    ensures a.OfReport? && Ends(w, a.report, j) ==>
      Apply(w, a).jobs[j].status == (if SaysDone(w, a.report) then Completed else Failed)
  {
    hide Apply, Updated, Harmless, Ends, SaysDone;
    JobPersists(w, a, j);
    StaysRunning(w, a, j);
  }

  lemma {:induction false} StaysRunningUndisturbed(ws: seq<World>, acts: seq<Action>, i: nat, k: nat, p: nat, j: JobId)
    requires IsRun(ws, acts) && i <= k < |ws|
    requires AnsweredOk(ws[i], p, j) && j in ws[i].jobs && ws[i].jobs[j].status == Running
    requires Undisturbed(ws, acts, i, k, j)
    ensures AnsweredOk(ws[k], p, j) && j in ws[k].jobs && ws[k].jobs[j].status == Running
  {
    hide Chained, Apply, Enabled, Owned, RowsOk, LogOk, QuotaOk, SnapshotsOk, TokensOk, AnsweredOk, Harmless;
    AcceptedForever(ws, acts, i, k, p, j);
    if k > i {
      StaysRunningUndisturbed(ws, acts, i, k - 1, p, j);
      StepOf(ws, acts, k - 1);
      RunningStep(ws[k - 1], acts[k - 1], j);
    }
  }

  /** The first terminal report decides: among any other steps of any other requests, a job of an accepted POST that is
      running at step i and undisturbed until a report ends it at step t is completed at 100% from then on if that
      report says so, and failed from then on otherwise. Later reports, claims and recoveries change nothing. */
  lemma FirstReportDecides(ws: seq<World>, acts: seq<Action>, i: nat, t: nat, k: nat, p: nat, j: JobId)
    requires IsRun(ws, acts) && i <= t < k < |ws|
    requires AnsweredOk(ws[i], p, j) && j in ws[i].jobs && ws[i].jobs[j].status == Running
    requires Undisturbed(ws, acts, i, t, j)
    requires acts[t].OfReport? && ReportEnabled(ws[t], acts[t].report) && Ends(ws[t], acts[t].report, j)
    ensures j in ws[k].jobs
    ensures ws[k].jobs[j].status == (if SaysDone(ws[t], acts[t].report) then Completed else Failed)
    ensures SaysDone(ws[t], acts[t].report) ==> ws[k].jobs[j].percent == 100
  {
    hide Chained, Apply, Enabled, Owned, RowsOk, LogOk, QuotaOk, SnapshotsOk, TokensOk;
    hide AnsweredOk, Harmless, Ends, SaysDone, Undisturbed;
    StaysRunningUndisturbed(ws, acts, i, t, p, j);
    AcceptedForever(ws, acts, i, t + 1, p, j);
    AcceptedForever(ws, acts, i, k, p, j);
    StepOf(ws, acts, t);
    RunningStep(ws[t], acts[t], j);
    if SaysDone(ws[t], acts[t].report) {
      CompletedIsAbsorbing(ws, acts, t + 1, k, p, j);
    } else {
      FailedIsAbsorbing(ws, acts, t + 1, k, j);
    }
    AtMostOneFinish(ws, acts, k, j);
  }

  // ---------- the agent's messages among everything else

  /** The statement of a report handler that may change row j. */
  predicate WritesReport(w: World, m: ReportStep, j: JobId)
    requires ReportEnabled(w, m)
  {
    match m
    case ReportWrite(r, text) => w.requests[r].job == j
    case Succeeded(id, stamp, text) => id == j
    case FailedReport(id, stamp) => id == j
    case _ => false
  }

  /** That statement belongs to the handling of this message of the agent. */
  predicate Carries(w: World, m: ReportStep, msg: Agent.Message)
    requires ReportEnabled(w, m)
  {
    match m
    case ReportWrite(r, text) =>
      msg.Progress? && w.requests[r].says == msg.says && w.requests[r].sent == Some(msg.percent)
    case Succeeded(id, stamp, text) => msg.ReportSucceeded?
    case FailedReport(id, stamp) => msg.ReportFailed?
    case _ => false
  }

  /** The reports written for j from step i until step t carry messages of the outbox before its last one, each any number
      of times and in any order; messages may be lost. The one written at t carries the last message. */
  ghost predicate Delivers(ws: seq<World>, acts: seq<Action>, i: nat, t: nat, j: JobId, box: seq<Agent.Message>)
    requires IsRun(ws, acts) && i <= t < |acts| && box != []
  {
    && (forall m :: i <= m < t && Reports(ws[m], acts[m], j) ==>
          exists n :: 0 <= n < |box| - 1 && Carries(ws[m], acts[m].report, box[n]))
    && Reports(ws[t], acts[t], j) && Carries(ws[t], acts[t].report, box[|box| - 1])
  }

  predicate Reports(w: World, a: Action, j: JobId) {
    a.OfReport? && ReportEnabled(w, a.report) && WritesReport(w, a.report, j)
  }

  /** No recovery batch finds the lease of j lost or its public life over. */
  ghost predicate LeaseKept(ws: seq<World>, acts: seq<Action>, i: nat, t: nat, j: JobId)
    requires IsRun(ws, acts) && i <= t <= |acts|
  {
    forall m :: i <= m < t && acts[m].OfClaim? && acts[m].claim.ClaimSweep? && j in ws[m].jobs ==>
      !LeaseLost(ws[m].jobs[j], ws[m].clock) && !PublicOverdue(ws[m].jobs[j], ws[m].clock)
  }

  /** An interim message ends nothing; a terminal one ends the job as it says. */
  lemma MessageEnds(w: World, m: ReportStep, j: JobId, msg: Agent.Message)
    requires ReportEnabled(w, m) && WritesReport(w, m, j) && Carries(w, m, msg)
    ensures Agent.IsInterim(msg) && !Agent.IsTerminal(msg) ==> !Ends(w, m, j)
    ensures Agent.IsTerminal(msg) ==> Ends(w, m, j) && (SaysDone(w, m) <==> msg.ReportSucceeded?)
  {
  }

  lemma EndingIsWritten(w: World, m: ReportStep, j: JobId)
    requires ReportEnabled(w, m) && Ends(w, m, j)
    ensures WritesReport(w, m, j)
  {
  }

  /** A step of a run in which the lease is kept and a report, if any, is interim does not end the lease. */
  lemma KeptIsHarmless(w: World, a: Action, p: nat, j: JobId)
    requires Enabled(w, a) && Invariant(w) && AnsweredOk(w, p, j) && j in w.jobs
    requires a.OfClaim? && a.claim.ClaimSweep? ==> !LeaseLost(w.jobs[j], w.clock) && !PublicOverdue(w.jobs[j], w.clock)
    requires Reports(w, a, j) ==> !Ends(w, a.report, j)
    ensures Harmless(w, a, j)
  {
    hide Apply, Owned, RowsOk, LogOk, QuotaOk, SnapshotsOk, TokensOk, LeaseLost, PublicOverdue, AnsweredOk, WritesReport;
    NotRejected(w, a);
    AcceptedRests(w, a, p, j);
    if a.OfReport? && Ends(w, a.report, j) {
      EndingIsWritten(w, a.report, j);
    }
  }

  lemma NotRejected(w: World, a: Action)
    requires Enabled(w, a) && Invariant(w)
    ensures !(a.OfClaim? && a.claim.ClaimReject?)
  {
    if a.OfClaim? && a.claim.ClaimReject? {
      NeverUnreadable(w, a.claim.r);
      assert false;
    }
    hide Owned, RowsOk, LogOk, QuotaOk, TokensOk;
  }

  lemma {:induction false} UndisturbedUntil(ws: seq<World>, acts: seq<Action>, i: nat, k: nat, t: nat, p: nat, j: JobId,
                                            box: seq<Agent.Message>, verdict: bool)
    requires IsRun(ws, acts) && i <= k <= t < |acts| && AnsweredOk(ws[i], p, j)
    requires Agent.WellReported(box, verdict) && Delivers(ws, acts, i, t, j, box) && LeaseKept(ws, acts, i, t, j)
    ensures Undisturbed(ws, acts, i, k, j)
  {
    hide Chained, Apply, Enabled, Owned, RowsOk, LogOk, QuotaOk, SnapshotsOk, TokensOk, AnsweredOk, Harmless, Ends, Invariant;
    hide Reports, Carries, LeaseLost, PublicOverdue, Agent.Rising;
    forall m | i <= m < k && j in ws[m].jobs
      ensures Enabled(ws[m], acts[m]) && Harmless(ws[m], acts[m], j)
    {
      StepOf(ws, acts, m);
      AcceptedForever(ws, acts, i, m, p, j);
      if Reports(ws[m], acts[m], j) {
        InterimReport(ws[m], acts[m], j, box, verdict);
      }
      KeptIsHarmless(ws[m], acts[m], p, j);
    }
  }

  lemma InterimReport(w: World, a: Action, j: JobId, box: seq<Agent.Message>, verdict: bool)
    requires Reports(w, a, j) && Agent.WellReported(box, verdict)
    requires exists n :: 0 <= n < |box| - 1 && Carries(w, a.report, box[n])
    ensures !Ends(w, a.report, j)
  {
    hide Agent.Rising, Ends, Carries;
    var n :| 0 <= n < |box| - 1 && Carries(w, a.report, box[n]);
    assert box[..|box| - 1][n] == box[n];
    MessageEnds(w, a.report, j, box[n]);
  }

  /** The agent's verdict is the end of the job, among whatever else goes on: in any run of the Worker, from a world in
      which the job of an accepted POST is running, with its lease kept and its reports those of the agent's outbox, the
      job ends with the write of the terminal message: completed at 100% for ever if the agent saw an engine end without
      raising, failed for ever otherwise. Any interim messages may be lost, repeated, or handled after one another. */
  lemma VerdictAmongOthers(ws: seq<World>, acts: seq<Action>, i: nat, t: nat, k: nat, p: nat, j: JobId,
                           box: seq<Agent.Message>, verdict: bool)
    requires IsRun(ws, acts) && i <= t < k < |ws|
    requires AnsweredOk(ws[i], p, j) && j in ws[i].jobs && ws[i].jobs[j].status == Running
    requires Agent.WellReported(box, verdict) && Delivers(ws, acts, i, t, j, box) && LeaseKept(ws, acts, i, t, j)
    ensures j in ws[k].jobs
    ensures ws[k].jobs[j].status == (if verdict then Completed else Failed)
    ensures verdict ==> ws[k].jobs[j].percent == 100
  {
    hide Chained, Apply, Enabled, Owned, RowsOk, LogOk, QuotaOk, SnapshotsOk, TokensOk, AnsweredOk, Harmless, Ends, Invariant;
    hide Carries, Undisturbed, LeaseKept, Agent.Rising, Agent.Interim, SaysDone, WritesReport;
    UndisturbedUntil(ws, acts, i, t, t, p, j, box, verdict);
    MessageEnds(ws[t], acts[t].report, j, box[|box| - 1]);
    FirstReportDecides(ws, acts, i, t, k, p, j);
  }
}
