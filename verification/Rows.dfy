/** What every job row satisfies in every reachable state, and what a step may do to a row. */
module Rows {
  import opened Basics
  import opened Retention
  import opened Tables
  import opened Pipeline
  import opened Identity

  predicate RowOk(job: Job) {
    && (job.status == Running ==> job.claimedAt.Some?)
    && (job.owner == Public ==> job.publicExpiry.Some? && !job.exempt)
    && 0 <= job.percent <= 100
    && (job.status == Completed ==> job.percent == 100 && job.finishedAt.Some?)
    && (job.exempt ==> job.downloadExpiry.None?)
    && (job.status == Completed && !job.exempt ==>
         job.downloadExpiry.Some? && job.downloadExpiry.value.ms >= job.finishedAt.value + WEEK_MS)
  }

  /** The upload is within the limit of its scope: 5 MiB for guests, 20 MiB for users, any size for exempt users. */
  predicate WithinSize(owner: Owner, exempt: bool, size: nat) {
    (owner == Firebase && exempt) || size <= (if owner == Public then 5 else 20) * 1024 * 1024
  }

  predicate RequestOk(q: Request) {
    match q
    case Post(id, owner, user, exempt, size, subject, day, expiry, plan, stage) =>
      && (owner == Public ==> !exempt)
      && (owner == Public && (stage == Planned || HasRow(stage)) ==> expiry.Some?)
      && (stage == Planned || HasRow(stage) ==> plan != [])
      && ColonFree(id)
      && (stage != Begun && stage != Answered(BadRequest) ==> WithinSize(owner, exempt, size))
    case Claim(worker, claim) => true
    case Report(job, says, sent, stamp, report) => report.Read? ==> 0 <= report.percent <= 100 && stamp <= report.at
  }

  /** A report was stamped when it arrived. */
  predicate Stamped(q: Request, now: int) {
    q.Report? ==> q.stamp <= now
  }

  ghost predicate RowsOk(w: World) {
    && (forall j :: j in w.jobs ==> RowOk(w.jobs[j]))
    && (forall i :: 0 <= i < |w.requests| ==> RequestOk(w.requests[i]))
    && (forall i :: 0 <= i < |w.requests| ==> Stamped(w.requests[i], w.clock))
  }

  /** What the arithmetic of the progress handler comes to: a percent in range, at least the one read for a running
      report, and otherwise within a half of what was sent. */
  lemma NewPercentInRange(says: ReportStatus, read: int, sent: Option<real>)
    requires 0 <= read <= 100
    ensures 0 <= NewPercent(says, read, sent) <= 100
    ensures sent.None? && says != SaysCompleted ==> NewPercent(says, read, sent) == read
    ensures (sent.Some? && 0.0 <= sent.value <= 100.0 && says != SaysCompleted && NewPercent(says, read, sent) != read) ==>
      -0.5 <= NewPercent(says, read, sent) as real - sent.value <= 0.5
    ensures says == SaysRunning ==> read <= NewPercent(says, read, sent)
    ensures says == SaysCompleted ==> NewPercent(says, read, sent) == 100
  {
  }

  /** The recovery batch keeps rows well formed whatever the clock says. */
  lemma SweepRowOk(job: Job, now: int)
    requires RowOk(job)
    ensures RowOk(SweepRow(job, now))
  {
  }

  lemma UpdatedOk(w: World, a: Action, j: JobId)
    requires Enabled(w, a) && j in w.jobs
    requires RowsOk(w)
    ensures RowOk(Updated(w, a, j))
  {
      hide NewPercent, SweepRow;
    match a
    case OfClaim(ClaimSweep(r)) => SweepRowOk(w.jobs[j], w.clock);
    case OfReport(ReportWrite(r, text)) =>
      var q := w.requests[r];
      assert RequestOk(q);
      NewPercentInRange(q.says, q.report.percent, q.sent);
    case _ =>
  }

  lemma OwnRequestOk(w: World, p: PostStep)
    requires PostEnabled(w, p) && !p.PostBegin? && RequestOk(w.requests[p.r])
    ensures RequestOk(PostNext(w, p))
  {
    hide Reserve, IsListing, SealAll;
  }

  lemma ReportRequestOk(w: World, m: ReportStep)
    requires RowsOk(w) && ReportEnabled(w, m) && (m.ReportRead? || m.ReportWrite?)
    ensures RequestOk(ReportNext(w, m))
  {
  }

  lemma RequestsOkKept(w: World, a: Action, i: nat)
    requires Enabled(w, a) && RowsOk(w) && i < |RequestsAfter(w, a)|
    ensures RequestOk(RequestsAfter(w, a)[i])
  {
    match a
    case OfPost(p) => if !p.PostBegin? { OwnRequestOk(w, p); }
    case OfReport(m) => if m.ReportRead? || m.ReportWrite? { ReportRequestOk(w, m); }
    case _ =>
    hide PostNext, ReportNext;
  }

  lemma StampedKept(w: World, a: Action, i: nat)
    requires Enabled(w, a) && RowsOk(w) && i < |RequestsAfter(w, a)|
    ensures Stamped(RequestsAfter(w, a)[i], if a.Tick? then a.now else w.clock)
  {
    RequestsEvolve(w, a);
    if i < |w.requests| {
      assert SameOrigin(w.requests[i], RequestsAfter(w, a)[i]) && Stamped(w.requests[i], w.clock);
    }
    hide PostNext, ClaimNext, ReportNext, RequestOk, RowOk;
  }

  lemma RowsOkKept(w: World, a: Action)
    requires Enabled(w, a) && RowsOk(w)
    ensures RowsOk(Apply(w, a))
  {
    hide Updated, RequestsAfter, RequestOk, NewJob, RowOk, Stamped;
    var w' := Apply(w, a);
    forall i | 0 <= i < |w'.requests|
      ensures RequestOk(w'.requests[i]) && Stamped(w'.requests[i], w'.clock)
    {
      RequestsOkKept(w, a, i);
      StampedKept(w, a, i);
    }
    forall j | j in w'.jobs
      ensures RowOk(w'.jobs[j])
    {
      if j in w.jobs {
        UpdatedOk(w, a, j);
      } else {
        NewRowOk(w, a.post);
      }
    }
  }

  lemma NewRowOk(w: World, p: PostStep)
    requires PostEnabled(w, p) && p.PostInsert? && RowsOk(w)
    ensures RowOk(NewJob(w.requests[p.r], w.clock))
  {
    assert RequestOk(w.requests[p.r]);
  }
}
