/** What one step may do to a job that is finished, exempt, or reporting progress. */
module Finality {
  import opened Tables
  import opened Pipeline
  import opened Rows

  /** Failed is left by no update. */
  lemma FailedStays(w: World, a: Action, j: JobId)
    requires Enabled(w, a) && j in w.jobs && w.jobs[j].status == Failed
    ensures Updated(w, a, j).status == Failed
  {
    hide NewPercent;
  }

  /** Completed is left only by the upload-failure write of the job's own POST, and by the claim's write for
      an unreadable key. */
  lemma CompletedLeft(w: World, a: Action, j: JobId)
    requires Enabled(w, a) && j in w.jobs && w.jobs[j].status == Completed
    ensures Updated(w, a, j).status == Completed <==>
            !(a.OfPost? && a.post.PostUploadFailed? && w.requests[a.post.r].id == j)
            && !(a.OfClaim? && a.claim.ClaimReject? && w.requests[a.claim.r].claim.picked == j)
    ensures Updated(w, a, j).status in {Completed, Failed}
  {
    hide NewPercent;
  }

  /** Owner, user and deletion are never undone; exemption neither. */
  lemma NeverUndone(w: World, a: Action, j: JobId)
    requires Enabled(w, a) && j in w.jobs
    ensures Updated(w, a, j).owner == w.jobs[j].owner && Updated(w, a, j).user == w.jobs[j].user
    ensures w.jobs[j].exempt ==> Updated(w, a, j).exempt
    ensures w.jobs[j].deleted ==> Updated(w, a, j).deleted
    ensures Updated(w, a, j).createdAt == w.jobs[j].createdAt
  {
    hide NewPercent;
  }

  /** The download expiry of a completed job changes only when the exemption sweep clears it. */
  lemma ExpiryOfCompleted(w: World, a: Action, j: JobId)
    requires Enabled(w, a) && j in w.jobs && w.jobs[j].status == Completed
    ensures Updated(w, a, j).downloadExpiry == w.jobs[j].downloadExpiry ||
            (Updated(w, a, j).exempt && Updated(w, a, j).downloadExpiry.None?
             && a == OfUser(ExemptionSweep(w.jobs[j].user)))
  {
    hide NewPercent;
  }

  // ---------- progress

  predicate WritesProgress(w: World, a: Action, j: JobId)
    requires Enabled(w, a)
  {
    a.OfReport? && a.report.ReportWrite? && w.requests[a.report.r].job == j && IsRunning(w, j)
  }

  /** A step lowers the stored percent exactly when it writes a report whose new percent, computed from the
      value read earlier, is lower. */
  lemma PercentDropsOnlyByReport(w: World, a: Action, j: JobId)
    requires Enabled(w, a) && j in w.jobs && RowsOk(w)
    ensures Updated(w, a, j).percent < w.jobs[j].percent <==>
            WritesProgress(w, a, j) &&
            var q := w.requests[a.report.r];
            NewPercent(q.says, q.report.percent, q.sent) < w.jobs[j].percent
    ensures (w.jobs[j].status in {Queued, Running} && Updated(w, a, j).status in {Queued, Running}
             && !WritesProgress(w, a, j)) ==> Updated(w, a, j).percent == w.jobs[j].percent
  {
    assert RowOk(w.jobs[j]);
    hide NewPercent;
  }

  /** So a running report lowers it only when the value it read is out of date. */
  lemma RunningReportNeedsStaleRead(w: World, a: Action, j: JobId)
    requires Enabled(w, a) && j in w.jobs && RowsOk(w)
    requires WritesProgress(w, a, j) && w.requests[a.report.r].says in {SaysRunning, SaysCompleted}
    requires w.requests[a.report.r].report.percent >= w.jobs[j].percent
    ensures Updated(w, a, j).percent >= w.jobs[j].percent
  {
    var q := w.requests[a.report.r];
    assert RequestOk(q);
    NewPercentInRange(q.says, q.report.percent, q.sent);
    PercentDropsOnlyByReport(w, a, j);
    assert RowOk(w.jobs[j]);
    hide Updated, NewPercent;
  }
}
