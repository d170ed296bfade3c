/** What each statement of the Worker achieves: the row it leaves, column by column, when it takes effect at all, and what
    the history says of it (worker/src/index.ts). */
module Statements {
  import opened Basics
  import opened Vault
  import opened Tables
  import opened Pipeline
  import opened Identity
  import opened Lease

  const HOUR_MS: int := 60 * 60 * 1000

  function RowAfter(w: World, a: Action, j: JobId): Job
    requires Enabled(w, a) && j in w.jobs
  {
    if j in Apply(w, a).jobs then Apply(w, a).jobs[j] else w.jobs[j]
  }

  // ---------- time, and each statement once

  /** Time passes by ticks alone, and a tick changes nothing else. */
  lemma TickOutcome(w: World, a: Action)
    requires Enabled(w, a)
    ensures a.Tick? ==> Apply(w, a) == w.(clock := a.now)
    ensures !a.Tick? ==> Apply(w, a).clock == w.clock
  {
    hide NewPercent;
    if a.Tick? {
      assert JobsAfter(w, a) == w.jobs;
      assert w.log + [] == w.log && RequestsAfter(w, a) == w.requests;
    }
  }

  /** How far a handler has come. */
  function Rank(q: Request): nat {
    match q
    case Post(_, _, _, _, _, _, _, _, _, stage) =>
      (match stage
       case Begun => 0
       case Prechecked => 1
       case Planned => 2
       case JobInserted => 3
       case SnapshotsInserted => 4
       case QuotaRefused => 5
       case Reserved => 5
       case Answered(answer) => 6)
    case Claim(_, claim) =>
      (match claim
       case Asked => 0
       case Swept => 1
       case Picked(_, _) => 2
       case Opened(_, _, _, _) => 3
       case Replied(reply) => 4)
    case Report(_, _, _, _, report) => if report.Arrived? then 0 else if report.Read? then 1 else 2
  }

  /** The request whose statement this is. */
  function Mover(a: Action): Option<nat> {
    match a
    case OfPost(p) => if p.PostBegin? then None else Some(p.r)
    case OfClaim(c) => if c.ClaimBegin? then None else Some(c.r)
    case OfReport(m) => if m.ReportRead? || m.ReportWrite? then Some(m.r) else None
    case _ => None
  }

  /** Every statement takes its request forward and leaves all others where they are, so that none is run twice. */
  lemma StatementsRunOnce(w: World, a: Action, i: nat)
    requires Enabled(w, a) && i < |w.requests|
    ensures i < |RequestsAfter(w, a)|
    ensures if Mover(a) == Some(i) then Rank(RequestsAfter(w, a)[i]) > Rank(w.requests[i])
            else RequestsAfter(w, a)[i] == w.requests[i]
  {
    hide IsListing, OpenAll, EnabledSettings, Reserve, IsFresh, IsPick, OrderedRows;
  }

  // ---------- the recovery batch

  /** A running job whose lease was not renewed for two hours is queued again, with the columns of the lease cleared and
      all others as they were, and can be claimed at once; a public job past its expiry fails; nothing else changes. */
  lemma SweepOutcome(w: World, r: nat, j: JobId)
    requires Enabled(w, OfClaim(ClaimSweep(r))) && j in w.jobs
    ensures j in Apply(w, OfClaim(ClaimSweep(r))).jobs
    ensures var job, after := w.jobs[j], Apply(w, OfClaim(ClaimSweep(r))).jobs[j];
            var alive := job.owner == Firebase || (job.publicExpiry.Some? && job.publicExpiry.value > w.clock);
            if job.status == Running && !job.deleted && job.claimedAt.Some? && job.claimedAt.value <= w.clock - 2 * HOUR_MS && alive then
              && after.status == Queued && after.worker.None? && after.claimedAt.None? && after.startedAt.None?
              && after.(status := job.status, worker := job.worker, claimedAt := job.claimedAt, startedAt := job.startedAt) == job
              && Eligible(after, w.clock)
            else if job.status in {Queued, Running} && !job.deleted && job.owner == Public && job.publicExpiry.Some? && !alive then
              && after.status == Failed && after.finishedAt == Some(w.clock)
              && after.(status := job.status, finishedAt := job.finishedAt) == job
            else after == job
  {
    hide RequestsAfter, EventsOf;
  }

  // ---------- the claim

  /** The compare-and-swap: the claim is won if and only if the row is queued then; the row is leased to the worker that
      asked, as of the time it took, and else nothing is written. */
  lemma TakeOutcome(w: World, r: nat, stamp: int)
    requires Enabled(w, OfClaim(ClaimTake(r, stamp)))
    ensures var w' := Apply(w, OfClaim(ClaimTake(r, stamp)));
            var q := w.requests[r];
            var j := q.claim.ready;
            if j in w.jobs && w.jobs[j].status == Queued then
              && w'.requests[r].Claim? && w'.requests[r].claim == Replied(Won(j, q.claim.legacy, q.claim.snapshots))
              && w'.jobs.Keys == w.jobs.Keys
              && w'.jobs[j].status == Running && w'.jobs[j].worker == Some(q.worker)
              && w'.jobs[j].claimedAt == w'.jobs[j].startedAt == Some(stamp)
              && w'.jobs[j].(status := Queued, worker := w.jobs[j].worker, claimedAt := w.jobs[j].claimedAt,
                             startedAt := w.jobs[j].startedAt) == w.jobs[j]
              && forall i :: i in w.jobs && i != j ==> w'.jobs[i] == w.jobs[i]
            else
              && w'.requests[r].Claim? && w'.requests[r].claim == Replied(LostRace(j))
              && w'.jobs == w.jobs
  {
    hide EventsOf;
  }

  /** Queued, not deleted, and, if it is public, before its expiry. */
  predicate MayBeClaimed(w: World, j: JobId) {
    && j in w.jobs && w.jobs[j].status == Queued && !w.jobs[j].deleted
    && (w.jobs[j].owner == Public ==> w.jobs[j].publicExpiry.Some? && w.clock < w.jobs[j].publicExpiry.value)
  }

  /** The claim picks a job that may be claimed and that none such is older than, and finds none only if there is none. */
  lemma SelectOutcome(w: World, r: nat, pick: Option<JobId>)
    requires Enabled(w, OfClaim(ClaimSelect(r, pick)))
    ensures var claim := ClaimNext(w, ClaimSelect(r, pick)).claim;
            if pick.None? then claim == Replied(NoneFound(w.jobs, w.clock)) && forall j :: !MayBeClaimed(w, j)
            else
              && MayBeClaimed(w, pick.value) && claim == Picked(pick.value, w.jobs[pick.value].legacy)
              && forall j :: MayBeClaimed(w, j) ==> w.jobs[pick.value].createdAt <= w.jobs[j].createdAt
  {
    var claim := ClaimNext(w, ClaimSelect(r, pick)).claim;
    forall j
      ensures MayBeClaimed(w, j) <==> j in w.jobs && Eligible(w.jobs[j], w.clock)
    {
    }
    assert IsPick(w, pick);
  }

  // ---------- agent reports

  /** What the end of a running job leaves: the finish time, and for a completed one 100% and a week of download from the
      time `from` on, unless it is exempt. */
  predicate EndedAs(before: Job, after: Job, status: Status, finish: int, percent: int, from: int) {
    && after.status == status && after.finishedAt == Some(finish) && after.percent == percent
    && (status != Completed ==> after.downloadExpiry == before.downloadExpiry)
    && (status == Completed ==>
         if before.exempt then after.downloadExpiry.None?
         else after.downloadExpiry.Some? && after.downloadExpiry.value.ms == from + 7 * 24 * HOUR_MS)
    && after.(status := before.status, finishedAt := before.finishedAt, percent := before.percent,
              downloadExpiry := before.downloadExpiry) == before
  }

  lemma SucceededOutcome(w: World, j: JobId, stamp: int, text: string)
    requires Enabled(w, OfReport(Succeeded(j, stamp, text))) && j in w.jobs
    ensures var after := RowAfter(w, OfReport(Succeeded(j, stamp, text)), j);
            if w.jobs[j].status == Running then EndedAs(w.jobs[j], after, Completed, stamp, 100, stamp) else after == w.jobs[j]
  {
    JobPersists(w, OfReport(Succeeded(j, stamp, text)), j);
    hide Apply;
  }

  lemma FailedOutcome(w: World, j: JobId, stamp: int)
    requires Enabled(w, OfReport(FailedReport(j, stamp))) && j in w.jobs
    ensures var after := RowAfter(w, OfReport(FailedReport(j, stamp)), j);
            if w.jobs[j].status == Running then EndedAs(w.jobs[j], after, Failed, stamp, w.jobs[j].percent, stamp)
            else after == w.jobs[j]
  {
    JobPersists(w, OfReport(FailedReport(j, stamp)), j);
    hide Apply;
  }

  /** The write of a progress report: it ends a running job or renews its lease, and does nothing to any other. */
  lemma ProgressOutcome(w: World, r: nat, text: string)
    requires Enabled(w, OfReport(ReportWrite(r, text))) && w.requests[r].job in w.jobs
    ensures var q := w.requests[r];
            var job, after := w.jobs[q.job], RowAfter(w, OfReport(ReportWrite(r, text)), q.job);
            var percent := NewPercent(q.says, q.report.percent, q.sent);
            if job.status != Running then after == job
            else if q.says == SaysFailed then EndedAs(job, after, Failed, q.stamp, percent, q.stamp)
            else if q.says == SaysCompleted then EndedAs(job, after, Completed, q.stamp, 100, q.report.at)
            else
              && after.claimedAt == Some(q.stamp) && after.percent == percent
              && after.(claimedAt := job.claimedAt, percent := job.percent) == job
  {
    JobPersists(w, OfReport(ReportWrite(r, text)), w.requests[r].job);
    hide Apply, JsRound;
  }

  // ---------- what users do

  lemma DeleteOutcome(w: World, j: JobId, i: JobId)
    requires Enabled(w, OfUser(DeleteJob(j))) && i in w.jobs
    ensures var after := RowAfter(w, OfUser(DeleteJob(j)), i);
            if i == j then after.deleted && after.(deleted := w.jobs[i].deleted) == w.jobs[i] else after == w.jobs[i]
  {
    JobPersists(w, OfUser(DeleteJob(j)), i);
    hide Apply;
  }

  /** The exemption sweep exempts every job of the user that is not public, and clears its expiry. */
  lemma ExemptionOutcome(w: World, user: UserId, j: JobId)
    requires Enabled(w, OfUser(ExemptionSweep(user))) && j in w.jobs
    ensures var after := RowAfter(w, OfUser(ExemptionSweep(user)), j);
            if w.jobs[j].user == user && w.jobs[j].owner == Firebase then
              after.exempt && after.downloadExpiry.None?
              && after.(exempt := w.jobs[j].exempt, downloadExpiry := w.jobs[j].downloadExpiry) == w.jobs[j]
            else after == w.jobs[j]
  {
    JobPersists(w, OfUser(ExemptionSweep(user)), j);
    hide Apply;
  }

  /** Saved settings can be read back by their user, and no other row changes. */
  lemma SavedSettingsOpen(w: World, id: string, user: UserId, settings: PlainProvider, enabled: bool, createdAt: int)
    requires Enabled(w, OfUser(SaveProvider(id, user, settings, enabled, createdAt)))
    ensures var table := Apply(w, OfUser(SaveProvider(id, user, settings, enabled, createdAt))).providers;
            && id in table && OpenProvider(table[id].settings, ProviderContext(user)) == settings
            && table[id].user == user && table[id].enabled == enabled && table[id].createdAt == createdAt
            && table.Keys == w.providers.Keys + {id}
            && forall other :: other in w.providers && other != id ==> table[other] == w.providers[other]
  {
    OpenSealedProvider(settings, ProviderContext(user));
    hide JobsAfter, SealProvider, OpenProvider, RequestsAfter;
  }

  // ---------- the user's own plan

  function EnabledBefore(table: map<string, ProviderRow>, listing: seq<string>, n: nat): nat
    requires n <= |listing|
  {
    if n == 0 then 0
    else EnabledBefore(table, listing, n - 1) +
         if IsEnabled(table, listing[n - 1]) then 1 else 0
  }

  predicate IsEnabled(table: map<string, ProviderRow>, id: string) {
    id in table && table[id].enabled
  }

  lemma {:induction false} EnabledCount(table: map<string, ProviderRow>, listing: seq<string>, n: nat)
    requires n <= |listing|
    ensures |EnabledSettings(table, listing[..n])| == EnabledBefore(table, listing, n)
  {
    hide EnabledSettings;
    if n == 0 {
      NoneEnabled(table);
      assert listing[..0] == [];
    } else {
      EnabledCount(table, listing, n - 1);
      EnabledAppend(table, listing[..n - 1], listing[n - 1]);
      assert listing[..n] == listing[..n - 1] + [listing[n - 1]];
    }
  }

  lemma {:induction false} EnabledAt(table: map<string, ProviderRow>, listing: seq<string>, n: nat, i: nat)
    requires i < n <= |listing| && IsEnabled(table, listing[i])
    ensures EnabledBefore(table, listing, i) < |EnabledSettings(table, listing[..n])|
    ensures EnabledSettings(table, listing[..n])[EnabledBefore(table, listing, i)] == table[listing[i]].settings
  {
    hide EnabledSettings, EnabledBefore;
    EnabledAppend(table, listing[..n - 1], listing[n - 1]);
    assert listing[..n] == listing[..n - 1] + [listing[n - 1]];
    if i < n - 1 {
      EnabledAt(table, listing, n - 1, i);
    } else {
      EnabledCount(table, listing, i);
    }
  }

  /** The plan has every enabled provider of the listing and no other, in the order of the listing. */
  lemma EnabledInOrder(table: map<string, ProviderRow>, listing: seq<string>)
    ensures |EnabledSettings(table, listing)| == EnabledBefore(table, listing, |listing|)
    ensures forall i :: 0 <= i < |listing| && IsEnabled(table, listing[i]) ==>
              && EnabledBefore(table, listing, i) < |EnabledSettings(table, listing)|
              && EnabledSettings(table, listing)[EnabledBefore(table, listing, i)] == table[listing[i]].settings
  {
    hide EnabledSettings, EnabledBefore;
    assert listing[..|listing|] == listing;
    EnabledCount(table, listing, |listing|);
    forall i | 0 <= i < |listing| && IsEnabled(table, listing[i])
      ensures EnabledBefore(table, listing, i) < |EnabledSettings(table, listing)|
      ensures EnabledSettings(table, listing)[EnabledBefore(table, listing, i)] == table[listing[i]].settings
    {
      EnabledAt(table, listing, |listing|, i);
    }
  }

  lemma NoneEnabled(table: map<string, ProviderRow>)
    ensures EnabledSettings(table, []) == []
  {
  }

  lemma {:induction false} EnabledAppend(table: map<string, ProviderRow>, listing: seq<string>, id: string)
    ensures EnabledSettings(table, listing + [id]) ==
            EnabledSettings(table, listing) + if id in table && table[id].enabled then [table[id].settings] else []
  {
    if listing == [] {
      assert [id][1..] == [];
    } else {
      assert (listing + [id])[1..] == listing[1..] + [id];
      EnabledAppend(table, listing[1..], id);
    }
  }

  // ---------- the daily reservation

  /** A reservation succeeds if and only if there is no limit, or no row yet, or fewer jobs than it were created; it adds one job and
      its bytes to this key, and no reservation touches another. */
  lemma ReserveOutcome(table: map<UsageKey, Usage>, key: UsageKey, size: nat, limit: Option<nat>)
    ensures var (after, ok) := Reserve(table, key, size, limit);
            && (ok <==> limit.None? || key !in table || JobsCreated(table, key) < limit.value)
            && JobsCreated(after, key) == JobsCreated(table, key) + (if ok then 1 else 0)
            && BytesUploaded(after, key) == BytesUploaded(table, key) + (if ok then size else 0)
            && forall other :: other != key ==> (other in after <==> other in table)
                                                && (other in table ==> after[other] == table[other])
  {
  }

  // ---------- the history

  /** The history says what happened to a row, no more and no less: a claim is recorded exactly when a queued row becomes
      running, a recovery exactly when a running row becomes queued, and a finish exactly when a report ends a running
      row. */
  lemma HistoryTellsTheStep(w: World, a: Action, j: JobId)
    requires Enabled(w, a) && j in w.jobs && j in Apply(w, a).jobs
    ensures var before, after := w.jobs[j].status, Apply(w, a).jobs[j].status;
            var e := EventsOf(w, a);
            && (e != [] && Takes(e[0], j) <==> before == Queued && after == Running)
            && (e != [] && Requeues(e[0], j) <==> before == Running && after == Queued)
            && (e != [] && Finishes(e[0], j) <==> before == Running && after in {Completed, Failed} && a.OfReport?)
            && (e != [] && Finishes(e[0], j) ==> (e[0].completed <==> after == Completed))
            && (e != [] && e[0].Sweep? ==> e[0].at == w.clock)
            && |e| <= 1
  {
    JobPersists(w, a, j);
    hide Apply, NewPercent;
  }
}
