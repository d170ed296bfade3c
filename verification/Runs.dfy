/** The main statements about whole runs of the Worker, for every interleaving of its requests. */
module Runs {
  import opened Basics
  import opened Retention
  import opened Vault
  import opened Tables
  import opened Pipeline
  import opened Identity
  import opened Rows
  import opened Lease
  import opened Quota
  import opened Snapshots
  import opened Finality
  import opened Tokens

  ghost predicate Invariant(w: World) {
    Owned(w) && RowsOk(w) && LogOk(w) && QuotaOk(w) && SnapshotsOk(w) && TokensOk(w)
  }

  lemma InvariantInitially(clock: int)
    ensures Invariant(Initial(clock))
  {
    var w := Initial(clock);
    assert forall j :: JobLog(w, j);
    QuotaOkInitially(clock);
    hide QuotaOk;
  }

  lemma InvariantKept(w: World, a: Action)
    requires Enabled(w, a) && Invariant(w)
    ensures Invariant(Apply(w, a))
  {
    OwnedKept(w, a);
    RowsOkKept(w, a);
    LogOkKept(w, a);
    QuotaOkKept(w, a);
    SnapshotsOkKept(w, a);
    TokensOkKept(w, a);
    hide Apply, Enabled, Owned, RowsOk, LogOk, QuotaOk, SnapshotsOk, TokensOk;
  }

  /** Every world of every run satisfies the invariant. */
  lemma {:induction false} InvariantHolds(ws: seq<World>, acts: seq<Action>, k: nat)
    requires IsRun(ws, acts) && k < |ws|
    ensures Invariant(ws[k])
  {
    hide Apply, Enabled, Invariant;
    if k == 0 {
      InvariantInitially(ws[0].clock);
    } else {
      InvariantHolds(ws, acts, k - 1);
      assert Enabled(ws[k - 1], acts[k - 1]) && ws[k] == Apply(ws[k - 1], acts[k - 1]);
      InvariantKept(ws[k - 1], acts[k - 1]);
    }
  }

  /** One step of a run, with what is known before it. */
  lemma StepOf(ws: seq<World>, acts: seq<Action>, k: nat)
    requires IsRun(ws, acts) && k < |acts|
    ensures Enabled(ws[k], acts[k]) && ws[k + 1] == Apply(ws[k], acts[k])
    ensures Invariant(ws[k])
  {
    InvariantHolds(ws, acts, k);
    hide Apply, Enabled, Invariant;
  }

  // ---------- the lease

  /** Claim exclusivity, in every world of every run: claims won are recoveries, plus one while a worker holds
      the job or has finished it; and between any two claims won there is a recovery. */
  lemma ClaimsAreExclusive(ws: seq<World>, acts: seq<Action>, k: nat, j: JobId)
    requires IsRun(ws, acts) && k < |ws| && j in ws[k].jobs
    ensures var log := ws[k].log;
            && (ws[k].jobs[j].status == Queued ==> Wins(log, j) == Recoveries(log, j))
            && (ws[k].jobs[j].status in {Running, Completed} ==> Wins(log, j) == Recoveries(log, j) + 1)
    ensures var log := ws[k].log;
            forall m, n :: 0 <= m < n < |log| && Takes(log[m], j) && Takes(log[n], j) ==>
              exists l :: m < l < n && Requeues(log[l], j)
  {
    InvariantHolds(ws, acts, k);
    hide Chained;
    var log := ws[k].log;
    ClaimExclusivity(ws[k], j);
    assert JobLog(ws[k], j);
    forall m, n | 0 <= m < n < |log| && Takes(log[m], j) && Takes(log[n], j)
      ensures exists l :: m < l < n && Requeues(log[l], j)
    {
      RecoveryBetweenWins(log, j, m, n);
    }
  }

  /** If the step is a recovery batch that finds j running, then j was renewed less than two hours before. */
  ghost predicate InDateAt(w: World, a: Action, j: JobId) {
    a.OfClaim? && a.claim.ClaimSweep? && j in w.jobs && w.jobs[j].status == Running && LastBeat(w.log, j).Some? ==>
      LastBeat(w.log, j).value > w.clock - LEASE_MS
  }

  lemma RenewedStep(w: World, a: Action, j: JobId)
    requires Enabled(w, a) && LogOk(w) && InDateAt(w, a, j)
    ensures EventsOf(w, a) != [] ==> !Requeues(EventsOf(w, a)[0], j)
  {
    assert JobLog(w, j);
    hide Updated, RequestsAfter;
  }

  lemma NoRecoveryAdded(log: seq<Event>, e: seq<Event>, j: JobId)
    requires |e| <= 1 && (e != [] ==> !Requeues(e[0], j))
    requires Recoveries(log, j) == 0 && forall i :: 0 <= i < |log| ==> !Requeues(log[i], j)
    ensures Recoveries(log + e, j) == 0 && forall i :: 0 <= i < |log + e| ==> !Requeues((log + e)[i], j)
  {
    hide Recoveries, Requeues;
    if e == [] {
      assert log + e == log;
    } else {
      assert e == [e[0]];
      RecoveriesAppend(log, e[0], j);
    }
  }

  lemma RecoveriesAppend(log: seq<Event>, e: Event, j: JobId)
    ensures Recoveries(log + [e], j) == Recoveries(log, j) + if Requeues(e, j) then 1 else 0
  {
    assert Front(log + [e]) == log && Last(log + [e]) == e;
  }

  /** A job that was renewed less than two hours before every recovery batch that found it running is not requeued. */
  lemma {:induction false} RenewedIsNeverRequeued(ws: seq<World>, acts: seq<Action>, k: nat, j: JobId)
    requires IsRun(ws, acts) && k < |ws|
    requires forall i :: 0 <= i < k ==> InDateAt(ws[i], acts[i], j)
    ensures Recoveries(ws[k].log, j) == 0
    ensures forall i :: 0 <= i < |ws[k].log| ==> !Requeues(ws[k].log[i], j)
  {
    hide Apply, Enabled, EventsOf, Requeues, Owned, RowsOk, LogOk, QuotaOk, SnapshotsOk, TokensOk, InDateAt;
    if k > 0 {
      RenewedIsNeverRequeued(ws, acts, k - 1, j);
      StepOf(ws, acts, k - 1);
      RenewedStep(ws[k - 1], acts[k - 1], j);
      LogGrows(ws[k - 1], acts[k - 1]);
      NoRecoveryAdded(ws[k - 1].log, EventsOf(ws[k - 1], acts[k - 1]), j);
    }
  }

  /** Right after every recovery batch of every run, each undeleted running job was renewed within two hours and no
      undeleted public job past its expiry is queued or running. */
  lemma RecoveryIsComplete(ws: seq<World>, acts: seq<Action>, k: nat, j: JobId)
    requires IsRun(ws, acts) && k < |acts| && acts[k].OfClaim? && acts[k].claim.ClaimSweep?
    requires j in ws[k + 1].jobs && !ws[k + 1].jobs[j].deleted
    ensures var job := ws[k + 1].jobs[j];
            && (job.status == Running ==>
                 LastBeat(ws[k + 1].log, j).Some? && LastBeat(ws[k + 1].log, j).value > ws[k + 1].clock - LEASE_MS)
            && (job.owner == Public && job.status in {Queued, Running} ==>
                 job.publicExpiry.Some? && job.publicExpiry.value > ws[k + 1].clock)
  {
    hide Chained, Apply, Enabled, Owned, RowsOk, LogOk, QuotaOk, SnapshotsOk, TokensOk;
    StepOf(ws, acts, k);
    InvariantHolds(ws, acts, k + 1);
    SweepIsComplete(ws[k], acts[k].claim.r, j);
    HeldRow(ws[k + 1], j);
    SweepKeepsClock(ws[k], acts[k].claim.r);
  }

  /** What a row says about its lease and expiry, in a world that satisfies the invariant. */
  lemma HeldRow(w: World, j: JobId)
    requires RowsOk(w) && LogOk(w) && j in w.jobs
    ensures w.jobs[j].status == Running ==> LastBeat(w.log, j) == w.jobs[j].claimedAt
    ensures w.jobs[j].owner == Public ==> w.jobs[j].publicExpiry.Some?
  {
    assert JobLog(w, j);
    assert RowOk(w.jobs[j]);
  }

  lemma SweepKeepsClock(w: World, r: nat)
    requires Enabled(w, OfClaim(ClaimSweep(r)))
    ensures Apply(w, OfClaim(ClaimSweep(r))).clock == w.clock
  {
    hide JobsAfter, RequestsAfter, EventsOf;
  }

  lemma LogGrows(w: World, a: Action)
    requires Enabled(w, a)
    ensures Apply(w, a).log == w.log + EventsOf(w, a) && |EventsOf(w, a)| <= 1
  {
    OneEvent(w, a);
    hide EventsOf, RequestsAfter, JobsAfter;
  }

  // ---------- terminal states

  lemma FailedStep(w: World, a: Action, j: JobId)
    requires Enabled(w, a) && Owned(w) && !Unborn(w.requests, j)
    requires j in w.jobs ==> w.jobs[j].status == Failed
    ensures !Unborn(Apply(w, a).requests, j)
    ensures j in Apply(w, a).jobs ==> Apply(w, a).jobs[j].status == Failed
  {
    hide Apply, Enabled, Unborn, Updated, Owned;
    StaysBorn(w, a, j);
    ApplyRequests(w, a);
    if j in w.jobs {
      FailedStays(w, a, j);
      JobPersists(w, a, j);
    } else {
      GoneStaysGone(w, a, j);
    }
  }

  /** Failed is absorbing in every run. */
  lemma {:induction false} FailedIsAbsorbing(ws: seq<World>, acts: seq<Action>, i: nat, k: nat, j: JobId)
    requires IsRun(ws, acts) && i <= k < |ws|
    requires j in ws[i].jobs && ws[i].jobs[j].status == Failed
    ensures !Unborn(ws[k].requests, j)
    ensures j in ws[k].jobs ==> ws[k].jobs[j].status == Failed
  {
    hide Chained, Apply, Enabled, RowsOk, LogOk, QuotaOk, SnapshotsOk, TokensOk;
    if k == i {
      InvariantHolds(ws, acts, k);
    } else {
      FailedIsAbsorbing(ws, acts, i, k - 1, j);
      StepOf(ws, acts, k - 1);
      FailedStep(ws[k - 1], acts[k - 1], j);
    }
  }

  predicate AnsweredOk(w: World, p: nat, j: JobId) {
    p < |w.requests| && IsPostOf(w.requests[p], j) && w.requests[p].stage == Answered(Accepted)
  }

  /** The step is one of a POST of job j. */
  predicate MovesPostOf(w: World, a: Action, j: JobId) {
    a.OfPost? && !a.post.PostBegin? && a.post.r < |w.requests| && IsPostOf(w.requests[a.post.r], j)
  }

  /** Once POST /jobs has answered 200 the request rests, and no step of another POST concerns its job. */
  lemma AcceptedRests(w: World, a: Action, p: nat, j: JobId)
    requires Enabled(w, a) && Owned(w) && AnsweredOk(w, p, j)
    ensures AnsweredOk(Apply(w, a), p, j)
    ensures j in w.jobs && j in Apply(w, a).jobs
    ensures !MovesPostOf(w, a, j)
  {
    assert w.requests[p].id in w.jobs <==> HasRow(w.requests[p].stage);
    NotMoved(w, a, p);
    hide Enabled, RequestsAfter, JobsAfter, RowsOwned;
    RequestsEvolve(w, a);
    assert SameOrigin(w.requests[p], RequestsAfter(w, a)[p]);
    OtherRowKept(w, a, p);
  }

  lemma NotMoved(w: World, a: Action, p: nat)
    requires Enabled(w, a) && UniqueIds(w.requests) && p < |w.requests|
    requires w.requests[p].Post? && w.requests[p].stage == Answered(Accepted)
    ensures a.OfPost? && !a.post.PostBegin? ==> a.post.r != p
    ensures !MovesPostOf(w, a, w.requests[p].id)
  {
  }

  /** One step, for a completed job whose POST is at rest. */
  lemma CompletedStep(w: World, a: Action, j: JobId)
    requires Enabled(w, a) && Invariant(w) && j in w.jobs && j in Apply(w, a).jobs
    requires w.jobs[j].status == Completed
    requires !MovesPostOf(w, a, j)
    ensures var after := Apply(w, a).jobs[j];
            && after.status == Completed
            && after.owner == w.jobs[j].owner
            && (w.jobs[j].exempt ==> after.exempt)
            && (after.downloadExpiry == w.jobs[j].downloadExpiry || (after.exempt && after.downloadExpiry.None?))
  {
    CompletedLeft(w, a, j);
    NeverUndone(w, a, j);
    ExpiryOfCompleted(w, a, j);
    JobPersists(w, a, j);
    if a.OfClaim? && a.claim.ClaimReject? {
      NeverUnreadable(w, a.claim.r);
      assert false;
    }
    hide Apply, Updated, Invariant;
  }

  /** Completed is absorbing once POST /jobs has answered 200. */
  lemma {:induction false} CompletedIsAbsorbing(ws: seq<World>, acts: seq<Action>, i: nat, k: nat, p: nat, j: JobId)
    requires IsRun(ws, acts) && i <= k < |ws|
    requires AnsweredOk(ws[i], p, j) && j in ws[i].jobs && ws[i].jobs[j].status == Completed
    ensures AnsweredOk(ws[k], p, j) && j in ws[k].jobs && ws[k].jobs[j].status == Completed
    ensures ws[k].jobs[j].owner == ws[i].jobs[j].owner
    ensures ws[i].jobs[j].exempt ==> ws[k].jobs[j].exempt
    ensures ws[k].jobs[j].downloadExpiry == ws[i].jobs[j].downloadExpiry ||
            (ws[k].jobs[j].exempt && ws[k].jobs[j].downloadExpiry.None?)
  {
    hide Chained, Apply, Enabled, Owned, RowsOk, LogOk, QuotaOk, SnapshotsOk, TokensOk, AnsweredOk;
    if k > i {
      CompletedIsAbsorbing(ws, acts, i, k - 1, p, j);
      StepOf(ws, acts, k - 1);
      AcceptedRests(ws[k - 1], acts[k - 1], p, j);
      CompletedStep(ws[k - 1], acts[k - 1], j);
    }
  }

  /** At most one report ever took effect as the finish of a job; a completed job shows 100% and a finish time. */
  lemma AtMostOneFinish(ws: seq<World>, acts: seq<Action>, k: nat, j: JobId)
    requires IsRun(ws, acts) && k < |ws|
    ensures FinishCount(ws[k].log, j) <= 1
    ensures j in ws[k].jobs && ws[k].jobs[j].status == Completed ==>
      ws[k].jobs[j].percent == 100 && ws[k].jobs[j].finishedAt.Some?
  {
    InvariantHolds(ws, acts, k);
    hide Chained;
    assert JobLog(ws[k], j);
    assert j in ws[k].jobs ==> RowOk(ws[k].jobs[j]);
  }

  // ---------- view tokens

  /** An exempt token that worked once works for ever, until the job is deleted. */
  lemma ExemptTokenForever(ws: seq<World>, acts: seq<Action>, i: nat, k: nat, p: nat, j: JobId)
    requires IsRun(ws, acts) && i <= k < |ws|
    requires AnsweredOk(ws[i], p, j) && j in ws[i].jobs && ws[i].jobs[j].owner == Firebase
    requires FileRequest(ws[i], j, ExemptToken(j), false) == Served
    ensures j in ws[k].jobs
    ensures FileRequest(ws[k], j, ExemptToken(j), false) == Served <==> !ws[k].jobs[j].deleted
  {
    InvariantHolds(ws, acts, i);
    InvariantHolds(ws, acts, k);
    ExemptTokenServed(ws[i], j);
    CompletedIsAbsorbing(ws, acts, i, k, p, j);
    ExemptTokenServed(ws[k], j);
    hide Chained, FileRequest, Owned, LogOk, QuotaOk, SnapshotsOk, TokensOk, RowsOk;
  }

  /** An ordinary token that worked once works until its expiry or deletion, unless an exemption sweep clears
      the expiry; one without an expiry, which an exempt job accepts, works until deletion. */
  lemma OrdinaryTokenUntilExpiry(ws: seq<World>, acts: seq<Action>, i: nat, k: nat, p: nat, j: JobId)
    requires IsRun(ws, acts) && i <= k < |ws|
    requires AnsweredOk(ws[i], p, j) && j in ws[i].jobs && ws[i].jobs[j].owner == Firebase
    requires FileRequest(ws[i], j, OrdinaryToken(j, ws[i].jobs[j]), false) == Served
    ensures j in ws[k].jobs
    ensures FileRequest(ws[k], j, OrdinaryToken(j, ws[i].jobs[j]), false) == Served <==>
            && !ws[k].jobs[j].deleted
            && (ExpiryText(ws[i].jobs[j].downloadExpiry) == "" ||
                (ws[k].jobs[j].downloadExpiry.Some? && ws[k].clock <= ws[i].jobs[j].downloadExpiry.value.ms))
    ensures ws[k].jobs[j].downloadExpiry.None? ==> ws[i].jobs[j].downloadExpiry.None? || ws[k].jobs[j].exempt
  {
    InvariantHolds(ws, acts, i);
    InvariantHolds(ws, acts, k);
    var text := ExpiryText(ws[i].jobs[j].downloadExpiry);
    OrdinaryTokenServed(ws[i], j, text);
    CompletedIsAbsorbing(ws, acts, i, k, p, j);
    OrdinaryTokenServed(ws[k], j, text);
    hide Chained, FileRequest, Owned, LogOk, QuotaOk, SnapshotsOk, TokensOk, RowsOk, PdfViewTokenMessage;
  }

  /** In every reachable state an exempt job has no download expiry, a public job is never exempt, and a token
      that opens a user's job was issued for it. */
  lemma RetentionHolds(ws: seq<World>, acts: seq<Action>, k: nat, j: JobId)
    requires IsRun(ws, acts) && k < |ws| && j in ws[k].jobs
    ensures ws[k].jobs[j].exempt ==> ws[k].jobs[j].downloadExpiry.None? && ws[k].jobs[j].owner == Firebase
    ensures forall issue ::
              (issue in ws[k].issued && ws[k].jobs[j].owner == Firebase
               && FileRequest(ws[k], j, TokenOf(issue), false) == Served) ==> issue.subject == j
  {
    InvariantHolds(ws, acts, k);
    hide Chained;
    assert RowOk(ws[k].jobs[j]);
    forall issue | issue in ws[k].issued && ws[k].jobs[j].owner == Firebase
      && FileRequest(ws[k], j, TokenOf(issue), false) == Served
      ensures issue.subject == j
    {
      AcceptedWasIssuedForJob(ws[k], issue, j);
    }
  }

  // ---------- quota

  /** Whatever the interleaving: a day's counters are exactly the reservations still held and their bytes, and a
      subject without exempt POSTs never exceeds its limit. */
  lemma QuotaConserved(ws: seq<World>, acts: seq<Action>, k: nat, key: UsageKey)
    requires IsRun(ws, acts) && k < |ws|
    ensures JobsCreated(ws[k].usage, key) == Tally(ws[k].requests, HeldOne(key))
    ensures BytesUploaded(ws[k].usage, key) == Tally(ws[k].requests, HeldBytes(key))
    ensures (forall i :: 0 <= i < |ws[k].requests| && ws[k].requests[i].Post? && QuotaKey(ws[k].requests[i]) == key ==>
              !ws[k].requests[i].exempt) ==>
            JobsCreated(ws[k].usage, key) <= Ceiling(key)
  {
    InvariantHolds(ws, acts, k);
    hide Chained;
    assert QuotaOf(ws[k], key);
    if forall i :: 0 <= i < |ws[k].requests| && ws[k].requests[i].Post? && QuotaKey(ws[k].requests[i]) == key ==>
      !ws[k].requests[i].exempt
    {
      NeverOverLimit(ws[k], key);
    }
  }

  // ---------- snapshot isolation

  /** In every world of every run each stored key is under its own table's context, so no step of any run is the
      claim's decryption failure. */
  lemma KeysStayInContext(ws: seq<World>, acts: seq<Action>, k: nat)
    requires IsRun(ws, acts) && k < |ws|
    ensures forall id :: id in ws[k].providers ==>
              Under(ws[k].providers[id].settings.key, ProviderContext(ws[k].providers[id].user))
    ensures forall j :: j in ws[k].jobs ==> Under(ws[k].jobs[j].legacy.key, LegacyContext(j))
    ensures forall j, n :: j in ws[k].snapshots && 0 <= n < |ws[k].snapshots[j]| ==>
              Under(ws[k].snapshots[j][n].key, SnapshotContext(j))
    ensures k < |acts| ==> !(acts[k].OfClaim? && acts[k].claim.ClaimReject?)
  {
    hide Chained, Apply, Owned, RowsOk, LogOk, QuotaOk, SnapshotsOk, TokensOk, Under;
    InvariantHolds(ws, acts, k);
    EveryKeyInContext(ws[k]);
    if k < |acts| && acts[k].OfClaim? && acts[k].claim.ClaimReject? {
      StepOf(ws, acts, k);
      NeverUnreadable(ws[k], acts[k].claim.r);
      assert false;
    }
  }

  /** The plan of a POST is fixed once it was read, whatever is done to the user's settings afterwards. */
  lemma {:induction false} PlanNeverChanges(ws: seq<World>, acts: seq<Action>, i: nat, k: nat, p: nat)
    requires IsRun(ws, acts) && i <= k < |ws|
    requires p < |ws[i].requests| && ws[i].requests[p].Post? && ws[i].requests[p].stage !in {Begun, Prechecked}
    ensures p < |ws[k].requests| && ws[k].requests[p].Post? && ws[k].requests[p].stage !in {Begun, Prechecked}
    ensures ws[k].requests[p].id == ws[i].requests[p].id && ws[k].requests[p].plan == ws[i].requests[p].plan
  {
    hide Chained, Apply, Enabled, Owned, RowsOk, LogOk, QuotaOk, SnapshotsOk, TokensOk;
    if k > i {
      PlanNeverChanges(ws, acts, i, k - 1, p);
      StepOf(ws, acts, k - 1);
      RequestsEvolve(ws[k - 1], acts[k - 1]);
      ApplyRequests(ws[k - 1], acts[k - 1]);
      hide RequestsAfter;
      assert SameOrigin(ws[k - 1].requests[p], ws[k].requests[p]);
    }
  }

  /** Every claim won hands out the settings of the plan's first provider and either the whole plan, sorted by
      priority with every key opened, or no provider rows at all. */
  lemma ClaimsHandOutPlans(ws: seq<World>, acts: seq<Action>, k: nat, r: nat, p: nat)
    requires IsRun(ws, acts) && k < |ws|
    requires r < |ws[k].requests| && ws[k].requests[r].Claim?
    requires ws[k].requests[r].claim.Replied? && ws[k].requests[r].claim.reply.Won?
    requires p < |ws[k].requests| && IsPostOf(ws[k].requests[p], ws[k].requests[r].claim.reply.won)
    ensures var won := ws[k].requests[r].claim.reply;
            HandedOut(ws[k].requests[p].plan, won.settings, won.providers)
  {
    InvariantHolds(ws, acts, k);
    hide Chained, HandedOut, Unborn;
    assert ClaimAgrees(ws[k].requests, ws[k].requests[r].claim);
  }

  /** What claim r holds after it read the snapshot rows of j. */
  predicate HoldsRows(w: World, r: nat, j: JobId, providers: seq<PlainProvider>) {
    && r < |w.requests| && w.requests[r].Claim?
    && match w.requests[r].claim
       case Opened(ready, legacy, snapshots, readAt) => ready == j && snapshots == providers
       case Replied(Won(won, settings, handed)) => won == j && handed == providers
       case Replied(LostRace(raced)) => raced == j
       case _ => false
  }

  lemma HoldsRowsStep(w: World, a: Action, r: nat, j: JobId, providers: seq<PlainProvider>)
    requires Enabled(w, a) && HoldsRows(w, r, j, providers)
    ensures HoldsRows(Apply(w, a), r, j, providers)
    ensures Apply(w, a).requests[r].claim == w.requests[r].claim || Apply(w, a).requests[r].claim == Replied(LostRace(j))
            || j in w.jobs
  {
    hide Updated, PostNext, ReportNext;
    RequestsEvolve(w, a);
    assert SameOrigin(w.requests[r], RequestsAfter(w, a)[r]);
  }

  /** A claim that read the rows of a job which had no row then never wins it. */
  lemma {:induction false} RowsStayHeld(ws: seq<World>, acts: seq<Action>, m: nat, k: nat, r: nat, j: JobId,
                                         providers: seq<PlainProvider>)
    requires IsRun(ws, acts) && m <= k < |ws|
    requires HoldsRows(ws[m], r, j, providers) && ws[m].requests[r].claim.Opened?
    ensures HoldsRows(ws[k], r, j, providers)
    ensures !Unborn(ws[m].requests, j) && j !in ws[m].jobs ==>
      !Unborn(ws[k].requests, j) && j !in ws[k].jobs && !(ws[k].requests[r].claim.Replied? && ws[k].requests[r].claim.reply.Won?)
  {
    hide Chained, Apply, Enabled, Owned, RowsOk, LogOk, QuotaOk, SnapshotsOk, TokensOk, Unborn;
    if k > m {
      RowsStayHeld(ws, acts, m, k - 1, r, j, providers);
      StepOf(ws, acts, k - 1);
      HoldsRowsStep(ws[k - 1], acts[k - 1], r, j, providers);
      if !Unborn(ws[m].requests, j) && j !in ws[m].jobs {
        StaysBorn(ws[k - 1], acts[k - 1], j);
        ApplyRequests(ws[k - 1], acts[k - 1]);
        GoneStaysGone(ws[k - 1], acts[k - 1], j);
      }
      hide RequestsAfter;
    }
  }

  lemma ReadHolds(w: World, r: nat, rows: seq<SealedProvider>) returns (j: JobId)
    requires Enabled(w, OfClaim(ClaimRead(r, rows)))
    ensures ClaimAt(w, r) && w.requests[r].claim.Picked? && w.requests[r].claim.picked == j
    ensures var after := Apply(w, OfClaim(ClaimRead(r, rows)));
            && r < |after.requests| && after.requests[r].Claim? && after.requests[r].claim.Opened?
            && HoldsRows(after, r, j, after.requests[r].claim.snapshots)
  {
    j := w.requests[r].claim.picked;
    hide Updated, OpenAll;
  }

  /** What reading the snapshot rows of the job of POST p leaves the claim with. */
  lemma ReadStep(w: World, r: nat, rows: seq<SealedProvider>, p: nat)
    requires Enabled(w, OfClaim(ClaimRead(r, rows))) && Owned(w) && RowsOk(w) && SnapshotsOk(w)
    requires p < |w.requests| && IsPostOf(w.requests[p], w.requests[r].claim.picked)
    ensures var j := w.requests[r].claim.picked;
            var after := Apply(w, OfClaim(ClaimRead(r, rows)));
            && r < |after.requests| && after.requests[r].Claim? && after.requests[r].claim.Opened?
            && after.jobs.Keys == w.jobs.Keys
            && !Unborn(w.requests, j)
            && (HasSnapshots(w.requests[p].stage) ==>
                OrderedRows(w.requests[p].plan, after.requests[r].claim.snapshots, PlainPriority)
                && after.requests[r].claim.snapshots != [])
            && (!HasSnapshots(w.requests[p].stage) ==> after.requests[r].claim.snapshots == [])
            && (w.requests[p].id in w.jobs <==> HasRow(w.requests[p].stage))
  {
    hide Updated, OpenAll, Unborn, SealLegacy, FirstOf, SettingsSealed, PostsSealed;
    assert ClaimAgrees(w.requests, w.requests[r].claim);
    ReadAgrees(w, r, rows, p);
    assert RequestOk(w.requests[p]);
    assert |multiset(w.requests[p].plan)| == |w.requests[p].plan|;
  }

  /** Exactly when a claim won hands out no provider rows: it read them between the POST's two inserts. In every
      other case it hands out the whole plan that the POST fixed. */
  lemma HandsOutWholePlan(ws: seq<World>, acts: seq<Action>, m: nat, k: nat, r: nat, p: nat)
    requires IsRun(ws, acts) && m < k < |ws|
    requires acts[m].OfClaim? && acts[m].claim.ClaimRead? && acts[m].claim.r == r
    requires r < |ws[k].requests| && ws[k].requests[r].Claim?
    requires ws[k].requests[r].claim.Replied? && ws[k].requests[r].claim.reply.Won?
    requires p < |ws[m].requests| && IsPostOf(ws[m].requests[p], ws[k].requests[r].claim.reply.won)
    ensures var handed := ws[k].requests[r].claim.reply.providers;
            if ws[m].requests[p].stage == JobInserted then handed == []
            else OrderedRows(ws[m].requests[p].plan, handed, PlainPriority) && handed != []
  {
    hide Chained, Apply, Enabled, Owned, RowsOk, LogOk, QuotaOk, SnapshotsOk, TokensOk, Unborn, OrderedRows;
    StepOf(ws, acts, m);
    var j := ReadHolds(ws[m], r, acts[m].claim.rows);
    RowsStayHeld(ws, acts, m + 1, k, r, j, ws[m + 1].requests[r].claim.snapshots);
    ReadStep(ws[m], r, acts[m].claim.rows, p);
    StaysBorn(ws[m], acts[m], j);
    ApplyRequests(ws[m], acts[m]);
    hide RequestsAfter;
  }
}
