/** Where the columns of a job row and the answers of POST /jobs come from, over whole runs. */
module Origins {
  import opened Basics
  import opened Tables
  import opened Pipeline
  import opened Identity
  import opened Rows
  import opened Lease
  import opened Quota
  import opened Runs
  import opened Statements

  // ---------- the row and its POST

  /** What no update of a row changes. */
  predicate SameFixed(before: Job, after: Job) {
    && after.owner == before.owner && after.user == before.user && after.createdAt == before.createdAt
    && after.publicExpiry == before.publicExpiry && after.legacy == before.legacy
    && (before.exempt ==> after.exempt)
  }

  lemma FixedColumns(w: World, a: Action, j: JobId)
    requires Enabled(w, a) && j in w.jobs
    ensures SameFixed(w.jobs[j], Updated(w, a, j))
  {
    hide NewPercent;
  }

  /** The row was inserted by this POST. */
  predicate RowOfPost(job: Job, q: Request)
    requires q.Post?
  {
    && job.owner == q.owner && job.user == q.user && job.publicExpiry == q.expiry && (q.exempt ==> job.exempt)
  }

  lemma InsertedBy(w: World, a: Action, p: nat)
    requires Enabled(w, a) && UniqueIds(w.requests) && p < |w.requests| && w.requests[p].Post?
    requires w.requests[p].id !in w.jobs && w.requests[p].id in JobsAfter(w, a)
    ensures a == OfPost(PostInsert(p))
    ensures var row := JobsAfter(w, a)[w.requests[p].id];
            && RowOfPost(row, w.requests[p]) && row.createdAt == w.clock && row.percent == 0 && !row.deleted
            && row.status == Queued && row.claimedAt.None? && row.worker.None? && row.exempt == w.requests[p].exempt
  {
    hide Updated, SealLegacy, RequestsAfter;
  }

  lemma RowStep(w: World, a: Action, p: nat)
    requires Enabled(w, a) && Owned(w) && p < |w.requests| && w.requests[p].Post?
    requires RequestsAfter(w, a)[p].Post? && w.requests[p].id in JobsAfter(w, a)
    requires w.requests[p].id in w.jobs ==> RowOfPost(w.jobs[w.requests[p].id], w.requests[p])
    ensures RowOfPost(JobsAfter(w, a)[w.requests[p].id], RequestsAfter(w, a)[p])
  {
    hide RequestsAfter, Unborn, UniqueIds;
    RequestsEvolve(w, a);
    assert SameOrigin(w.requests[p], RequestsAfter(w, a)[p]);
    assert w.requests[p].id in w.jobs <==> HasRow(w.requests[p].stage);
    if w.requests[p].id in w.jobs {
      FixedColumns(w, a, w.requests[p].id);
    } else {
      InsertedBy(w, a, p);
    }
    hide Updated;
  }

  lemma StartsEmpty(ws: seq<World>, acts: seq<Action>)
    requires IsRun(ws, acts)
    ensures ws[0] == Initial(ws[0].clock)
  {
  }

  /** In every run the row of a job has the owner, user, exemption and public expiry of the POST that has its id. */
  lemma {:induction false} RowComesFromPost(ws: seq<World>, acts: seq<Action>, k: nat, p: nat)
    requires IsRun(ws, acts) && k < |ws| && p < |ws[k].requests| && ws[k].requests[p].Post?
    requires ws[k].requests[p].id in ws[k].jobs
    ensures RowOfPost(ws[k].jobs[ws[k].requests[p].id], ws[k].requests[p])
  {
    hide Chained, Enabled, Unborn, RowsOk, LogOk, QuotaOk, UniqueIds, Updated, RequestsAfter, RowOfPost;
    if k > 0 {
      StepOf(ws, acts, k - 1);
      var w, a := ws[k - 1], acts[k - 1];
      RequestsEvolve(w, a);
      if p < |w.requests| {
        assert SameOrigin(w.requests[p], RequestsAfter(w, a)[p]);
        if w.requests[p].id in w.jobs {
          RowComesFromPost(ws, acts, k - 1, p);
        }
        RowStep(w, a, p);
      } else {
        NewHasNoRow(w, a);
        assert false;
      }
    } else {
      StartsEmpty(ws, acts);
    }
  }

  lemma NewHasNoRow(w: World, a: Action)
    requires Enabled(w, a) && Owned(w) && |RequestsAfter(w, a)| > |w.requests| && RequestsAfter(w, a)[|w.requests|].Post?
    ensures RequestsAfter(w, a)[|w.requests|].id !in JobsAfter(w, a)
  {
    NewPostIsFresh(w, a);
    assert Unborn(w.requests, RequestsAfter(w, a)[|w.requests|].id);
    hide Updated;
  }

  // ---------- what the client sent

  predicate BeganAs(a: Action, q: Request) {
    match q
    case Post(id, owner, user, exempt, size, subject, day, expiry, plan, stage) =>
      a == OfPost(PostBegin(id, owner, user, exempt, size, subject))
    case Claim(worker, claim) => a == OfClaim(ClaimBegin(worker))
    case Report(job, says, sent, stamp, report) => a == OfReport(ReportBegin(job, says, sent))
  }

  lemma NewIsAsSent(w: World, a: Action)
    requires Enabled(w, a) && |RequestsAfter(w, a)| > |w.requests|
    ensures var q := RequestsAfter(w, a)[|w.requests|];
            BeganAs(a, q) && (q.Report? ==> q.stamp == w.clock)
  {
    hide PostNext, ClaimNext, ReportNext;
  }

  lemma SentAsBefore(a: Action, q: Request, q': Request)
    requires BeganAs(a, q) && SameOrigin(q, q')
    ensures BeganAs(a, q') && (q.Report? ==> q'.Report? && q'.stamp == q.stamp)
  {
  }

  /** In every run a request is what was sent, and a report carries the time at which it arrived. */
  lemma {:induction false} RequestIsAsSent(ws: seq<World>, acts: seq<Action>, k: nat, p: nat) returns (m: nat)
    requires IsRun(ws, acts) && k < |ws| && p < |ws[k].requests|
    ensures m < k && BeganAs(acts[m], ws[k].requests[p])
    ensures ws[k].requests[p].Report? ==> ws[k].requests[p].stamp == ws[m].clock
  {
    hide Chained, Apply, Enabled, Owned, RowsOk, LogOk, QuotaOk, RequestsAfter, BeganAs, SameOrigin;
    if k == 0 {
      StartsEmpty(ws, acts);
      assert false;
    } else {
      StepOf(ws, acts, k - 1);
      ApplyRequests(ws[k - 1], acts[k - 1]);
      RequestsEvolve(ws[k - 1], acts[k - 1]);
      if p < |ws[k - 1].requests| {
        m := RequestIsAsSent(ws, acts, k - 1, p);
        assert SameOrigin(ws[k - 1].requests[p], ws[k].requests[p]);
        SentAsBefore(acts[m], ws[k - 1].requests[p], ws[k].requests[p]);
        SameKind(ws[k - 1].requests[p], ws[k].requests[p]);
      } else {
        NewIsAsSent(ws[k - 1], acts[k - 1]);
        m := k - 1;
      }
    }
  }

  lemma SameKind(q: Request, q': Request)
    requires SameOrigin(q, q')
    ensures q.Report? <==> q'.Report?
  {
  }

  // ---------- 24 hours of public life

  predicate WasPlanned(stage: PostStage) {
    stage == Planned || HasRow(stage) || stage == Answered(RolledBack)
  }

  predicate PlansPublic(a: Action, p: nat) {
    a.OfPost? && a.post.PostPlanGiven? && a.post.r == p
  }

  /** A public POST gets its expiry, a day ahead, when its plan is fixed. */
  lemma PlanStep(w: World, a: Action, p: nat)
    requires Enabled(w, a) && p < |w.requests| && w.requests[p].Post? && w.requests[p].owner == Public
    requires RequestsAfter(w, a)[p].Post? && WasPlanned(RequestsAfter(w, a)[p].stage)
    ensures if WasPlanned(w.requests[p].stage) then RequestsAfter(w, a)[p].expiry == w.requests[p].expiry
            else PlansPublic(a, p) && RequestsAfter(w, a)[p].expiry == Some(w.clock + 24 * HOUR_MS)
  {
    hide ClaimNext, ReportNext, OpenAll, Reserve, IsListing;
  }

  lemma ClockStep(w: World, a: Action)
    requires Enabled(w, a)
    ensures w.clock <= Apply(w, a).clock
  {
    hide JobsAfter, RequestsAfter, EventsOf;
  }

  lemma PublicRowStep(w: World, a: Action, p: nat, since: int)
    requires Enabled(w, a) && Owned(w) && p < |w.requests| && w.requests[p].Post? && since <= w.clock
    requires w.requests[p].id in w.jobs ==> since <= w.jobs[w.requests[p].id].createdAt
    requires w.requests[p].id in Apply(w, a).jobs
    ensures since <= Apply(w, a).jobs[w.requests[p].id].createdAt
  {
    hide RequestsAfter, Updated;
    if w.requests[p].id in w.jobs {
      JobPersists(w, a, w.requests[p].id);
      FixedColumns(w, a, w.requests[p].id);
    } else {
      InsertedBy(w, a, p);
    }
  }

  /** In every run a public job lives until 24 hours after its plan was fixed, which was before it was inserted; neither
      a claim, nor a recovery, nor a report moves that time. */
  lemma {:induction false} PublicLifetime(ws: seq<World>, acts: seq<Action>, k: nat, p: nat) returns (m: nat)
    requires IsRun(ws, acts) && k < |ws| && p < |ws[k].requests| && ws[k].requests[p].Post?
    requires ws[k].requests[p].owner == Public && WasPlanned(ws[k].requests[p].stage)
    ensures m < k && PlansPublic(acts[m], p) && ws[m].clock <= ws[k].clock
    ensures ws[k].requests[p].expiry == Some(ws[m].clock + 24 * HOUR_MS)
    ensures var id := ws[k].requests[p].id;
            id in ws[k].jobs ==>
              ws[k].jobs[id].publicExpiry == Some(ws[m].clock + 24 * HOUR_MS) && ws[m].clock <= ws[k].jobs[id].createdAt
  {
    hide Chained, Apply, Enabled, Unborn, RowsOk, LogOk, QuotaOk, RequestsAfter, RowOfPost, PlansPublic;
    if k == 0 {
      StartsEmpty(ws, acts);
      assert false;
    } else {
      m := PublicLifetimeStep(ws, acts, k, p);
      if ws[k].requests[p].id in ws[k].jobs {
        RowComesFromPost(ws, acts, k, p);
        ExpiryOfPost(ws[k].jobs[ws[k].requests[p].id], ws[k].requests[p]);
      }
    }
  }

  lemma ExpiryOfPost(job: Job, q: Request)
    requires q.Post? && RowOfPost(job, q)
    ensures job.publicExpiry == q.expiry
  {
  }

  lemma {:induction false} PublicLifetimeStep(ws: seq<World>, acts: seq<Action>, k: nat, p: nat) returns (m: nat)
    requires IsRun(ws, acts) && 0 < k < |ws| && p < |ws[k].requests| && ws[k].requests[p].Post?
    requires ws[k].requests[p].owner == Public && WasPlanned(ws[k].requests[p].stage)
    ensures m < k && PlansPublic(acts[m], p) && ws[m].clock <= ws[k].clock
    ensures ws[k].requests[p].expiry == Some(ws[m].clock + 24 * HOUR_MS)
    ensures ws[k].requests[p].id in ws[k].jobs ==> ws[m].clock <= ws[k].jobs[ws[k].requests[p].id].createdAt
    decreases k
  {
    hide Chained, Apply, Enabled, Unborn, RowsOk, LogOk, QuotaOk, RequestsAfter, PlansPublic;
    var w, a := ws[k - 1], acts[k - 1];
    StepOf(ws, acts, k - 1);
    ApplyRequests(w, a);
    RequestsEvolve(w, a);
    ClockStep(w, a);
    if p == |w.requests| {
      NewPostIsFresh(w, a);
      assert false;
    }
    assert SameOrigin(w.requests[p], ws[k].requests[p]);
    PlanStep(w, a, p);
    if WasPlanned(w.requests[p].stage) {
      PlannedIsLater(ws, acts, k - 1, p);
      m := PublicLifetimeStep(ws, acts, k - 1, p);
    } else {
      m := k - 1;
      assert w.requests[p].id !in w.jobs by {
        NoRowBeforePlan(w, p);
      }
    }
    if ws[k].requests[p].id in ws[k].jobs {
      PublicRowStep(w, a, p, ws[m].clock);
    }
  }

  lemma PlannedIsLater(ws: seq<World>, acts: seq<Action>, k: nat, p: nat)
    requires IsRun(ws, acts) && k < |ws| && p < |ws[k].requests|
    ensures k > 0
  {
  }

  lemma NoRowBeforePlan(w: World, p: nat)
    requires Owned(w) && p < |w.requests| && w.requests[p].Post? && !WasPlanned(w.requests[p].stage)
    ensures w.requests[p].id !in w.jobs
  {
    assert w.requests[p].id in w.jobs <==> HasRow(w.requests[p].stage);
    hide UniqueIds, Unborn;
  }

  // ---------- the plan

  /** The plan that a step fixes for POST p, and the world it fixes it in. */
  ghost predicate Fixes(w: World, a: Action, p: nat, plan: seq<PlainProvider>) {
    && a.OfPost? && p < |w.requests| && w.requests[p].Post?
    && (a.post == PostPlanGiven(p, plan) ||
        (a.post.PostPlanOwn? && a.post.r == p &&
         plan == OpenAll(EnabledSettings(w.providers, a.post.listing), Vault.ProviderContext(w.requests[p].user))))
  }

  lemma FixStep(w: World, a: Action, p: nat)
    requires Enabled(w, a) && p < |w.requests| && w.requests[p].Post?
    requires RequestsAfter(w, a)[p].Post? && WasPlanned(RequestsAfter(w, a)[p].stage)
    ensures if WasPlanned(w.requests[p].stage) then RequestsAfter(w, a)[p].plan == w.requests[p].plan
            else Fixes(w, a, p, RequestsAfter(w, a)[p].plan)
  {
    hide ClaimNext, ReportNext, OpenAll, Reserve, IsListing, EnabledSettings;
  }

  /** In every run the plan of a POST is the one it was given, or what the user's enabled providers opened to, at one
      moment of its own handling. */
  lemma {:induction false} PlanIsAsRead(ws: seq<World>, acts: seq<Action>, k: nat, p: nat) returns (m: nat)
    requires IsRun(ws, acts) && k < |ws| && p < |ws[k].requests| && ws[k].requests[p].Post?
    requires WasPlanned(ws[k].requests[p].stage)
    ensures m < k && Fixes(ws[m], acts[m], p, ws[k].requests[p].plan)
  {
    hide Chained, Apply, Enabled, Owned, RowsOk, LogOk, QuotaOk, RequestsAfter, Fixes, WasPlanned;
    if k == 0 {
      StartsEmpty(ws, acts);
      assert false;
    } else {
      StepOf(ws, acts, k - 1);
      ApplyRequests(ws[k - 1], acts[k - 1]);
      RequestsEvolve(ws[k - 1], acts[k - 1]);
      if p == |ws[k - 1].requests| {
        NewIsUnplanned(ws[k - 1], acts[k - 1]);
        assert false;
      }
      assert SameOrigin(ws[k - 1].requests[p], ws[k].requests[p]);
      FixStep(ws[k - 1], acts[k - 1], p);
      if WasPlanned(ws[k - 1].requests[p].stage) {
        m := PlanIsAsRead(ws, acts, k - 1, p);
      } else {
        m := k - 1;
      }
    }
  }

  lemma NewIsUnplanned(w: World, a: Action)
    requires Enabled(w, a) && |RequestsAfter(w, a)| > |w.requests| && RequestsAfter(w, a)[|w.requests|].Post?
    ensures !WasPlanned(RequestsAfter(w, a)[|w.requests|].stage)
  {
    NewPostIsFresh(w, a);
    hide RequestsAfter, Enabled;
  }

  // ---------- a week of download, the size limit

  /** In every run a completed job that is not exempt can be downloaded for at least a week from its finish. */
  lemma WeekOfDownload(ws: seq<World>, acts: seq<Action>, k: nat, j: JobId)
    requires IsRun(ws, acts) && k < |ws| && j in ws[k].jobs && ws[k].jobs[j].status == Completed && !ws[k].jobs[j].exempt
    ensures var job := ws[k].jobs[j];
            && job.downloadExpiry.Some? && job.finishedAt.Some?
            && job.downloadExpiry.value.ms >= job.finishedAt.value + 7 * 24 * HOUR_MS
  {
    hide Chained;
    InvariantHolds(ws, acts, k);
    assert RowOk(ws[k].jobs[j]);
  }

  /** In every run a POST that was neither just begun nor refused is within the size limit of its scope. */
  lemma UploadsAreWithinSize(ws: seq<World>, acts: seq<Action>, k: nat, p: nat)
    requires IsRun(ws, acts) && k < |ws| && p < |ws[k].requests| && ws[k].requests[p].Post?
    requires ws[k].requests[p].stage != Begun && ws[k].requests[p].stage != Answered(BadRequest)
    ensures var q := ws[k].requests[p];
            && (q.owner == Public ==> q.size <= 5 * 1024 * 1024)
            && (q.owner == Firebase && !q.exempt ==> q.size <= 20 * 1024 * 1024)
  {
    hide Chained;
    InvariantHolds(ws, acts, k);
    assert RequestOk(ws[k].requests[p]);
  }

  // ---------- the two quota decisions

  predicate Unlimited(q: Request)
    requires q.Post?
  {
    q.owner == Firebase && q.exempt
  }

  /** The pre-check refuses an upload that is too large, and else, at the limit of the reservations held at that moment, a
      user or guest who has one; and nobody else. */
  lemma PrecheckDecides(ws: seq<World>, acts: seq<Action>, k: nat, r: nat)
    requires IsRun(ws, acts) && k < |acts| && acts[k] == OfPost(PostPrecheck(r))
    ensures PostAt(ws[k], r, Begun) && r < |ws[k + 1].requests| && ws[k + 1].requests[r].Post?
    ensures var q := ws[k].requests[r];
            var key := UsageKey(q.owner, q.subject, ws[k].clock / (24 * HOUR_MS));
            ws[k + 1].requests[r].stage ==
              (if !WithinSize(q.owner, q.exempt, q.size) then Answered(BadRequest)
               else if !Unlimited(q) && Tally(ws[k].requests, HeldOne(key)) >= Ceiling(key) then Answered(LimitReached)
               else Prechecked)
    ensures ws[k + 1].requests[r].day == ws[k].clock / (24 * HOUR_MS)
  {
    hide Chained, Owned, RowsOk, LogOk, Tally;
    StepOf(ws, acts, k);
    ApplyRequests(ws[k], acts[k]);
    var q := ws[k].requests[r];
    assert QuotaOf(ws[k], UsageKey(q.owner, q.subject, ws[k].clock / (24 * HOUR_MS)));
    hide Apply, HeldOne, HeldBytes, HeldExempt;
  }

  /** A reservation is refused if and only if the POST is not exempt and the reservations held for its subject and day have
      reached the limit of its scope. */
  lemma ReservationDecides(ws: seq<World>, acts: seq<Action>, k: nat, r: nat)
    requires IsRun(ws, acts) && k < |acts| && acts[k] == OfPost(PostReserve(r))
    ensures PostAt(ws[k], r, SnapshotsInserted) && r < |ws[k + 1].requests| && ws[k + 1].requests[r].Post?
    ensures var q := ws[k].requests[r];
            ws[k + 1].requests[r].stage ==
              (if !Unlimited(q) && Tally(ws[k].requests, HeldOne(QuotaKey(q))) >= Ceiling(QuotaKey(q)) then QuotaRefused
               else Reserved)
  {
    hide Chained, Owned, RowsOk, LogOk, Tally;
    StepOf(ws, acts, k);
    ApplyRequests(ws[k], acts[k]);
    var q := ws[k].requests[r];
    assert QuotaOf(ws[k], QuotaKey(q));
    ReserveOutcome(ws[k].usage, QuotaKey(q), q.size, LimitsOf(q).jobsPerDay);
    hide Apply, HeldOne, HeldBytes, HeldExempt, Reserve;
  }

  // ---------- recovery

  /** Whenever the history of a run records a recovery of a job, the job has a row and can be claimed right after it. */
  lemma RecoveredCanBeClaimed(ws: seq<World>, acts: seq<Action>, k: nat, j: JobId)
    requires IsRun(ws, acts) && k < |acts|
    requires |ws[k + 1].log| > |ws[k].log| && Requeues(ws[k + 1].log[|ws[k].log|], j)
    ensures j in ws[k].jobs && j in ws[k + 1].jobs
    ensures ws[k].jobs[j].status == Running && Eligible(ws[k + 1].jobs[j], ws[k + 1].clock)
    ensures var before, after := ws[k].jobs[j], ws[k + 1].jobs[j];
            && after.worker.None? && after.claimedAt.None? && after.startedAt.None?
            && after.(status := before.status, worker := before.worker, claimedAt := before.claimedAt,
                      startedAt := before.startedAt) == before
  {
    hide Chained, Apply, Enabled, Owned, RowsOk, LogOk, QuotaOk, EventsOf;
    StepOf(ws, acts, k);
    LogGrows(ws[k], acts[k]);
    RequeueIsSweep(ws[k], acts[k], j);
    SweepOutcome(ws[k], acts[k].claim.r, j);
    SweepKeepsClock(ws[k], acts[k].claim.r);
  }

  lemma RequeueIsSweep(w: World, a: Action, j: JobId)
    requires Enabled(w, a) && EventsOf(w, a) != [] && Requeues(EventsOf(w, a)[0], j)
    ensures a.OfClaim? && a.claim.ClaimSweep? && j in w.jobs && LeaseLost(w.jobs[j], w.clock)
  {
  }
}
