/** The Worker's database as the object its handlers update in place, one method for each SQL statement or batch
    (worker/src/index.ts). Each method is a step of the Pipeline, so it keeps every invariant of the runs. */
module WorkerStore {
  import opened Basics
  import opened Vault
  import opened Retention
  import opened Tables
  import opened Pipeline
  import opened Runs
  import Statements

  // ---------- how the tables of a step are put together

  /** Steps that write nothing but the handler's own progress. */
  predicate OnlyMoves(a: Action) {
    match a
    case OfPost(p) => !(p.PostInsert? || p.PostSnapshot? || p.PostReserve? || p.PostRollback? || p.PostUploadFailed?)
    case OfClaim(c) => c.ClaimBegin? || c.ClaimSelect? || c.ClaimRead?
    case OfReport(m) => m.ReportBegin? || m.ReportRead?
    case _ => false
  }

  /** Steps that update job rows in place. */
  predicate OnlyUpdates(a: Action) {
    !(a.OfPost? && (a.post.PostInsert? || a.post.PostRollback?))
  }

  /** The jobs after an UPDATE of row j, if there is one, that leaves all others alone. */
  function WithRow(jobs: map<JobId, Job>, j: JobId, row: Job): map<JobId, Job> {
    if j in jobs then jobs[j := row] else jobs
  }

  lemma UpdateOne(w: World, a: Action, j: JobId, row: Job)
    requires Enabled(w, a) && OnlyUpdates(a)
    requires j in w.jobs ==> Updated(w, a, j) == row
    requires forall i :: i in w.jobs && i != j ==> Updated(w, a, i) == w.jobs[i]
    ensures JobsAfter(w, a) == WithRow(w.jobs, j, row)
  {
    hide Updated, Enabled;
    assert InsertedKey(w, a) == {} && RemovedKey(w, a) == {};
  }

  lemma UpdateAll(w: World, a: Action, jobs: map<JobId, Job>)
    requires Enabled(w, a) && OnlyUpdates(a)
    requires jobs.Keys == w.jobs.Keys && forall j :: j in w.jobs ==> jobs[j] == Updated(w, a, j)
    ensures JobsAfter(w, a) == jobs
  {
    assert InsertedKey(w, a) == {} && RemovedKey(w, a) == {};
    hide Updated, Enabled;
  }

  lemma MovesOnly(w: World, a: Action)
    requires Enabled(w, a) && OnlyMoves(a)
    ensures Apply(w, a) == w.(requests := RequestsAfter(w, a))
  {
    UpdateAll(w, a, w.jobs);
    hide RequestsAfter, JobsAfter, Enabled;
    assert w.log + [] == w.log;
  }

  lemma NotYetInserted(w: World, r: nat)
    requires PostEnabled(w, PostInsert(r)) && Identity.Owned(w)
    ensures w.requests[r].id !in w.jobs
  {
    assert w.requests[r].id in w.jobs <==> Identity.HasRow(w.requests[r].stage);
    hide Identity.UniqueIds, Identity.Unborn;
  }

  lemma OwnedOf(w: World)
    requires Invariant(w)
    ensures Identity.Owned(w)
  {
  }

  lemma InsertedRow(w: World, r: nat)
    requires Enabled(w, OfPost(PostInsert(r))) && w.requests[r].id !in w.jobs
    ensures JobsAfter(w, OfPost(PostInsert(r))) == w.jobs[w.requests[r].id := NewJob(w.requests[r], w.clock)]
  {
    assert RemovedKey(w, OfPost(PostInsert(r))) == {} && InsertedKey(w, OfPost(PostInsert(r))) == {w.requests[r].id};
    hide NewJob, Enabled;
  }

  lemma RemovedRow(w: World, r: nat)
    requires Enabled(w, OfPost(PostRollback(r)))
    ensures JobsAfter(w, OfPost(PostRollback(r))) == w.jobs - {w.requests[r].id}
  {
    assert RemovedKey(w, OfPost(PostRollback(r))) == {w.requests[r].id} && InsertedKey(w, OfPost(PostRollback(r))) == {};
    hide Enabled;
  }

  lemma PickExists(w: World, pick: Option<JobId>)
    requires IsPick(w, pick)
    ensures pick.Some? ==> pick.value in w.jobs
  {
  }

  lemma ReorderOnly(w: World, user: UserId, ids: seq<string>)
    ensures Apply(w, OfUser(ReorderProviders(user, ids))) == w.(providers := Reordered(w.providers, user, ids, |ids|))
  {
    UpdateAll(w, OfUser(ReorderProviders(user, ids)), w.jobs);
    hide JobsAfter;
    assert w.log + [] == w.log;
  }

  /** Stands for the row of an UPDATE that matches none. */
  function Blank(): Job {
    Job(Firebase, "", Queued, None, 0, None, None, None, 0, None, None, false, false, Legacy("", "", "", None))
  }

  class Database {
    var clock: int
    var jobs: map<JobId, Job>
    var snapshots: map<JobId, seq<SealedProvider>>
    var providers: map<string, ProviderRow>
    var usage: map<UsageKey, Usage>
    var requests: seq<Request>
    var issued: set<Issue>
    ghost var log: seq<Event>

    ghost function Now(): World
      reads this
    {
      World(clock, jobs, snapshots, providers, usage, requests, issued, log)
    }

    ghost predicate Valid()
      reads this
    {
      Invariant(Now())
    }

    constructor (now: int)
      ensures Valid() && Now() == Initial(now)
    {
      clock, jobs, snapshots, providers, usage, requests, issued, log := now, map[], map[], map[], map[], [], {}, [];
      new;
      InvariantInitially(now);
    }

    method Tick(now: int)
      requires Valid() && clock <= now
      modifies this`clock
      ensures Valid() && Now() == Apply(old(Now()), Action.Tick(now))
    {
      hide Invariant;
      ghost var before, a := Now(), Action.Tick(now);
      UpdateAll(before, a, jobs);
      clock := now;
      assert log + [] == log;
      assert Now() == Apply(before, a);
      InvariantKept(before, a);
    }

    // ---------- POST /jobs

    method BeginPost(id: JobId, owner: Owner, user: UserId, exempt: bool, size: nat, subject: string)
      requires Valid() && Enabled(Now(), OfPost(PostBegin(id, owner, user, exempt, size, subject)))
      modifies this`requests
      ensures Valid() && Now() == Apply(old(Now()), OfPost(PostBegin(id, owner, user, exempt, size, subject)))
    {
      hide Invariant, Apply, Enabled;
      ghost var before, a := Now(), OfPost(PostBegin(id, owner, user, exempt, size, subject));
      MovesOnly(before, a);
      requests := requests + [Post(id, owner, user, exempt, size, subject, 0, None, [], Begun)];
      assert Now() == Apply(before, a);
      InvariantKept(before, a);
    }

    method Refuse(r: nat)
      requires Valid() && Enabled(Now(), OfPost(PostRefuse(r)))
      modifies this`requests
      ensures Valid() && Now() == Apply(old(Now()), OfPost(PostRefuse(r)))
    {
      hide Invariant, Apply;
      ghost var before, a := Now(), OfPost(PostRefuse(r));
      MovesOnly(before, a);
      requests := requests[r := requests[r].(stage := Answered(BadRequest))];
      assert Now() == Apply(before, a);
      InvariantKept(before, a);
    }

    /** The size limit, and the read of today's usage that the reservation does not rely on. */
    method Precheck(r: nat)
      requires Valid() && Enabled(Now(), OfPost(PostPrecheck(r)))
      modifies this`requests
      ensures Valid() && Now() == Apply(old(Now()), OfPost(PostPrecheck(r)))
    {
      hide Invariant, Apply;
      ghost var before, a := Now(), OfPost(PostPrecheck(r));
      MovesOnly(before, a);
      var q := requests[r].(day := clock / DAY_MS);
      var limits := UsageLimitsForScope(q.owner == Public, q.exempt);
      var key := UsageKey(q.owner, q.subject, q.day);
      var used := if key in usage then usage[key].jobsCreated else 0;
      if limits.pdfMaxBytes.Some? && q.size > limits.pdfMaxBytes.value {
        q := q.(stage := Answered(BadRequest));
      } else if limits.jobsPerDay.Some? && used >= limits.jobsPerDay.value {
        q := q.(stage := Answered(LimitReached));
      } else {
        q := q.(stage := Prechecked);
      }
      requests := requests[r := q];
      assert Now() == Apply(before, a);
      InvariantKept(before, a);
    }

    /** The user's enabled providers, in the order of the listing. */
    method EnabledProviders(listing: seq<string>) returns (rows: seq<SealedProvider>)
      ensures rows == EnabledSettings(providers, listing)
    {
      rows := [];
      for n := 0 to |listing|
        invariant rows == EnabledSettings(providers, listing[..n])
      {
        Statements.EnabledAppend(providers, listing[..n], listing[n]);
        assert listing[..n + 1] == listing[..n] + [listing[n]];
        if listing[n] in providers && providers[listing[n]].enabled {
          rows := rows + [providers[listing[n]].settings];
        }
      }
      assert listing[..|listing|] == listing;
    }

    /** Decrypt every key, or stop at the first that does not open. */
    method OpenRows(rows: seq<SealedProvider>, context: string) returns (plan: Option<seq<PlainProvider>>)
      ensures plan == if forall p :: p in rows ==> Opens(p.key, context) then Some(OpenAll(rows, context)) else None
    {
      var plain := [];
      for n := 0 to |rows|
        invariant forall k :: 0 <= k < n ==> Opens(rows[k].key, context)
        invariant plain == OpenAll(rows[..n], context)
      {
        if rows[n].key.Some? && Unseal(rows[n].key.value, context).None? {
          assert rows[n] in rows;
          return None;
        }
        assert OpenAll(rows[..n + 1], context) == OpenAll(rows[..n], context) + [OpenProvider(rows[n], context)];
        plain := plain + [OpenProvider(rows[n], context)];
      }
      assert rows[..|rows|] == rows;
      return Some(plain);
    }

    /** The plan from the user's own settings; `none` when none of them is enabled, and then nothing is written. */
    method PlanOwn(r: nat, listing: seq<string>) returns (none: bool)
      requires Valid() && PostAt(Now(), r, Prechecked) && requests[r].owner == Firebase
      requires IsListing(providers, requests[r].user, listing)
      modifies this`requests
      ensures none <==> EnabledSettings(providers, listing) == []
      ensures none ==> Now() == old(Now())
      ensures !none ==> Enabled(old(Now()), OfPost(PostPlanOwn(r, listing)))
      ensures !none ==> Valid() && Now() == Apply(old(Now()), OfPost(PostPlanOwn(r, listing)))
    {
      hide Invariant, Apply, EnabledSettings, Opens, OpenAll, IsListing;
      var rows := EnabledProviders(listing);
      if rows == [] {
        return true;
      }
      ghost var before, a := Now(), OfPost(PostPlanOwn(r, listing));
      MovesOnly(before, a);
      var q := requests[r];
      var plan := OpenRows(rows, ProviderContext(q.user));
      if plan.Some? {
        q := q.(plan := plan.value, expiry := if q.owner == Public then Some(clock + DAY_MS) else None, stage := Planned);
      } else {
        q := q.(stage := Answered(BadRequest));
      }
      requests := requests[r := q];
      assert Now() == Apply(before, a);
      InvariantKept(before, a);
      return false;
    }

    /** A one-off key or the server's public fallback as the plan. */
    method PlanGiven(r: nat, plan: seq<PlainProvider>)
      requires Valid() && Enabled(Now(), OfPost(PostPlanGiven(r, plan)))
      modifies this`requests
      ensures Valid() && Now() == Apply(old(Now()), OfPost(PostPlanGiven(r, plan)))
    {
      hide Invariant, Apply;
      ghost var before, a := Now(), OfPost(PostPlanGiven(r, plan));
      MovesOnly(before, a);
      var q := requests[r];
      var expiry := if q.owner == Public then Some(clock + DAY_MS) else None;
      requests := requests[r := q.(plan := plan, expiry := expiry, stage := Planned)];
      assert Now() == Apply(before, a);
      InvariantKept(before, a);
    }

    method InsertJob(r: nat)
      requires Valid() && Enabled(Now(), OfPost(PostInsert(r)))
      modifies this`requests, this`jobs
      ensures Valid() && Now() == Apply(old(Now()), OfPost(PostInsert(r)))
    {
      hide Invariant, JobsAfter, SealLegacy, Identity.Owned;
      ghost var before, a := Now(), OfPost(PostInsert(r));
      OwnedOf(before);
      NotYetInserted(before, r);
      InsertedRow(before, r);
      var q := requests[r];
      var first := if q.plan == [] then Legacy("openai_compatible", "", "", None) else LegacyOf(q.plan[0]);
      jobs := jobs[q.id := Job(q.owner, q.user, Queued, None, clock, None, None, None, 0, q.expiry, None, q.exempt, false,
                               SealLegacy(first, LegacyContext(q.id)))];
      requests := requests[r := q.(stage := JobInserted)];
      assert log + [] == log;
      assert Now() == Apply(before, a);
      InvariantKept(before, a);
    }

    method InsertSnapshots(r: nat)
      requires Valid() && Enabled(Now(), OfPost(PostSnapshot(r)))
      modifies this`requests, this`snapshots
      ensures Valid() && Now() == Apply(old(Now()), OfPost(PostSnapshot(r)))
    {
      hide Invariant, JobsAfter, SealProvider;
      ghost var before, a := Now(), OfPost(PostSnapshot(r));
      UpdateAll(before, a, jobs);
      var q := requests[r];
      var rows := [];
      for n := 0 to |q.plan|
        invariant rows == SealAll(q.plan[..n], SnapshotContext(q.id))
      {
        assert SealAll(q.plan[..n + 1], SnapshotContext(q.id)) ==
               SealAll(q.plan[..n], SnapshotContext(q.id)) + [SealProvider(q.plan[n], SnapshotContext(q.id))];
        rows := rows + [SealProvider(q.plan[n], SnapshotContext(q.id))];
      }
      assert q.plan[..|q.plan|] == q.plan;
      snapshots := snapshots[q.id := rows];
      requests := requests[r := q.(stage := SnapshotsInserted)];
      assert log + [] == log;
      assert Now() == Apply(before, a);
      InvariantKept(before, a);
    }

    /** INSERT ... ON CONFLICT DO UPDATE ... WHERE jobs_created < limit, and whether it changed a row. */
    method Upsert(key: UsageKey, size: nat, limit: Option<nat>) returns (changed: bool)
      modifies this`usage
      ensures (usage, changed) == Reserve(old(usage), key, size, limit)
    {
      if key !in usage {
        usage := usage[key := Usage(1, size)];
        return true;
      }
      var row := usage[key];
      if limit.Some? && row.jobsCreated >= limit.value {
        return false;
      }
      usage := usage[key := Usage(row.jobsCreated + 1, row.bytesUploaded + size)];
      return true;
    }

    method ReserveQuota(r: nat) returns (changed: bool)
      requires Valid() && Enabled(Now(), OfPost(PostReserve(r)))
      modifies this`requests, this`usage
      ensures Valid() && Now() == Apply(old(Now()), OfPost(PostReserve(r)))
      ensures changed <==> requests[r].Post? && requests[r].stage == Reserved
    {
      hide Invariant, JobsAfter, Reserve, UsageLimitsForScope;
      ghost var before, a := Now(), OfPost(PostReserve(r));
      UpdateAll(before, a, jobs);
      var q := requests[r];
      changed := Upsert(UsageKey(q.owner, q.subject, q.day), q.size, UsageLimitsForScope(q.owner == Public, q.exempt).jobsPerDay);
      requests := requests[r := q.(stage := if changed then Reserved else QuotaRefused)];
      assert log + [] == log;
      assert Now() == Apply(before, a);
      InvariantKept(before, a);
    }

    method Rollback(r: nat)
      requires Valid() && Enabled(Now(), OfPost(PostRollback(r)))
      modifies this`requests, this`jobs, this`snapshots
      ensures Valid() && Now() == Apply(old(Now()), OfPost(PostRollback(r)))
    {
      hide Invariant, JobsAfter;
      ghost var before, a := Now(), OfPost(PostRollback(r));
      RemovedRow(before, r);
      var q := requests[r];
      snapshots := snapshots - {q.id};
      jobs := jobs - {q.id};
      requests := requests[r := q.(stage := Answered(RolledBack))];
      assert log + [] == log;
      assert Now() == Apply(before, a);
      InvariantKept(before, a);
    }

    method GiveBack(key: UsageKey, size: nat)
      modifies this`usage
      ensures usage == Refund(old(usage), key, size)
    {
      if key in usage {
        usage := usage[key := Usage(Max(0, usage[key].jobsCreated - 1), Max(0, usage[key].bytesUploaded - size))];
      }
    }

    /** The batch after a refused upload: the job fails whatever its state, and the reservation is given back. */
    method FailUpload(r: nat)
      requires Valid() && Enabled(Now(), OfPost(PostUploadFailed(r)))
      modifies this`requests, this`jobs, this`usage
      ensures Valid() && Now() == Apply(old(Now()), OfPost(PostUploadFailed(r)))
    {
      hide Invariant, JobsAfter, Refund;
      ghost var before, a := Now(), OfPost(PostUploadFailed(r));
      var q := requests[r];
      UpdateOne(before, a, q.id, (if q.id in jobs then jobs[q.id] else Blank()).(status := Failed));
      if q.id in jobs {
        jobs := jobs[q.id := jobs[q.id].(status := Failed)];
      }
      var key := UsageKey(q.owner, q.subject, q.day);
      GiveBack(key, q.size);
      requests := requests[r := q.(stage := Answered(UploadFailed))];
      assert log + [] == log;
      assert Now() == Apply(before, a);
      InvariantKept(before, a);
    }

    method Accept(r: nat)
      requires Valid() && Enabled(Now(), OfPost(PostAccept(r)))
      modifies this`requests
      ensures Valid() && Now() == Apply(old(Now()), OfPost(PostAccept(r)))
    {
      hide Invariant, Apply;
      ghost var before, a := Now(), OfPost(PostAccept(r));
      MovesOnly(before, a);
      requests := requests[r := requests[r].(stage := Answered(Accepted))];
      assert Now() == Apply(before, a);
      InvariantKept(before, a);
    }

    // ---------- POST /agent/claim

    method BeginClaim(worker: string)
      requires Valid()
      modifies this`requests
      ensures Valid() && Now() == Apply(old(Now()), OfClaim(ClaimBegin(worker)))
    {
      hide Invariant, Apply;
      ghost var before, a := Now(), OfClaim(ClaimBegin(worker));
      MovesOnly(before, a);
      requests := requests + [Claim(worker, Asked)];
      assert Now() == Apply(before, a);
      InvariantKept(before, a);
    }

    /** The two statements of the recovery batch. */
    method SweepRows()
      modifies this`jobs
      ensures jobs.Keys == old(jobs).Keys
      ensures forall j :: j in jobs ==> jobs[j] == SweepRow(old(jobs)[j], clock)
    {
      hide LeaseLost, PublicOverdue, Requeued, Overdue;
      jobs := map j | j in jobs :: if LeaseLost(jobs[j], clock) then Requeued(jobs[j]) else jobs[j];
      jobs := map j | j in jobs :: if PublicOverdue(jobs[j], clock) then Overdue(jobs[j], clock) else jobs[j];
    }

    /** The recovery batch: requeue what lost its lease, then fail what is public and overdue. */
    method Sweep(r: nat)
      requires Valid() && Enabled(Now(), OfClaim(ClaimSweep(r)))
      modifies this`requests, this`jobs, this`log
      ensures Valid() && Now() == Apply(old(Now()), OfClaim(ClaimSweep(r)))
    {
      hide Invariant, JobsAfter, LeaseLost, SweepRow;
      ghost var before, a := Now(), OfClaim(ClaimSweep(r));
      SweepRows();
      UpdateAll(before, a, jobs);
      requests := requests[r := requests[r].(claim := Swept)];
      log := log + EventsOf(before, a);
      assert Now() == Apply(before, a);
      InvariantKept(before, a);
    }

    /** SELECT ... ORDER BY created_at LIMIT 1: some oldest eligible job. */
    method Oldest() returns (pick: Option<JobId>)
      ensures IsPick(Now(), pick)
    {
      pick := None;
      var rest := jobs.Keys;
      while rest != {}
        invariant rest <= jobs.Keys
        invariant pick.None? ==> forall j :: j in jobs && j !in rest ==> !Eligible(jobs[j], clock)
        invariant pick.Some? ==> pick.value in jobs && Eligible(jobs[pick.value], clock)
        invariant pick.Some? ==>
          forall j :: j in jobs && j !in rest && Eligible(jobs[j], clock) ==> jobs[pick.value].createdAt <= jobs[j].createdAt
      {
        var j :| j in rest;
        if Eligible(jobs[j], clock) && (pick.None? || jobs[j].createdAt < jobs[pick.value].createdAt) {
          pick := Some(j);
        }
        rest := rest - {j};
      }
    }

    method SelectJob(r: nat) returns (ghost pick: Option<JobId>)
      requires Valid() && ClaimAt(Now(), r) && requests[r].claim.Swept?
      modifies this`requests
      ensures Enabled(old(Now()), OfClaim(ClaimSelect(r, pick)))
      ensures Valid() && Now() == Apply(old(Now()), OfClaim(ClaimSelect(r, pick)))
    {
      hide Invariant, Apply, IsPick;
      var found := Oldest();
      pick := found;
      ghost var before, a := Now(), OfClaim(ClaimSelect(r, pick));
      PickExists(before, found);
      MovesOnly(before, a);
      if found.None? {
        requests := requests[r := requests[r].(claim := Replied(NoneFound(jobs, clock)))];
      } else {
        requests := requests[r := requests[r].(claim := Picked(found.value, jobs[found.value].legacy))];
      }
      assert Now() == Apply(before, a);
      InvariantKept(before, a);
    }

    /** The decryption-failure branch. No valid database ever takes it: see Snapshots.NeverUnreadable. */
    method Reject(r: nat)
      requires Valid() && ClaimAt(Now(), r) && requests[r].claim.Picked?
      ensures Opens(requests[r].claim.sealed.key, LegacyContext(requests[r].claim.picked))
    {
      Snapshots.NeverUnreadable(Now(), r);
    }

    /** The snapshot rows, in the order of the query's answer, with their keys opened. */
    method ReadSnapshots(r: nat, rows: seq<SealedProvider>)
      requires Valid() && Enabled(Now(), OfClaim(ClaimRead(r, rows)))
      modifies this`requests
      ensures Valid() && Now() == Apply(old(Now()), OfClaim(ClaimRead(r, rows)))
    {
      hide Invariant, Apply, OpenProvider;
      ghost var before, a := Now(), OfClaim(ClaimRead(r, rows));
      MovesOnly(before, a);
      var q := requests[r];
      var j, sealed := q.claim.picked, q.claim.sealed;
      var plain := [];
      for n := 0 to |rows|
        invariant plain == OpenAll(rows[..n], SnapshotContext(j))
      {
        assert OpenAll(rows[..n + 1], SnapshotContext(j)) ==
               OpenAll(rows[..n], SnapshotContext(j)) + [OpenProvider(rows[n], SnapshotContext(j))];
        plain := plain + [OpenProvider(rows[n], SnapshotContext(j))];
      }
      assert rows[..|rows|] == rows;
      var legacy := Legacy(sealed.source, sealed.baseUrl, sealed.model, OpenKey(sealed.key, LegacyContext(j)));
      requests := requests[r := q.(claim := Opened(j, legacy, plain, clock))];
      assert Now() == Apply(before, a);
      InvariantKept(before, a);
    }

    /** UPDATE ... WHERE id = ? AND status = 'queued': the compare-and-swap that decides a claim. */
    method Take(r: nat, stamp: int) returns (won: bool)
      requires Valid() && Enabled(Now(), OfClaim(ClaimTake(r, stamp)))
      modifies this`requests, this`jobs, this`log
      ensures Valid() && Now() == Apply(old(Now()), OfClaim(ClaimTake(r, stamp)))
      ensures won <==> requests[r].Claim? && requests[r].claim.Replied? && requests[r].claim.reply.Won?
    {
      hide Invariant, JobsAfter;
      ghost var before, a := Now(), OfClaim(ClaimTake(r, stamp));
      var q := requests[r];
      var j := q.claim.ready;
      UpdateOne(before, a, j, if j in jobs then Updated(before, a, j) else Blank());
      won := j in jobs && jobs[j].status == Queued;
      if won {
        jobs := jobs[j := TakeRow(jobs[j], q.worker, stamp)];
      }
      requests := requests[r := q.(claim := Replied(if won then Won(j, q.claim.legacy, q.claim.snapshots) else LostRace(j)))];
      log := log + EventsOf(before, a);
      assert Now() == Apply(before, a);
      InvariantKept(before, a);
    }

    // ---------- agent reports

    method BeginReport(job: JobId, says: ReportStatus, sent: Option<real>)
      requires Valid()
      modifies this`requests
      ensures Valid() && Now() == Apply(old(Now()), OfReport(ReportBegin(job, says, sent)))
    {
      hide Invariant, Apply;
      ghost var before, a := Now(), OfReport(ReportBegin(job, says, sent));
      MovesOnly(before, a);
      requests := requests + [Report(job, says, sent, clock, Arrived)];
      assert Now() == Apply(before, a);
      InvariantKept(before, a);
    }

    method ReadPercent(r: nat)
      requires Valid() && Enabled(Now(), OfReport(ReportRead(r)))
      modifies this`requests
      ensures Valid() && Now() == Apply(old(Now()), OfReport(ReportRead(r)))
    {
      hide Invariant, Apply;
      ghost var before, a := Now(), OfReport(ReportRead(r));
      MovesOnly(before, a);
      var q := requests[r];
      if q.job in jobs {
        requests := requests[r := q.(report := Read(jobs[q.job].percent, clock))];
      } else {
        requests := requests[r := q.(report := Written)];
      }
      assert Now() == Apply(before, a);
      InvariantKept(before, a);
    }

    /** The percent of the handler, from the value read before and the one it was sent: always in range, 100 for a
        completed report, and for a running one the higher of what was read and what was sent, rounded. */
    method ComputePercent(says: ReportStatus, read: int, sent: Option<real>) returns (percent: int)
      ensures percent == NewPercent(says, read, sent)
      ensures 0 <= read <= 100 ==> 0 <= percent <= 100
      ensures says == SaysCompleted ==> percent == 100
      ensures says == SaysRunning ==> percent >= read
      ensures says == SaysRunning && sent.Some? && sent.value <= 100.0 ==> percent as real >= sent.value - 0.5
      ensures says == SaysRunning && percent > read && percent > 0 ==> sent.Some? && percent as real <= sent.value + 0.5
    {
      percent := if sent.Some? then JsRound(sent.value) else read;
      percent := Max(0, Min(100, percent));
      if says == SaysCompleted {
        percent := 100;
      } else if says == SaysRunning {
        percent := Max(read, percent);
      }
    }

    /** The three updates of the progress handler, each guarded by status = 'running'. */
    method Reported(was: Job, says: ReportStatus, stamp: int, expiry: Instant, percent: int) returns (row: Job)
      ensures row == ProgressRow(was, says, stamp, expiry, percent)
    {
      row := was;
      if row.status == Running {
        if says == SaysFailed {
          row := row.(status := Failed, finishedAt := Some(stamp), percent := percent);
        } else if says == SaysCompleted {
          row := row.(status := Completed, finishedAt := Some(stamp), percent := percent,
                      downloadExpiry := if row.exempt then None else Some(expiry));
        } else {
          row := row.(claimedAt := Some(stamp), percent := percent);
        }
      }
    }

    /** The update of a progress report, guarded by status = 'running'. */
    method WriteProgress(r: nat, text: string)
      requires Valid() && Enabled(Now(), OfReport(ReportWrite(r, text)))
      modifies this`requests, this`jobs, this`log
      ensures Valid() && Now() == Apply(old(Now()), OfReport(ReportWrite(r, text)))
    {
      hide Invariant, JobsAfter, NewPercent, ProgressRow;
      ghost var before, a := Now(), OfReport(ReportWrite(r, text));
      var q := requests[r];
      var percent := ComputePercent(q.says, q.report.percent, q.sent);
      var row := if q.job in jobs then jobs[q.job] else Blank();
      row := Reported(row, q.says, q.stamp, Instant(q.report.at + WEEK_MS, text), percent);
      UpdateOne(before, a, q.job, row);
      if q.job in jobs {
        jobs := jobs[q.job := row];
      }
      requests := requests[r := q.(report := Written)];
      log := log + EventsOf(before, a);
      assert Now() == Apply(before, a);
      InvariantKept(before, a);
    }

    method Succeed(job: JobId, stamp: int, text: string)
      requires Valid() && stamp <= clock
      modifies this`jobs, this`log
      ensures Valid() && Now() == Apply(old(Now()), OfReport(Succeeded(job, stamp, text)))
    {
      hide Invariant, JobsAfter;
      ghost var before, a := Now(), OfReport(Succeeded(job, stamp, text));
      UpdateOne(before, a, job, SucceededRow(if job in jobs then jobs[job] else Blank(), stamp, Instant(stamp + WEEK_MS, text)));
      if job in jobs && jobs[job].status == Running {
        jobs := jobs[job := CompletedRow(jobs[job], stamp, Instant(stamp + WEEK_MS, text), 100)];
      }
      log := log + EventsOf(before, a);
      assert Now() == Apply(before, a);
      InvariantKept(before, a);
    }

    method Fail(job: JobId, stamp: int)
      requires Valid() && stamp <= clock
      modifies this`jobs, this`log
      ensures Valid() && Now() == Apply(old(Now()), OfReport(FailedReport(job, stamp)))
    {
      hide Invariant, JobsAfter;
      ghost var before, a := Now(), OfReport(FailedReport(job, stamp));
      UpdateOne(before, a, job, FailedReportRow(if job in jobs then jobs[job] else Blank(), stamp));
      if job in jobs && jobs[job].status == Running {
        jobs := jobs[job := jobs[job].(status := Failed, finishedAt := Some(stamp))];
      }
      log := log + EventsOf(before, a);
      assert Now() == Apply(before, a);
      InvariantKept(before, a);
    }

    // ---------- what users do besides

    method Delete(job: JobId)
      requires Valid() && Enabled(Now(), OfUser(DeleteJob(job)))
      modifies this`jobs
      ensures Valid() && Now() == Apply(old(Now()), OfUser(DeleteJob(job)))
    {
      hide Invariant, JobsAfter;
      ghost var before, a := Now(), OfUser(DeleteJob(job));
      UpdateOne(before, a, job, (if job in jobs then jobs[job] else Blank()).(deleted := true));
      if job in jobs {
        jobs := jobs[job := jobs[job].(deleted := true)];
      }
      assert log + [] == log;
      assert Now() == Apply(before, a);
      InvariantKept(before, a);
    }

    /** UPDATE jobs SET retention_exempt = 1, download_expires_at = NULL WHERE user_id = ? AND owner_type <> 'public'. */
    method ExemptAll(user: UserId)
      requires Valid() && Enabled(Now(), OfUser(ExemptionSweep(user)))
      modifies this`jobs
      ensures Valid() && Now() == Apply(old(Now()), OfUser(ExemptionSweep(user)))
    {
      hide Invariant, JobsAfter;
      ghost var before, a := Now(), OfUser(ExemptionSweep(user));
      jobs := map j | j in jobs ::
        if jobs[j].user == user && jobs[j].owner != Public then jobs[j].(exempt := true, downloadExpiry := None) else jobs[j];
      UpdateAll(before, a, jobs);
      assert log + [] == log;
      assert Now() == Apply(before, a);
      InvariantKept(before, a);
    }

    method SaveSettings(provider: string, user: UserId, settings: PlainProvider, enabled: bool, createdAt: int)
      requires Valid() && Enabled(Now(), OfUser(SaveProvider(provider, user, settings, enabled, createdAt)))
      modifies this`providers
      ensures Valid() && Now() == Apply(old(Now()), OfUser(SaveProvider(provider, user, settings, enabled, createdAt)))
    {
      hide Invariant, JobsAfter;
      ghost var before, a := Now(), OfUser(SaveProvider(provider, user, settings, enabled, createdAt));
      UpdateAll(before, a, jobs);
      providers := providers[provider := ProviderRow(user, SealProvider(settings, ProviderContext(user)), enabled, createdAt)];
      assert log + [] == log;
      assert Now() == Apply(before, a);
      InvariantKept(before, a);
    }

    method DropSettings(provider: string)
      requires Valid() && Enabled(Now(), OfUser(DropProvider(provider)))
      modifies this`providers
      ensures Valid() && Now() == Apply(old(Now()), OfUser(DropProvider(provider)))
    {
      hide Invariant, JobsAfter;
      ghost var before, a := Now(), OfUser(DropProvider(provider));
      UpdateAll(before, a, jobs);
      providers := providers - {provider};
      assert log + [] == log;
      assert Now() == Apply(before, a);
      InvariantKept(before, a);
    }

    /** The token that a listing of the user's jobs hands out for a job. */
    method HandOutToken(job: JobId, exempt: bool) returns (token: string)
      requires Valid() && Enabled(Now(), OfUser(IssueToken(job, exempt)))
      modifies this`issued
      ensures Valid() && Now() == Apply(old(Now()), OfUser(IssueToken(job, exempt)))
      ensures token == PdfViewTokenMessage(job, ExpiryText(jobs[job].downloadExpiry), exempt)
    {
      hide Invariant, JobsAfter, PdfViewTokenMessage;
      ghost var before, a := Now(), OfUser(IssueToken(job, exempt));
      UpdateAll(before, a, jobs);
      var text := if jobs[job].downloadExpiry.Some? then jobs[job].downloadExpiry.value.text else "";
      token := PdfViewTokenMessage(job, text, exempt);
      issued := issued + {Issue(job, text, exempt)};
      assert log + [] == log;
      assert Now() == Apply(before, a);
      InvariantKept(before, a);
    }

    /** One UPDATE for each id sent, in one batch. */
    method ReorderSettings(user: UserId, ids: seq<string>)
      requires Valid() && Enabled(Now(), OfUser(ReorderProviders(user, ids)))
      modifies this`providers
      ensures Valid() && Now() == Apply(old(Now()), OfUser(ReorderProviders(user, ids)))
    {
      hide Invariant, JobsAfter, Apply;
      ghost var before, a := Now(), OfUser(ReorderProviders(user, ids));
      UpdateAll(before, a, jobs);
      for n := 0 to |ids|
        invariant providers == Reordered(old(providers), user, ids, n)
      {
        if ids[n] in providers && providers[ids[n]].user == user {
          var row := providers[ids[n]];
          providers := providers[ids[n] := row.(settings := row.settings.(priority := n + 1))];
        }
      }
      ReorderOnly(before, user, ids);
      assert Now() == Apply(before, a);
      InvariantKept(before, a);
    }
  }
}
