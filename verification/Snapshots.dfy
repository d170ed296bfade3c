/** Snapshot isolation: every stored key is sealed under its own table's context, and a claim hands out what the
    POST fixed, whatever happens to the user's settings in between. */
module Snapshots {
  import opened Basics
  import opened Vault
  import opened Tables
  import opened Pipeline
  import opened Identity

  /** The stages of a POST after its snapshot batch, as long as the rows are kept. */
  predicate HasSnapshots(stage: PostStage) {
    HasRow(stage) && stage != JobInserted
  }

  ghost predicate SettingsSealed(table: map<string, ProviderRow>) {
    forall id :: id in table ==> Under(table[id].settings.key, ProviderContext(table[id].user))
  }

  ghost predicate RowSealed(jobs: map<JobId, Job>, q: Request)
    requires q.Post?
  {
    HasRow(q.stage) && q.id in jobs ==> jobs[q.id].legacy == SealLegacy(FirstOf(q.plan), LegacyContext(q.id))
  }

  ghost predicate RowsSealed(snapshots: map<JobId, seq<SealedProvider>>, q: Request)
    requires q.Post?
  {
    if HasSnapshots(q.stage)
    then q.id in snapshots && snapshots[q.id] == SealAll(q.plan, SnapshotContext(q.id))
    else q.id !in snapshots
  }

  /** What one of the plan's providers lists may be handed out as. */
  const PlainPriority: PlainProvider -> int := (p: PlainProvider) => p.priority

  ghost predicate HandedOut(plan: seq<PlainProvider>, legacy: Legacy<string>, providers: seq<PlainProvider>) {
    legacy == FirstOf(plan) && (providers == [] || OrderedRows(plan, providers, PlainPriority))
  }

  /** What a claim holds agrees with the plan of the POST that owns the job. */
  ghost predicate ClaimAgrees(requests: seq<Request>, claim: ClaimStage) {
    match claim
    case Picked(j, sealed) =>
      && !Unborn(requests, j)
      && Under(sealed.key, LegacyContext(j))
      && forall i :: 0 <= i < |requests| && IsPostOf(requests[i], j) ==>
           sealed == SealLegacy(FirstOf(requests[i].plan), LegacyContext(j))
    case Opened(j, legacy, providers, readAt) =>
      && !Unborn(requests, j)
      && forall i :: 0 <= i < |requests| && IsPostOf(requests[i], j) ==>
           HandedOut(requests[i].plan, legacy, providers)
    case Replied(Won(j, legacy, providers)) =>
      && !Unborn(requests, j)
      && forall i :: 0 <= i < |requests| && IsPostOf(requests[i], j) ==>
           HandedOut(requests[i].plan, legacy, providers)
    case _ => true
  }

  ghost predicate PostsSealed(w: World) {
    forall i :: 0 <= i < |w.requests| && w.requests[i].Post? ==>
      RowSealed(w.jobs, w.requests[i]) && RowsSealed(w.snapshots, w.requests[i])
  }

  ghost predicate ClaimsAgree(requests: seq<Request>) {
    forall i :: 0 <= i < |requests| && requests[i].Claim? ==> ClaimAgrees(requests, requests[i].claim)
  }

  ghost predicate SnapshotsOk(w: World) {
    SettingsSealed(w.providers) && PostsSealed(w) && ClaimsAgree(w.requests)
  }

  // ---------- kept by every step

  lemma SettingsSealedKept(w: World, a: Action)
    requires Enabled(w, a) && SettingsSealed(w.providers)
    ensures SettingsSealed(ProvidersAfter(w, a))
  {
    if a.OfUser? && a.act.ReorderProviders? {
      ReorderedRowsKeep(w.providers, a.act.user, a.act.ids, |a.act.ids|);
    }
  }

  /** No update touches the settings kept in the row. */
  lemma LegacyKept(w: World, a: Action, j: JobId)
    requires Enabled(w, a) && j in w.jobs
    ensures Updated(w, a, j).legacy == w.jobs[j].legacy
  {
    hide NewPercent;
  }

  lemma OwnRowSealed(w: World, p: PostStep)
    requires PostEnabled(w, p) && !p.PostBegin? && Owned(w)
    requires RowSealed(w.jobs, w.requests[p.r])
    ensures PostNext(w, p).Post? && RowSealed(JobsAfter(w, OfPost(p)), PostNext(w, p))
  {
    var q := w.requests[p.r];
    if p.PostInsert? {
      EarlyIsUnborn(w.requests, p.r);
    } else if q.id in w.jobs {
      LegacyKept(w, OfPost(p), q.id);
    }
    hide Updated, Unborn, UniqueIds, Reserve, SealAll, EnabledSettings, OpenAll, AfterPrecheck, FirstOf, SealLegacy, IsListing;
  }

  lemma OwnSnapshotsSealed(w: World, p: PostStep)
    requires PostEnabled(w, p) && !p.PostBegin?
    requires RowsSealed(w.snapshots, w.requests[p.r])
    ensures PostNext(w, p).Post? && RowsSealed(SnapshotsAfter(w, OfPost(p)), PostNext(w, p))
  {
    hide Reserve, SealAll, EnabledSettings, OpenAll, IsListing, Updated;
  }

  lemma OtherRowSealed(w: World, a: Action, i: nat)
    requires Enabled(w, a) && Owned(w)
    requires i < |w.requests| && w.requests[i].Post?
    requires !(a.OfPost? && !a.post.PostBegin? && a.post.r == i)
    requires w.requests[i].id in JobsAfter(w, a) <==> w.requests[i].id in w.jobs
    requires RowSealed(w.jobs, w.requests[i])
    ensures RowSealed(JobsAfter(w, a), w.requests[i])
  {
    if w.requests[i].id in w.jobs {
      LegacyKept(w, a, w.requests[i].id);
    }
    hide Updated, RequestsAfter, Owned, Enabled;
  }

  lemma OtherSnapshotsSealed(w: World, a: Action, i: nat)
    requires Enabled(w, a) && UniqueIds(w.requests)
    requires i < |w.requests| && w.requests[i].Post?
    requires !(a.OfPost? && !a.post.PostBegin? && a.post.r == i)
    requires RowsSealed(w.snapshots, w.requests[i])
    ensures RowsSealed(SnapshotsAfter(w, a), w.requests[i])
  {
    hide SealAll;
  }

  lemma NewPostSealed(w: World, p: PostStep)
    requires PostEnabled(w, p) && p.PostBegin? && Owned(w)
    ensures RowSealed(JobsAfter(w, OfPost(p)), NewPost(p))
    ensures RowsSealed(SnapshotsAfter(w, OfPost(p)), NewPost(p))
  {
    assert Unborn(w.requests, p.id);
  }

  lemma PostSealedKept(w: World, a: Action, i: nat)
    requires Enabled(w, a) && Owned(w) && PostsSealed(w)
    requires i < |RequestsAfter(w, a)| && RequestsAfter(w, a)[i].Post?
    ensures RowSealed(JobsAfter(w, a), RequestsAfter(w, a)[i])
    ensures RowsSealed(SnapshotsAfter(w, a), RequestsAfter(w, a)[i])
  {
    hide JobsAfter, SnapshotsAfter, PostNext, ClaimNext, ReportNext, RowSealed, RowsSealed, RowsOwned;
    if i == |w.requests| {
      NewPostIsFresh(w, a);
      NewPostSealed(w, a.post);
    } else if a.OfPost? && !a.post.PostBegin? && a.post.r == i {
      OwnRowSealed(w, a.post);
      OwnSnapshotsSealed(w, a.post);
    } else {
      OtherRowKept(w, a, i);
      OtherRowSealed(w, a, i);
      OtherSnapshotsSealed(w, a, i);
    }
  }

  lemma PostsSealedKept(w: World, a: Action)
    requires Enabled(w, a) && Owned(w) && PostsSealed(w)
    ensures PostsSealed(Apply(w, a))
  {
    hide JobsAfter, SnapshotsAfter, RequestsAfter, RowSealed, RowsSealed, RowsOwned;
    var w' := Apply(w, a);
    forall i | 0 <= i < |w'.requests| && w'.requests[i].Post?
      ensures RowSealed(w'.jobs, w'.requests[i]) && RowsSealed(w'.snapshots, w'.requests[i])
    {
      PostSealedKept(w, a, i);
    }
  }

  // ---------- claims

  /** A POST of a job that was inserted keeps its plan, and no other POST ever has the job's id. */
  lemma PlanFixed(w: World, a: Action, j: JobId, i: nat)
    requires Enabled(w, a) && UniqueIds(w.requests) && !Unborn(w.requests, j)
    requires i < |RequestsAfter(w, a)| && IsPostOf(RequestsAfter(w, a)[i], j)
    ensures i < |w.requests| && IsPostOf(w.requests[i], j)
    ensures RequestsAfter(w, a)[i].plan == w.requests[i].plan
  {
    RequestsEvolve(w, a);
    if i == |w.requests| {
      NewPostIsFresh(w, a);
    } else {
      assert SameOrigin(w.requests[i], RequestsAfter(w, a)[i]);
    }
    hide RequestsAfter, Enabled;
  }

  lemma ClaimStaysAgreed(w: World, a: Action, claim: ClaimStage)
    requires Enabled(w, a) && UniqueIds(w.requests) && ClaimAgrees(w.requests, claim)
    ensures ClaimAgrees(RequestsAfter(w, a), claim)
  {
    hide RequestsAfter, Enabled, Unborn, UniqueIds, HandedOut, SealLegacy, FirstOf;
    var after := RequestsAfter(w, a);
    forall j, i | 0 <= i < |after| && !Unborn(w.requests, j) && IsPostOf(after[i], j)
      ensures i < |w.requests| && IsPostOf(w.requests[i], j) && after[i].plan == w.requests[i].plan
    {
      PlanFixed(w, a, j, i);
    }
    forall j | !Unborn(w.requests, j)
      ensures !Unborn(after, j)
    {
      StaysBorn(w, a, j);
    }
  }

  lemma SealedFirstOpens(l: Legacy<string>, context: string)
    ensures var s := SealLegacy(l, context);
            Under(s.key, context) && Legacy(s.source, s.baseUrl, s.model, OpenKey(s.key, context)) == l
  {
  }

  /** Selecting a job hands the claim the sealed settings of that job's POST. */
  lemma SelectAgrees(w: World, r: nat, j: JobId)
    requires ClaimEnabled(w, ClaimSelect(r, Some(j))) && Owned(w) && PostsSealed(w)
    ensures ClaimAgrees(w.requests, Picked(j, w.jobs[j].legacy))
  {
    assert !Unborn(w.requests, j);
    forall i | 0 <= i < |w.requests| && IsPostOf(w.requests[i], j)
      ensures w.jobs[j].legacy == SealLegacy(FirstOf(w.requests[i].plan), LegacyContext(j))
    {
      assert RowSealed(w.jobs, w.requests[i]);
    }
    var i :| 0 <= i < |w.requests| && IsPostOf(w.requests[i], j);
    SealedFirstOpens(FirstOf(w.requests[i].plan), LegacyContext(j));
    hide SealLegacy, FirstOf, Enabled, Eligible;
  }

  /** The snapshot rows, opened in any order the query may answer in, are the plan sorted by priority. */
  lemma RowsOpenToPlan(plan: seq<PlainProvider>, rows: seq<SealedProvider>, context: string)
    requires OrderedRows(SealAll(plan, context), rows, Priority)
    ensures OrderedRows(plan, OpenAll(rows, context), PlainPriority)
  {
    OpenAllMultiset(rows, SealAll(plan, context), context);
    OpenSealedAll(plan, context);
    var opened' := OpenAll(rows, context);
    assert forall i :: 0 <= i < |rows| ==> PlainPriority(opened'[i]) == Priority(rows[i]);
  }

  lemma NoRowsOpenToNothing(rows: seq<SealedProvider>, context: string)
    requires OrderedRows([], rows, Priority)
    ensures OpenAll(rows, context) == []
  {
    assert |multiset(rows)| == |rows|;
  }

  /** Reading the snapshots opens every key; a claim that reads before the snapshot batch finds no rows. */
  lemma ReadAgrees(w: World, r: nat, rows: seq<SealedProvider>, i: nat)
    requires ClaimEnabled(w, ClaimRead(r, rows)) && PostsSealed(w)
    requires ClaimAgrees(w.requests, w.requests[r].claim)
    requires i < |w.requests| && IsPostOf(w.requests[i], w.requests[r].claim.picked)
    ensures var c := ClaimNext(w, ClaimRead(r, rows)).claim;
            && c.legacy == FirstOf(w.requests[i].plan)
            && (if HasSnapshots(w.requests[i].stage)
                then OrderedRows(w.requests[i].plan, c.snapshots, PlainPriority)
                else c.snapshots == [])
  {
    var j := w.requests[r].claim.picked;
    var q := w.requests[i];
    SealedFirstOpens(FirstOf(q.plan), LegacyContext(j));
    assert RowsSealed(w.snapshots, q);
    hide SealLegacy, FirstOf, OpenAll, SealAll, OrderedRows, PostsSealed, Unborn;
    if HasSnapshots(q.stage) {
      RowsOpenToPlan(q.plan, rows, SnapshotContext(j));
    } else {
      NoRowsOpenToNothing(rows, SnapshotContext(j));
    }
  }

  lemma OwnClaimAgrees(w: World, c: ClaimStep)
    requires ClaimEnabled(w, c) && !c.ClaimBegin? && Owned(w) && PostsSealed(w)
    requires ClaimAgrees(w.requests, w.requests[c.r].claim)
    ensures ClaimNext(w, c).Claim? && ClaimAgrees(w.requests, ClaimNext(w, c).claim)
  {
    match c
    case ClaimSelect(r, pick) =>
      if pick.Some? {
        SelectAgrees(w, r, pick.value);
      }
    case ClaimRead(r, rows) =>
      forall i | 0 <= i < |w.requests| && IsPostOf(w.requests[i], w.requests[r].claim.picked)
        ensures var d := ClaimNext(w, c).claim; HandedOut(w.requests[i].plan, d.legacy, d.snapshots)
      {
        ReadAgrees(w, r, rows, i);
      }
    case _ =>
    hide Unborn, HandedOut, SealLegacy, Owned, PostsSealed, OrderedRows, IsPick, OpenAll;
  }

  lemma ClaimsAgreeKept(w: World, a: Action)
    requires Enabled(w, a) && Owned(w) && PostsSealed(w) && ClaimsAgree(w.requests)
    ensures ClaimsAgree(RequestsAfter(w, a))
  {
    var after := RequestsAfter(w, a);
    RequestsEvolve(w, a);
    forall i | 0 <= i < |after| && after[i].Claim?
      ensures ClaimAgrees(after, after[i].claim)
    {
      hide ClaimAgrees, PostNext, ClaimNext, ReportNext, PostsSealed, RowsOwned;
      if i == |w.requests| {
        assert after[i].claim == Asked;
        AskedAgrees(after);
      } else if a.OfClaim? && !a.claim.ClaimBegin? && a.claim.r == i {
        OwnClaimAgrees(w, a.claim);
        ClaimStaysAgreed(w, a, after[i].claim);
      } else {
        assert SameOrigin(w.requests[i], after[i]);
        assert after[i] == w.requests[i];
        ClaimStaysAgreed(w, a, after[i].claim);
      }
    }
  }

  lemma AskedAgrees(requests: seq<Request>)
    ensures ClaimAgrees(requests, Asked)
  {
  }

  lemma SnapshotsOkKept(w: World, a: Action)
    requires Enabled(w, a) && Owned(w) && SnapshotsOk(w)
    ensures SnapshotsOk(Apply(w, a))
  {
    SettingsSealedKept(w, a);
    PostsSealedKept(w, a);
    ClaimsAgreeKept(w, a);
    hide RequestsAfter, JobsAfter, SnapshotsAfter, ProvidersAfter, PostsSealed, ClaimsAgree, SettingsSealed;
  }

  // ---------- what it means

  /** The claim never meets a stored key that does not open, so it never fails a job for that. */
  lemma NeverUnreadable(w: World, r: nat)
    requires SnapshotsOk(w)
    ensures !ClaimEnabled(w, ClaimReject(r))
  {
    if ClaimAt(w, r) && w.requests[r].claim.Picked? {
      assert ClaimAgrees(w.requests, w.requests[r].claim);
    }
  }

  /** A POST with the user's own providers never fails for a key that does not open, and loses no key. */
  lemma OwnPlanOpens(w: World, r: nat, listing: seq<string>)
    requires PostEnabled(w, PostPlanOwn(r, listing)) && SnapshotsOk(w)
    ensures PostNext(w, PostPlanOwn(r, listing)).stage == Planned
    ensures var rows := EnabledSettings(w.providers, listing);
            var plan := PostNext(w, PostPlanOwn(r, listing)).plan;
            |plan| == |rows| &&
            forall k :: 0 <= k < |rows| ==>
              && plan[k].name == rows[k].name && plan[k].kind == rows[k].kind && plan[k].baseUrl == rows[k].baseUrl
              && plan[k].model == rows[k].model && plan[k].priority == rows[k].priority
              && plan[k].timeout == rows[k].timeout && plan[k].effort == rows[k].effort
              && plan[k].key.Some? == rows[k].key.Some?
              && (rows[k].key.Some? ==> plan[k].key == Some(rows[k].key.value.plain))
  {
    var user := w.requests[r].user;
    EnabledAreUsers(w.providers, user, listing);
  }

  lemma {:induction false} EnabledAreUsers(table: map<string, ProviderRow>, user: UserId, listing: seq<string>)
    requires SettingsSealed(table)
    requires forall id :: id in listing ==> id in table && table[id].user == user
    ensures forall k :: 0 <= k < |EnabledSettings(table, listing)| ==>
              Under(EnabledSettings(table, listing)[k].key, ProviderContext(user))
  {
    if listing != [] {
      assert listing[0] in listing;
      EnabledAreUsers(table, user, listing[1..]);
    }
  }

  /** Every ciphertext in the database is under its own table's context. */
  lemma EveryKeyInContext(w: World)
    requires Owned(w) && SnapshotsOk(w)
    ensures forall id :: id in w.providers ==> Under(w.providers[id].settings.key, ProviderContext(w.providers[id].user))
    ensures forall j :: j in w.jobs ==> Under(w.jobs[j].legacy.key, LegacyContext(j))
    ensures forall j, k :: j in w.snapshots && 0 <= k < |w.snapshots[j]| ==>
              Under(w.snapshots[j][k].key, SnapshotContext(j))
  {
    forall j | j in w.jobs || j in w.snapshots
      ensures j in w.jobs ==> Under(w.jobs[j].legacy.key, LegacyContext(j))
      ensures j in w.snapshots ==> forall k :: 0 <= k < |w.snapshots[j]| ==> Under(w.snapshots[j][k].key, SnapshotContext(j))
    {
      assert !Unborn(w.requests, j);
      var i :| 0 <= i < |w.requests| && IsPostOf(w.requests[i], j);
      assert RowSealed(w.jobs, w.requests[i]) && RowsSealed(w.snapshots, w.requests[i]);
    }
  }
}
