/** Which request owns which job row: ids are unique, a row appears with its POST's insert and disappears
    only with that POST's rollback. Everything else about runs builds on this. */
module Identity {
  import opened Tables
  import opened Pipeline

  predicate IsPostOf(q: Request, j: JobId) {
    q.Post? && q.id == j
  }

  predicate Early(stage: PostStage) {
    stage == Begun || stage == Prechecked || stage == Planned
  }

  /** The stages of a POST during which its job row exists. */
  predicate HasRow(stage: PostStage) {
    match stage
    case JobInserted | SnapshotsInserted | QuotaRefused | Reserved => true
    case Answered(answer) => answer == UploadFailed || answer == Accepted
    case _ => false
  }

  ghost predicate UniqueIds(requests: seq<Request>) {
    forall i, k :: 0 <= i < k < |requests| && requests[i].Post? && requests[k].Post? ==> requests[i].id != requests[k].id
  }

  /** No POST has inserted job j yet. */
  ghost predicate Unborn(requests: seq<Request>, j: JobId) {
    forall i :: 0 <= i < |requests| && IsPostOf(requests[i], j) ==> Early(requests[i].stage)
  }

  ghost predicate RowsOwned(w: World) {
    && (forall j :: Unborn(w.requests, j) ==> j !in w.jobs && j !in w.snapshots)
    && (forall i :: 0 <= i < |w.requests| && w.requests[i].Post? ==>
        (w.requests[i].id in w.jobs <==> HasRow(w.requests[i].stage)))
  }

  ghost predicate Owned(w: World) {
    UniqueIds(w.requests) && RowsOwned(w)
  }

  predicate SameOrigin(q: Request, q': Request) {
    match q
    case Post(id, owner, user, exempt, size, subject, day, expiry, plan, stage) =>
      && q'.Post? && q'.id == id && q'.owner == owner && q'.user == user && q'.exempt == exempt
      && q'.size == size && q'.subject == subject
      && (!Early(stage) ==> !Early(q'.stage))
      && (stage != Begun ==> q'.stage != Begun && q'.day == day)
      && (stage != Begun && stage != Prechecked ==> q'.plan == plan && q'.expiry == expiry && q'.stage != Prechecked)
    case Claim(worker, claim) => q'.Claim? && q'.worker == worker
    case Report(job, says, sent, stamp, report) =>
      q'.Report? && q'.job == job && q'.says == says && q'.sent == sent && q'.stamp == stamp
  }

  /** Requests are only ever added, or moved on. */
  ghost predicate Evolves(before: seq<Request>, after: seq<Request>) {
    && |before| <= |after| <= |before| + 1
    && forall i :: 0 <= i < |before| ==> SameOrigin(before[i], after[i])
  }

  lemma RequestsEvolve(w: World, a: Action)
    requires Enabled(w, a)
    ensures Evolves(w.requests, RequestsAfter(w, a))
  {
    match a
    case OfPost(p) => if !p.PostBegin? { assert SameOrigin(w.requests[p.r], PostNext(w, p)); }
    case OfClaim(c) => if !c.ClaimBegin? { assert SameOrigin(w.requests[c.r], ClaimNext(w, c)); }
    case OfReport(m) => if m.ReportRead? || m.ReportWrite? { assert SameOrigin(w.requests[m.r], ReportNext(w, m)); }
    case _ =>
    hide PostNext, ClaimNext, ReportNext, PostEnabled, ClaimEnabled, ReportEnabled;
  }

  lemma NewPostIsFresh(w: World, a: Action)
    requires Enabled(w, a)
    requires |RequestsAfter(w, a)| > |w.requests| && RequestsAfter(w, a)[|w.requests|].Post?
    ensures a.OfPost? && a.post.PostBegin?
    ensures IsFresh(w, RequestsAfter(w, a)[|w.requests|].id) && RequestsAfter(w, a)[|w.requests|].stage == Begun
  {
    hide PostNext, ClaimNext, ReportNext;
  }

  lemma UniqueIdsKept(w: World, a: Action)
    requires Enabled(w, a) && UniqueIds(w.requests)
    ensures UniqueIds(RequestsAfter(w, a))
  {
    var after := RequestsAfter(w, a);
    RequestsEvolve(w, a);
    if |after| > |w.requests| && after[|w.requests|].Post? {
      NewPostIsFresh(w, a);
    }
    hide RequestsAfter, Enabled;
    forall i, k | 0 <= i < k < |after| && after[i].Post? && after[k].Post?
      ensures after[i].id != after[k].id
    {
      assert SameOrigin(w.requests[i], after[i]);
      if k < |w.requests| {
        assert SameOrigin(w.requests[k], after[k]);
      }
    }
  }

  lemma UnbornBefore(before: seq<Request>, after: seq<Request>, j: JobId)
    requires Evolves(before, after) && Unborn(after, j)
    ensures Unborn(before, j)
  {
    forall i | 0 <= i < |before| && IsPostOf(before[i], j)
      ensures Early(before[i].stage)
    {
      assert SameOrigin(before[i], after[i]) && IsPostOf(after[i], j);
    }
  }

  lemma StillUnbornMeansNoRow(w: World, a: Action, j: JobId)
    requires Enabled(w, a) && Owned(w) && Unborn(RequestsAfter(w, a), j)
    ensures j !in JobsAfter(w, a) && j !in SnapshotsAfter(w, a)
  {
    RequestsEvolve(w, a);
    UnbornBefore(w.requests, RequestsAfter(w, a), j);
    if a.OfPost? && (a.post.PostInsert? || a.post.PostSnapshot?) {
      var q := RequestsAfter(w, a)[a.post.r];
      assert !Early(q.stage) && q.id == w.requests[a.post.r].id;
      assert !IsPostOf(q, j);
    }
    hide RequestsAfter, Updated;
  }

  /** A POST other than the one that moves stays as it is, and its row neither comes nor goes. */
  lemma OtherRowKept(w: World, a: Action, i: nat)
    requires Enabled(w, a) && UniqueIds(w.requests)
    requires i < |w.requests| && RequestsAfter(w, a)[i].Post?
    requires !(a.OfPost? && !a.post.PostBegin? && a.post.r == i)
    ensures RequestsAfter(w, a)[i] == w.requests[i]
    ensures w.requests[i].id in JobsAfter(w, a) <==> w.requests[i].id in w.jobs
  {
    RequestsEvolve(w, a);
    assert SameOrigin(w.requests[i], RequestsAfter(w, a)[i]);
    hide Updated, PostNext, ClaimNext, ReportNext;
  }

  /** The POST that moves and the row it owns agree after the step. */
  lemma OwnRowKept(w: World, p: PostStep)
    requires PostEnabled(w, p) && !p.PostBegin?
    requires w.requests[p.r].id in w.jobs <==> HasRow(w.requests[p.r].stage)
    ensures var q := PostNext(w, p);
            q.Post? && (q.id in JobsAfter(w, OfPost(p)) <==> HasRow(q.stage))
  {
    hide Updated, OpenAll, EnabledSettings, Reserve, IsListing;
  }

  lemma RowKept(w: World, a: Action, i: nat)
    requires Enabled(w, a) && Owned(w)
    requires i < |RequestsAfter(w, a)| && RequestsAfter(w, a)[i].Post?
    ensures RequestsAfter(w, a)[i].id in JobsAfter(w, a) <==> HasRow(RequestsAfter(w, a)[i].stage)
  {
    if i == |w.requests| {
      NewPostIsFresh(w, a);
      assert Unborn(w.requests, RequestsAfter(w, a)[i].id);
      hide Updated;
    } else if a.OfPost? && !a.post.PostBegin? && a.post.r == i {
      OwnRowKept(w, a.post);
      hide JobsAfter, PostNext;
    } else {
      OtherRowKept(w, a, i);
      hide JobsAfter, RequestsAfter;
    }
  }

  lemma OwnedKept(w: World, a: Action)
    requires Enabled(w, a) && Owned(w)
    ensures Owned(Apply(w, a))
  {
    hide RequestsAfter, JobsAfter, SnapshotsAfter, Enabled, UniqueIds, Unborn;
    UniqueIdsKept(w, a);
    var w' := Apply(w, a);
    forall j | Unborn(w'.requests, j)
      ensures j !in w'.jobs && j !in w'.snapshots
    {
      StillUnbornMeansNoRow(w, a, j);
    }
    forall i | 0 <= i < |w'.requests| && w'.requests[i].Post?
      ensures w'.requests[i].id in w'.jobs <==> HasRow(w'.requests[i].stage)
    {
      RowKept(w, a, i);
    }
  }

  /** No other POST has the id of a POST that is still early, so its job is unborn. */
  lemma EarlyIsUnborn(requests: seq<Request>, r: nat)
    requires UniqueIds(requests)
    requires r < |requests| && requests[r].Post? && Early(requests[r].stage)
    ensures Unborn(requests, requests[r].id)
  {
  }

  // ---------- rows and requests after a step

  lemma StaysBorn(w: World, a: Action, j: JobId)
    requires Enabled(w, a) && !Unborn(w.requests, j)
    ensures !Unborn(RequestsAfter(w, a), j)
  {
    RequestsEvolve(w, a);
    hide RequestsAfter, Unborn;
    if Unborn(RequestsAfter(w, a), j) {
      UnbornBefore(w.requests, RequestsAfter(w, a), j);
    }
  }

  /** A row that is gone stays gone: job ids are never reused. */
  lemma GoneStaysGone(w: World, a: Action, j: JobId)
    requires Enabled(w, a) && Owned(w) && !Unborn(w.requests, j) && j !in w.jobs
    ensures j !in Apply(w, a).jobs
  {
    if a.OfPost? && a.post.PostInsert? {
      EarlyIsUnborn(w.requests, a.post.r);
    }
    hide Updated, RequestsAfter, Unborn;
  }

  lemma ApplyRequests(w: World, a: Action)
    requires Enabled(w, a)
    ensures Apply(w, a).requests == RequestsAfter(w, a)
  {
    hide RequestsAfter;
  }

  /** A row that is not rolled back is updated in place. */
  lemma JobPersists(w: World, a: Action, j: JobId)
    requires Enabled(w, a) && j in w.jobs
    ensures j in Apply(w, a).jobs <==> !(a.OfPost? && a.post.PostRollback? && w.requests[a.post.r].id == j)
    ensures j in Apply(w, a).jobs ==> Apply(w, a).jobs[j] == Updated(w, a, j)
    ensures Apply(w, a).requests == RequestsAfter(w, a)
  {
    hide Updated, RequestsAfter;
  }
}
