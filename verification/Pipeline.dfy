/** The Worker as a state machine. A step is one SQL statement, or one DB.batch, of one in-flight request;
    requests interleave freely, and a request that crashed is one that takes no further step. */
module Pipeline {
  import opened Basics
  import opened Vault
  import opened Retention
  import opened Tables

  // ---------- in-flight requests: a program counter and what the handler holds in memory

  datatype PostAnswer = BadRequest | LimitReached | RolledBack | UploadFailed | Accepted

  datatype PostStage =
    | Begun | Prechecked | Planned | JobInserted | SnapshotsInserted | QuotaRefused | Reserved
    | Answered(answer: PostAnswer)

  datatype ClaimReply =
    | NoneFound(seen: map<JobId, Job>, at: int)
    | Unreadable(unreadable: JobId)
    | LostRace(raced: JobId)
    | Won(won: JobId, settings: Legacy<string>, providers: seq<PlainProvider>)

  datatype ClaimStage =
    | Asked
    | Swept
    | Picked(picked: JobId, sealed: Legacy<Cipher>)
    | Opened(ready: JobId, legacy: Legacy<string>, snapshots: seq<PlainProvider>, readAt: int)
    | Replied(reply: ClaimReply)

  datatype ReportStage = Arrived | Read(percent: int, at: int) | Written

  datatype Request =
    | Post(id: JobId, owner: Owner, user: UserId, exempt: bool, size: nat, subject: string, day: int,
           expiry: Option<int>, plan: seq<PlainProvider>, stage: PostStage)
    | Claim(worker: string, claim: ClaimStage)
    | Report(job: JobId, says: ReportStatus, sent: Option<real>, stamp: int, report: ReportStage)

  /** What a statement did to job rows, kept for statements about whole runs. Nothing reads it. */
  datatype Event =
    | Sweep(at: int, requeued: set<JobId>)
    | Take(taken: JobId, stamp: int)
    | Beat(beating: JobId, stamp: int)
    | Finish(finished: JobId, completed: bool)

  /** A PDF view token handed to a user: the job it was issued for and what it signs. */
  datatype Issue = Issue(subject: JobId, expiryText: string, exempt: bool)

  datatype World = World(
    clock: int,
    jobs: map<JobId, Job>,
    snapshots: map<JobId, seq<SealedProvider>>,
    providers: map<string, ProviderRow>,
    usage: map<UsageKey, Usage>,
    requests: seq<Request>,
    issued: set<Issue>,
    log: seq<Event>)

  /** POST /jobs, one statement of request r (PostBegin adds the request). */
  datatype PostStep =
    | PostBegin(id: JobId, owner: Owner, user: UserId, exempt: bool, size: nat, subject: string)
    | PostRefuse(r: nat)
    | PostPrecheck(r: nat)
    | PostPlanOwn(r: nat, listing: seq<string>)
    | PostPlanGiven(r: nat, plan: seq<PlainProvider>)
    | PostInsert(r: nat)
    | PostSnapshot(r: nat)
    | PostReserve(r: nat)
    | PostRollback(r: nat)
    | PostUploadFailed(r: nat)
    | PostAccept(r: nat)

  /** POST /agent/claim. */
  datatype ClaimStep =
    | ClaimBegin(worker: string)
    | ClaimSweep(r: nat)
    | ClaimSelect(r: nat, pick: Option<JobId>)
    | ClaimReject(r: nat)
    | ClaimRead(r: nat, rows: seq<SealedProvider>)
    | ClaimTake(r: nat, stamp: int)

  /** POST /agent/jobs/:id/{progress,succeeded,failed}. */
  datatype ReportStep =
    | ReportBegin(job: JobId, says: ReportStatus, sent: Option<real>)
    | ReportRead(r: nat)
    | ReportWrite(r: nat, text: string)
    | Succeeded(job: JobId, stamp: int, text: string)
    | FailedReport(job: JobId, stamp: int)

  /** Everything users do besides posting: deletion, the exemption sweep, listing jobs, provider settings. */
  datatype UserStep =
    | DeleteJob(job: JobId)
    | ExemptionSweep(user: UserId)
    | IssueToken(job: JobId, exempt: bool)
    | SaveProvider(provider: string, user: UserId, settings: PlainProvider, enabled: bool, createdAt: int)
    | DropProvider(provider: string)
    | ReorderProviders(user: UserId, ids: seq<string>)

  datatype Action =
    | Tick(now: int)
    | OfPost(post: PostStep)
    | OfClaim(claim: ClaimStep)
    | OfReport(report: ReportStep)
    | OfUser(act: UserStep)

  // ---------- when a step can happen

  predicate PostAt(w: World, r: nat, stage: PostStage) {
    r < |w.requests| && w.requests[r].Post? && w.requests[r].stage == stage
  }

  predicate ClaimAt(w: World, r: nat) {
    r < |w.requests| && w.requests[r].Claim?
  }

  predicate ReportAt(w: World, r: nat) {
    r < |w.requests| && w.requests[r].Report?
  }

  function SnapshotRows(w: World, job: JobId): seq<SealedProvider> {
    if job in w.snapshots then w.snapshots[job] else []
  }

  function EnabledSettings(table: map<string, ProviderRow>, listing: seq<string>): seq<SealedProvider> {
    if listing == [] then []
    else
      var rest := EnabledSettings(table, listing[1..]);
      if listing[0] in table && table[listing[0]].enabled then [table[listing[0]].settings] + rest else rest
  }

  ghost predicate IsFresh(w: World, id: JobId) {
    forall i :: 0 <= i < |w.requests| && w.requests[i].Post? ==> w.requests[i].id != id
  }

  /** LIMIT 1 of the claim query, oldest first. */
  ghost predicate IsPick(w: World, pick: Option<JobId>) {
    match pick
    case None => forall j :: j in w.jobs ==> !Eligible(w.jobs[j], w.clock)
    case Some(p) =>
      && p in w.jobs
      && Eligible(w.jobs[p], w.clock)
      && forall j :: j in w.jobs && Eligible(w.jobs[j], w.clock) ==> w.jobs[p].createdAt <= w.jobs[j].createdAt
  }

  const Priority: SealedProvider -> int := (p: SealedProvider) => p.priority

  ghost predicate PostEnabled(w: World, a: PostStep) {
    match a
    case PostBegin(id, owner, user, exempt, size, subject) =>
      IsFresh(w, id) && ColonFree(id) && (owner == Public ==> !exempt)
    case PostRefuse(r) => PostAt(w, r, Begun) || PostAt(w, r, Prechecked)
    case PostPrecheck(r) => PostAt(w, r, Begun)
    case PostPlanOwn(r, listing) =>
      && PostAt(w, r, Prechecked)
      && w.requests[r].owner == Firebase
      && IsListing(w.providers, w.requests[r].user, listing)
      && EnabledSettings(w.providers, listing) != []
    case PostPlanGiven(r, plan) => PostAt(w, r, Prechecked) && plan != []
    case PostInsert(r) => PostAt(w, r, Planned)
    case PostSnapshot(r) => PostAt(w, r, JobInserted)
    case PostReserve(r) => PostAt(w, r, SnapshotsInserted)
    case PostRollback(r) => PostAt(w, r, QuotaRefused)
    case PostUploadFailed(r) => PostAt(w, r, Reserved)
    case PostAccept(r) => PostAt(w, r, Reserved)
  }

  ghost predicate ClaimEnabled(w: World, a: ClaimStep) {
    match a
    case ClaimBegin(worker) => true
    case ClaimSweep(r) => ClaimAt(w, r) && w.requests[r].claim.Asked?
    case ClaimSelect(r, pick) => ClaimAt(w, r) && w.requests[r].claim.Swept? && IsPick(w, pick)
    case ClaimReject(r) =>
      && ClaimAt(w, r)
      && w.requests[r].claim.Picked?
      && !Opens(w.requests[r].claim.sealed.key, LegacyContext(w.requests[r].claim.picked))
    case ClaimRead(r, rows) =>
      && ClaimAt(w, r)
      && w.requests[r].claim.Picked?
      && Opens(w.requests[r].claim.sealed.key, LegacyContext(w.requests[r].claim.picked))
      && OrderedRows(SnapshotRows(w, w.requests[r].claim.picked), rows, Priority)
    case ClaimTake(r, stamp) =>
      ClaimAt(w, r) && w.requests[r].claim.Opened? && w.requests[r].claim.readAt <= stamp <= w.clock
  }

  predicate ReportEnabled(w: World, a: ReportStep) {
    match a
    case ReportBegin(job, says, sent) => true
    case ReportRead(r) => ReportAt(w, r) && w.requests[r].report.Arrived?
    case ReportWrite(r, text) => ReportAt(w, r) && w.requests[r].report.Read?
    case Succeeded(job, stamp, text) => stamp <= w.clock
    case FailedReport(job, stamp) => stamp <= w.clock
  }

  predicate UserEnabled(w: World, a: UserStep) {
    match a
    case IssueToken(job, exempt) => job in w.jobs && w.jobs[job].owner == Firebase && !w.jobs[job].deleted
    case SaveProvider(provider, user, settings, enabled, createdAt) =>
      provider in w.providers ==> w.providers[provider].user == user
    case _ => true
  }

  ghost predicate Enabled(w: World, a: Action) {
    match a
    case Tick(now) => w.clock <= now
    case OfPost(p) => PostEnabled(w, p)
    case OfClaim(c) => ClaimEnabled(w, c)
    case OfReport(m) => ReportEnabled(w, m)
    case OfUser(u) => UserEnabled(w, u)
  }

  // ---------- requests: where each handler is after a step

  function QuotaKey(q: Request): UsageKey
    requires q.Post?
  {
    UsageKey(q.owner, q.subject, q.day)
  }

  function LimitsOf(q: Request): Limits
    requires q.Post?
  {
    UsageLimitsForScope(q.owner == Public, q.exempt)
  }

  /** Size check and the stale read of today's usage. */
  function AfterPrecheck(w: World, was: Request): Request
    requires was.Post?
  {
    var q := was.(day := w.clock / DAY_MS);
    var limits := LimitsOf(q);
    q.(stage :=
      if limits.pdfMaxBytes.Some? && q.size > limits.pdfMaxBytes.value then Answered(BadRequest)
      else if limits.jobsPerDay.Some? && JobsCreated(w.usage, QuotaKey(q)) >= limits.jobsPerDay.value then Answered(LimitReached)
      else Prechecked)
  }

  function WithPlan(w: World, q: Request, plan: seq<PlainProvider>): Request
    requires q.Post?
  {
    q.(plan := plan, expiry := if q.owner == Public then Some(w.clock + DAY_MS) else None, stage := Planned)
  }

  /** The user's enabled providers, read in order and decrypted; one that does not open fails the request. */
  function WithOwnPlan(w: World, q: Request, listing: seq<string>): Request
    requires q.Post?
  {
    var context := ProviderContext(q.user);
    var rows := EnabledSettings(w.providers, listing);
    if forall p :: p in rows ==> Opens(p.key, context) then WithPlan(w, q, OpenAll(rows, context))
    else q.(stage := Answered(BadRequest))
  }

  function NewPost(p: PostStep): Request
    requires p.PostBegin?
  {
    Post(p.id, p.owner, p.user, p.exempt, p.size, p.subject, 0, None, [], Begun)
  }

  function PostNext(w: World, p: PostStep): Request
    requires PostEnabled(w, p) && !p.PostBegin?
  {
    var q := w.requests[p.r];
    match p
    case PostRefuse(r) => q.(stage := Answered(BadRequest))
    case PostPrecheck(r) => AfterPrecheck(w, q)
    case PostPlanOwn(r, listing) => WithOwnPlan(w, q, listing)
    case PostPlanGiven(r, plan) => WithPlan(w, q, plan)
    case PostInsert(r) => q.(stage := JobInserted)
    case PostSnapshot(r) => q.(stage := SnapshotsInserted)
    case PostReserve(r) =>
      q.(stage := if Reserve(w.usage, QuotaKey(q), q.size, LimitsOf(q).jobsPerDay).1 then Reserved else QuotaRefused)
    case PostRollback(r) => q.(stage := Answered(RolledBack))
    case PostUploadFailed(r) => q.(stage := Answered(UploadFailed))
    case PostAccept(r) => q.(stage := Answered(Accepted))
  }

  /** The compare-and-swap of the claim: does the final update change a row? */
  predicate CanTake(w: World, job: JobId) {
    job in w.jobs && w.jobs[job].status == Queued
  }

  function ClaimNext(w: World, c: ClaimStep): Request
    requires ClaimEnabled(w, c) && !c.ClaimBegin?
  {
    var q := w.requests[c.r];
    match c
    case ClaimSweep(r) => q.(claim := Swept)
    case ClaimSelect(r, pick) =>
      q.(claim := if pick.None? then Replied(NoneFound(w.jobs, w.clock)) else Picked(pick.value, w.jobs[pick.value].legacy))
    case ClaimReject(r) => q.(claim := Replied(Unreadable(q.claim.picked)))
    case ClaimRead(r, rows) =>
      var j, l := q.claim.picked, q.claim.sealed;
      var legacy := Legacy(l.source, l.baseUrl, l.model, OpenKey(l.key, LegacyContext(j)));
      q.(claim := Opened(j, legacy, OpenAll(rows, SnapshotContext(j)), w.clock))
    case ClaimTake(r, stamp) =>
      var j := q.claim.ready;
      q.(claim := Replied(if CanTake(w, j) then Won(j, q.claim.legacy, q.claim.snapshots) else LostRace(j)))
  }

  function ReportNext(w: World, m: ReportStep): Request
    requires ReportEnabled(w, m) && (m.ReportRead? || m.ReportWrite?)
  {
    var q := w.requests[m.r];
    match m
    case ReportRead(r) => q.(report := if q.job in w.jobs then Read(w.jobs[q.job].percent, w.clock) else Written)
    case ReportWrite(r, text) => q.(report := Written)
  }

  function RequestsAfter(w: World, a: Action): seq<Request>
    requires Enabled(w, a)
  {
    match a
    case OfPost(p) => if p.PostBegin? then w.requests + [NewPost(p)] else w.requests[p.r := PostNext(w, p)]
    case OfClaim(c) => if c.ClaimBegin? then w.requests + [Claim(c.worker, Asked)] else w.requests[c.r := ClaimNext(w, c)]
    case OfReport(m) =>
      if m.ReportBegin? then w.requests + [Report(m.job, m.says, m.sent, w.clock, Arrived)]
      else if m.ReportRead? || m.ReportWrite? then w.requests[m.r := ReportNext(w, m)]
      else w.requests
    case _ => w.requests
  }

  // ---------- jobs: INSERT, DELETE, and UPDATE as what it makes of each row

  /** The settings kept in the job row: those of the first provider. */
  function FirstOf(plan: seq<PlainProvider>): Legacy<string> {
    if plan == [] then Legacy("openai_compatible", "", "", None) else LegacyOf(plan[0])
  }

  function NewJob(q: Request, now: int): Job
    requires q.Post?
  {
    Job(q.owner, q.user, Queued, None, now, None, None, None, 0, q.expiry, None, q.exempt, false,
        SealLegacy(FirstOf(q.plan), LegacyContext(q.id)))
  }

  /** Row j after the step, for a row the step does not delete. */
  function Updated(w: World, a: Action, j: JobId): Job
    requires Enabled(w, a) && j in w.jobs
  {
    var job := w.jobs[j];
    match a
    case OfPost(PostUploadFailed(r)) => if j == w.requests[r].id then UploadFailedRow(job) else job
    case OfClaim(ClaimSweep(r)) => SweepRow(job, w.clock)
    case OfClaim(ClaimReject(r)) => if j == w.requests[r].claim.picked then job.(status := Failed) else job
    case OfClaim(ClaimTake(r, stamp)) =>
      if j == w.requests[r].claim.ready && job.status == Queued then TakeRow(job, w.requests[r].worker, stamp) else job
    case OfReport(ReportWrite(r, text)) =>
      var q := w.requests[r];
      if j == q.job then
        ProgressRow(job, q.says, q.stamp, Instant(q.report.at + WEEK_MS, text),
                    NewPercent(q.says, q.report.percent, q.sent))
      else job
    case OfReport(Succeeded(id, stamp, text)) =>
      if j == id then SucceededRow(job, stamp, Instant(stamp + WEEK_MS, text)) else job
    case OfReport(FailedReport(id, stamp)) => if j == id then FailedReportRow(job, stamp) else job
    case OfUser(DeleteJob(id)) => if j == id then job.(deleted := true) else job
    case OfUser(ExemptionSweep(user)) => if job.user == user && job.owner != Public then ExemptRow(job) else job
    case _ => job
  }

  function InsertedKey(w: World, a: Action): set<JobId>
    requires Enabled(w, a)
  {
    if a.OfPost? && a.post.PostInsert? then {w.requests[a.post.r].id} else {}
  }

  function RemovedKey(w: World, a: Action): set<JobId>
    requires Enabled(w, a)
  {
    if a.OfPost? && a.post.PostRollback? then {w.requests[a.post.r].id} else {}
  }

  function JobsAfter(w: World, a: Action): map<JobId, Job>
    requires Enabled(w, a)
  {
    map j | j in w.jobs.Keys + InsertedKey(w, a) - RemovedKey(w, a) ::
      if j in w.jobs then Updated(w, a, j) else NewJob(w.requests[a.post.r], w.clock)
  }

  // ---------- the other tables

  function SnapshotsAfter(w: World, a: Action): map<JobId, seq<SealedProvider>>
    requires Enabled(w, a)
  {
    match a
    case OfPost(PostSnapshot(r)) =>
      var q := w.requests[r];
      w.snapshots[q.id := SealAll(q.plan, SnapshotContext(q.id))]
    case OfPost(PostRollback(r)) => w.snapshots - {w.requests[r].id}
    case _ => w.snapshots
  }

  function UsageAfter(w: World, a: Action): map<UsageKey, Usage>
    requires Enabled(w, a)
  {
    match a
    case OfPost(PostReserve(r)) =>
      var q := w.requests[r];
      Reserve(w.usage, QuotaKey(q), q.size, LimitsOf(q).jobsPerDay).0
    case OfPost(PostUploadFailed(r)) =>
      var q := w.requests[r];
      Refund(w.usage, QuotaKey(q), q.size)
    case _ => w.usage
  }

  function ProvidersAfter(w: World, a: Action): map<string, ProviderRow>
    requires Enabled(w, a)
  {
    match a
    case OfUser(SaveProvider(provider, user, settings, enabled, createdAt)) =>
      w.providers[provider := ProviderRow(user, SealProvider(settings, ProviderContext(user)), enabled, createdAt)]
    case OfUser(DropProvider(provider)) => w.providers - {provider}
    case OfUser(ReorderProviders(user, ids)) => Reordered(w.providers, user, ids, |ids|)
    case _ => w.providers
  }

  function IssuedAfter(w: World, a: Action): set<Issue>
    requires Enabled(w, a)
  {
    match a
    case OfUser(IssueToken(job, exempt)) =>
      w.issued + {Issue(job, ExpiryText(w.jobs[job].downloadExpiry), exempt)}
    case _ => w.issued
  }

  // ---------- the history

  predicate IsRunning(w: World, job: JobId) {
    job in w.jobs && w.jobs[job].status == Running
  }

  function EventsOf(w: World, a: Action): seq<Event>
    requires Enabled(w, a)
  {
    match a
    case OfClaim(ClaimSweep(r)) => [Sweep(w.clock, set j | j in w.jobs && LeaseLost(w.jobs[j], w.clock))]
    case OfClaim(ClaimTake(r, stamp)) =>
      if CanTake(w, w.requests[r].claim.ready) then [Take(w.requests[r].claim.ready, stamp)] else []
    case OfReport(ReportWrite(r, text)) =>
      var q := w.requests[r];
      if !IsRunning(w, q.job) then []
      else if q.says == SaysFailed then [Finish(q.job, false)]
      else if q.says == SaysCompleted then [Finish(q.job, true)]
      else [Beat(q.job, q.stamp)]
    case OfReport(Succeeded(id, stamp, text)) => if IsRunning(w, id) then [Finish(id, true)] else []
    case OfReport(FailedReport(id, stamp)) => if IsRunning(w, id) then [Finish(id, false)] else []
    case _ => []
  }

  // ---------- the step function

  function Apply(w: World, a: Action): World
    requires Enabled(w, a)
  {
    World(
      if a.Tick? then a.now else w.clock,
      JobsAfter(w, a),
      SnapshotsAfter(w, a),
      ProvidersAfter(w, a),
      UsageAfter(w, a),
      RequestsAfter(w, a),
      IssuedAfter(w, a),
      w.log + EventsOf(w, a))
  }

  // ---------- runs

  function Initial(clock: int): World {
    World(clock, map[], map[], map[], map[], [], {}, [])
  }

  /** A run: the worlds passed through and the steps between them. */
  ghost predicate IsRun(ws: seq<World>, acts: seq<Action>) {
    |ws| == |acts| + 1 && Chained(ws, acts)
  }

  ghost predicate Chained(ws: seq<World>, acts: seq<Action>)
    requires |ws| == |acts| + 1
  {
    && ws[0] == Initial(ws[0].clock)
    && forall k :: 0 <= k < |acts| ==> Enabled(ws[k], acts[k]) && ws[k + 1] == Apply(ws[k], acts[k])
  }
}
