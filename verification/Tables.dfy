/** The Worker's tables and the SQL statements that write them, one function a statement
    (worker/src/index.ts, worker/migrations). Free-text columns are left out. */
module Tables {
  import opened Basics
  import opened Vault
  import opened Retention

  type JobId = string
  type UserId = string

  const LEASE_MS: int := 2 * 60 * 60 * 1000
  const WEEK_MS: int := 7 * DAY_MS

  // ---------- provider settings, stored with a sealed key or held in memory with a plain one

  datatype Provider<+K> = Provider(
    name: string, kind: string, baseUrl: string, model: string,
    key: Option<K>, priority: int, timeout: Option<int>, effort: Option<string>)

  type PlainProvider = Provider<string>
  type SealedProvider = Provider<Cipher>

  /** The first provider of a job, kept in the job row as well. */
  datatype Legacy<+K> = Legacy(source: string, baseUrl: string, model: string, key: Option<K>)

  function SealKey(key: Option<string>, context: string): Option<Cipher> {
    if key.None? then None else Some(Seal(key.value, context))
  }

  /** A key that does not open is reported as absent. */
  function OpenKey(key: Option<Cipher>, context: string): Option<string> {
    if key.None? then None else Unseal(key.value, context)
  }

  function SealProvider(p: PlainProvider, context: string): SealedProvider {
    Provider(p.name, p.kind, p.baseUrl, p.model, SealKey(p.key, context), p.priority, p.timeout, p.effort)
  }

  function OpenProvider(p: SealedProvider, context: string): PlainProvider {
    Provider(p.name, p.kind, p.baseUrl, p.model, OpenKey(p.key, context), p.priority, p.timeout, p.effort)
  }

  function SealAll(ps: seq<PlainProvider>, context: string): seq<SealedProvider> {
    seq(|ps|, i requires 0 <= i < |ps| => SealProvider(ps[i], context))
  }

  function OpenAll(ps: seq<SealedProvider>, context: string): seq<PlainProvider> {
    seq(|ps|, i requires 0 <= i < |ps| => OpenProvider(ps[i], context))
  }

  function LegacyOf(p: PlainProvider): Legacy<string> {
    Legacy(p.kind, p.baseUrl, p.model, p.key)
  }

  function SealLegacy(l: Legacy<string>, context: string): Legacy<Cipher> {
    Legacy(l.source, l.baseUrl, l.model, SealKey(l.key, context))
  }

  predicate Opens(key: Option<Cipher>, context: string) {
    key.Some? ==> Unseal(key.value, context).Some?
  }

  // ---------- jobs

  datatype Owner = Public | Firebase
  datatype Status = Queued | Running | Completed | Failed

  datatype Job = Job(
    owner: Owner,
    user: UserId,
    status: Status,
    worker: Option<string>,
    createdAt: int,
    claimedAt: Option<int>,
    startedAt: Option<int>,
    finishedAt: Option<int>,
    percent: int,
    publicExpiry: Option<int>,
    downloadExpiry: Option<Instant>,
    exempt: bool,
    deleted: bool,
    legacy: Legacy<Cipher>)

  predicate PublicAlive(job: Job, now: int) {
    job.owner != Public || (job.publicExpiry.Some? && job.publicExpiry.value > now)
  }

  predicate LeaseLost(job: Job, now: int) {
    && job.status == Running
    && !job.deleted
    && job.claimedAt.Some?
    && job.claimedAt.value <= now - LEASE_MS
    && PublicAlive(job, now)
  }

  predicate PublicOverdue(job: Job, now: int) {
    && job.owner == Public
    && (job.status == Queued || job.status == Running)
    && !job.deleted
    && job.publicExpiry.Some?
    && job.publicExpiry.value <= now
  }

  /** What the claim query selects from. */
  predicate Eligible(job: Job, now: int) {
    job.status == Queued && !job.deleted && PublicAlive(job, now)
  }

  function Requeued(job: Job): Job {
    job.(status := Queued, worker := None, claimedAt := None, startedAt := None)
  }

  function Overdue(job: Job, now: int): Job {
    job.(status := Failed, finishedAt := Some(now))
  }

  /** The two statements of the recovery batch, in order. */
  function SweepRow(job: Job, now: int): Job {
    var recovered := if LeaseLost(job, now) then Requeued(job) else job;
    if PublicOverdue(recovered, now) then Overdue(recovered, now) else recovered
  }

  function TakeRow(job: Job, worker: string, stamp: int): Job {
    job.(status := Running, worker := Some(worker), claimedAt := Some(stamp), startedAt := Some(stamp))
  }

  function UploadFailedRow(job: Job): Job {
    job.(status := Failed)
  }

  function ExemptRow(job: Job): Job {
    job.(exempt := true, downloadExpiry := None)
  }

  // ---------- agent reports

  /** The status an agent may send with a progress report; anything else is Other. */
  datatype ReportStatus = SaysRunning | SaysFailed | SaysCompleted | SaysOther

  function JsRound(x: real): int {
    (x + 0.5).Floor
  }

  /** The percent that the progress handler computes from the percent it read and the one it was sent. */
  function NewPercent(status: ReportStatus, read: int, sent: Option<real>): int {
    var rounded := Max(0, Min(100, if sent.Some? then JsRound(sent.value) else read));
    match status
    case SaysCompleted => 100
    case SaysRunning => Max(read, rounded)
    case _ => rounded
  }

  function CompletedRow(job: Job, stamp: int, expiry: Instant, percent: int): Job {
    job.(status := Completed, finishedAt := Some(stamp), percent := percent,
         downloadExpiry := if job.exempt then None else Some(expiry))
  }

  function FailedRow(job: Job, stamp: int): Job {
    job.(status := Failed, finishedAt := Some(stamp))
  }

  /** The progress handler's update, guarded by status = 'running'. */
  function ProgressRow(job: Job, status: ReportStatus, stamp: int, expiry: Instant, percent: int): Job {
    if job.status != Running then job
    else
      match status
      case SaysFailed => FailedRow(job, stamp).(percent := percent)
      case SaysCompleted => CompletedRow(job, stamp, expiry, percent)
      case _ => job.(status := Running, claimedAt := Some(stamp), percent := percent)
  }

  function SucceededRow(job: Job, stamp: int, expiry: Instant): Job {
    if job.status != Running then job else CompletedRow(job, stamp, expiry, 100)
  }

  function FailedReportRow(job: Job, stamp: int): Job {
    if job.status != Running then job else FailedRow(job, stamp)
  }

  // ---------- daily usage

  datatype UsageKey = UsageKey(scope: Owner, subject: string, day: int)
  datatype Usage = Usage(jobsCreated: int, bytesUploaded: int)

  /** The upsert with its WHERE clause; the flag is meta.changes === 1. */
  function Reserve(table: map<UsageKey, Usage>, key: UsageKey, size: nat, limit: Option<nat>): (map<UsageKey, Usage>, bool) {
    if key !in table then
      (table[key := Usage(1, size)], true)
    else if limit.Some? && table[key].jobsCreated >= limit.value then
      (table, false)
    else
      (table[key := Usage(table[key].jobsCreated + 1, table[key].bytesUploaded + size)], true)
  }

  function Refund(table: map<UsageKey, Usage>, key: UsageKey, size: nat): map<UsageKey, Usage> {
    if key !in table then table
    else table[key := Usage(Max(0, table[key].jobsCreated - 1), Max(0, table[key].bytesUploaded - size))]
  }

  function JobsCreated(table: map<UsageKey, Usage>, key: UsageKey): int {
    if key in table then table[key].jobsCreated else 0
  }

  function BytesUploaded(table: map<UsageKey, Usage>, key: UsageKey): int {
    if key in table then table[key].bytesUploaded else 0
  }

  // ---------- user_api_providers

  datatype ProviderRow = ProviderRow(user: UserId, settings: SealedProvider, enabled: bool, createdAt: int)

  predicate ListedBefore(a: ProviderRow, b: ProviderRow) {
    a.settings.priority < b.settings.priority
    || (a.settings.priority == b.settings.priority && a.createdAt <= b.createdAt)
  }

  /** One possible answer of SELECT ... WHERE user_id = ? ORDER BY priority ASC, created_at ASC. */
  ghost predicate IsListing(table: map<string, ProviderRow>, user: UserId, listing: seq<string>) {
    && (forall i, j :: 0 <= i < j < |listing| ==> listing[i] != listing[j])
    && (forall id :: id in listing <==> id in table && table[id].user == user)
    && (forall i, j :: 0 <= i < j < |listing| ==>
        listing[i] in table && listing[j] in table && ListedBefore(table[listing[i]], table[listing[j]]))
  }

  /** The rows after the first n statements of a reorder batch. */
  function Reordered(table: map<string, ProviderRow>, user: UserId, ids: seq<string>, n: nat): map<string, ProviderRow>
    requires n <= |ids|
  {
    if n == 0 then table
    else
      var before := Reordered(table, user, ids, n - 1);
      var id := ids[n - 1];
      if id in before && before[id].user == user
      then before[id := before[id].(settings := before[id].settings.(priority := n))]
      else before
  }

  // ---------- provider rows of a job, opened

  lemma OpenSealedProvider(p: PlainProvider, context: string)
    ensures OpenProvider(SealProvider(p, context), context) == p
  {
  }

  lemma OpenSealedAll(ps: seq<PlainProvider>, context: string)
    ensures OpenAll(SealAll(ps, context), context) == ps
  {
    forall i | 0 <= i < |ps|
      ensures OpenAll(SealAll(ps, context), context)[i] == ps[i]
    {
      OpenSealedProvider(ps[i], context);
    }
  }

  /** A reorder changes priorities only. */
  lemma {:induction false} ReorderedRowsKeep(table: map<string, ProviderRow>, user: UserId, ids: seq<string>, n: nat)
    requires n <= |ids|
    ensures var after := Reordered(table, user, ids, n);
            && after.Keys == table.Keys
            && forall id :: id in table ==>
                 after[id] == table[id].(settings := table[id].settings.(priority := after[id].settings.priority))
  {
    if n > 0 {
      ReorderedRowsKeep(table, user, ids, n - 1);
    }
  }

  /** Opening rows does not care in which order they came. */
  lemma {:induction false} OpenAllMultiset(a: seq<SealedProvider>, b: seq<SealedProvider>, context: string)
    requires multiset(a) == multiset(b)
    ensures multiset(OpenAll(a, context)) == multiset(OpenAll(b, context))
  {
    assert |multiset(a)| == |a| && |multiset(b)| == |b|;
    if a != [] {
      assert a[0] in multiset(b);
      var k :| 0 <= k < |b| && b[k] == a[0];
      DropSame(a, b, k);
      OpenAllMultiset(a[1..], b[..k] + b[k + 1..], context);
      var plain := OpenProvider(a[0], context);
      assert OpenAll(a, context) == [plain] + OpenAll(a[1..], context);
      assert OpenAll(b, context) == OpenAll(b[..k], context) + [plain] + OpenAll(b[k + 1..], context);
      assert OpenAll(b[..k] + b[k + 1..], context) == OpenAll(b[..k], context) + OpenAll(b[k + 1..], context);
    }
  }
}
