# The PDF job pipeline, as a protocol

The system translates PDF files. A Worker keeps jobs in a database; an agent on another machine claims them, runs
translation engines, and reports progress and the result. Both sides run concurrently, and every request of the Worker is
a sequence of SQL statements between which other requests run. This project states what that protocol guarantees, for
every interleaving and every run.

## How it is modelled

**The Worker** (`worker/src/index.ts`, `retention.ts`). `Tables` has the rows and the SQL statements on them; `Pipeline`
is the state machine. A world holds the clock, the tables, every in-flight request with its program counter and what its
handler has in memory, and a history that nothing reads. One action is one SQL statement, or one `DB.batch`, of one
request. A request that crashes or is abandoned takes no further step, so every statement below covers it. `WorkerStore`
is the same database as a class that its handlers update in place, one method for each statement; each method is proved
to be the step of the state machine and to keep all invariants.

`Identity`, `Rows`, `Lease`, `Quota`, `Snapshots`, `Tokens` and `Finality` each have one part of the invariant and the
proof that every step keeps it. `Runs`, `Progress` and `Verdicts` have the statements about whole runs. `Statements` says what each
statement achieves, column by column, and `Origins` where rows, plans and decisions come from over runs. `RateLimit` is
the fixed-window limiter, `Reorder` the reordering of provider settings.

**The agent** (`pc-api-python/main.py`, `router.py`). `Agent` runs one claimed job: the engine loop, the progress throttle,
the terminal report. `Engines` builds the engine list and the public fallback chain. `Router` is the failover router as a
state machine over the pieces of code between two awaits, with any number of requests in flight; `RouterJob` is the
object those pieces update, and `RouterRuns` tells its runs by what happened in them. `ExceptionWalk` walks an exception graph with one shared set of seen objects.

**Together.** `Wakeup` runs the agent's wake, drain and wait loop against the Worker. `EndToEnd` replays the agent's
messages in the Worker's handlers. `Fallback` follows the public chain from the configuration to the engines, and `Window`
and `Stranded` are concrete runs. `Headers` is the `Content-Disposition` header of both sides.

Taken as given: authenticated encryption opens exactly under the context string it was made with, a keyed hash is
injective, job ids are fresh and contain no colon (they are UUIDs), the clock does not run backwards. The network, the
clock, the answers of providers, address checks and the translation itself are inputs, so the statements hold for all of
them. An `ORDER BY` may return ties in any order.

## What the proofs found

- A claim that reads the snapshot rows between the two inserts of `POST /jobs` wins the job with no provider rows, and the
  agent then falls back to the first provider alone. `Runs.HandsOutWholePlan` shows that this window is the only
  exception, every other claim won hands out the whole plan, and `Window.EmptyHandOutHappens` is a run in which it
  occurs (`worker/src/index.ts:1286-1312`).
- Two progress reports handled together can lower the stored percent: both read it before either writes
  (`Progress.StaleReadLowersPercent`). When no report is written between the read and the write of another it never falls
  (`Progress.PercentNeverFalls`).
- An empty claim reply also answers a lost race, and then the agent stops draining while other jobs can be claimed:
  `Stranded.LostRaceHappens` is such a history with a single agent, `Wakeup.LeftBehind` says exactly which jobs are left.
  After a reply that found no job, no wakeup is lost (`Wakeup.NoLostWakeup`).
- When closing a connection raises, the router counts the attempt twice. `Router.StatisticsConserved` has the exact law,
  `Router.NothingCountedTwice` the case without. Worse, a 2xx whose connection then fails to close is thrown away and a
  later provider is tried (`RouterRuns.LostSuccessHappens`); `RouterRuns.EarlierGoodIffLost` shows that this is the only
  way in which the first success in order is not the one relayed.
- The rate limiter admits fewer than twice its limit in any interval of one window's length; `2 * limit - 1` is reached
  (`RateLimit.IntervalBound`, `RateLimit.IntervalBoundIsReached`). That is for calls whose two statements are not
  separated by another call of the key; when they are, one window can grant more than its limit
  (`RateLimit.LimitPassedBetweenStatements`, and exactly when in `RateLimit.GrantedBeyondLimit`).
- A new provider gets the row count plus one as its priority, so after the deletion of any but the last the next one
  added collides (`Reorder.CollidesAfterDeletion`); a reorder repairs it (`Reorder.ReorderThenList`).
- A user who is exempt is still counted, and may take the shared counter past the daily limit; without exempt posts the
  limit is never passed (`Runs.QuotaConserved`).
- Cutting a file name at 160 UTF-16 units can split a surrogate pair, and then the header cannot be made.
  `Headers.WorkerHeaderRoundTrip` shows that this is the only case.
- `docs/api-rotation-plan.md` says that a job without providers is refused with `api_key_required` and that the agent
  goes on to the next provider after certain HTTP codes; the code falls back to the public chain, and goes on after any
  answer that is not 2xx and after any exception. The model follows the code.

## Model

| member | source | states |
|---|---|---|
| Runs.InvariantKept | worker/src/index.ts:975-1854 | Every statement of every handler keeps the whole invariant: row ownership, row form, lease history, quota accounts, sealed snapshots, tokens |
| Runs.InvariantHolds | worker/src/index.ts:975-2077 | The invariant holds in every world of every run |
| Runs.ClaimsAreExclusive | worker/src/index.ts:1760-1854 | In every run, claims won of a job equal its recoveries while queued and recoveries plus one while running or completed; between two claims won there is a recovery |
| Lease.ClaimExclusivity | worker/src/index.ts:1834-1838 | The same counts from the invariant, and the bounds for failed jobs |
| Lease.RecoveryBetweenWins | worker/src/index.ts:1761-1771 | Two successful claims of one job have a recovery of it between them |
| Lease.StepRelates | worker/src/index.ts:1760-1838 | Each step changes a row's status and lease stamp only together with the matching event of the history |
| Statements.HistoryTellsTheStep | worker/src/index.ts:1760-2077 | The history records a claim, a recovery and a finish exactly when a row goes from queued to running, from running to queued, and from running to ended by a report |
| Lease.LogOkKept | worker/src/index.ts:1760-2077 | No step breaks the lease automaton, and every recovery found a lease not renewed for two hours |
| Runs.RecoveryIsComplete | worker/src/index.ts:1760-1781 | Right after every recovery batch of every run, each undeleted running job was renewed within two hours and no expired public job is queued or running |
| Origins.RecoveredCanBeClaimed | worker/src/index.ts:1761-1771 | Whenever the history records a recovery the job was running before and is queued right after, can be claimed, has its lease columns cleared and every other column as before |
| Statements.SweepOutcome | worker/src/index.ts:1760-1781 | What the batch makes of each row: recovered, failed as expired, or unchanged, column by column |
| Lease.SweepIsComplete | worker/src/index.ts:1760-1781 | The same of one batch, from the form of the rows alone |
| Lease.SweepIsSafe | worker/src/index.ts:1760-1781 | The batch changes a row if and only if its lease is lost or its public life is over |
| Runs.RenewedIsNeverRequeued | worker/src/index.ts:1760-1771 | A job renewed less than two hours before every recovery batch that found it running has not been requeued, however long batches go on after it has ended |
| Identity.OwnedKept | worker/src/index.ts:1286-1347 | Job ids stay unique; a row exists exactly from its POST's insert to that POST's rollback |
| Identity.GoneStaysGone | worker/src/index.ts:1335-1339 | A row that was rolled back never returns |
| Identity.RequestsEvolve | worker/src/index.ts:975-1411 | No step changes what a request has fixed: owner, size, day, plan, expiry |
| Origins.RequestIsAsSent | worker/src/index.ts:975-1411 | In every run a request is what was sent, and a report carries the time at which it arrived |
| Statements.StatementsRunOnce | worker/src/index.ts:975-2077 | Each statement takes its own request forward and leaves all others alone, so none is run twice |
| Statements.TickOutcome | worker/src/index.ts:1752-1854 | Time passes by ticks alone, which change nothing else |
| Origins.RowComesFromPost | worker/src/index.ts:1286-1301 | In every run a row has the owner, user, exemption and public expiry of the POST with its id |
| Origins.PublicLifetime | worker/src/index.ts:1103-1105 | A public job expires exactly 24 hours after the step that fixed its plan, which came before its insert; nothing moves that time |
| Rows.SweepRowOk | worker/src/index.ts:1760-1781 | The recovery batch keeps a row well formed at any time |
| Rows.NewPercentInRange | worker/src/index.ts:1982-1991 | The computed percent stays in 0..100, is within a half of what was sent or else what was read; a running report never goes below what it read; completed gives 100 |
| Rows.RowsOkKept | worker/src/index.ts:1286-2077 | Running implies a lease stamp, public implies an expiry and no exemption, completed implies 100% and a finish time, exempt implies no download expiry |
| Runs.QuotaConserved | worker/src/index.ts:1316-1377 | Under any interleaving a day's counters are the reservations still held and their bytes, and never pass the limit without exempt posts |
| Quota.QuotaOkKept | worker/src/index.ts:1316-1377 | Every step keeps the accounts of every key, including the ceiling with exempt posts counted apart |
| Quota.NeverOverLimit | worker/src/retention.ts:23-33 | A subject none of whose posts is exempt stays within its daily limit although the pre-check is stale |
| Quota.RefundNeverClips | worker/src/index.ts:1370-1376 | The MAX(0, ...) of the refund never takes effect |
| Statements.ReserveOutcome | worker/src/index.ts:1316-1335 | A reservation succeeds if and only if there is no limit, no row yet, or fewer jobs than it; it adds one job and its bytes to its key and touches no other |
| Origins.ReservationDecides | worker/src/index.ts:1316-1347 | In every run a reservation is refused if and only if the POST is not exempt and the reservations held for its subject and day have reached the limit |
| Origins.PrecheckDecides | worker/src/index.ts:1022-1074 | In every run the pre-check refuses exactly what is too large, and else exactly who is at the limit of the reservations held at that moment |
| Origins.UploadsAreWithinSize | worker/src/index.ts:1022-1032 | Every POST past its beginning that was not refused is within 5 MiB for guests and 20 MiB for users who are not exempt |
| Snapshots.SnapshotsOkKept | worker/src/index.ts:1196-1265 | Whatever is done to settings, each stored key stays under its own table's context and each claim agrees with the plan of the POST |
| Runs.KeysStayInContext | worker/src/index.ts:1196-1312 | In every world of every run each stored key is under its own table's context, and no step is the claim's decryption failure |
| Snapshots.EveryKeyInContext | worker/src/index.ts:1206-1312 | From the invariant: each ciphertext of the three tables is under its own context string |
| Snapshots.NeverUnreadable | worker/src/index.ts:1787-1801 | The decryption-failure branch of the claim is never taken |
| Snapshots.OwnPlanOpens | worker/src/index.ts:1196-1265 | Re-encrypting a user's enabled providers never fails and loses no key |
| Origins.PlanIsAsRead | worker/src/index.ts:1076-1274 | In every run the plan of a POST is the one given to it or what the user's enabled providers opened to at one moment of its handling |
| Statements.EnabledInOrder | worker/src/index.ts:1197-1199 | The providers read are exactly the enabled ones, in the order of the listing |
| Statements.SavedSettingsOpen | worker/src/index.ts:601-660 | Saved settings open to what was saved, and no other row changes |
| Snapshots.ReadAgrees | worker/src/index.ts:1803-1831 | Reading the snapshot rows gives the plan in priority order with every key opened, or nothing before the snapshot batch |
| Runs.PlanNeverChanges | docs/api-rotation-plan.md:7-8 | Once read, the plan of a POST never changes in the run |
| Runs.ClaimsHandOutPlans | worker/src/index.ts:1787-1853 | Every claim won hands out the first provider's settings and the plan, or no rows |
| Runs.HandsOutWholePlan | worker/src/index.ts:1803-1853 | It hands out no rows exactly when it read them between the two inserts of the POST, and else the whole plan |
| Vault.MigratedKey | worker/src/index.ts:252-305 | Migrating old settings keeps the key under the new context exactly when it opened under the old one, and never copies a key that does not open |
| Vault.ContextsDiffer | worker/src/index.ts:101-126 | No context string of one table is one of another |
| Tables.OpenSealedAll | worker/src/index.ts:1210-1264 | Sealing provider rows and opening them under the same context gives the rows back |
| Runs.FailedIsAbsorbing | worker/src/index.ts:1760-2077 | In every run a failed job stays failed as long as its row exists |
| Runs.CompletedIsAbsorbing | worker/src/index.ts:1367-1401 | Once POST has answered 200 a completed job stays completed, keeps its exemption, and keeps its expiry unless the exemption sweep clears it |
| Runs.AtMostOneFinish | worker/src/index.ts:1993-2006 | At most one report ever takes effect as the finish; completed means 100% and a finish time |
| Finality.CompletedLeft | worker/src/index.ts:1367-1377 | Completed is left exactly by the upload-failure write of its own POST or by the claim's write for an unreadable key |
| Finality.FailedStays | worker/src/index.ts:1760-1781 | No update leaves failed |
| Finality.NeverUndone | worker/src/index.ts:454-462 | Owner, user and creation time are fixed; exemption and deletion are never undone |
| Finality.ExpiryOfCompleted | worker/src/index.ts:454-462 | The download expiry of a completed job changes only when the exemption sweep clears it |
| Origins.WeekOfDownload | worker/src/index.ts:1998-2043 | In every run a completed job that is not exempt can be downloaded for at least a week from its finish |
| Statements.SucceededOutcome | worker/src/index.ts:2010-2043 | A success report completes a running job at 100% with a week of download from its time, and does nothing else |
| Statements.FailedOutcome | worker/src/index.ts:2045-2077 | A failure report fails a running job and does nothing else |
| Statements.ProgressOutcome | worker/src/index.ts:1993-2006 | A progress report ends a running job or renews its lease and percent, and does nothing else |
| Statements.TakeOutcome | worker/src/index.ts:1834-1854 | The claim is won if and only if the row is queued then, and leases it to the worker that asked |
| Statements.SelectOutcome | worker/src/index.ts:1784-1785 | The claim picks an oldest job among those queued, undeleted and alive, and none only if there is none |
| Statements.ExemptionOutcome | worker/src/index.ts:454-462 | The exemption sweep exempts every job of the user that is not public, clears its expiry, and does nothing else |
| Statements.DeleteOutcome | worker/src/index.ts:1412-1430 | A deletion marks its row and no other |
| Finality.PercentDropsOnlyByReport | worker/src/index.ts:1979-2006 | A step lowers the percent exactly when it writes a report whose value, computed from the earlier read, is lower |
| Finality.RunningReportNeedsStaleRead | worker/src/index.ts:1979-1991 | A running or completed report that read the current value never lowers it |
| Progress.PercentNeverFalls | worker/src/index.ts:1979-1991 | Over a run, across requeues and re-claims, the percent never falls as long as no report of the job is written between the read and the write of another and none says failed; abandoned reports do not matter |
| Progress.WrittenReadIsCurrent | worker/src/index.ts:1979-2005 | A report written that way carries the percent that is still stored |
| Progress.StaleReadLowersPercent | worker/src/index.ts:1979-2005 | From every world with a running job, two running reports handled together can take the percent up to any value and down again |
| Verdicts.StaysRunning | worker/src/index.ts:1760-2077 | A running job stays running over a step if and only if the step is not a lost lease, an expiry, an upload failure or an ending report of it |
| Verdicts.FirstReportDecides | worker/src/index.ts:1993-2075 | Among any other steps, the first ending report decides the job for the rest of the run: completed at 100% or failed |
| Verdicts.VerdictAmongOthers | worker/src/index.ts:1946-2077 | In any run in which the lease is kept and the job's reports are those of the agent's outbox, any interim ones lost, repeated or out of order, the job ends for ever as the agent's verdict |
| Retention.FirstColon | worker/src/retention.ts:35-42 | Two texts that agree have the same piece before the first colon |
| Retention.MessageUnambiguous | worker/src/retention.ts:35-42 | For ids without a colon the signed message determines the job, the kind of token and the expiry text |
| Retention.MessageAmbiguousWithColon | worker/src/retention.ts:35-42 | With a colon in an id two jobs share a message |
| Tokens.AcceptedWasIssuedForJob | worker/src/index.ts:1667-1693 | A token accepted for a user's job was issued for that job, of that kind and that expiry |
| Tokens.ExemptTokenServed | worker/src/index.ts:1676-1697 | An exempt token is served if and only if the job is exempt, completed and not deleted |
| Tokens.OrdinaryTokenServed | worker/src/index.ts:1672-1697 | An ordinary token is served if and only if its expiry text is the job's, which is completed, not deleted and not past it |
| Tokens.IssuedTokenWorks | worker/src/index.ts:1462-1468 | A token handed out is recorded and opens its job at once exactly if that is completed and the token is exempt only if the job is, or in date |
| Tokens.PublicServed | worker/src/index.ts:1667-1697 | A public job is served exactly to who has its receipt, while it is alive, completed, not deleted and not past its download expiry |
| Tokens.RefusedBecause | worker/src/index.ts:1660-1697 | Each refusal says what is the case |
| Runs.ExemptTokenForever | worker/src/index.ts:1462-1468 | An exempt token that worked once works for ever, until deletion |
| Runs.OrdinaryTokenUntilExpiry | worker/src/index.ts:1667-1697 | An ordinary token that worked once works until its expiry or deletion, unless an exemption sweep clears the expiry; one without expiry text works until deletion |
| Runs.RetentionHolds | worker/src/retention.ts:35-52 | In every run an exempt job has no expiry and is not public, and a token that opens a job was issued for it |
| RateLimit.RateLimits.Upsert | worker/src/index.ts:237-244 | The first statement changes the key's row alone, to its window with one call more or a new one |
| RateLimit.RateLimits.ReadBack | worker/src/index.ts:246-248 | The second grants exactly when the key has a row whose count is within the limit |
| RateLimit.RateLimits.CheckRateLimit | worker/src/index.ts:233-249 | Both, one after the other |
| RateLimit.RunCalls | worker/src/index.ts:233-249 | A sequence of calls with any keys, each with its own limit, answers as the specification of single windows says |
| RateLimit.WindowBound | worker/src/index.ts:233-249 | Each window grants at most the limit |
| RateLimit.IntervalBound | worker/src/index.ts:233-249 | Any closed interval of one window's length has at most 2 * limit - 1 grants |
| RateLimit.IntervalBoundIsReached | worker/src/index.ts:233-249 | That bound is attained |
| RateLimit.LockoutEnds | worker/src/index.ts:233-249 | The first call after window start plus window length is granted however many were refused; refused calls never move the window |
| RateLimit.GrantedBeyondLimit | worker/src/index.ts:237-248 | With the statements of several calls interleaved: a call beyond the limit is granted if and only if another call of its key started a new window between its write and its read, with at most the limit of calls by then |
| RateLimit.GrantedAlone | worker/src/index.ts:237-248 | Without another call of the key in between, the answer is that of the count it wrote |
| RateLimit.LimitPassedBetweenStatements | worker/src/index.ts:237-248 | Interleaved, three calls are granted of which two were counted in one window of limit 1 |
| Reorder.ReorderThenList | worker/src/index.ts:830-843 | After a reorder with all ids of a user, every sorted listing is exactly the order sent, whatever the priorities were, and no other user's row changes |
| Reorder.AddingKeepsCompact | worker/src/index.ts:651-657 | Adding providers alone keeps a user's priorities 1 to n, each once |
| Reorder.CollidesAfterDeletion | worker/src/index.ts:651-657 | After a deletion the next provider added, with count + 1, collides with another if and only if the deleted one was not the last |
| Reorder.PrioritiesMayCollide | worker/src/index.ts:252-254 | Two colliding rows are listed by creation time, and in either order when that is the same too |
| WorkerStore.Database.Precheck | worker/src/index.ts:1022-1074 | The size and usage checks as the step of the state machine; the invariant is kept |
| WorkerStore.Database.OpenRows | worker/src/index.ts:1209-1264 | The re-encryption loop stops exactly when some key does not open, and else has every row opened in order |
| WorkerStore.Database.PlanOwn | worker/src/index.ts:1196-1265 | The plan from the user's enabled providers, or nothing written when there is none |
| WorkerStore.Database.InsertJob | worker/src/index.ts:1276-1301 | The insert of the job row |
| WorkerStore.Database.InsertSnapshots | worker/src/index.ts:1303-1312 | The snapshot batch seals the whole plan under the job's context |
| WorkerStore.Database.ReserveQuota | worker/src/index.ts:1314-1335 | The conditional upsert, and whether it changed a row |
| WorkerStore.Database.Rollback | worker/src/index.ts:1335-1347 | The rollback batch removes exactly the job's rows |
| WorkerStore.Database.FailUpload | worker/src/index.ts:1367-1377 | The unconditional failure write together with the refund |
| WorkerStore.Database.Sweep | worker/src/index.ts:1760-1781 | The two updates of the recovery batch, in order, are the step of the state machine |
| WorkerStore.Database.Oldest | worker/src/index.ts:1784-1785 | The claim query returns an oldest eligible job, and none exactly when there is none |
| WorkerStore.Database.ReadSnapshots | worker/src/index.ts:1803-1832 | The loop over the snapshot rows opens each key in order |
| WorkerStore.Database.Take | worker/src/index.ts:1834-1854 | The compare-and-swap: won exactly when the job is still queued |
| WorkerStore.Database.WriteProgress | worker/src/index.ts:1993-2006 | The guarded write of a progress report |
| WorkerStore.Database.Succeed | worker/src/index.ts:2010-2043 | The guarded write of a success report |
| WorkerStore.Database.Fail | worker/src/index.ts:2045-2077 | The guarded write of a failure report |
| WorkerStore.Database.ExemptAll | worker/src/index.ts:454-462 | The exemption sweep over all jobs of a user |
| WorkerStore.Database.ReorderSettings | worker/src/index.ts:830-843 | The reorder batch, statement by statement |
| Agent.PeakIsMaximum | pc-api-python/main.py:377-386 | The last percent is the maximum of 15, every normalised percent and 100 for a finish |
| Agent.NormalizedIsNearest | pc-api-python/main.py:377-386 | A progress value counts exactly if it is a finite number, as the percent nearest to it |
| Agent.JobRun.OnEvent | pc-api-python/main.py:568-592 | One event: the percent becomes the maximum; it is reported exactly on a finish, an increase, or after more than half a second |
| Agent.ProvidersOf | pc-api-python/main.py:441-452 | All rows handed out are kept; without any the job runs with the settings of its row alone |
| Agent.JobRun.RunEngine | pc-api-python/main.py:511-682 | One engine: clean exactly when nothing raised and the router had fewer than three failures in a row; given up exactly when an exception leaves the try block; its attempt reported accordingly |
| Agent.RunJob | pc-api-python/main.py:439-730 | Exactly one terminal report, the last message; success exactly when some engine of those handed out ended without raising before the job was given up; reported percents never fall; every engine tried only after all before it failed; stages, attempts, statistics and end reported in order |
| Engines.BuildEngines | pc-api-python/main.py:477-501 | The loop builds the engine list of the specification |
| Engines.EngineOrder | pc-api-python/main.py:477-501 | For any providers the router appears at most once, exactly at the first non-native one, and natives keep their order |
| Engines.FallbackAvailable | worker/src/publicFallback.ts:16-29 | A guest without a key can be served exactly when the chain is configured and its keys can be sealed |
| Engines.FallbackSorted | worker/src/publicFallback.ts:50-71 | Every answer of the priority query is the chain itself |
| Engines.FallbackChain | worker/src/index.ts:128-183 | For k keys, possibly none, the engines are the router, if k > 0, and the native one, and the router tries keys 0 to k-1 in order, each with the configured endpoint and model |
| Fallback.FallbackReachesTheAgent | worker/src/index.ts:1266-1273 | The same for what the agent runs after a claim in any run of the Worker |
| Fallback.EmptyHandOutRunsTheFirst | pc-api-python/main.py:441-452 | A claim that was handed no rows runs one engine, with the settings of the plan's first provider |
| Window.EmptyHandOutHappens | worker/src/index.ts:1286-1312 | A run of nine steps in which a claim reads between the two inserts and wins the job without rows |
| Router.NextWithUrl | pc-api-python/router.py:54-67 | The loop goes on to the first provider that has a base URL |
| Router.RequestsOkKept | pc-api-python/router.py:54-183 | In every interleaving no request tries a provider out of turn or twice |
| RouterRuns.FirstSuccessInOrder | pc-api-python/router.py:54-183 | The relayed reply is the 2xx, with its code, of a provider that has a base URL and whose address was allowed; each one before it had no base URL and was left alone, or was denied, answered with something else than a 2xx, raised, or lost its 2xx to a close that raised; none after it was touched; without such a provider all were passed over like that |
| RouterRuns.BlockedIffDenied | pc-api-python/router.py:101-105 | A provider ends as blocked if and only if its address check refused it |
| RouterRuns.AnsweredOnlyIfAllowed | pc-api-python/router.py:101-124 | Every answer was preceded by a check that allowed the address and by none that refused it |
| RouterRuns.RemembersHistory | pc-api-python/router.py:98-180 | A request's record says exactly what happened to each provider: address allowed or denied, which answer, which close raised, how a stream ended |
| RouterRuns.EarlierGoodIffLost | pc-api-python/router.py:141-180 | A provider before the relayed one answered with a 2xx if and only if closing the connection over which it did so raised |
| RouterRuns.FirstGoodIsRelayed | pc-api-python/router.py:54-183 | In a run in which no close raises the reply is that of the first provider that answered with a 2xx |
| RouterRuns.LostSuccessHappens | pc-api-python/router.py:141-180 | A run of eight events in which the 200 of the first provider is lost and the 201 of the second relayed |
| RouterRuns.ActiveIsLastServer | pc-api-python/router.py:139 | In every run the active provider is the one that answered last with a 2xx |
| Router.FailureIsTheLast | pc-api-python/router.py:101-183 | A request that no provider served reports the failure of the last one it tried, 502 when none was |
| Router.CountedKept | pc-api-python/router.py:88-180 | Every step keeps each counter equal to the sum over all requests |
| Router.StatisticsConserved | pc-api-python/router.py:88-180 | Per provider, in every interleaving: total = successes + failures + open attempts, less double counts; rate limits are failures |
| Router.NothingCountedTwice | pc-api-python/router.py:133-179 | Nothing is counted twice in a run in which no close raises |
| RouterRuns.StreakOfRun | pc-api-python/router.py:143-182 | The failure counter is the number of requests that ran out of providers since a request last got a 2xx, in the order in which the requests of the run did so |
| Router.StreakCountsExhausted | pc-api-python/router.py:182 | As many completions are exhausted ones as there are exhausted requests |
| RouterRuns.CleanUnlessThreeExhausted | pc-api-python/main.py:594-596 | A translation through the router that ends without raising is rejected exactly when the last three completions of the router's run were all requests that ran out of providers |
| RouterJob.Job.NextProvider | pc-api-python/router.py:54-99 | The provider loop in place is the specified continuation |
| RouterJob.Job.OnAnswer | pc-api-python/router.py:126-180 | What an answer or an exception does to counters, streak and request |
| RouterJob.Job.OnClosed | pc-api-python/router.py:133-180 | What closing a connection does, raising or not |
| RouterJob.Job.OnStreamEnded | pc-api-python/router.py:152-166 | The accounting of the stream generator |
| ExceptionWalk.Walker.Visit | pc-api-python/main.py:388-406 | One call of the generator with a shared seen set yields what is new and reachable, in depth-first order, and ends on cyclic graphs |
| ExceptionWalk.WalkAll | pc-api-python/main.py:388-406 | The walk ends on every finite graph and yields each reachable exception exactly once, depth first |
| ExceptionWalk.ExtractHttpStatusError | pc-api-python/main.py:408-414 | None exactly when no reachable exception matches, else the first match in the order of the walk |
| Wakeup.StepKeeps | pc-api-python/main.py:291-306 | Every step of agent and Worker keeps what the event, the drain and the delivered wakes know of each other |
| Wakeup.NoLostWakeup | pc-api-python/main.py:291-306 | If the agent waits with the event clear after finding no job, every job whose wake was delivered was in the table that claim looked at and could not be claimed there; if it can be claimed now it was recovered since |
| Wakeup.DrainEnds | pc-api-python/main.py:293-306 | In every history a drain ends only with a failed request or job, or with a reply without a job |
| Wakeup.AsksBeforeWaiting | pc-api-python/main.py:291-306 | In every history the agent asks again after each job, and after each clearing of the event, before it waits |
| Wakeup.WonJobIsRun | pc-api-python/main.py:293-310 | A claim answered with a job is followed by running it; without one, by waiting, and the reply found none or lost a race |
| Wakeup.WakeIsRemembered | pc-api-python/main.py:108-111 | While the event is clear every delivered wake came before the last clear |
| Wakeup.LeftBehind | pc-api-python/main.py:291-306 | After any empty reply with the event clear: a delivered job not recovered since can be claimed if and only if it could in the table the claim looked at, nobody took it since, and it is neither deleted nor expired; after a reply that found no job there is none |
| Wakeup.LostRaceEndsDrain | worker/src/index.ts:1839-1854 | A lost race ends the drain and leaves every other delivered job as claimable as it was |
| Stranded.LostRaceHappens | worker/src/index.ts:1834-1854 | A history of one agent, from the empty database, that ends waiting with the event clear while a delivered job can be claimed |
| EndToEnd.HandleProgressRow | worker/src/index.ts:1946-2007 | A progress report handled alone does to the row what its arithmetic says, and nothing to others |
| EndToEnd.VerdictReachesTheJob | worker/src/index.ts:1946-2077 | Replaying the agent's messages, any interim ones lost, ends in completed at 100% exactly when the verdict is success and in failed otherwise |
| EndToEnd.RunAndReport | pc-api-python/main.py:511-730 | A claimed job ends completed exactly when some engine ended without raising before the job was given up, any interim messages lost |
| Headers.PercentRoundTrip | worker/src/index.ts:1636-1640 | Percent-encoding any bytes uses only attr-char and %HH and decodes to the bytes |
| Headers.EncodeRfc5987IsPercentEncoding | worker/src/index.ts:1636-1640 | encodeURIComponent and the two replacements after it are percent-encoding of the UTF-8 form, and fail exactly on lone surrogates |
| Headers.Utf8RoundTrip | worker/src/index.ts:1636-1640 | The UTF-8 form determines the string |
| Headers.HeaderParses | worker/src/index.ts:1642-1648 | A header parser recovers the kind and both parameters |
| Headers.PrefixWellFormed | worker/src/index.ts:1633 | Cutting a string leaves a lone surrogate exactly when the cut falls inside a pair |
| Headers.WorkerHeaderRoundTrip | worker/src/index.ts:1625-1648 | The header exists exactly when the cut at 160 does not split a pair; then the name comes back and the quoted name is clean |
| Headers.PythonHeaderRoundTrip | pc-api-python/main.py:69-74 | For every name the parser recovers the UTF-8 bytes and the quoted ASCII name, which is clean and 1 to 160 characters long |
| Headers.GoodNameKept | worker/src/index.ts:1625-1634 | A name without forbidden or dropped units and white space at its ends comes back unchanged, or as its first 160 units |
| Headers.ReplacedExact | worker/src/index.ts:1628-1629 | Forbidden units become underscores in place and all others stay |
| Headers.DroppedMakesNoDifference | worker/src/index.ts:1629 | Line breaks and NULs make no difference to the sanitised name |
| Headers.TrimExact | worker/src/index.ts:1630 | Trimming takes white space at both ends and leaves none there |
| Headers.FallbackTaken | worker/src/index.ts:1632 | The fallback name is taken exactly when nothing but white space is left |
| Headers.QuotedNameExact | worker/src/index.ts:1646 | The quoted name has every printable ASCII character but the quote in its place, and underscores for the rest |
| Headers.AsciiNameKept | pc-api-python/main.py:70-72 | A plain ASCII name is quoted as it is |

## Left out

- RateLimit.RateLimits.CheckRateLimit: states the answer of a call whose two statements have no other call of its key in between, and so do the window and interval bounds; RateLimit.GrantedBeyondLimit is the law for interleaved statements.
- Pipeline.PostRefuse: the checks of `POST /jobs` that only refuse (PDF signature, Turnstile, the public rate limits, a missing endpoint) are one nondeterministic refusal, so the rate limiter is not wired into the state machine.
- Pipeline.SaveProvider: the reads before a settings write are folded into the write; the values written are arbitrary, so any stale read is covered.
- EndToEnd.RunAndReport: takes the last message as delivered and nothing else as touching the job; Verdicts.VerdictAmongOthers is the statement among other requests.
- Wakeup.NoLostWakeup: a safety statement; that the wait ends is the event's or the timeout's doing and is not modelled.
- A progress_percent that is not a number.
- Times are integers in milliseconds; SQLite's second granularity and the rounding of julianday are not modelled.
- Free-text columns: phases, messages, log tails, error texts, execution metadata, active provider name.
- The attempts and provider_stats tables, the log and download endpoints, /limits, /settings/llm, the smoke job, the admin endpoints.
- JWT and Firebase verification, Turnstile, the e-mail test behind exemption: inputs.
- Address and URL checks of providers: a boolean input. A provider row whose base URL is null, which makes the router raise, is not modelled; base URLs are taken without trailing slashes.
- The exception generator is run to its end before the first match is looked for; the match test is a parameter; the Python recursion limit on very long exception chains is not modelled.
- Cancellation of the agent, and a crash of the agent in the middle of a job: the lease recovery of the Worker covers the job.
- Unicode normalisation: the headers start from an already normalised name.
- The Python log endpoint, the older Go server, the frontend, build and deploy scripts.
