# Verified model of the SeDoc core protocols

A Dafny 4.11 model of seven parts of the system, with proofs about every run, every input or every
reachable state of the model. `dafny verify dfyconfig.toml` checks all of it.

| part | modules |
|---|---|
| transactional outbox to JetStream | `Backoff`, `Outbox`, `OutboxProgress`, `OutboxDrain`, `OutboxReplay` |
| Idempotency-Key middleware | `Idempotency` |
| NATS subject coverage and stream bootstrap | `Subjects`, `Streams` (with `Text`) |
| dms-sync agent | `SyncEngine`, `SyncNames`, `SyncApply`, `SyncSettle`, `SyncAgent`, `SyncPaths` |
| analytics query compiler | `AnalyticsCompile`, `AnalyticsResult`, `AnalyticsJoins` (with `Sorting`) |
| per-IP token bucket | `IpLimiter` |
| tenant keys and the mobile upload queue | `KeyManager`, `TenantKeys`, `UploadQueue` |
| shared vocabulary | `Basics` |

How the model reads:

- A protocol is a world (tables, broker log, in-flight work) and a total function `Next(world, action)`.
  A step that is not enabled changes nothing, so a run is any sequence of actions and the theorems
  hold for all of them. Replicas, requests and commands interleave between any two steps; crashes,
  aborts, lost replies and truncated writes are actions or parameters.
- Fields called history record what happened (what was ever inserted, which failures were committed,
  which handler runs succeeded). No step reads them; the theorems compare the tables with them.
- Code that loops over variables or changes an object's fields is a method or a class with the same
  branches, and its postcondition equates the result with the function the theorems are about.
- Hashes, key derivation and authenticated encryption are collision-free constructors. Clocks,
  broker answers, server answers and disk outcomes are parameters. An event id is never reused.
- Fleeting choices the code leaves open (map iteration order, which due rows a claim returns) are
  left open here too.

## What the proofs found

- Cleanup of token buckets is documented as lossless (pkg/middleware/ratelimit_ip.go:90-92). The idle
  limit is cut to whole nanoseconds, so it is lossless if and only if filling a bucket takes at most a
  minute or a whole number of nanoseconds (`ExactSettings`, `CleanupLosslessIff`).
- The reported wait of a refused client is cut in the same way: waiting exactly that long is enough
  only when it was a whole number of nanoseconds; one nanosecond more always is (`RetryExact`). After a
  spent burst that means: if and only if the rate divides the window (`ReportedWaitTooShort`).
- Re-running the stream bootstrap is documented as idempotent. It is, if and only if entries that share
  a stream name agree; a stream named like another's dead-letter stream is rewritten on every start
  (`SecondPassQuietIff`, `DlqNameClash`). The startup check means what the specs say if and only if the
  specs' filters and those of the last spec of each name cover each other (`StartupCheckIff`); a stream
  overwritten by a dead-letter stream of its name makes it refuse what the specs promise
  (`DlqNameHidesStream`).
- `CheckCoverage` asks for one filter that covers a subject. Its report is right for every list of
  streams if and only if the subject does not end in ">": such a subject can be reported as missing
  although two filters together store all of its messages (`ReportExactIff`, `JointCoverNotSeen`).
- The documented limit of burst plus rate times length holds of the limiter with its cleanup under the
  same condition as lossless cleanup, and for other settings fails by less than one nanosecond's refill
  for each cleanup (`RateBoundIff`, `RateBound`).
- A conflict drops the error of reading the local file (cmd/dms-sync/main.go:216). If the read did not
  hand over the whole file while the copy, the download and the final write go through, the edit is
  gone. The scan passes over directories named ".git" (cmd/dms-sync/state.go:137), so a document that
  the server puts below one is downloaded over a local file. In every other case an edit survives
  (`EditLostIff`, `FailedReadLosesEdit`, `HiddenFileLost`).
- The name of a conflicted copy contains the device name, which the join cleans. Two files can share a
  copy, and one edit be lost, if and only if the device name contains segments that climb out of its
  own first one, such as "/../x" (`CopyInjectiveIff`, `SharedCopyLosesEdit`).
- A sync cycle with only successes settles if and only if no path changed on both sides to content
  that a server-sent hash shows to be equal (such a path keeps its old baseline and is uploaded next
  time) and no swallowed read error left a wrong baseline: a conflict that read only a part equal to
  the server's file, or an upload whose hash could not be computed (`SettlesIff`, with a cycle for each
  case). Without hashes in the delta and with working reads it always settles.
- The largest value in the counted-failure backoff loop is below twice the larger of base and cap if
  and only if the base is below the cap or there was at most one attempt; otherwise it is exactly twice
  the base (`CountedBackoff`).
- An upload job is stored twice when the server did a step that the queue did not record, because the
  reply or the queue's own write was lost or the app was killed in between; never otherwise
  (`ReplayDoesNotDuplicate`, `UnrecordedBlobTwice`, `UnrecordedDocumentTwice`).
- A request that outlives the five-minute limit can be reclaimed while alive; two handlers then succeed
  and the late one replaces the stored response (`OverrunBreaks`). Below the limit, each lost completion
  and each response over the cap allows one more successful run, and nothing else does
  (`OneSuccessfulRun`, `LostWriteRepeats`, `OversizedRepeats`).

## Model

| member | source | states |
|---|---|---|
| Outbox.NoEventLost | pkg/database/outbox_publisher.go:177-336 | in every run of inserts, concurrent drains, aborts, cleanups and replays, an inserted event is unchanged in exactly one of the two tables, or was cleaned up after the broker had stored it; a row marked published had been stored |
| Outbox.DeadLetterExact | pkg/database/outbox_publisher.go:240-301 | outbox rows have used fewer attempts than the limit, and a live event is dead-lettered if and only if its committed non-transient failures since insert or replay equal the limit |
| Outbox.ReplicasPartitionWork | pkg/database/outbox_publisher.go:172-192 | no row is held by two open drains, and a held row is unpublished and as it was when claimed |
| Outbox.CommitSchedules | pkg/database/outbox_publisher.go:152-171 | after a commit each processed row is published and otherwise unchanged, due exactly after its documented delay with its error and counters (a transient one within the duplicate window, attempts untouched) or dead-lettered with its event, and every other row of both tables is untouched, also those claimed and not reached |
| Outbox.ClaimExact | services/document/migrations/000104_outbox_drain_definer.up.sql:54-68 | a claim succeeds exactly for unpublished, due rows in nobody's open drain, at most a batch and a thousand, and hands them over as they are |
| Outbox.PublishExact | pkg/database/outbox_publisher.go:240-252 | the broker has the row afterwards exactly if it was accepted or kept although the call failed; the tables wait for the commit |
| Outbox.WaitingEnds | pkg/database/outbox_publisher.go:183-192 | an unpublished row that no drain holds can be claimed once its deferral has passed |
| Outbox.InsertIsReady | pkg/database/outbox_publisher.go:183-192 | a new event has its whole budget, is due at once and can be claimed by any idle replica; no other row changes |
| Outbox.ReplayIsReady | pkg/database/outbox_dlq.go:34-38 | so has and is a replayed event, which left the dead letters; no other row of either table changes |
| Outbox.CleanupExact | pkg/database/outbox_publisher.go:478-499 | a cleanup removes exactly the tenant's rows published before the cutoff |
| Outbox.DefaultsDocumented | pkg/database/outbox_publisher.go:71-98 | the documented defaults, and settings that are set stay as they are |
| Outbox.StepKeeps | pkg/database/outbox_publisher.go:177-336 | every step keeps the invariant that ties tables, locks, broker log and failure history together |
| Outbox.ReplayKeeps | pkg/database/outbox_dlq.go:84-103 | a replay never meets its own id in the outbox and restores a full retry budget |
| OutboxProgress.CommitSpends | pkg/database/outbox_publisher.go:241-307 | a committed drain lowers the summed retry budget by at least one for each row that was accepted or rejected, so by at least one if it claimed a row and saw no transient failure |
| OutboxProgress.DrainsTerminate | pkg/database/outbox_publisher.go:241-307 | without inserts or replays, over every interleaving, the number of drains with a decisive answer is bounded by the initial budget |
| OutboxDrain.Publisher.RecordFailure | pkg/database/outbox_publisher.go:253-285 | a failed row is deferred uncounted, rescheduled or moved to the dead letters, and no other row changes |
| OutboxDrain.Publisher.PublishRows | pkg/database/outbox_publisher.go:240-289 | the loop processes rows in order up to the first transient failure, tells the broker exactly the stored ones, and groups the successes by the tenant that owns them |
| OutboxDrain.Publisher.MarkTenants | pkg/database/outbox_publisher.go:291-301 | tenant-scoped updates in any tenant order mark exactly the rows that were accepted |
| OutboxDrain.Publisher.DrainBatch | pkg/database/outbox_publisher.go:177-307 | a commit leaves the tables of the protocol's commit step; a failed write or commit leaves them as they were while the broker keeps what it stored |
| OutboxDrain.DrainIsRun | pkg/database/outbox_publisher.go:177-307 | one poll cycle is the protocol run claim, publish, ..., commit or abort |
| OutboxReplay.Pick | pkg/database/outbox_dlq.go:74-88 | the tenant's dead rows that no other replay holds, by time of death and then id, as many as the limit allows, and none left behind that should have come before |
| OutboxReplay.DeadLetters.ReplayDLQ | pkg/database/outbox_dlq.go:40-71 | with any protocol steps of other processes between the tenants' transactions: the call is a protocol run, each tenant gives its oldest free rows of that moment within what is left of the limit, the total stays within it, and a failing tenant leaves earlier ones moved; with nobody else at work, every row left behind is younger than each moved row of its tenant |
| OutboxReplay.DeadLetters.ReplayTenant | pkg/database/outbox_dlq.go:73-119 | one tenant's transaction is one replay step of the protocol on the rows it picked, which are then ready again: attempts 0, no error, no deferral; a dry run changes nothing |
| Backoff.CountedBackoff | pkg/database/outbox_publisher.go:363-380 | the loop returns min(base * 2^(n-1), cap) for every n; every intermediate value is below twice max(base, cap) if and only if the base is below the cap or n is at most 1, and otherwise the largest is exactly twice the base |
| Backoff.TransientBackoff | pkg/database/outbox_publisher.go:387-408 | the same delay with the cap lowered to the duplicate window, which no delay exceeds; intermediate values always stay below twice max(base, cap) |
| Backoff.DelayMonotone | pkg/database/outbox_publisher.go:363-408 | delays never shrink with n, never exceed the cap, and stay at the cap once there |
| Backoff.DelayDoubles | pkg/database/outbox_publisher.go:363-408 | the first retry waits the base, each later one twice the one before, up to the cap; without a base there is no wait |
| Idempotency.OneOwner | pkg/middleware/idempotency.go:136-173 | while no live execution of a key outlasts the stale limit, the key never has two live owners, whatever crashes, panics and reclaims happen and whatever happens to other keys |
| Idempotency.OneSuccessfulRun | pkg/middleware/idempotency.go:146-238 | under that condition a key's successful runs number exactly one if a response is kept or about to be, plus its lost finishing writes, plus its oversized bodies; so at most one without those, and a completed row holds exactly the last run's response |
| Idempotency.ReplaysForever | pkg/middleware/idempotency.go:185-214 | once completed, a key's row is the same after any further steps in which none of its executions outlasts the limit, and every later request gets its status and body, or 422 when method or path differ |
| Idempotency.CompletedStays | pkg/middleware/idempotency.go:261-287 | no step changes a completed row while owners hold their own reservations |
| Idempotency.OverrunBreaks | pkg/middleware/idempotency.go:151-159 | for every storable pair of responses there is a run in which an over-long execution is reclaimed, both succeed and the stored response is replaced |
| Idempotency.LostWriteRepeats | pkg/middleware/idempotency.go:151-159 | with nobody over the limit, a completion lost by a crash lets the handler succeed a second time |
| Idempotency.OversizedRepeats | pkg/middleware/idempotency.go:261-287 | a successful response over the cap frees the key, and the handler succeeds again |
| Idempotency.ServeIsRun | pkg/middleware/idempotency.go:136-238 | one uninterrupted request is the protocol's arrive, return or panic, and finish steps |
| Idempotency.Middleware.ReserveKey | pkg/middleware/idempotency.go:146-173 | takes the key if and only if it is free or a stale reservation of the same request, and otherwise shows the row |
| Idempotency.Middleware.Serve | pkg/middleware/idempotency.go:98-251 | which requests bypass the key and which are refused; for the rest, in their own terms: who runs the handler, 409, 422, 503, the stored response replayed or the handler's own response unchanged, and what the table then says of the key and of no other |
| Idempotency.ServedTwice | pkg/middleware/idempotency.go:185-239 | after a stored success the next request, whatever its handler, hears the first response replayed and does not run; after anything not stored it runs |
| Idempotency.CompletedNeverReopens | pkg/middleware/idempotency.go:261-287 | in every world, also after overruns, no step removes or reopens a completed row |
| Subjects.SubjectCovers | pkg/events/coverage.go:5-41 | for well-formed patterns, true if and only if every concrete subject matching the second also matches the first |
| Subjects.CoversSound | pkg/events/coverage.go:17-41 | a covering filter matches whatever the pattern matches |
| Subjects.Counterexample | pkg/events/coverage.go:17-41 | a refusal comes with a concrete subject that the pattern matches and the filter does not |
| Subjects.CheckCoverage | pkg/events/coverage.go:43-67 | returns, in input order, exactly the subjects that no stream's filter covers |
| Subjects.CoverageDelivers | pkg/events/coverage.go:43-67 | an empty answer means every message of every listed subject is stored by some stream |
| Subjects.ReportExactIff | pkg/events/coverage.go:43-67 | for every well-formed subject, the report is right for all lists of streams (missing if and only if some message is lost) if and only if the subject does not end in ">" |
| Subjects.ClosedSubjectDecided | pkg/events/coverage.go:47-67 | for a subject that does not end in ">", if the streams together store all its messages then one filter covers it |
| Subjects.JointCoverNotSeen | pkg/events/coverage.go:47-67 | for every prefix p, the filters "p.*" and "p.*.>" together store all of "p.>" and the subject is still reported |
| Streams.SecondPassQuietIff | pkg/events/publisher.go:324-378 | from any account, the second pass makes no add or update call if and only if entries sharing a name want the same subjects and discard policy |
| Streams.NamesApartConsistent | pkg/events/publisher.go:328-343 | distinct stream names, none of them another's dead-letter name, are enough |
| Streams.DlqNameClash | pkg/events/publisher.go:310-343 | distinct names alone are not: a spec named like another's dead-letter stream makes every start write |
| Streams.SubjectsEqualIsSetEquality | pkg/events/publisher.go:388-402 | against a duplicate-free list the length-and-membership test is equality of sets |
| Streams.CompareSubjects | pkg/events/publisher.go:388-402 | the loop decides that test |
| Streams.JetStream.EnsureOne | pkg/events/publisher.go:345-378 | adds, updates or skips one stream and reports which; a stream whose lookup failed is added blindly, which succeeds only if it is absent or identical; a refusal leaves the account alone |
| Streams.JetStream.EnsureStreams | pkg/events/publisher.go:324-343 | the account afterwards is the pass over the entries that were reached; the report counts its calls, exactly so when every lookup answered |
| Streams.JetStream.AssertLiveCoverage | pkg/events/publisher.go:232-261 | passes if and only if every lookup answers (present or absent) and no subject is missing from the streams that exist |
| Streams.StartupCheckMeaning | pkg/events/publisher.go:217-228 | when entries sharing a name agree, after a complete bootstrap from any account the live check passes if and only if the check on the specs is empty |
| Streams.PassIsFinal | pkg/events/publisher.go:328-378 | from any account, after a bootstrap each named stream takes the subjects and the discard policy of the last spec that sets it up, as a primary or as a dead-letter stream |
| Streams.BootstrapGives | pkg/events/publisher.go:284-343 | from any account, a stream that no later spec sets up again takes its spec's subjects and discard policy, and a dead-letter stream its own subject, dropping its oldest |
| Streams.CreatedAsDocumented | pkg/events/publisher.go:284-322 | a stream that did not exist is created with the documented age, size, replicas and duplicate window, primary or dead-letter |
| Streams.StartupCheckIff | pkg/events/publisher.go:240-261 | for duplicate-free specs and every account, the live check after the bootstrap and the check on the specs agree on every list of subjects if and only if the specs' filters and those of the last spec of each name cover each other |
| Streams.DlqNameHidesStream | pkg/events/publisher.go:310-343 | distinct names alone are not enough for that: a stream listed before the one whose dead-letter name it has is overwritten, and the start is refused |
| SyncEngine.Reconcile | cmd/dms-sync/engine.go:78-159 | one decision for every path of the three views, each path once, in any order |
| SyncEngine.DecisionTable | cmd/dms-sync/engine.go:67-77 | exactly which changes on which side lead to download, upload, create, delete and conflict, and when a changed local file is left alone |
| SyncEngine.PlanCarries | cmd/dms-sync/engine.go:115-163 | in every plan an upload names its document and the version the edit is based on, and downloads, conflicts and deletions carry the delta entry's document, version, time and hash |
| SyncEngine.MovedExact | cmd/dms-sync/engine.go:165-176 | the server has moved when it names another version, or, when neither side names one, another time |
| SyncNames.CopyInjectiveIff | cmd/dms-sync/state.go:178-189 | two paths never share a conflicted copy if and only if the device name's own segments never climb above the one that carries the stem |
| SyncNames.TameInjective | cmd/dms-sync/state.go:178-189 | for such a device name the copy's place determines directory, stem and extension |
| SyncNames.CopyNamed | cmd/dms-sync/state.go:178-189 | for a device name without separators the copy is the stem, the marker with the device name, and the extension from the last dot, in the same directory |
| SyncNames.WildShares | cmd/dms-sync/state.go:178-189 | for any other device name all files of a directory with the same extension share one copy |
| SyncNames.WildDevice | cmd/dms-sync/main.go:23 | with the device name "/../x" the files d/a.txt and d/b.txt share the copy d/x).txt |
| SyncApply.ExecView | cmd/dms-sync/main.go:82-101 | without name clashes a cycle does to each path what that path's action alone would do, and nothing to paths it did not reach |
| SyncApply.EditSurvivesAction | cmd/dms-sync/main.go:159-272 | for every answer of server and disk, an action keeps unsynced bytes in the file, the copy or on the server, if and only if it is not a conflict that read less than the whole file and then overwrote it, nor a download onto the file |
| SyncApply.EditKind | cmd/dms-sync/state.go:123-158 | an unsynced file is never deleted, and it is downloaded over if and only if the scan passes over it while the server has a document there that the baseline does not know |
| SyncApply.ScanExact | cmd/dms-sync/state.go:123-158 | the local view has exactly the files outside .git directories and not named like the state file, each with the hash of its bytes |
| SyncApply.OfflineExact | cmd/dms-sync/main.go:159-272 | an action reports being offline exactly when the call it needed was answered so, an unsuccessful one leaves the baseline alone, and only an upload pushes, and only the file's bytes |
| SyncApply.EditLostIff | cmd/dms-sync/main.go:159-272 | over a whole cycle in any order with any failures, an unsynced edit is gone from its path, its copy and its push if and only if its action was reached and was such a conflict or download |
| SyncApply.NoUnsyncedEditLost | cmd/dms-sync/main.go:159-272 | otherwise, so in particular whenever the scan saw the file and its conflict's read is whole, unsynced bytes that are no copy's name are still at their path, at their conflicted copy or on the server |
| SyncApply.FailedReadLosesEdit | cmd/dms-sync/main.go:212-220 | the misread conflict exists: for every path and content, a failed read and otherwise working calls leave the edit nowhere, with a success reported |
| SyncApply.HiddenFileLost | cmd/dms-sync/state.go:136-141 | the download exists: for every path the scan passes over, such as one below a ".git" directory, the local file is replaced and its bytes are nowhere, with a success reported |
| SyncApply.TameNoClash | cmd/dms-sync/state.go:178-189 | for a tame device name the proviso that no copy is a path of the plan suffices |
| SyncAgent.ClashLosesEdit | cmd/dms-sync/main.go:233-256 | that proviso is needed: when a copy's name is a local file that server and baseline do not know, every order of the plan that reaches the conflict replaces that file's bytes, which are then in no copy and in no push of its own |
| SyncAgent.SharedCopyLosesEdit | cmd/dms-sync/main.go:251-258 | and so is the device name's: when two conflicts share a copy, one edit is nowhere although every call worked |
| SyncAgent.Agent.ResolveConflict | cmd/dms-sync/main.go:230-272 | the effect on file, copy and baseline for every answer, and on nothing else |
| SyncAgent.Agent.ApplyAction | cmd/dms-sync/main.go:159-228 | the same for every kind of action, with its status and any pushed version |
| SyncAgent.Agent.Cycle | cmd/dms-sync/main.go:81-101 | the cycle executes a plan of the three views, stops when offline, and loses no unsynced edit but to a conflict that misread its file or a download onto a file the scan passed over |
| SyncSettle.SettlesIff | cmd/dms-sync/engine.go:96-157 | after a cycle of successes an empty delta finds only no-ops and new files, if and only if no path was equal by hash while changed on both sides and no swallowed read error left a baseline that does not describe its file |
| SyncSettle.HashlessFeedSettles | cmd/dms-sync/engine.go:13-17 | with a delta that carries no hashes a cycle of successes settles if and only if no swallowed read error did that; always when the reads worked too |
| SyncSettle.EqualHashUnsettled | cmd/dms-sync/engine.go:131 | a one-path cycle of successes that does not settle: the same edit on both sides, shown by the server's hash |
| SyncSettle.CutReadUnsettled | cmd/dms-sync/main.go:212-250 | another: a conflict whose read broke off where the server's shorter file ends |
| SyncSettle.UnhashedUnsettled | cmd/dms-sync/main.go:197-209 | another: an upload whose hash could not be computed |
| SyncSettle.RepeatedDeltaQuiet | cmd/dms-sync/main.go:165-179 | after a pull or resolved conflict the same delta entry asks for nothing, so the recorded server side is right, unless a partial read was taken for the file |
| SyncSettle.UploadLands | cmd/dms-sync/main.go:189-210 | an edit goes to its own document as a new version if the server is still at the version it is based on, and otherwise not at all, the edit then kept as a copy; no other document changes |
| SyncSettle.DownloadMirrors | cmd/dms-sync/main.go:165-179 | a file only the server changed becomes the server's bytes, recorded with the delta's document, version and time |
| SyncSettle.ConflictKeepsBoth | cmd/dms-sync/main.go:230-272 | a file both sides changed ends as the server's bytes so recorded, with the local bytes as the copy; equal bytes are only recorded |
| SyncSettle.DeleteMirrors | cmd/dms-sync/main.go:181-187 | a file the server deleted and nobody edited is gone with its baseline; an edited one keeps its bytes |
| SyncSettle.OrderDoesNotMatter | cmd/dms-sync/engine.go:90-158 | when no two paths share a document and no copy clashes, any two orders of the actions give the same files and baseline against a server that the uploads change, also when an upload is stored and then reported as failed |
| SyncPaths.RelDir | cmd/dms-sync/state.go:40-54 | terminates on every folder graph and lists the longest chain of named ancestors without a repeat |
| SyncPaths.SanitizeGivesSegment | cmd/dms-sync/state.go:56-69 | every name becomes one harmless segment: not empty, not a dot name, no separator or NUL, no trailing dot or space |
| SyncPaths.SanitizeTakesPart | cmd/dms-sync/state.go:56-69 | the segment is part of the name with each separator or NUL made "_", or "_" when only dots were left |
| SyncPaths.SanitizeKeeps | cmd/dms-sync/state.go:56-69 | a harmless name without outer space is kept |
| SyncPaths.DocRel | cmd/dms-sync/main.go:150-157 | a built path is already in normal form and is refused only for a reserved first segment |
| SyncPaths.CleanShape | cmd/dms-sync/state.go:196-217 | the normal form starts with ".." if and only if the path climbs above the root on the way; otherwise it has none |
| SyncPaths.SafePathExact | cmd/dms-sync/state.go:196-217 | accepted if and only if relative, never above the root, not the root itself and not the state file |
| SyncPaths.ReservedExact | cmd/dms-sync/state.go:71-80 | reserved are the names that, without trailing dots and spaces, start with the state file's name in any mix of cases |
| AnalyticsCompile.Compile | pkg/analytics/registry.go:176-283 | succeeds exactly on accepted queries, with each error for its own reason; at most 3 dimensions and 50 values a filter; the limit is 100 by default and at most 1000; a row satisfies the output if and only if the query wants it; the placeholders are $1..$n in order, one per argument; the output does not depend on map order |
| AnalyticsCompile.WhereMeaning | pkg/analytics/registry.go:209-251 | the compiled WHERE under its arguments means tenant, base predicate, every non-empty filter list and the half-open time range |
| AnalyticsCompile.WhereList | pkg/analytics/registry.go:209-251 | fails exactly on a bad filter, and otherwise builds that WHERE |
| AnalyticsCompile.FilterList | pkg/analytics/registry.go:217-240 | the filter loop's arguments and placeholders stay in step |
| AnalyticsCompile.SelectList | pkg/analytics/registry.go:190-207 | fails exactly on an unknown name, and otherwise lists dimensions then measures |
| AnalyticsCompile.BeforeReads | pkg/analytics/registry.go:215-221 | the order of filter names is dictionary order |
| Sorting.ListingUnique | pkg/analytics/registry.go:215-221 | a set has only one sorted listing |
| AnalyticsResult.AnswerDependsOnTenantOnly | pkg/analytics/registry.go:253-280 | over joined rows, any physical order and any change to other tenants' rows give the same sequence of result lines under grouping, ordering and limit |
| AnalyticsResult.AnswerIsTopGroups | pkg/analytics/registry.go:268-280 | every answer, read off the rows: its lines are groups with their measures, by the first measure from the largest down and ties by key, and a group is left out only when the limit is reached by lines that all come before it |
| AnalyticsResult.Execute | pkg/analytics/registry.go:261-280 | such an answer exists for every compiled query |
| AnalyticsJoins.QueryDependsOnTenantOnly | pkg/analytics/registry.go:44-127 | for every dataset and compiled query, databases that agree on the tenant's rows give the same answer, whatever other tenants store in the driving or any joined table and in whatever order |
| AnalyticsJoins.SameStep | pkg/analytics/registry.go:52-54 | a left, inner or first-of-group join binds the same records for a tenant's row in both databases |
| AnalyticsJoins.RowsFollowDriving | pkg/analytics/registry.go:47-54 | with unique (tenant, id) keys the joined rows are the driving rows, in order and once each, less the orphans of inner joins; their number is that of the driving table if and only if there is no orphan |
| AnalyticsJoins.CountsAreDriving | pkg/analytics/registry.go:47-54 | for every compiled query, filtered and grouped as it may be, each count(*) in the answer is the number of the tenant's driving rows that carry the line's key and pass filters and time range |
| AnalyticsJoins.EveryGroupAnswered | pkg/analytics/registry.go:268-280 | every driving row the query asks for has its group in the answer, unless the limit cut it |
| AnalyticsJoins.TotalCount | pkg/analytics/registry.go:99-126 | an unfiltered count(*) on each of the three datasets is, said without joins, the number of the tenant's driving rows in the time range that are not deleted (for versions: whose document is not) |
| AnalyticsJoins.HitsOnce | pkg/analytics/registry.go:47-51 | a table with unique (tenant, id) has at most one partner for a row, and none if and only if no key matches |
| AnalyticsJoins.SameEarliest | pkg/analytics/registry.go:99-112 | the first assignee does not depend on the order in which assignees are stored |
| AnalyticsJoins.DocumentDims | pkg/analytics/registry.go:45-71 | a documents row shows the author by display name, else e-mail, else id, the workspace by name, else id, and the rest from the document |
| AnalyticsJoins.VersionDims | pkg/analytics/registry.go:72-96 | a versions row shows its document's class and workspace and its own author |
| AnalyticsJoins.TaskDims | pkg/analytics/registry.go:97-126 | a tasks row shows the person assigned first, whoever else is assigned |
| AnalyticsJoins.SourcesMatchRegistry | pkg/analytics/registry.go:44-127 | the modelled FROM clauses have exactly the datasets and dimensions the compiler accepts |
| IpLimiter.RateBound | pkg/middleware/ratelimit_ip.go:11-13 | for all settings, every trace with a non-decreasing clock and every interval, one key's allowed calls number at most burst + rate * length, plus less than one nanosecond's refill for each cleanup in the interval when the settings are inexact |
| IpLimiter.RateBoundIff | pkg/middleware/ratelimit_ip.go:26-37 | the limiter as it ships, with its cleanup, keeps to burst + rate * length on every trace and interval if and only if the settings are exact; otherwise there is a trace that breaks it |
| IpLimiter.ForgetCredit | pkg/middleware/ratelimit_ip.go:90-110 | a cleanup never takes tokens from a key and gives it at most that slack |
| IpLimiter.SaneNext | pkg/middleware/ratelimit_ip.go:69-88 | every event keeps all buckets between empty and full |
| IpLimiter.RetryExact | pkg/middleware/ratelimit_ip.go:67-88 | a refused client is allowed after w if and only if the refill makes a whole token; less than the reported wait never is, more always is |
| IpLimiter.ReportedWaitTooShort | pkg/middleware/ratelimit_ip.go:80-84 | for every setting, a client that has spent its burst and waits exactly the reported time is allowed if and only if the rate divides the window's nanoseconds |
| IpLimiter.CleanupLosslessIff | pkg/middleware/ratelimit_ip.go:90-110 | cleanup never changes an answer if the settings are exact, and otherwise there is a trace on which it does |
| IpLimiter.ExactSettings | pkg/middleware/ratelimit_ip.go:93-97 | exact means: filling takes at most sixty seconds, or a whole number of nanoseconds |
| IpLimiter.Limiter.Allow | pkg/middleware/ratelimit_ip.go:67-88 | the answer, the new bucket and the reported wait |
| IpLimiter.Limiter.Cleanup | pkg/middleware/ratelimit_ip.go:93-110 | forgets exactly the buckets idle for the limit |
| KeyManager.SplitOnSlash | pkg/crypto/kms.go:173-184 | the byte loop is the split at slashes, of which join is the inverse |
| KeyManager.TenantAliasUsesGlobalMaster | pkg/crypto/kms.go:136-161 | every version of a tenant alias derives, and from the global master, whatever regions are configured |
| KeyManager.RegionalAliasUsesRegion | pkg/crypto/kms.go:136-161 | a regional alias, of any version, derives from its region's master, from the global one when no regions are configured, and not at all when its region is unknown |
| KeyManager.OneAliasOpens | pkg/crypto/kms.go:195-283 | an envelope opens under at most one alias |
| KeyManager.AliasInjective | cmd/dms-admin/kms.go:196-229 | different versions have different aliases |
| KeyManager.LocalKeyManager.PickMaster | pkg/crypto/kms.go:144-161 | the region's master for a regional alias, an error for an unknown region, the global one otherwise |
| KeyManager.LocalKeyManager.DeriveKEK | pkg/crypto/kms.go:195-221 | cached or not, the result is the derivation, and every cached key stays equal to its derivation |
| KeyManager.LocalKeyManager.EncryptDataKey | pkg/crypto/kms.go:245-266 | seals under the derived key and keeps the cache right |
| KeyManager.LocalKeyManager.DecryptDataKey | pkg/crypto/kms.go:268-283 | opens only what the derived key sealed and keeps the cache right |
| TenantKeys.RotationKeepsDataReadable | cmd/dms-admin/kms.go:182-229 | in every interleaving of create, rotate, upload and re-wrap the versions are 1..n without gaps, exactly n is live, and every blob unwraps to its original key |
| TenantKeys.NothingRemoved | cmd/dms-admin/kms.go:196-229 | from any reachable state on, no alias is removed or changed and no blob's key is replaced |
| TenantKeys.KeyNeverGoesBack | services/storage/internal/service/rewrap.go:149-160 | in every interleaving a blob keeps its wrapping or moves to a later key version, never back, even when a slow re-wrap meets a rotation and a faster one |
| TenantKeys.RotateKeepsLadder | cmd/dms-admin/kms.go:197-229 | a rotation that lost a race changes nothing; the winner adds exactly the next version |
| TenantKeys.RewrapWriteKeeps | services/storage/internal/service/rewrap.go:126-160 | whatever the wrapping backend returns, a stored re-wrap opens to the key it replaces |
| TenantKeys.PlanAgrees | cmd/dms-admin/kms_rewrap.go:126-138 | on the tenant's own aliases the plan's pattern and the service's character test agree: planned if and only if not regional and off the target |
| TenantKeys.RegionalIsNotPlanned | services/storage/internal/service/rewrap.go:169-180 | a regional alias of the tenant is never planned |
| TenantKeys.CallMoves | services/storage/internal/service/rewrap.go:84-161 | the service's three steps on a planned blob move it to the live alias under its original data key and change nothing else |
| TenantKeys.Rewrapper.Pass | cmd/dms-admin/kms_rewrap.go:82-104 | a command run is a protocol run towards the live alias, refused when there is none; counts add up to the selection, pending shrinks by at least the number done (exactly, without failures) |
| TenantKeys.Rewrapper.RepeatUntilDone | cmd/dms-admin/kms_rewrap.go:82-104 | from any state the invariant allows, successful runs with a positive limit are a protocol run that ends with every non-regional blob on the live alias, after exactly the rounded-up quotient of runs |
| UploadQueue.ReplayDoesNotDuplicate | mobile/store/queue.ts:131-187 | in every run, with enqueues, retries, kills, lost replies and failed queue writes between any two steps, the server holds exactly a job's recorded blob and document plus those it made unrecorded, so at most one of each when all were recorded; attempts stay within the cap, and no job disappears: it is done, stalled for the user to retry, or active |
| UploadQueue.UnrecordedBlobTwice | mobile/api/upload.ts:94-97 | the condition is needed: from every reachable idle state and for every job without a blob, one unrecorded store and a retry put a second blob on the server |
| UploadQueue.UnrecordedDocumentTwice | mobile/api/upload.ts:101-106 | the same for documents, of every job whose blob is stored |
| UploadQueue.ActiveIsClaimable | mobile/store/queue.ts:115-129 | an active job is claimed by the next drain, except that one left uploading by a kill waits until its claim is stale |
| UploadQueue.EnqueueExact | mobile/store/queue.ts:67-80 | a new job is pending with nothing tried or made, and no other row changes |
| UploadQueue.StartExact | mobile/store/queue.ts:84-148 | a drain starts only online and only when none is running, and visits exactly the jobs neither done, stalled nor out of attempts, in id order |
| UploadQueue.EndExact | mobile/store/queue.ts:138-187 | it ends only when all of them have been visited |
| UploadQueue.StepExact | mobile/store/queue.ts:168-183 | a failed step costs one attempt and nothing else, the fifth failure stalls the job, and the last step marks it done |
| UploadQueue.StepKeeps | mobile/store/queue.ts:109-187 | every step keeps rows, server and snapshots in agreement and removes no row |
| UploadQueue.Store.ClaimJob | mobile/store/queue.ts:115-129 | claims exactly pending, failed or abandoned jobs |
| UploadQueue.Store.BlobStep | mobile/api/upload.ts:75-98 | stores the bytes unless a blob is on record, and records it before going on |
| UploadQueue.Store.DocumentStep | mobile/api/upload.ts:101-106 | creates the document unless one is on record, and records it before going on |
| UploadQueue.Store.DrainJob | mobile/store/queue.ts:150-185 | one round of the loop is the protocol's four steps; it succeeds exactly when each missing step does |

## Left out

- Outbox: the order in which a claim returns due rows (any due, unlocked rows may be claimed), message contents on the wire, metrics, and the broker's own deduplication; delivery is at least once, not exactly once.
- Backoff: 64-bit wrap-around; the bound on intermediate values shows there is none while base and cap are below 2^62 nanoseconds.
- Idempotency: response headers, the capture writer, row-level security, and the clock difference between database and server.
- Sync: the delta pull (pages, cursor, renames as tombstones), symlinks and their guards, case-insensitive file systems, a failing scan (it ends the cycle before any action), a mirror root itself named ".git", and races between scan and apply. Paths are lists of proper segments, and a file's hash is its content.
- SyncApply.NoUnsyncedEditLost: a later conflict on the same path may overwrite an earlier conflicted copy, and bytes count as safe once the server has stored them.
- SyncPaths: Windows path rules; the reserved-name comparison folds ASCII case only, which suffices because the compared prefix has as many bytes as the ASCII state file name.
- AnalyticsCompile: SQL text. Dimension expressions are read off the joined records, and the date texts of a timestamp are a parameter.
- AnalyticsResult.AnswerDependsOnTenantOnly: aggregates are any functions of a group's bag of rows, and the database's order on group keys is any strict total order.
- IpLimiter: floating-point rounding (tokens are exact reals), the Retry-After header, and the lock, since calls are serialised.
- KeyManager: AWS and Vault managers, base64 and length checks, and the cryptography itself.
- TenantKeys: other tenants, regional re-wraps and scheduled key deletion; blobs carry aliases of the tenant's own, and rotations or uploads during a run of the re-wrap command are covered by the protocol but not by its counts.
- UploadQueue: several processes sharing the queue, and repeated versions of one document when a version step is retried.
- License, session, CSRF, region and configuration checks, e-sign adapters, the Redis limiter and the user interface: single-branch decisions or input and output.
