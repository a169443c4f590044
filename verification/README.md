# sepp: the durable queue behind the committer

sepp keeps jobs in eleven keyspaces on disk and a set of in-memory indexes over them. One
committer thread applies fifteen kinds of operation to both sides together, many operations to a
transaction, and then either commits and wakes waiting workers or drops everything and reads the
indexes back. This project models that core in Dafny and proves what its users rely on: the two
sides never drift apart, a lease is held by one worker at a time, attempts count 1, 2, 3, ... up
to the limit, a job is never lost, an idempotency key enqueues once, depth caps hold, a deleted
queue drains, a cycle lands whole or not at all, and no wake-up is lost.

The files build on one another:

- `Bytes`, `Keys`, `Listing`: byte strings, the order-preserving key encodings of `src/keys.rs`,
  and what iterating an ordered map yields.
- `Encoding`, `ByteIndex`: every key a run can store is one the encoding orders correctly, so the
  ordered maps over bytes find exactly the keys the machine picks.
- `Machine`: every job, dead letter, dedup record and tombstone once, and sixteen per-job moves.
- `Ops`: each operation as a plan, the moves it makes in a state and what its caller is told.
- `Legality`: every move of every plan is enabled when its turn comes.
- `Lifecycle`, `Deliveries`, `Scheduling`, `Admission`, `Deletion`, `Sweeping`: theorems over whole runs.
- `Promises`, `BatchPromises`, `ReservePromises`, `LetterPromises`, `KeyPromises`, `PurgePromises`,
  `SweepPromises`: for every operation, the answer and the whole new state said outright from the fields
  of the old state, without plans, moves or the helpers that make them. `WaitPromises`, `CyclePromises`:
  what follows over runs for delayed jobs and held leases, and which queues a cycle wakes.
- `Rows`, `Reachable`: the keyspaces and indexes as projections of the machine, kept so by every move.
- `Tables`, `Writes`, `Lockstep`, `Engine`: the index classes with their counters and the
  committer's `apply_*` methods, which write rows and indexes step by step; each is proved to carry
  out exactly its operation's plan.
- `Committer`, `Traffic`, `Handler`: cycles, faults, commits, rollback and restart; other callers'
  cycles around an operation and their operations beside it; the admin handler that deletes a queue
  among them.
- `Wakeup`: long-polling reserves in every interleaving with the committer.
- `Cursor`, `Policy`, `Requests`: paging, limits resolved before an operation is proposed, times on
  the wire and batch slots.

What the code assumes of its callers is written as preconditions. `Legality.BatchOk`: job ids are fresh
and `max_attempts` is at least 1 (`Policy.PreparedInRange` derives the latter from the validated
configuration). `Encoding.OpFits`: the committer's clock is not negative and fits an i64, queue names
fit the u16 length prefix, and `scheduled_at` is an i64 of any sign; only the byte-level results need it.

Where a property fails, a lemma shows it and another says when it holds:

- Negative times break the key order (`Keys.NegativeTimesSortLast`); the order is right exactly when
  both times have the same sign (`Keys.TimerOrderExact`). No run stores one: `now_ms` is never negative
  and a `scheduled_at` in the past is not stored (`Encoding.EveryStoredKeyIsEncodable`).
- At the last representable instant a dead letter that is not due still wakes the committer
  (`Sweeping.SaturatedWakeFindsNothing`, with `Sweeping.WakesWhenDue` the exact condition).
- A refusal is answered before its cycle commits and can outlive a rollback
  (`Committer.RefusalCanOutliveItsCycle`). It is the committed state's answer exactly when that state
  has the grounds for it (`Committer.RefusalTrueExactly`), and one that is not has its cause earlier in
  the cycle, a lease begun or ended there (`Committer.UntrueRefusalHasCause`).
- An audit walk with a page limit of 0 ends at once and shows nothing (`Cursor.WalkAudit`).
- Milliseconds below -9223372036854775000 do not survive a timestamp (`Requests.TimestampRoundTrip`).

Requeueing resets the attempt to 1 and checks neither the cap nor the tombstone, so fencing is
stated per life of a job and the cap for runs without requeues into the queue. `resync` keeps the
old indexes when the rebuild itself fails; the rebuild is taken to succeed.

## Model

| member | source | states |
|---|---|---|
| `Keys.EncodeOrder` | src/keys.rs:93-162 | Comparing two encoded keys of a keyspace byte by byte is comparing their meanings: queue, priority descending, enqueue time, id; or deadline first for timers |
| `Keys.ReadyOrder` | src/keys.rs:108-124 | Within a queue ready keys order by priority descending, then enqueue time, then id |
| `Keys.TimerOrder` | src/keys.rs:143-154 | Keys of a timer keyspace order by deadline first |
| `Keys.KeyOrder` | src/keys.rs:93-162 | The key order is a strict total order, so an ordered map has one listing |
| `Keys.NegativeTimesSortLast` | src/keys.rs:24-27 | Signed big-endian bytes put every negative time after every non-negative one, against the logical order |
| `Keys.TimerOrderExact` | src/keys.rs:24-27 | For any two i64 deadlines the byte order is the logical order exactly when the signs agree |
| `Keys.RoundTrip` | src/keys.rs:115-162 | Every key decodes to what was encoded, a priority above 9 clamped, negative times included |
| `Keys.PrefixIsolation` | src/keys.rs:93-101 | A ready key starts with a queue's prefix if and only if it belongs to that queue |
| `Keys.RangeFindsQueueHead` | src/storage.rs:105-111 | The first key at or after a queue's prefix is the queue's next job, and lacks the prefix exactly when the queue has none |
| `Keys.EncodeReadyKey` | src/keys.rs:115-124 | The writer's steps produce the ready key's encoding |
| `Keys.EncodeTimerKey` | src/keys.rs:148-154 | The writer's steps produce the timer key's encoding |
| `Keys.DecodeReadyKey` | src/keys.rs:126-140 | The reader's steps decode a ready key and reject every truncated or malformed input |
| `Keys.KeyWriter.Prefixed` | src/keys.rs:30-35 | Appends the u16 length and then the bytes, nothing else changes |
| `Keys.KeyReader.TakeBytes` | src/keys.rs:57-61 | Advances by n and returns those bytes, or fails without moving when fewer are left |
| `Encoding.StepFits` | src/keys.rs:24-35 | A move that brings in encodable times and names keeps every stored key encodable |
| `Encoding.PlanFits` | src/storage.rs:833-951 | Every move of every operation under the committer's clock does, whatever the state |
| `Encoding.RunsFit` | src/storage.rs:40-45 | So does any run of operations |
| `Encoding.InsertFits` | src/storage.rs:1293-1320 | Only a scheduled_at after now becomes a key, so one before the epoch never does |
| `Encoding.EveryStoredKeyIsEncodable` | src/storage.rs:40-45 | After any run on a new database every key of the five ordered keyspaces is one whose byte order is its logical order |
| `ByteIndex.FirstIsLeast` | src/storage.rs:173-175 | The first encoded key of a keyspace is the encoding of the least key |
| `ByteIndex.BytesListKeysInOrder` | src/storage.rs:177-179 | Any ascending enumeration of the encoded keys is the encoding of the keys in key order |
| `ByteIndex.RangeHeadIsLeast` | src/storage.rs:105-111 | The first byte key at or after a queue's prefix, if it has the prefix, encodes the queue's least key; otherwise the queue has none |
| `ByteIndex.ByteReady.PopFront` | src/storage.rs:105-119 | Ranging over bytes takes out exactly the queue's least key with its attempt, and finds nothing only if the queue has nothing |
| `ByteIndex.ByteTimers.Earliest` | src/storage.rs:173-175 | The deadline read from the first byte key is the least key's deadline |
| `ByteIndex.ByteTimers.PopDue` | src/storage.rs:161-171 | Takes out exactly the least key if its deadline is due, and otherwise no key is due |
| `ByteIndex.ByteTimers.PopAllDue` | src/storage.rs:2335-2341 | A phase's pops take exactly the encodings of the first budget due keys, in order |
| `ByteIndex.PeekStartsOnDisk` | src/storage.rs:1662-1677 | The byte range a ready peek starts from holds the encodings of the keys the walk starts from |
| `ByteIndex.NextKeyOnDisk` | src/storage.rs:1376-1392 | In a state that fits, the range finds a key exactly when the queue has a ready job, and it decodes to the machine's next key |
| `ByteIndex.EarliestOnDisk` | src/storage.rs:573-588 | In a state that fits, the first byte key of each timer keyspace is the machine's earliest timer, deadline included |
| `ByteIndex.ReserveReadsDisk` | src/storage.rs:1376-1484 | A reserve that decodes its jobs from byte ranges makes the plan of the logical order |
| `ByteIndex.ReserveFromDiskExact` | src/storage.rs:1376-1484 | After any run on a new database, reading byte keys, it returns exactly the first min(max_jobs, available) jobs, queue by queue in listed order |
| `Machine.StepInv` | src/storage.rs:833-951 | Every move keeps live and dead ids apart, attempts within 1..max_attempts and every id accounted for |
| `Machine.RunInv` | src/storage.rs:833-951 | The invariant holds after any run of moves |
| `Machine.StepFrame` | src/storage.rs:833-951 | A move about one job leaves every other job and dead letter as it was |
| `Machine.NewReadyAllComplete` | src/storage.rs:782-788 | Every queue a run leaves with a ready job had one before or is in new_ready |
| `Legality.PlanLegal` | src/storage.rs:833-951 | In every state, every move an operation makes is enabled when its turn comes: the missing-row branches are unreachable |
| `Legality.HistoryLegal` | src/storage.rs:833-951 | Any run of operations is a legal run of moves between the same states |
| `Legality.PlanKinds` | src/storage.rs:833-951 | Which kinds of move each operation can make, and on which clock |
| `Legality.EnqueueLegal` | src/storage.rs:1122-1172 | Batch inserts stay fresh: only ids of the batch become used |
| `Lifecycle.PhaseNeverGoesBack` | src/storage.rs:2176-2215 | Within one life a job's attempt and lease phase never goes back and a job that left does not return |
| `Lifecycle.StaleAttemptRejected` | src/storage.rs:1489-1505 | Once an attempt is over, after any operations that do not requeue the job, every ack, nack or extend naming it is rejected and changes nothing |
| `Lifecycle.EndedLeaseIsPast` | src/storage.rs:2163-2166 | Whatever ends a lease makes its attempt past |
| `Lifecycle.LeaseIsExclusive` | src/storage.rs:1363-1487 | Between two lease moves of a job there is a nack naming the first attempt, an expiry at or after the lease's current end, or a requeue |
| `Lifecycle.HeldUntilHandedBack` | src/storage.rs:2254-2307 | Until handed back a lease stands over any run, extended or not, unless the job is gone for good |
| `Lifecycle.AttemptsCountUp` | src/storage.rs:2176-2215 | In one life the attempts leased are 1, 2, 3, ... without gaps and at most max_attempts |
| `Lifecycle.IdentityNeverChanges` | src/storage.rs:1564-1599 | Queue, type, payload, priority, attempt limit, custom fields and trace never change, dead-lettering and requeueing included |
| `Lifecycle.KeepsPlaceInLine` | src/storage.rs:2215-2237 | However often a job is retried, rescheduled or redelivered it has the ready key it started with |
| `Lifecycle.NothingIsLost` | src/storage.rs:833-951 | With letters kept, a job nobody acks, purges or drains is live or a dead letter after any run |
| `Lifecycle.DeadLetterThenRequeue` | src/storage.rs:1769-1811 | Dead-letter then requeue restores the job as submitted on attempt 1 and leaves the dead-letter store as it was |
| `Lifecycle.BooksBalance` | src/storage.rs:833-951 | Over every legal run live jobs are inserts plus requeues less acks, failures and purges; dead letters are kept failures less requeues and removals |
| `Deliveries.AnsweredDeliveries` | src/storage.rs:854-861 | The deliveries spoken of are those of the reserve's answer |
| `Deliveries.DeliveredIsLeased` | src/storage.rs:1409-1480 | A delivered job was ready and is leased afterwards under the delivered attempt and expiry |
| `Deliveries.DeliveryIsExclusive` | src/storage.rs:1363-1487 | Once a reserve has answered a job, no later reserve of any run answers it again unless in between the attempt was nacked, a sweep came at or after the current expiry, or the job was requeued |
| `Deliveries.HeldOverOps` | src/storage.rs:2254-2307 | Over any run of operations without such a hand-back the lease stands, or the job is gone |
| `Deliveries.AttemptsAreAnswered` | src/storage.rs:1363-1487 | The attempts leased along a run are the attempts its reserves answer, in order |
| `Deliveries.DeliveriesCountUp` | src/storage.rs:2176-2215 | In one life the attempts callers are answered are 1, 2, 3, ... without gaps, at most max_attempts of them |
| `Scheduling.ReserveExact` | src/storage.rs:1376-1484 | A reserve returns exactly the first min(max_jobs, available) jobs: queues in listed order, most urgent then oldest first |
| `Scheduling.ReserveLeasesWhatItReturns` | src/storage.rs:1376-1484 | The leases made are those of the jobs returned, in order, with the returned expiry |
| `Scheduling.EmptyReserve` | src/storage.rs:1376-1484 | An empty answer to a request for at least one job means every listed queue is empty |
| `Admission.EnqueueRespectsCap` | src/storage.rs:1148-1157 | Jobs admitted earlier in a batch count: the queue never passes its cap inside or after the batch |
| `Admission.AtomicRespectsCap` | src/storage.rs:1203-1230 | An atomic batch that commits leaves the queue at or under its cap |
| `Admission.CapHolds` | src/storage.rs:1148-1157 | In any run under a fixed cap without requeues into the queue, a queue at or under its cap stays there |
| `Admission.AtomicMatchesBestEffort` | src/storage.rs:1174-1243 | A rejected atomic batch changes nothing; a committed one has the state and answers of best-effort enqueue of the same jobs |
| `Admission.PinHolds` | src/storage.rs:2517-2538 | A dedup record outlives every run that stays before its deadline and does not purge it |
| `Admission.DuplicateAnswered` | src/storage.rs:1080-1120 | While a key is pinned, a job carrying it in a best-effort batch is refused for a closing queue or answered with the first id, and adds no move |
| `Admission.DuplicateInAtomicBatch` | src/storage.rs:1232-1242 | In an admitted atomic batch it is answered with the first id and adds no move |
| `Admission.PinnedInsertsNothing` | src/storage.rs:1080-1120 | While a key is pinned no batch of either kind inserts anything under it |
| `Admission.InsertPins` | src/storage.rs:1322-1351 | An inserted keyed job pins its key to its id until now plus the window |
| `Admission.AcceptedPins` | src/storage.rs:1322-1351 | A keyed job answered as new, in a batch of either kind, leaves its key pinned to its id whatever the rest of the batch did |
| `Admission.AnswersAreThePlans` | src/storage.rs:1122-1243 | The answers spoken of are those of the operation's outcome, job by job |
| `Admission.OnceOverRuns` | src/storage.rs:1080-1120 | Once a key is pinned, after any run before the deadline that does not purge the queue, every enqueue of it, atomic or not, returns the first id or is refused, and inserts nothing under it |
| `Admission.ExactlyOnce` | src/storage.rs:1080-1120 | End to end: from an accepted keyed job of either kind of batch, through any run before the deadline that does not purge the queue, every duplicate gets that job's id or a refusal and inserts nothing |
| `Deletion.OpNeverGrowsClosing` | src/storage.rs:1134-1143 | While the tombstone stands no operation of any kind increases what the queue owns |
| `Deletion.RunNeverGrowsClosing` | src/storage.rs:1134-1143 | The same over any run of operations |
| `Deletion.PurgeChunk` | src/storage.rs:2023-2115 | A chunk is refused only for leases; otherwise it removes exactly what it counts, at least one thing while there is any, and remaining is false exactly when the queue owns nothing |
| `Deletion.PurgeLeavesOthers` | src/storage.rs:2038-2098 | A chunk leaves every other queue's jobs, letters and dedup records alone |
| `Deletion.CloseRefreshes` | src/storage.rs:1989-2006 | Closing sets the tombstone to now plus the grace and changes nothing the queue owns |
| `Sweeping.WakesWhenDue` | src/storage.rs:573-588 | next_deadline is reached exactly when a sweep has something due, except for kept letters at the last instant |
| `Sweeping.SaturatedWakeFindsNothing` | src/storage.rs:573-588 | The exception is real: enqueue, reserve and reject at the last instant reach a state whose wake finds nothing due |
| `Sweeping.SweepTakesTheEarliest` | src/storage.rs:2332-2558 | Each phase handles exactly the min(budget, due) earliest entries of the starting state and makes nothing newly due |
| `Sweeping.SweepProgress` | src/storage.rs:2332-2558 | A sweep with budget and something due strictly lowers the number of due entries |
| `Sweeping.SweepToRest` | src/storage.rs:644-655 | Sweeping over and over at one instant comes to rest with nothing due |
| `Sweeping.PromotePhase` | src/storage.rs:2335-2407 | Promotion takes exactly the chosen scheduled keys away and touches no lease, letter, record or tombstone |
| `Sweeping.ExpirePhase` | src/storage.rs:2409-2515 | Expiry takes exactly the chosen leases away; new letters all fail now |
| `Sweeping.ForgetPhase` | src/storage.rs:2517-2538 | Dedup expiry takes exactly the chosen records away |
| `Sweeping.RetirePhase` | src/storage.rs:2540-2558 | Retention takes exactly the chosen letters away |
| `Promises.EnqueueOneDoes` | src/storage.rs:1122-1172 | One enqueued job: refused while its queue's tombstone stands, answered with the first id while its key is remembered, refused at its cap, and otherwise stored with its queue, body and times, in line or scheduled at its time if that is after now, its key remembered for its window, and nothing else changed |
| `Promises.StaleRefused` | src/storage.rs:1489-1525 | An ack, nack or extend of a job that is not leased answers not found, one under another attempt a mismatch, and neither changes anything |
| `Promises.AckDoes` | src/storage.rs:1489-1525 | An ack of a held lease removes the job, answers its queue and changes nothing else |
| `Promises.ExtendDoes` | src/storage.rs:2254-2307 | An extend of a held lease moves its expiry to min(now + max(lease, 1), i64::MAX) under the same attempt, answers that and the queue, and changes nothing else |
| `Promises.NackRetries` | src/storage.rs:2215-2252 | A nack with attempts left schedules the next attempt at min(now + delay, i64::MAX), or puts it in line at once for delay 0, answers the queue and the delay, and changes nothing else |
| `Promises.NackFails` | src/storage.rs:2176-2213 | A rejected or exhausted job is gone and answered as dead-lettered; its letter, with the clock, attempt, reason and cause of this nack, is kept exactly when letters are |
| `Promises.CloseDoes` | src/storage.rs:1989-2006 | A close sets the tombstone to now plus the grace, saturating, and nothing else |
| `Promises.OpenDoes` | src/storage.rs:2008-2021 | An open removes the tombstone, if there is one, and nothing else |
| `Promises.AuditDoes` | src/storage.rs:2563-2595 | An audit append adds the record with the operation's clock at the end and answers its number |
| `BatchPromises.BatchIsOneByOne` | src/storage.rs:1130-1172 | A best-effort batch answers and does what its jobs would as single enqueues one after another |
| `BatchPromises.AtomicRejects` | src/storage.rs:1174-1230 | An atomic batch is rejected if and only if a queue it names is closing or has depth plus its jobs in the batch over the cap its first job carries; the errors are exactly the indices of the first failing check, ascending, each with its queue and cap, and nothing changes |
| `BatchPromises.AtomicCommits` | src/storage.rs:1232-1242 | Any other atomic batch answers and does what the same jobs without caps would |
| `BatchPromises.AcceptedIsStored` | src/storage.rs:1245-1360 | A job answered as new in a batch of either kind is live afterwards as submitted: Scheduled(1, at) if its time is after now, else Ready(1) |
| `WaitPromises.ScheduledIsNotDelivered` | src/storage.rs:2335-2407 | Over any run, no reserve answers a scheduled job before a sweep whose clock is at or after its deadline, unless it was removed and requeued |
| `WaitPromises.DelayedJobWaits` | src/storage.rs:1293-1320 | So for a job accepted with a time after now, from its enqueue on |
| `WaitPromises.NackedJobWaits` | src/storage.rs:2215-2224 | So for a job nacked with a delay, until the delay is over |
| `WaitPromises.LeaseStands` | src/storage.rs:2409-2515 | Over any run, until an ack, nack or extend names the lease or a sweep's clock reaches its expiry, the leased job is untouched |
| `WaitPromises.ExtensionHolds` | src/storage.rs:2254-2307 | So for an accepted extend, for the whole time it grants |
| `ReservePromises.ReserveDoes` | src/storage.rs:1363-1487 | A reserve answers at most the number asked, queues in the order listed, in a queue by priority up to 9, enqueue time and id; short only when nothing is left in line; each job as stored with the lease until min(now + lease, i64::MAX); exactly those jobs change |
| `ReservePromises.DeliveryHolds` | src/storage.rs:1363-1487 | A delivered job stays as delivered over any run until its holder ends it or a sweep reaches the expiry |
| `LetterPromises.DrainDoes` | src/storage.rs:1602-1649 | A drain returns, oldest first and as stored, exactly the letters of the wanted queue with fewer than scan cap letters before them and fewer than max such before those; exactly they leave the store and nothing else changes |
| `LetterPromises.OlderFailedEarlier` | src/keys.rs:278-318 | The letters before another are those that failed no later |
| `KeyPromises.KeysDo` | src/storage.rs:1730-1987 | Requeue, delete and dead-letter answer the jobs picked, count every other key as missing, requeue, drop or bury exactly those jobs with the fields the operation gives, and change nothing else |
| `KeyPromises.PickedAre` | src/storage.rs:1743-1753 | The jobs picked are exactly those of the operation's queue that some key names by their current row, none twice |
| `KeyPromises.BuryRefused` | src/storage.rs:1825-1953 | Dead-lettering leased or dead jobs is refused and changes nothing |
| `PurgePromises.PurgeDoes` | src/storage.rs:2023-2115 | A leased job of the queue refuses the chunk; otherwise min(max, owned) things go, those in line first, then scheduled jobs, letters and dedup records, each from the front of its order; the count is theirs, remaining holds exactly when more were owned, and nothing else changes |
| `SweepPromises.SweepDoes` | src/storage.rs:2310-2561 | A sweep puts exactly the due scheduled jobs in line, gives exactly the lapsed leases another attempt or a letter, forgets exactly the lapsed dedup records, drops the lapsed tombstones and retires exactly the letters past the cutoff, in each keyspace those with fewer than budget before them; it counts them and changes nothing else |
| `CyclePromises.OpWakesExactly` | src/storage.rs:833-951 | An operation adds a queue to new_ready exactly when it puts a job of it in line |
| `CyclePromises.CycleWakesExactly` | src/storage.rs:721-794 | A cycle wakes a queue exactly when one of its operations put a job of it in line |
| `CyclePromises.AnsweredAtOnce` | src/storage.rs:796-831 | Exactly an ack, nack or extend without the lease, a purge of a queue with a lease and a dead-lettering of jobs that do not wait are answered before the commit |
| `Rows.MoveMirrored` | src/storage.rs:833-951 | Every move's row and index writes keep disk and memory projections of the same state |
| `Rows.RebuildMatches` | src/storage.rs:248-306 | Whenever disk and memory mirror one state, the rebuild reads back exactly the index keys and values in memory |
| `Rows.RunMirrored` | src/storage.rs:248-306 | After any legal run the index keys and values kept in memory equal those a rebuild computes |
| `Rows.MirroredIsConsistent` | src/storage.rs:1245-1360 | Each job row is in exactly one of ready, scheduled and inflight; leases and inflight rows are in bijection; keys and inflight rows agree with the job row; payloads only for live jobs |
| `Rows.MirroredRecords` | src/storage.rs:1564-1599 | A dead-lettered id is not live and has one record; dedup records and timers are in bijection with equal deadlines |
| `Reachable.EveryReachableDatabase` | src/storage.rs:833-951 | After any acceptable run on a new database: rebuild equals memory key for key, and every keyspace is consistent |
| `Reachable.PurgedQueueLeavesNoRows` | src/storage.rs:2103-2114 | remaining = false means no keyspace holds a row of the queue |
| `Tables.BumpTallies` | src/storage.rs:75-77 | Counting an added key keeps every queue's counter the number of its keys |
| `Tables.DropTallies` | src/storage.rs:79-86 | Uncounting a removed key does, and an emptied queue loses its counter |
| `Tables.CountIs` | src/storage.rs:199-203 | A counter is the number of the queue's keys and absent exactly at zero |
| `Tables.TallyUnique` | src/storage.rs:248-306 | Equal keys have equal counters, so rebuilt counters are the old ones |
| `Tables.TalliedIs` | src/storage.rs:248-306 | Right counters are the ones a rebuild counts |
| `Tables.FindLeast` | src/storage.rs:161-171 | The least key of a set is found by comparing each once |
| `Tables.ListInOrder` | src/storage.rs:177-179 | Iterating the map lists its keys in order |
| `Tables.ReadyIndex.Insert` | src/storage.rs:95-103 | Adds or overwrites the key and keeps the counters right |
| `Tables.ReadyIndex.Front` | src/storage.rs:105-111 | The queue's least key with its attempt, or nothing exactly when it has none |
| `Tables.ReadyIndex.Remove` | src/storage.rs:125-136 | Removes the key if present and keeps the counters right |
| `Tables.ReadyIndex.Load` | src/storage.rs:248-260 | Reading rows back yields those keys with right counters, whatever was there |
| `Tables.TimerIndex.Insert` | src/storage.rs:146-152 | Adds the key under its queue and keeps the counters right |
| `Tables.TimerIndex.Remove` | src/storage.rs:154-159 | Removes the key if present and keeps the counters right |
| `Tables.TimerIndex.FirstDue` | src/storage.rs:161-171 | The earliest key if it is due, and nothing only when no key is due |
| `Tables.TimerIndex.FirstOfQueue` | src/storage.rs:2055-2063 | The queue's first n keys in order |
| `Tables.TimerIndex.Load` | src/storage.rs:262-289 | Reading rows back yields those keys with right counters |
| `Lockstep.CountersAddUp` | src/storage.rs:199-203 | live_depth, the sum of three counters, is the number of the queue's job rows |
| `Lockstep.CountWanted` | src/storage.rs:1203-1209 | Counts a batch's jobs per queue with the first job's cap |
| `Lockstep.ChooseWanted` | src/storage.rs:1611-1622 | The drain scan chooses the first max wanted letters among the first scan_cap |
| `Lockstep.IndexOwned` | src/storage.rs:183-196 | A queue's keys in each index are the queue's keys in the keyspace |
| `Engine.Engine.Settle` | src/storage.rs:480-488 | A move whose rows and index entries are written leaves everything in step and is recorded once |
| `Engine.Engine.MemoryIsRebuilt` | src/storage.rs:248-306 | In every valid state of the committer the indexes, their owning queues and all five sets of counters are exactly those a rebuild computes from the keyspaces |
| `Engine.Engine.CheckDedup` | src/storage.rs:1080-1120 | A hit exactly when the key is pinned, with the pinned id; else the stale record's timer if there is one |
| `Engine.Engine.InsertJob` | src/storage.rs:1245-1360 | Writes job, payload, ready or scheduled row, dedup record and timer, and the index entries, as one insert; what is stored is `Promises.EnqueueOneDoes` |
| `Engine.Engine.LiveDepth` | src/storage.rs:199-203 | The three counters give the number of the queue's jobs |
| `Engine.Engine.EnqueueJob` | src/storage.rs:1132-1168 | Closing before dedup before cap before insert, with the answer of each |
| `Engine.Engine.ApplyEnqueue` | src/storage.rs:1122-1172 | The loop carries out the best-effort plan with its answers in order |
| `Engine.Engine.FindClosing` | src/storage.rs:1184-1196 | The indexed closing refusals of a batch |
| `Engine.Engine.FindOverfull` | src/storage.rs:1211-1218 | The queues the batch would overfill, with their caps, as `BatchPromises.AtomicRejects` counts them |
| `Engine.Engine.FindFull` | src/storage.rs:1220-1230 | The indexed full refusals of a batch |
| `Engine.Engine.InsertBatch` | src/storage.rs:1232-1242 | The insert loop of an admitted batch |
| `Engine.Engine.ApplyEnqueueAtomic` | src/storage.rs:1174-1243 | Carries out the atomic plan: all refusals of the first failing check and no change, or every insert |
| `Engine.Engine.LeaseJob` | src/storage.rs:1409-1480 | Leases one ready job and puts its delivery together from its rows |
| `Engine.Engine.ReserveNext` | src/storage.rs:1387-1480 | Leases the queue's next job, or nothing exactly when it has none |
| `Engine.Engine.ApplyReserve` | src/storage.rs:1363-1487 | The nested loops carry out the reserve plan and return its deliveries |
| `Engine.Engine.ApplyAck` | src/storage.rs:1489-1525 | Carries out the fenced ack |
| `Engine.Engine.ApplyNack` | src/storage.rs:2148-2252 | Carries out the fenced nack: dead-letter, retry later or retry now, as `Promises.NackRetries` and `Promises.NackFails` say |
| `Engine.Engine.FailLeased` | src/storage.rs:2176-2213 | A leased job's end: letter kept or dropped, all its rows gone |
| `Engine.Engine.RetryLater` | src/storage.rs:2215-2224 | Back on the next attempt under a timer |
| `Engine.Engine.RetryNow` | src/storage.rs:2225-2241 | Back on the next attempt under its old ready key |
| `Engine.Engine.ApplyExtend` | src/storage.rs:2254-2307 | Carries out the fenced extend of `Promises.ExtendDoes`: inflight row and lease timer move together |
| `Engine.Engine.StoreDeadLetter` | src/storage.rs:1564-1599 | Letter row and index entry together, or neither when letters are not kept |
| `Engine.Engine.ApplyDrain` | src/storage.rs:1602-1649 | Carries out the drain of `LetterPromises.DrainDoes`: exactly the chosen letters go and are returned |
| `Engine.Engine.Requeue` | src/storage.rs:1769-1811 | Carries out one requeue from the stored letter |
| `Engine.Engine.BuryWaiting` | src/storage.rs:1896-1945 | Dead-letters one ready or scheduled job on its stored attempt |
| `Engine.Engine.ApplyKeys` | src/storage.rs:1743-1823 | The key loops carry out their plan; a stale key only counts as missing |
| `Engine.Engine.ApplyKey` | src/storage.rs:1847-1987 | One key of a requeue, delete or dead-letter request |
| `Engine.Engine.ApplyClose` | src/storage.rs:1989-2006 | Tombstone row and closing map together |
| `Engine.Engine.ApplyOpen` | src/storage.rs:2008-2021 | Removes both, and does nothing when there is no tombstone |
| `Engine.Engine.PurgeReady` | src/storage.rs:2038-2052 | The pop loop purges the queue's first max ready jobs |
| `Engine.Engine.PurgeAll` | src/storage.rs:2038-2098 | The four purge phases share one budget and carry out the plan |
| `Engine.Engine.DepthCounts` | src/storage.rs:205-212 | Each counter is the number of the queue's keys in its keyspace |
| `Engine.Engine.Occupied` | src/storage.rs:2031-2033 | Leases and leftovers told from the counters alone |
| `Engine.Engine.ApplyPurge` | src/storage.rs:2023-2115 | Carries out the purge chunk with its count and remaining |
| `Engine.Engine.SweepClosing` | src/storage.rs:2322-2330 | Drops exactly the expired tombstones |
| `Engine.Engine.SweepScheduled` | src/storage.rs:2335-2407 | The promotion loop carries out its phase |
| `Engine.Engine.SweepLeases` | src/storage.rs:2409-2515 | The expiry loop carries out its phase |
| `Engine.Engine.SweepPins` | src/storage.rs:2517-2538 | The dedup loop carries out its phase |
| `Engine.Engine.SweepLetters` | src/storage.rs:2540-2558 | The retention loop carries out its phase |
| `Engine.Engine.ApplySweep` | src/storage.rs:2310-2561 | All phases, each on its own budget, and the number processed |
| `Engine.Engine.ApplyAudit` | src/storage.rs:2563-2595 | Appends under the next sequence number |
| `Engine.Engine.ApplyOp` | src/storage.rs:833-951 | Every operation moves rows, indexes, counters, dirty flag and new_ready exactly as its plan says and answers as it says |
| `Engine.Engine.Reload` | src/storage.rs:308-313 | From any wreck in memory the rebuild restores the indexes and counters of what is on disk |
| `Committer.MirrorIsUnique` | src/storage.rs:54-69 | A state has one set of keyspaces and one set of indexes |
| `Committer.Committer.RunOps` | src/storage.rs:728-830 | The commands of a cycle in order up to the first storage error, a look at depths answered from the cycle as it stands |
| `Committer.Committer.RunCycle` | src/storage.rs:721-791 | A cycle lands whole or leaves disk, indexes, counters and state as before; what every caller hears is exact, and nobody is told success unless it landed; a clean cycle writes nothing; exactly new_ready is woken |
| `Committer.Committer.Restart` | src/storage.rs:248-306 | After a crash at any point indexes and counters come back as those of the last committed cycle |
| `Committer.RejectedChangesNothing` | src/storage.rs:953-963 | A rejected operation makes no move |
| `Committer.RefusalCanOutliveItsCycle` | src/storage.rs:953-963 | A refusal is sent before its cycle lands and can speak of a state that never comes to be |
| `Committer.RefusalTrueExactly` | src/storage.rs:953-963 | A refusal is the committed state's answer exactly when that state has its grounds: no lease, a lease under another attempt, a lease in the queue; an invalid state always is |
| `Committer.UntrueRefusalHasCause` | src/storage.rs:953-963 | One that is not has its cause earlier in the cycle: the job's lease ended there, one begun there, or a lease of the queue begun there |
| `Committer.RefusalTrueIfUntouched` | src/storage.rs:953-963 | A refused ack, nack or extend is the committed state's answer when nothing earlier in the cycle touched its job |
| `Committer.RefusalIsTrueUnlessWrittenBefore` | src/storage.rs:953-963 | With nothing written before it in the cycle every answer is the committed state's |
| `Traffic.FreshAcceptable` | src/op.rs:169-176 | Operations with fresh ids are acceptable wherever and in whatever selection they run |
| `Traffic.QuietCycle` | src/storage.rs:1134-1143 | A cycle on clocks before the tombstone's end, landing or not, keeps the tombstone and never grows the queue |
| `Traffic.RideParts` | src/storage.rs:735-747 | An operation in company is applied in the state the ones before it leave |
| `Handler.Submit` | src/storage.rs:3157-3173 | An operation shares its cycle with any others, before and after it; its caller hears the outcome it had there, a refusal at once and anything else once the cycle landed |
| `Handler.CheckDeletable` | src/admin/routes.rs:314-332 | Refuses for leases, or without purge for ready, scheduled or dead jobs, told from the exact counters of the cycle it is answered in, landing or not |
| `Handler.LookAtLastIsTrue` | src/storage.rs:814-826 | Depths read last in a cycle that lands are those of the committed state |
| `Handler.PurgeTurn` | src/admin/routes.rs:335-349 | Cycles of others, the chunk in company, cycles of others: exactly what was answered, taken and left |
| `Handler.DrainTurn` | src/admin/routes.rs:335-352 | One turn of the loop: the chunk and, if more remains, the refreshed tombstone |
| `Handler.DrainQueue` | src/admin/routes.rs:313-354 | With any cycles of others in every gap, any company in every cycle, and each landing or not, the loop ends; deleted means the queue owns nothing and no keyspace holds a row of it; every refusal is told from a state it was seen in |
| `Handler.DeleteQueue` | src/admin/routes.rs:356-387 | Close, look, drain, open, in the same traffic: a queue reported deleted has no row on disk and still owns nothing when the open is applied; the tombstone is cleared whatever the outcome if the open's cycle lands |
| `Committer.StampOverrides` | src/op.rs:90-114 | A stamped operation goes by the cycle's clock reading, whatever its proposer put in, and is otherwise as proposed; operations without a clock are left alone |
| `Wakeup.NoLostWakeup` | src/queue_server.rs:707-781 | In every interleaving a parked, unnotified reserve has no committed ready job in its queues, except queues the last commit is still to wake |
| `Wakeup.UnfoldOk` | src/storage.rs:2602-2648 | Every interleaving keeps waiters in touch with the map's notifiers and their view announced |
| `Wakeup.HoldOk` | src/storage.rs:2608-2621 | Getting a notifier, pruning first or not, never cuts a waiter off |
| `Wakeup.WakeOk` | src/storage.rs:2623-2627 | Waking a queue notifies every armed waiter on it |
| `Wakeup.AskOk` | src/queue_server.rs:707-722 | A reserve that comes back empty saw its queues empty after arming |
| `Wakeup.CommitOk` | src/storage.rs:782-788 | A commit leaves its new_ready to be woken before the next cycle |
| `Wakeup.QueueNotifiers.Get` | src/storage.rs:2608-2621 | Returns the queue's notifier; held entries survive pruning, and below the threshold nothing is pruned |
| `Cursor.PeekReady` | src/storage.rs:1660-1685 | A page of the leading keys under the prefix, with a cursor exactly if more follow |
| `Cursor.WalkReady` | src/storage.rs:1651-1685 | Following the cursor ends and lists the queue's ready keys once each, in order |
| `Cursor.LeadingIsMine` | src/storage.rs:1663-1677 | From the prefix or one of its own keys, the leading keys are exactly the queue's keys |
| `Cursor.PeekTimers` | src/storage.rs:1687-1728 | A page stops at a full page, at the examine cap or at the end, and its cursor says where |
| `Cursor.WalkTimers` | src/storage.rs:1687-1728 | Following the cursor, truncated pages included, ends and lists the queue's keys once each, in order |
| `Cursor.ListAudit` | src/storage.rs:2909-2949 | A page of the wanted entries among those scanned, and where it stopped |
| `Cursor.WalkAudit` | src/storage.rs:2909-2949 | Following next_before shows every wanted entry once, newest first, exactly when the limit is positive or there is nothing to show |
| `Policy.CappedIsIdeal` | src/storage.rs:2131-2141 | The saturating u64 computation equals min(cap, base * 2^(attempt-1)) over unbounded integers |
| `Policy.SatPowIs` | src/storage.rs:2134 | Saturating at each doubling is saturating once |
| `Policy.DelayGrows` | src/storage.rs:2125-2145 | Before jitter the delay never shrinks from one attempt to the next |
| `Policy.RetryDelayInRange` | src/storage.rs:2125-2145 | With jitter the delay lies in [c - c/4, c], never underflows, respects both ceilings, and is positive exactly when base and ceilings are |
| `Policy.ReadersProject` | src/queues.rs:73-111 | retry_policy and dedup_window_ms are projections of effective |
| `Policy.EffectiveOk` | src/config.rs:185-203 | Under a validated config every queue's limits are in range |
| `Policy.LeastLeaseIs` | src/queues.rs:54-58 | The floor is at most every ceiling and is one of them |
| `Policy.NackShortcutExact` | src/queues.rs:49-53 | any_retry_policy is down exactly when no queue and attempt can resolve to a delay |
| `Policy.DeclaredLimits` | src/config.rs:155-183 | Each limit of a queue is the one it declares, or the default; a queue that declares nothing has the defaults |
| `Policy.NackDelayIs` | src/storage.rs:3252-3277 | The delay of a nack is 0 without a leased job, what was asked up to the queue's horizon, or what the policy says: 0 without a base delay, else positive and within a quarter below the ideal |
| `Policy.NackShortcutRefines` | src/storage.rs:3252-3277 | Skipping the lookup never changes the delay, and no delay passes the queue's horizon |
| `Policy.ExtendShortcutExact` | src/storage.rs:3297-3310 | At or under min_max_lease_ms no queue's clamp changes a lease, above it some queue's does |
| `Policy.ExtendLeaseInRange` | src/storage.rs:3297-3323 | An extended lease is min(max(asked, 1), ceiling of the queue), shortcut or not |
| `Policy.ReserveLease` | src/queue_server.rs:668-685 | At least 1 ms, at most the request and every ceiling, and equal to one of them |
| `Policy.GrantLease` | src/queue_server.rs:668-685 | Under a validated config a granted lease lies in [1, ceiling] for every queue asked |
| `Policy.PreparedInRange` | src/op.rs:134-145 | A prepared job is the request as submitted, its attempts, priority, cap and dedup window from the right registry and in range |
| `Requests.TimestampRoundTrip` | src/pb.rs:14-28 | Milliseconds survive a timestamp exactly from -9223372036854775000 on |
| `Requests.DurationRoundTrip` | src/pb.rs:30-42 | Every u64 of milliseconds survives a duration |
| `Requests.SplitBatch` | src/queue_server.rs:409-431 | Valid jobs in order, and a slot per job holding its rejection if it has one |
| `Requests.MergeBatch` | src/queue_server.rs:438-455 | Every open slot gets the result of its own job |

## Left out

- Stored bytes of records: the machine keeps logical keys and records; key bytes are joined to it by `Encoding` and `ByteIndex`. Undecodable rows and keys do not occur, and a peeked key that no longer decodes is a key that is absent.
- Protobuf and UTF-8 coding of records, UUID generation and the jitter hash: opaque values; fresh ids are those outside `used`.
- fjall: a commit is atomic, applied or without effect; a failed persist is a crash.
- `resync` when the rebuild itself fails.
- The u64 overflow of the audit sequence number and of the notifier count.
- Metrics, tracing, admin totals and statistics frames: they do not affect state.
- gRPC and HTTP transport, TLS, sessions, keys and roles, config editing and watching, the admin UI.
- Request validation: used only as the source of preconditions; payload, custom-field and allow-list limits.
- `closing_key` and `audit_seq` inside one `meta` keyspace: two fields of the model's store.
- `ReadHandle` lookups: best-effort reads beside the committer.
- Liveness: that a woken waiter runs again, that a client retries, that clocks advance.
- Keys.DecodeReadyKey: does not check that the queue name and the id are UTF-8.
- Rows.RebuildMatches: speaks of index keys and values; counters are in `Engine.Engine.MemoryIsRebuilt`.
- Rows.RunMirrored: the same.
- Reachable.EveryReachableDatabase: the same.
- Lifecycle.LeaseIsExclusive: over moves; over operations and answers it is `Deliveries.DeliveryIsExclusive`.
- Lifecycle.AttemptsCountUp: over moves; over answers it is `Deliveries.DeliveriesCountUp`.
- Admission.DuplicateAnswered: best-effort batches; atomic ones are `Admission.DuplicateInAtomicBatch`.
- Admission.InsertPins: one move; the whole batch is `Admission.AcceptedPins`.
- Committer.RefusalIsTrueUnlessWrittenBefore: sufficient only; the exact condition is `Committer.RefusalTrueExactly`.
- Tables.TimerIndex.FirstDue: does not remove the key as `pop_due` does; the removal is part of the row writes that follow, so a key leaves its index and its keyspace in one step. Popping itself is `ByteIndex.ByteTimers.PopDue`.
- Tables.ReadyIndex.Front: does not remove the key as `pop_front` does, for the same reason; popping is `ByteIndex.ByteReady.PopFront`.
- Handler.DeleteQueue: other callers neither close nor open the queue meanwhile, since deletions hold one lock; the etag check before and the config edit and audit entry after the storage calls are not modelled.
- Shutdown and time-outs of a waiting reserve: a waiter that leaves.
