/** The committer's operations (src/op.rs) as plans: which moves an operation makes
    in a state, in order, and what its caller is told. */
module Ops {
  import opened Bytes
  import opened Keys
  import opened Listing
  import opened Machine

  /** An enqueue request with its pre-assigned id and resolved limits. */
  datatype Prepared = Prepared(id: Id, queue: Queue, body: Body, scheduledAt: Option<int>,
                               key: Option<Bytes>, dedupWindow: nat, cap: Option<nat>)

  datatype PeekState = PeekReady | PeekScheduled | PeekInflight | PeekDeadLetter

  datatype Op =
    | EnqueueOp(jobs: seq<Prepared>, now: int)
    | EnqueueAtomicOp(jobs: seq<Prepared>, now: int)
    | ReserveOp(queues: seq<Queue>, leaseMs: nat, maxJobs: nat, now: int)
    | AckOp(id: Id, attempt: nat)
    | NackOp(id: Id, attempt: nat, force: bool, reason: Option<Blob>, delay: nat, keep: bool, now: int)
    | ExtendOp(id: Id, attempt: nat, leaseMs: nat, now: int)
    | DrainOp(want: Option<Queue>, max: nat, scanCap: nat)
    | CloseOp(queue: Queue, now: int, grace: nat)
    | OpenOp(queue: Queue)
    | RequeueOp(queue: Queue, keys: seq<Key>, now: int)
    | BuryOp(queue: Queue, state: PeekState, keys: seq<Key>, reason: Option<Blob>, keep: bool, now: int)
    | DeleteOp(queue: Queue, keys: seq<Key>)
    | PurgeOp(queue: Queue, max: nat)
    | SweepOp(now: int, budget: nat, cutoff: Option<int>, keep: bool)
    | AuditOp(record: Blob, now: int)

  datatype Refusal = QueueClosing(queue: Queue) | QueueFull(queue: Queue, limit: nat)
  datatype EnqueueResult = Accepted(id: Id, deduplicated: bool) | Refused(reason: Refusal)
  datatype Delivery = Delivery(id: Id, job: Job)
  datatype Letter = Letter(id: Id, record: Dead)

  datatype Outcome =
    | Enqueued(results: seq<EnqueueResult>)
    | BatchCommitted(results: seq<EnqueueResult>)
    | BatchRejected(errors: seq<(nat, Refusal)>)
    | Reserved(jobs: seq<Delivery>)
    | Acked(queue: Queue)
    | Nacked(queue: Queue, deadLettered: bool, delay: nat)
    | Extended(queue: Queue, expiry: int)
    | Drained(letters: seq<Letter>)
    | Done
    | KeysHandled(ids: seq<Id>, missing: nat)
    | Purged(count: nat, remaining: bool)
    | Swept(processed: nat)
    | Appended(number: nat)
    | NotFound
    | AttemptMismatch
    | HasInflight
    | InvalidState

  predicate IsRejection(o: Outcome) {
    o.NotFound? || o.AttemptMismatch? || o.HasInflight? || o.InvalidState? || o.BatchRejected?
  }

  datatype Plan = Plan(moves: seq<Move>, outcome: Outcome)

  // ---- The keyspaces an operation reads, as sets of keys -------------------

  predicate InReady(s: State, k: Key) {
    k.ReadyKey? && IsReady(s, k.jobId) && k == ReadyKeyOf(k.jobId, s.live[k.jobId])
  }

  predicate InScheduled(s: State, k: Key) {
    k.TimerKey? && IsScheduled(s, k.jobId) && k.deadline == s.live[k.jobId].place.deadline
  }

  predicate InLeases(s: State, k: Key) {
    k.TimerKey? && IsLeased(s, k.jobId) && k.deadline == s.live[k.jobId].place.expiry
  }

  predicate InDedupTimers(s: State, k: Key) {
    k.DedupTimerKey? && DedupKey(k.queue, k.idempotencyKey) in s.dedup
    && k.deadline == s.dedup[DedupKey(k.queue, k.idempotencyKey)].deadline
  }

  predicate InDead(s: State, k: Key) {
    k.DeadLetterKey? && k.jobId in s.dead
    && k.queue == s.dead[k.jobId].queue && k.failedAt == s.dead[k.jobId].failedAt
  }

  function ReadyKeys(s: State): (r: set<Key>)
    ensures forall k :: k in r <==> InReady(s, k)
  {
    set id | id in s.live && s.live[id].place.Ready? :: ReadyKeyOf(id, s.live[id])
  }

  function ScheduledKeys(s: State): (r: set<Key>)
    ensures forall k :: k in r <==> InScheduled(s, k)
  {
    set id | id in s.live && s.live[id].place.Scheduled? :: TimerKey(s.live[id].place.deadline, id)
  }

  function LeaseKeys(s: State): (r: set<Key>)
    ensures forall k :: k in r <==> InLeases(s, k)
  {
    set id | id in s.live && s.live[id].place.Leased? :: TimerKey(s.live[id].place.expiry, id)
  }

  function DedupTimerKeys(s: State): (r: set<Key>)
    ensures forall k :: k in r <==> InDedupTimers(s, k)
  {
    var r := set dk | dk in s.dedup :: DedupTimerKey(s.dedup[dk].deadline, dk.queue, dk.key);
    assert forall k :: InDedupTimers(s, k) ==> DedupKey(k.queue, k.idempotencyKey) in s.dedup;
    r
  }

  function DeadKeys(s: State): (r: set<Key>)
    ensures forall k :: k in r <==> InDead(s, k)
  {
    set id | id in s.dead :: DeadLetterKey(s.dead[id].failedAt, s.dead[id].queue, id)
  }

  /** The queue an index files a key under. */
  function Owner(s: State, k: Key): Queue {
    if k.TimerKey? then (if k.jobId in s.live then s.live[k.jobId].queue else []) else k.queue
  }

  function OwnedBy(s: State, ks: set<Key>, q: Queue): set<Key> {
    set k | k in ks && Owner(s, k) == q
  }

  function DueBy(ks: set<Key>, now: int): set<Key>
    requires forall k :: k in ks ==> !k.ReadyKey?
  {
    set k | k in ks && DeadlineOf(k) <= now
  }

  /** `live_depth`: the queue's ready, scheduled and leased jobs. */
  function Members(s: State, q: Queue): set<Id> {
    set id | id in s.live && s.live[id].queue == q
  }

  function Depth(s: State, q: Queue): nat {
    |Members(s, q)|
  }

  // ---- Enqueue -------------------------------------------------------------

  function InsertMove(j: Prepared, now: int): Move {
    var place := if j.scheduledAt.Some? && j.scheduledAt.value > now
                 then Scheduled(1, j.scheduledAt.value) else Ready(1);
    Insert(j.id, Job(j.queue, j.body, now, j.scheduledAt, place),
           if j.key.Some? then Some(Pin(j.key.value, SatAdd(now, j.dedupWindow))) else None)
  }

  predicate DedupHit(s: State, j: Prepared, now: int) {
    j.key.Some? && Pinned(s, DedupKey(j.queue, j.key.value), now)
  }

  predicate AtCap(s: State, j: Prepared) {
    j.cap.Some? && Depth(s, j.queue) >= j.cap.value
  }

  /** Insert a job unless its key is pinned, past every admission check. */
  function DedupOrInsert(s: State, j: Prepared, now: int): (r: (seq<Move>, EnqueueResult)) {
    if DedupHit(s, j, now) then ([], Accepted(s.dedup[DedupKey(j.queue, j.key.value)].id, true))
    else ([InsertMove(j, now)], Accepted(j.id, false))
  }

  function EnqueueOne(s: State, j: Prepared, now: int): (seq<Move>, EnqueueResult) {
    if IsClosing(s, j.queue, now) then ([], Refused(QueueClosing(j.queue)))
    else if !DedupHit(s, j, now) && AtCap(s, j) then ([], Refused(QueueFull(j.queue, j.cap.value)))
    else DedupOrInsert(s, j, now)
  }

  ghost function EnqueueAll(s: State, jobs: seq<Prepared>, now: int): (r: (seq<Move>, seq<EnqueueResult>))
    ensures |r.1| == |jobs|
  {
    if jobs == [] then ([], [])
    else
      var (ms, rs) := EnqueueAll(s, jobs[..|jobs| - 1], now);
      var (m, r) := EnqueueOne(Run(s, ms), jobs[|jobs| - 1], now);
      (ms + m, rs + [r])
  }

  ghost function InsertAll(s: State, jobs: seq<Prepared>, now: int): (r: (seq<Move>, seq<EnqueueResult>))
    ensures |r.1| == |jobs|
  {
    if jobs == [] then ([], [])
    else
      var (ms, rs) := InsertAll(s, jobs[..|jobs| - 1], now);
      var (m, r) := DedupOrInsert(Run(s, ms), jobs[|jobs| - 1], now);
      (ms + m, rs + [r])
  }

  function CountIn(jobs: seq<Prepared>, q: Queue): nat {
    if jobs == [] then 0
    else CountIn(jobs[..|jobs| - 1], q) + (if jobs[|jobs| - 1].queue == q then 1 else 0)
  }

  /** The cap the first job of a queue in the batch carries. */
  function FirstCap(jobs: seq<Prepared>, q: Queue): Option<nat> {
    if jobs == [] then None
    else if CountIn(jobs[..|jobs| - 1], q) > 0 then FirstCap(jobs[..|jobs| - 1], q)
    else if jobs[|jobs| - 1].queue == q then jobs[|jobs| - 1].cap
    else None
  }

  predicate Overfull(s: State, jobs: seq<Prepared>, q: Queue) {
    var cap := FirstCap(jobs, q);
    cap.Some? && Depth(s, q) + CountIn(jobs, q) > cap.value
  }

  function ClosingErrors(s: State, jobs: seq<Prepared>, now: int): seq<(nat, Refusal)> {
    if jobs == [] then []
    else
      var i := |jobs| - 1;
      ClosingErrors(s, jobs[..i], now)
      + if IsClosing(s, jobs[i].queue, now) then [(i, QueueClosing(jobs[i].queue))] else []
  }

  function FullErrors(s: State, all: seq<Prepared>, jobs: seq<Prepared>): seq<(nat, Refusal)> {
    if jobs == [] then []
    else
      var i := |jobs| - 1;
      FullErrors(s, all, jobs[..i])
      + if Overfull(s, all, jobs[i].queue)
        then [(i, QueueFull(jobs[i].queue, FirstCap(all, jobs[i].queue).value))] else []
  }

  ghost function AtomicPlan(s: State, jobs: seq<Prepared>, now: int): Plan {
    if ClosingErrors(s, jobs, now) != [] then Plan([], BatchRejected(ClosingErrors(s, jobs, now)))
    else if FullErrors(s, jobs, jobs) != [] then Plan([], BatchRejected(FullErrors(s, jobs, jobs)))
    else
      var (ms, rs) := InsertAll(s, jobs, now);
      Plan(ms, BatchCommitted(rs))
  }

  // ---- Reserve ---------------------------------------------------------------

  function JobIdOf(k: Key): Id {
    if k.DedupTimerKey? then [] else k.jobId
  }

  ghost function DeliveryOf(s: State, id: Id, expiry: int): Delivery {
    Delivery(id, if id in s.live then s.live[id].(place := Leased(s.live[id].place.attempt, expiry))
                 else Job([], Body([], None, 0, 0, [], []), 0, None, Leased(0, expiry)))
  }

  /** The first `n` keys of a keyspace that belong to a queue. */
  ghost function FirstOf(s: State, ks: set<Key>, q: Queue, n: nat): seq<Key> {
    Take(Sorted(OwnedBy(s, ks, q)), n)
  }

  /** The queue's next job: its least ready key. */
  ghost function NextKey(s: State, q: Queue): Key
    requires OwnedBy(s, ReadyKeys(s), q) != {}
  {
    Least(OwnedBy(s, ReadyKeys(s), q))
  }

  /** Queue by queue in the order listed, the next job of each until it has none left. */
  ghost function ReservePlan(s: State, queues: seq<Queue>, expiry: int, n: nat): (r: (seq<Move>, seq<Delivery>))
    decreases |queues|, n
  {
    if queues == [] || n == 0 then ([], [])
    else if OwnedBy(s, ReadyKeys(s), queues[0]) == {} then ReservePlan(s, queues[1..], expiry, n)
    else
      var id := JobIdOf(NextKey(s, queues[0]));
      var (ms, ds) := ReservePlan(Step(s, Lease(id, expiry)), queues, expiry, n - 1);
      ([Lease(id, expiry)] + ms, [DeliveryOf(s, id, expiry)] + ds)
  }

  // ---- Single-job operations ---------------------------------------------------

  /** The fence every ack, nack and extend passes: the named attempt holds the lease. */
  function Fence(s: State, id: Id, attempt: nat): Option<Outcome> {
    if !IsLeased(s, id) then Some(NotFound)
    else if s.live[id].place.attempt != attempt then Some(AttemptMismatch)
    else None
  }

  function FencedPlan(s: State, op: Op): Plan
    requires op.AckOp? || op.NackOp? || op.ExtendOp?
  {
    if Fence(s, op.id, op.attempt).Some? then Plan([], Fence(s, op.id, op.attempt).value)
    else
      var j := s.live[op.id];
      match op
      case AckOp(id, attempt) => Plan([Ack(id, attempt)], Acked(j.queue))
      case NackOp(id, attempt, force, reason, delay, keep, now) =>
        Plan([Nack(id, attempt, force, reason, delay, now, keep)],
             if force || Exhausted(j) then Nacked(j.queue, true, 0) else Nacked(j.queue, false, delay))
      case ExtendOp(id, attempt, leaseMs, now) =>
        var expiry := After(now, Max(leaseMs, 1));
        Plan([Extend(id, attempt, expiry)], Extended(j.queue, expiry))
  }

  // ---- Dead letters and admin keys -----------------------------------------------

  /** The keys of a listing that belong to the wanted queue, if one is wanted. */
  function Wanted(l: seq<Key>, want: Option<Queue>): seq<Key>
    requires forall i :: 0 <= i < |l| ==> l[i].DeadLetterKey?
  {
    if l == [] then []
    else
      var i := |l| - 1;
      Wanted(l[..i], want) + (if want.None? || want.value == l[i].queue then [l[i]] else [])
  }

  ghost function DrainKeys(s: State, want: Option<Queue>, max: nat, scanCap: nat): seq<Key> {
    SortedContents(DeadKeys(s));
    assert forall i :: 0 <= i < |Sorted(DeadKeys(s))| ==> Sorted(DeadKeys(s))[i] in DeadKeys(s);
    Take(Wanted(Take(Sorted(DeadKeys(s)), scanCap), want), max)
  }

  function DropDeads(ks: seq<Key>): seq<Move> {
    seq(|ks|, i requires 0 <= i < |ks| => DropDead(JobIdOf(ks[i])))
  }

  ghost function Letters(s: State, ks: seq<Key>): seq<Letter> {
    seq(|ks|, i requires 0 <= i < |ks| => LetterOf(s, JobIdOf(ks[i])))
  }

  ghost function LetterOf(s: State, id: Id): Letter {
    Letter(id, if id in s.dead then s.dead[id]
               else Dead([], Body([], None, 0, 0, [], []), 0, None, 0, 0, Admin, None))
  }

  /** What an admin operation does with one key it was handed; a stale key does nothing. */
  function KeyMove(s: State, op: Op, k: Key): seq<Move>
    requires op.RequeueOp? || op.BuryOp? || op.DeleteOp?
  {
    match op
    case RequeueOp(q, _, now) => if InDead(s, k) && k.queue == q then [Revive(k.jobId, now)] else []
    case DeleteOp(q, _) => if InDead(s, k) && k.queue == q then [DropDead(k.jobId)] else []
    case BuryOp(q, state, _, reason, keep, now) =>
      if (state.PeekReady? && InReady(s, k) && k.queue == q)
         || (state.PeekScheduled? && InScheduled(s, k) && s.live[k.jobId].queue == q)
      then [Bury(k.jobId, now, reason, keep)] else []
  }

  ghost function KeyMoves(s: State, op: Op, keys: seq<Key>): (ms: seq<Move>)
    requires op.RequeueOp? || op.BuryOp? || op.DeleteOp?
    ensures |ms| <= |keys|
  {
    if keys == [] then []
    else
      var ms := KeyMoves(s, op, keys[..|keys| - 1]);
      ms + KeyMove(Run(s, ms), op, keys[|keys| - 1])
  }

  function MoveIds(ms: seq<Move>): seq<Id> {
    seq(|ms|, i requires 0 <= i < |ms| => if AboutJob(ms[i]) then ms[i].id else [])
  }

  // ---- Purge ---------------------------------------------------------------------

  function DropLives(ks: seq<Key>): seq<Move> {
    seq(|ks|, i requires 0 <= i < |ks| => DropLive(JobIdOf(ks[i])))
  }

  function Forgets(ks: seq<Key>, due: Option<int>): seq<Move> {
    seq(|ks|, i requires 0 <= i < |ks| =>
      Forget(if ks[i].DedupTimerKey? then DedupKey(ks[i].queue, ks[i].idempotencyKey) else DedupKey([], []), due))
  }

  function Left(max: nat, ms: seq<Move>): nat {
    if |ms| <= max then max - |ms| else 0
  }

  ghost function PurgeMoves(s: State, q: Queue, max: nat): seq<Move> {
    var a := DropLives(FirstOf(s, ReadyKeys(s), q, max));
    var s1 := Run(s, a);
    var b := a + DropLives(FirstOf(s1, ScheduledKeys(s1), q, Left(max, a)));
    var s2 := Run(s, b);
    var c := b + DropDeads(FirstOf(s2, DeadKeys(s2), q, Left(max, b)));
    var s3 := Run(s, c);
    c + Forgets(FirstOf(s3, DedupTimerKeys(s3), q, Left(max, c)), None)
  }

  /** Anything of the queue but leases, as the chunk's `remaining` reports it. */
  ghost predicate Leftovers(s: State, q: Queue) {
    || OwnedBy(s, ReadyKeys(s), q) != {}
    || OwnedBy(s, ScheduledKeys(s), q) != {}
    || OwnedBy(s, DeadKeys(s), q) != {}
    || OwnedBy(s, DedupTimerKeys(s), q) != {}
  }

  // ---- Sweep ---------------------------------------------------------------------

  function ClosingPhase(s: State, now: int): seq<Move> {
    if Unexpired(s, now) != s.closing then [ExpireClosing(now)] else []
  }

  function Promotes(ks: seq<Key>, now: int): seq<Move> {
    seq(|ks|, i requires 0 <= i < |ks| => Promote(JobIdOf(ks[i]), now))
  }

  function Expires(ks: seq<Key>, now: int, keep: bool): seq<Move> {
    seq(|ks|, i requires 0 <= i < |ks| => Expire(JobIdOf(ks[i]), now, keep))
  }

  ghost function DueHead(ks: set<Key>, now: int, n: nat): seq<Key>
    requires forall k :: k in ks ==> !k.ReadyKey?
  {
    Take(Sorted(DueBy(ks, now)), n)
  }

  /** Tombstones, scheduled jobs, leases and dedup records, each on its own budget. */
  ghost function TimerMoves(s: State, now: int, budget: nat, keep: bool): seq<Move> {
    var a := ClosingPhase(s, now);
    var b := a + Promotes(DueHead(ScheduledKeys(Run(s, a)), now, budget), now);
    var c := b + Expires(DueHead(LeaseKeys(Run(s, b)), now, budget), now, keep);
    c + Forgets(DueHead(DedupTimerKeys(Run(s, c)), now, budget), Some(now))
  }

  ghost function SweepMoves(s: State, now: int, budget: nat, cutoff: Option<int>, keep: bool): seq<Move> {
    var d := TimerMoves(s, now, budget, keep);
    if cutoff.None? then d
    else d + DropDeads(DueHead(DeadKeys(Run(s, d)), cutoff.value, budget))
  }

  // ---- Every operation ---------------------------------------------------------------

  ghost function PlanOf(s: State, op: Op): Plan {
    match op
    case EnqueueOp(jobs, now) =>
      var (ms, rs) := EnqueueAll(s, jobs, now);
      Plan(ms, Enqueued(rs))
    case EnqueueAtomicOp(jobs, now) => AtomicPlan(s, jobs, now)
    case ReserveOp(queues, leaseMs, maxJobs, now) =>
      var (ms, ds) := ReservePlan(s, queues, After(now, leaseMs), maxJobs);
      Plan(ms, Reserved(ds))
    case AckOp(_, _) => FencedPlan(s, op)
    case NackOp(_, _, _, _, _, _, _) => FencedPlan(s, op)
    case ExtendOp(_, _, _, _) => FencedPlan(s, op)
    case DrainOp(want, max, scanCap) =>
      var ks := DrainKeys(s, want, max, scanCap);
      Plan(DropDeads(ks), Drained(Letters(s, ks)))
    case CloseOp(q, now, grace) => Plan([Close(q, SatAdd(now, grace))], Done)
    case OpenOp(q) => Plan(if q in s.closing then [Open(q)] else [], Done)
    case BuryOp(_, state, keys, _, _, _) =>
      if !state.PeekReady? && !state.PeekScheduled? then Plan([], InvalidState)
      else KeysPlan(s, op, keys)
    case RequeueOp(_, keys, _) => KeysPlan(s, op, keys)
    case DeleteOp(_, keys) => KeysPlan(s, op, keys)
    case PurgeOp(q, max) =>
      if OwnedBy(s, LeaseKeys(s), q) != {} then Plan([], HasInflight)
      else
        var ms := PurgeMoves(s, q, max);
        Plan(ms, Purged(|ms|, Leftovers(Run(s, ms), q)))
    case SweepOp(now, budget, cutoff, keep) =>
      var ms := SweepMoves(s, now, budget, cutoff, keep);
      Plan(ms, Swept(|ms| - |ClosingPhase(s, now)|))
    case AuditOp(record, now) => Plan([Append(AuditEntry(now, record))], Appended(|s.audit| + 1))
  }

  ghost function KeysPlan(s: State, op: Op, keys: seq<Key>): Plan
    requires op.RequeueOp? || op.BuryOp? || op.DeleteOp?
  {
    var ms := KeyMoves(s, op, keys);
    Plan(ms, KeysHandled(MoveIds(ms), |keys| - |ms|))
  }

  /** The state after an operation. */
  ghost function Apply(s: State, op: Op): State {
    Run(s, PlanOf(s, op).moves)
  }

  ghost function ApplyAll(s: State, ops: seq<Op>): State {
    if ops == [] then s else Apply(ApplyAll(s, ops[..|ops| - 1]), ops[|ops| - 1])
  }
}
