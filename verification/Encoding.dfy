/** The byte keys under the machine: every key a run can store is one the encoding orders
    correctly, so what the ordered maps find first in bytes is what the machine picks. */
module Encoding {
  import opened Bytes
  import opened Keys
  import opened Listing
  import opened Machine
  import opened Ops
  import opened Legality

  // ---- What the operations guarantee ------------------------------------------------------

  /** A clock reading: `now_ms` is never negative and fits an i64. */
  predicate IsTime(t: int) {
    0 <= t <= I64_MAX
  }

  /** A queue name whose length fits the u16 prefix. */
  predicate IsName(q: Queue) {
    |q| < U16
  }

  predicate JobFits(j: Job) {
    && IsName(j.queue) && IsTime(j.enqueuedAt)
    && (j.place.Scheduled? ==> IsTime(j.place.deadline))
    && (j.place.Leased? ==> IsTime(j.place.expiry))
  }

  /** Every stored time and name is one the key encodings are made for. */
  ghost predicate Fits(s: State) {
    && (forall id :: id in s.live ==> JobFits(s.live[id]))
    && (forall id :: id in s.dead ==> IsName(s.dead[id].queue) && IsTime(s.dead[id].failedAt))
    && (forall dk :: dk in s.dedup ==> IsName(dk.queue) && IsTime(s.dedup[dk].deadline))
  }

  /** What the request path guarantees: the committer's clock, names within
      `max_queue_name_bytes` and `scheduled_at` an i64 of milliseconds, of any sign. */
  predicate OpFits(op: Op) {
    match op
    case EnqueueOp(jobs, now) => IsTime(now) && forall i :: 0 <= i < |jobs| ==> RequestFits(jobs[i])
    case EnqueueAtomicOp(jobs, now) => IsTime(now) && forall i :: 0 <= i < |jobs| ==> RequestFits(jobs[i])
    case ReserveOp(queues, _, _, now) => IsTime(now) && forall i :: 0 <= i < |queues| ==> IsName(queues[i])
    case NackOp(_, _, _, _, _, _, now) => IsTime(now)
    case ExtendOp(_, _, _, now) => IsTime(now)
    case RequeueOp(_, _, now) => IsTime(now)
    case BuryOp(_, _, _, _, _, now) => IsTime(now)
    case SweepOp(now, _, _, _) => IsTime(now)
    case _ => true
  }

  predicate RequestFits(j: Prepared) {
    IsName(j.queue) && (j.scheduledAt.Some? ==> j.scheduledAt.value <= I64_MAX)
  }

  // ---- Every reachable key is encodable -----------------------------------------------------

  predicate MoveFits(m: Move) {
    match m
    case Insert(_, job, pin) => JobFits(job) && (pin.Some? ==> IsTime(pin.value.deadline))
    case Lease(_, expiry) => IsTime(expiry)
    case Nack(_, _, _, _, _, now, _) => IsTime(now)
    case Extend(_, _, expiry) => IsTime(expiry)
    case Expire(_, now, _) => IsTime(now)
    case Bury(_, now, _, _) => IsTime(now)
    case Revive(_, now) => IsTime(now)
    case _ => true
  }

  /** The job a move touches: what it leaves of it fits. */
  lemma TouchedFits(s: State, m: Move)
    requires Fits(s) && MoveFits(m) && Enabled(s, m) && AboutJob(m)
    ensures LiveAfter(s, m).Some? ==> JobFits(LiveAfter(s, m).value)
    ensures DeadAfter(s, m).Some? ==> IsName(DeadAfter(s, m).value.queue) && IsTime(DeadAfter(s, m).value.failedAt)
  {
  }

  lemma DedupFits(s: State, m: Move, dk: DedupKey)
    requires Fits(s) && MoveFits(m) && dk in DedupAfter(s, m)
    ensures IsName(dk.queue) && IsTime(DedupAfter(s, m)[dk].deadline)
  {
  }

  lemma PutFits(s: State, id: Id, l: Option<Job>, d: Option<Dead>, t: State)
    requires Fits(s) && t.live == Put(s.live, id, l) && t.dead == Put(s.dead, id, d)
    requires l.Some? ==> JobFits(l.value)
    requires d.Some? ==> IsName(d.value.queue) && IsTime(d.value.failedAt)
    requires forall dk :: dk in t.dedup ==> IsName(dk.queue) && IsTime(t.dedup[dk].deadline)
    ensures Fits(t)
  {
  }

  lemma StepFits(s: State, m: Move)
    requires Fits(s) && MoveFits(m)
    ensures Fits(Step(s, m))
  {
    if Enabled(s, m) {
      forall dk | dk in DedupAfter(s, m) ensures IsName(dk.queue) && IsTime(DedupAfter(s, m)[dk].deadline) {
        DedupFits(s, m, dk);
      }
      if AboutJob(m) {
        TouchedFits(s, m);
        PutFits(s, m.id, LiveAfter(s, m), DeadAfter(s, m), Step(s, m));
      }
    }
  }

  lemma {:induction false} RunFits(s: State, ms: seq<Move>)
    requires Fits(s) && forall i :: 0 <= i < |ms| ==> MoveFits(ms[i])
    ensures Fits(Run(s, ms))
  {
    if ms != [] {
      RunFits(s, ms[..|ms| - 1]);
      StepFits(Run(s, ms[..|ms| - 1]), ms[|ms| - 1]);
    }
  }

  ghost predicate AllFit(ms: seq<Move>) {
    forall i :: 0 <= i < |ms| ==> MoveFits(ms[i])
  }

  /** Only a time in the future is stored as a deadline, so a `scheduled_at` before the epoch
      never becomes a key. */
  lemma InsertFits(j: Prepared, now: int)
    requires IsTime(now) && RequestFits(j)
    ensures MoveFits(InsertMove(j, now))
  {
  }

  lemma {:induction false} EnqueueFits(s: State, jobs: seq<Prepared>, now: int)
    requires IsTime(now) && forall i :: 0 <= i < |jobs| ==> RequestFits(jobs[i])
    ensures AllFit(EnqueueAll(s, jobs, now).0) && AllFit(InsertAll(s, jobs, now).0)
  {
    hide InsertMove, MoveFits, Run, Depth;
    if jobs != [] {
      EnqueueFits(s, jobs[..|jobs| - 1], now);
      InsertFits(jobs[|jobs| - 1], now);
    }
  }

  lemma {:induction false} ReserveFits(s: State, queues: seq<Queue>, expiry: int, n: nat)
    requires IsTime(expiry)
    ensures AllFit(ReservePlan(s, queues, expiry, n).0)
    decreases |queues|, n
  {
    hide Step, OwnedBy, ReadyKeys, NextKey, DeliveryOf;
    if queues != [] && n != 0 {
      if OwnedBy(s, ReadyKeys(s), queues[0]) == {} {
        ReserveFits(s, queues[1..], expiry, n);
      } else {
        ReserveFits(Step(s, Lease(JobIdOf(NextKey(s, queues[0])), expiry)), queues, expiry, n - 1);
      }
    }
  }

  lemma KeyFits(s: State, op: Op, k: Key)
    requires (op.RequeueOp? || op.BuryOp? || op.DeleteOp?) && OpFits(op)
    ensures AllFit(KeyMove(s, op, k))
  {
  }

  lemma {:induction false} KeysFit(s: State, op: Op, keys: seq<Key>)
    requires (op.RequeueOp? || op.BuryOp? || op.DeleteOp?) && OpFits(op)
    ensures AllFit(KeyMoves(s, op, keys))
  {
    hide KeyMove, Run, MoveFits, OpFits;
    if keys != [] {
      KeysFit(s, op, keys[..|keys| - 1]);
      KeyFits(s, op, keys[|keys| - 1]);
      KeyFits(Run(s, KeyMoves(s, op, keys[..|keys| - 1])), op, keys[|keys| - 1]);
    }
  }

  lemma FencedFits(s: State, op: Op)
    requires (op.AckOp? || op.NackOp? || op.ExtendOp?) && OpFits(op)
    ensures AllFit(FencedPlan(s, op).moves)
  {
  }

  /** The moves of the remaining operations carry the operation's own clock or none. */
  lemma KindFits(op: Op, m: Move)
    requires OpFits(op) && Kind(op, m)
    requires op.DrainOp? || op.CloseOp? || op.OpenOp? || op.PurgeOp? || op.SweepOp? || op.AuditOp?
    ensures MoveFits(m)
  {
  }

  /** Whatever the state, an operation's moves bring in only encodable times and names. */
  lemma PlanFits(s: State, op: Op)
    requires OpFits(op)
    ensures AllFit(PlanOf(s, op).moves)
  {
    match op {
      case EnqueueOp(jobs, now) => EnqueueFits(s, jobs, now);
      case EnqueueAtomicOp(jobs, now) => EnqueueFits(s, jobs, now);
      case ReserveOp(queues, leaseMs, maxJobs, now) => ReserveFits(s, queues, After(now, leaseMs), maxJobs);
      case AckOp(_, _) => FencedFits(s, op);
      case NackOp(_, _, _, _, _, _, _) => FencedFits(s, op);
      case ExtendOp(_, _, _, _) => FencedFits(s, op);
      case RequeueOp(_, keys, _) => KeysFit(s, op, keys);
      case BuryOp(_, _, keys, _, _, _) => KeysFit(s, op, keys);
      case DeleteOp(_, keys) => KeysFit(s, op, keys);
      case _ => OtherFits(s, op);
    }
  }

  lemma OtherFits(s: State, op: Op)
    requires OpFits(op)
    requires op.DrainOp? || op.CloseOp? || op.OpenOp? || op.PurgeOp? || op.SweepOp? || op.AuditOp?
    ensures AllFit(PlanOf(s, op).moves)
  {
    hide PlanOf, OpFits, MoveFits, Kind;
    PlanKinds(s, op);
    var ms := PlanOf(s, op).moves;
    forall i | 0 <= i < |ms| ensures MoveFits(ms[i]) { KindFits(op, ms[i]); }
  }

  lemma {:induction false} RunsFit(s: State, ops: seq<Op>)
    requires Fits(s) && forall i :: 0 <= i < |ops| ==> OpFits(ops[i])
    ensures Fits(ApplyAll(s, ops))
  {
    hide Fits, OpFits, PlanOf, MoveFits;
    if ops != [] {
      var t := ApplyAll(s, ops[..|ops| - 1]);
      RunsFit(s, ops[..|ops| - 1]);
      PlanFits(t, ops[|ops| - 1]);
      RunFits(t, PlanOf(t, ops[|ops| - 1]).moves);
    }
  }

  /** A key of one of the five ordered keyspaces. */
  predicate Stored(s: State, k: Key) {
    InReady(s, k) || InScheduled(s, k) || InLeases(s, k) || InDedupTimers(s, k) || InDead(s, k)
  }

  lemma StoredEncodable(s: State, k: Key)
    requires Fits(s) && Stored(s, k)
    ensures Encodable(k)
  {
  }

  /** After any run of such operations on a new database every key of every ordered keyspace is
      encodable: the times on which byte order and logical order part never get in. */
  lemma EveryStoredKeyIsEncodable(ops: seq<Op>, k: Key)
    requires (forall i :: 0 <= i < |ops| ==> OpFits(ops[i])) && Stored(ApplyAll(Empty, ops), k)
    ensures Encodable(k)
  {
    hide OpFits, ApplyAll, Stored;
    RunsFit(Empty, ops);
    StoredEncodable(ApplyAll(Empty, ops), k);
  }
}
