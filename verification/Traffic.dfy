/** Other callers' operations around a handler's own: whole cycles before and after it, and
    operations that share its cycle, each on their own clock and each landing or not. */
module Traffic {
  import opened Bytes
  import opened Keys
  import opened Machine
  import opened Ops
  import opened Legality
  import opened Deletion
  import opened Committer

  // ---- Fresh ids ----------------------------------------------------------------------------

  function IdsOf(op: Op): set<Id> {
    if op.EnqueueOp? || op.EnqueueAtomicOp? then set i | 0 <= i < |op.jobs| :: op.jobs[i].id else {}
  }

  function Ids(ops: seq<Op>): set<Id> {
    if ops == [] then {} else Ids(ops[..|ops| - 1]) + IdsOf(ops[|ops| - 1])
  }

  /** What `OpOk` asks, of a set of ids. */
  predicate FreshOp(used: set<Id>, op: Op) {
    op.EnqueueOp? || op.EnqueueAtomicOp? ==>
      && (forall i :: 0 <= i < |op.jobs| ==> op.jobs[i].id !in used && op.jobs[i].body.maxAttempts >= 1)
      && (forall i, j :: 0 <= i < j < |op.jobs| ==> op.jobs[i].id != op.jobs[j].id)
  }

  /** Ids are UUIDs: none in use, none twice, whichever of the operations get to run. */
  predicate FreshOps(used: set<Id>, ops: seq<Op>) {
    ops == [] || (FreshOps(used, ops[..|ops| - 1]) && FreshOp(used + Ids(ops[..|ops| - 1]), ops[|ops| - 1]))
  }

  lemma {:induction false} IdsConcat(a: seq<Op>, b: seq<Op>)
    ensures Ids(a + b) == Ids(a) + Ids(b)
  {
    if b == [] {
      assert a + b == a;
    } else {
      IdsConcat(a, b[..|b| - 1]);
      assert (a + b)[..|a + b| - 1] == a + b[..|b| - 1];
    }
  }

  lemma {:induction false} FreshMonotone(fewer: set<Id>, used: set<Id>, ops: seq<Op>)
    requires fewer <= used && FreshOps(used, ops)
    ensures FreshOps(fewer, ops)
  {
    if ops != [] { FreshMonotone(fewer, used, ops[..|ops| - 1]); }
  }

  lemma {:induction false} FreshSplit(used: set<Id>, a: seq<Op>, b: seq<Op>)
    requires FreshOps(used, a + b)
    ensures FreshOps(used, a) && FreshOps(used + Ids(a), b) && FreshOps(used, b)
  {
    if b == [] {
      assert a + b == a;
    } else {
      var (front, last) := (b[..|b| - 1], b[|b| - 1]);
      assert (a + b)[..|a + b| - 1] == a + front && (a + b)[|a + b| - 1] == last;
      FreshSplit(used, a, front);
      IdsConcat(a, front);
      assert used + Ids(a + front) == (used + Ids(a)) + Ids(front);
      FreshMonotone(used, used + Ids(a), b);
    }
  }

  /** Joining back, as long as the second part is fresh over the first. */
  lemma {:induction false} FreshJoin(used: set<Id>, a: seq<Op>, b: seq<Op>)
    requires FreshOps(used, a) && FreshOps(used + Ids(a), b)
    ensures FreshOps(used, a + b)
  {
    if b == [] {
      assert a + b == a;
    } else {
      var (front, last) := (b[..|b| - 1], b[|b| - 1]);
      assert (a + b)[..|a + b| - 1] == a + front && (a + b)[|a + b| - 1] == last;
      FreshJoin(used, a, front);
      IdsConcat(a, front);
      assert used + Ids(a + front) == (used + Ids(a)) + Ids(front);
    }
  }

  lemma {:induction false} FreshStamped(used: set<Id>, ops: seq<Op>, now: int)
    ensures FreshOps(used, Stamped(ops, now)) == FreshOps(used, ops) && Ids(Stamped(ops, now)) == Ids(ops)
  {
    if ops != [] {
      FreshStamped(used, ops[..|ops| - 1], now);
      var st := Stamped(ops, now);
      assert st[..|st| - 1] == Stamped(ops[..|ops| - 1], now) && st[|st| - 1] == Stamp(ops[|ops| - 1], now);
    }
  }

  /** No operation uses an id it does not carry. */
  lemma OpUses(s: State, op: Op)
    requires FreshOp(s.used, op)
    ensures OpOk(s, op) && Apply(s, op).used <= s.used + IdsOf(op)
  {
    hide EnqueueAll, InsertAll, Run;
    if op.EnqueueOp? {
      EnqueueLegal(s, op.jobs, op.now);
      WithinIds(s, EnqueueAll(s, op.jobs, op.now).0, op);
    } else if op.EnqueueAtomicOp? {
      AtomicUses(s, op);
    } else {
      hide PlanOf;
      PlanKinds(s, op);
      var ms := PlanOf(s, op).moves;
      forall i | 0 <= i < |ms| ensures !ms[i].Insert? { assert Kind(op, ms[i]); }
      NoInsertNoIds(s, ms);
    }
  }

  lemma WithinIds(s: State, ms: seq<Move>, op: Op)
    requires (op.EnqueueOp? || op.EnqueueAtomicOp?) && UsedWithin(s, ms, op.jobs)
    ensures Run(s, ms).used <= s.used + IdsOf(op)
  {
  }

  lemma AtomicUses(s: State, op: Op)
    requires op.EnqueueAtomicOp? && BatchOk(s, op.jobs)
    ensures Apply(s, op).used <= s.used + IdsOf(op)
  {
    hide InsertAll, Run, FullErrors;
    RunNone(s);
    if ClosingErrors(s, op.jobs, op.now) == [] && FullErrors(s, op.jobs, op.jobs) == [] {
      NoClosingErrors(s, op.jobs, op.now);
      InsertAllLegal(s, op.jobs, op.now);
      WithinIds(s, InsertAll(s, op.jobs, op.now).0, op);
    }
  }

  lemma {:induction false} NoInsertNoIds(s: State, ms: seq<Move>)
    requires forall i :: 0 <= i < |ms| ==> !ms[i].Insert?
    ensures Run(s, ms).used == s.used
  {
    if ms != [] {
      NoInsertNoIds(s, ms[..|ms| - 1]);
      OneUsed(Run(s, ms[..|ms| - 1]), ms[|ms| - 1]);
    }
  }

  /** Fresh operations are acceptable wherever they run. */
  lemma {:induction false} FreshAcceptable(s: State, ops: seq<Op>)
    requires FreshOps(s.used, ops)
    ensures Acceptable(s, ops) && ApplyAll(s, ops).used <= s.used + Ids(ops)
  {
    hide Apply, OpOk, FreshOp, IdsOf;
    if ops != [] {
      var front := ops[..|ops| - 1];
      FreshAcceptable(s, front);
      FreshOpMonotone(ApplyAll(s, front).used, s.used + Ids(front), ops[|ops| - 1]);
      OpUses(ApplyAll(s, front), ops[|ops| - 1]);
    }
  }

  lemma FreshOpMonotone(fewer: set<Id>, used: set<Id>, op: Op)
    requires fewer <= used && FreshOp(used, op)
    ensures FreshOp(fewer, op)
  {
  }

  // ---- Cycles of others -------------------------------------------------------------------------

  /** One cycle of other callers. */
  datatype Round = Round(cmds: seq<Op>, now: int, fault: Option<Fault>, commits: bool)

  /** The state a cycle leaves committed. */
  ghost function CycleEnd(s: State, ops: seq<Op>, fault: Option<Fault>, commits: bool): State {
    if Lands(s, ops, fault, commits) then ApplyAll(s, ops) else s
  }

  /** The state a sequence of cycles leaves committed. */
  ghost function RoundsEnd(s: State, rs: seq<Round>): State {
    if rs == [] then s
    else
      var (t, r) := (RoundsEnd(s, rs[..|rs| - 1]), rs[|rs| - 1]);
      CycleEnd(t, Stamped(r.cmds, r.now), r.fault, r.commits)
  }

  function RoundsOps(rs: seq<Round>): seq<Op> {
    if rs == [] then [] else rs[0].cmds + RoundsOps(rs[1..])
  }

  predicate AllQuiet(ops: seq<Op>, q: Queue, until: int) {
    forall k :: 0 <= k < |ops| ==> QuietOp(ops[k], q, until)
  }

  /** The cycles run on clocks before the tombstone's end and leave it alone. */
  predicate QuietRounds(rs: seq<Round>, q: Queue, until: int) {
    forall k :: 0 <= k < |rs| ==> AllQuiet(Stamped(rs[k].cmds, rs[k].now), q, until)
  }

  /** The queue is closed until then, and owns no more than `n` things. */
  ghost predicate Shut(s: State, q: Queue, until: int, n: nat) {
    Inv(s) && Tombstoned(s, q, until) && Total(s, q) <= n
  }

  /** A quiet cycle, landing or not, keeps the tombstone and never grows the queue. */
  lemma QuietCycle(s: State, ops: seq<Op>, fault: Option<Fault>, commits: bool, q: Queue, until: int, n: nat)
    requires Shut(s, q, until, n) && AllQuiet(ops, q, until)
    ensures Shut(CycleEnd(s, ops, fault, commits), q, until, n) && Shut(ApplyAll(s, ops), q, until, n)
  {
    hide Inv, Total, Tombstoned, ApplyAll, Lands;
    RunNeverGrowsClosing(s, ops, q, until);
  }

  /** After a cycle with the first operations, landing or not, the others are still fresh. */
  lemma FreshAfterCycle(s: State, cmds: seq<Op>, now: int, fault: Option<Fault>, commits: bool, rest: seq<Op>)
    requires FreshOps(s.used, cmds + rest)
    ensures Acceptable(s, Stamped(cmds, now))
    ensures FreshOps(CycleEnd(s, Stamped(cmds, now), fault, commits).used, rest)
  {
    hide FreshOps, Acceptable, ApplyAll, Lands, Ids, Stamped;
    FreshSplit(s.used, cmds, rest);
    FreshStamped(s.used, cmds, now);
    FreshAcceptable(s, Stamped(cmds, now));
    FreshMonotone(CycleEnd(s, Stamped(cmds, now), fault, commits).used, s.used + Ids(cmds), rest);
  }

  // ---- An operation in company ----------------------------------------------------------------------

  /** The cycle an operation rides in: what others have before and after it, and how it ends. */
  datatype Ride = Ride(before: seq<Op>, after: seq<Op>, now: int, fault: Option<Fault>, commits: bool)

  /** Alone in a cycle that commits. */
  const Alone: Ride := Ride([], [], 0, None, true)

  predicate Smooth(r: Ride) {
    r.fault.None? && r.commits
  }

  function RideCmds(r: Ride, op: Op): seq<Op> {
    r.before + [op] + r.after
  }

  function RideOps(r: Ride, op: Op): seq<Op> {
    Stamped(RideCmds(r, op), r.now)
  }

  /** The state the operation itself is applied in. */
  ghost function Boarding(s: State, r: Ride): State {
    ApplyAll(s, Stamped(r.before, r.now))
  }

  ghost function RideEnd(s: State, r: Ride, op: Op): State {
    CycleEnd(s, RideOps(r, op), r.fault, r.commits)
  }

  lemma {:induction false} ApplyAllConcat(s: State, a: seq<Op>, b: seq<Op>)
    ensures ApplyAll(s, a + b) == ApplyAll(ApplyAll(s, a), b)
  {
    hide Apply;
    if b == [] {
      assert a + b == a;
    } else {
      ApplyAllConcat(s, a, b[..|b| - 1]);
      assert (a + b)[..|a + b| - 1] == a + b[..|b| - 1];
    }
  }

  /** The cycle in its three parts. */
  lemma RideParts(s: State, r: Ride, op: Op)
    ensures |RideOps(r, op)| == |RideCmds(r, op)| && |r.before| < |RideCmds(r, op)|
    ensures OutcomeAt(s, RideOps(r, op), |r.before|) == PlanOf(Boarding(s, r), Stamp(op, r.now)).outcome
    ensures ApplyAll(s, RideOps(r, op)) == ApplyAll(Apply(Boarding(s, r), Stamp(op, r.now)), Stamped(r.after, r.now))
  {
    hide Apply, PlanOf, Stamp;
    var (a, x, b) := (Stamped(r.before, r.now), [Stamp(op, r.now)], Stamped(r.after, r.now));
    assert RideOps(r, op) == a + x + b;
    assert RideOps(r, op)[..|r.before|] == a;
    ApplyAllConcat(s, a + x, b);
    ApplyAllConcat(s, a, x);
    assert x[..0] == [] && ApplyAll(ApplyAll(s, a), []) == ApplyAll(s, a);
  }

  /** An operation without jobs can join fresh company. */
  lemma FreshRide(used: set<Id>, r: Ride, op: Op, rest: seq<Op>)
    requires FreshOps(used, r.before + r.after + rest) && IdsOf(op) == {} && FreshOp(used + Ids(r.before), op)
    ensures FreshOps(used, RideCmds(r, op) + rest)
  {
    hide FreshOp, IdsOf;
    var (a, b) := (r.before, r.after + rest);
    assert r.before + r.after + rest == a + b;
    FreshSplit(used, a, b);
    assert (a + [op])[..|a|] == a;
    assert Ids(a + [op]) == Ids(a);
    FreshJoin(used, a + [op], b);
    assert RideCmds(r, op) + rest == (a + [op]) + b;
  }
}
