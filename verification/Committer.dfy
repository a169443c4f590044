/** The committer: a cycle of operations in one transaction that lands as a whole or leaves
    disk and memory as they were. */
module Committer {
  import opened Bytes
  import opened Keys
  import opened Machine
  import opened Ops
  import opened Legality
  import opened Lifecycle
  import opened Rows
  import opened Tables
  import opened Lockstep
  import opened Engine

  datatype Reply = Told(outcome: Outcome) | Failed

  /** Refusals are answered on the spot; everything else waits for the commit. */
  predicate Immediate(o: Outcome) {
    o.NotFound? || o.AttemptMismatch? || o.HasInflight? || o.InvalidState?
  }

  /** What the operation at `i` is answered, run after the ones before it. */
  ghost function OutcomeAt(s: State, ops: seq<Op>, i: nat): Outcome
    requires i < |ops|
  {
    PlanOf(ApplyAll(s, ops[..i]), ops[i]).outcome
  }

  /** A storage error in the operation at `at`, and what it leaves in memory. */
  datatype Fault = Fault(at: nat, left: Wreck)

  /** A look at a queue's depths, asked between the operations before `at` and those after. */
  datatype Look = Look(at: nat, queue: Queue)

  /** How many operations of a cycle are applied before a storage error stops it. */
  function Reach(fault: Option<Fault>, n: nat): (r: nat)
    ensures r <= n
  {
    if fault.Some? && fault.value.at < n then fault.value.at else n
  }

  /** Whether a cycle lands: no storage error, and a commit unless nothing was written. */
  ghost predicate Lands(s: State, ops: seq<Op>, fault: Option<Fault>, commits: bool) {
    Reach(fault, |ops|) == |ops| && (commits || History(s, ops) == [])
  }

  /** What the caller at `i` of a cycle that does not land hears: a refusal, sent on the spot if its
      operation was applied at all, or a failure. */
  ghost function ReplyAt(s: State, ops: seq<Op>, fault: Option<Fault>, i: nat): Reply
    requires i < |ops|
  {
    if i < Reach(fault, |ops|) && Immediate(OutcomeAt(s, ops, i)) then Told(OutcomeAt(s, ops, i)) else Failed
  }

  /** What a look sees: the cycle as it stands, committed or not, unless a storage error came first. */
  ghost function SeenAt(s: State, ops: seq<Op>, look: Option<Look>, fault: Option<Fault>): Option<Depths> {
    if look.Some? && look.value.at <= Reach(fault, |ops|)
    then Some(DepthsIn(ApplyAll(s, ops[..look.value.at]), look.value.queue)) else None
  }

  // ---- Disk contents are a function of the state ------------------------------------------

  lemma SameRowsById<J, V>(a: map<Id, V>, b: map<Id, V>, live: map<Id, J>, f: J -> Option<V>)
    requires ById(a, live, f) && ById(b, live, f)
    ensures a == b
  {
    forall id ensures Lookup(a, id) == Lookup(b, id) {
      assert Lookup(a, id) == if id in live then f(live[id]) else None;
      assert Lookup(b, id) == if id in live then f(live[id]) else None;
    }
    SameMap(a, b);
  }

  lemma SameProjection<I, J, V>(a: map<Key, V>, b: map<Key, V>, src: map<I, J>, p: (I, J) -> Option<(Key, V)>,
                                inv: Key -> I)
    requires Projects(a, src, p, inv) && Projects(b, src, p, inv)
    ensures a == b
  {
    forall k ensures Lookup(a, k) == Lookup(b, k) {
      assert Lookup(a, k) == At(src, k, p, inv);
      assert Lookup(b, k) == At(src, k, p, inv);
    }
    SameMap(a, b);
  }

  lemma SameLiveRows(st: Store, ix: Indexes, st': Store, ix': Indexes, live: map<Id, Job>)
    requires LiveRows(st, ix, live) && LiveRows(st', ix', live)
    ensures LiveFieldsEqual(st, ix, st', ix')
  {
    hide ById, Projects;
    SameRowsById(st.jobs, st'.jobs, live, JobRowOf);
    SameRowsById(st.payloads, st'.payloads, live, PayloadOf);
    SameRowsById(st.inflight, st'.inflight, live, FlightOf);
    SameProjection(st.ready, st'.ready, live, ReadyRow, JobIdOf);
    SameProjection(ix.ready, ix'.ready, live, ReadyRow, JobIdOf);
    SameProjection(st.scheduled, st'.scheduled, live, ScheduledRow, JobIdOf);
    SameProjection(ix.scheduled, ix'.scheduled, live, ScheduledEntry, JobIdOf);
    SameProjection(st.leases, st'.leases, live, LeaseRow, JobIdOf);
    SameProjection(ix.leases, ix'.leases, live, LeaseEntry, JobIdOf);
  }

  lemma SameAuditRows(st: Store, st': Store, log: seq<AuditEntry>)
    requires AuditRows(st, log) && AuditRows(st', log)
    ensures st.audit == st'.audit && st.auditSeq == st'.auditSeq
  {
  }

  lemma SameRecordRows(st: Store, ix: Indexes, st': Store, ix': Indexes, s: State)
    requires DeadRows(st, ix, s.dead) && PinRows(st, ix, s.dedup) && DeadRows(st', ix', s.dead)
    requires PinRows(st', ix', s.dedup)
    ensures st.deadLetter == st'.deadLetter && ix.deadLetter == ix'.deadLetter && st.dedup == st'.dedup
    ensures st.dedupTimers == st'.dedupTimers && ix.dedupTimers == ix'.dedupTimers
  {
    hide Projects;
    SameProjection(st.deadLetter, st'.deadLetter, s.dead, DeadRow, JobIdOf);
    SameProjection(ix.deadLetter, ix'.deadLetter, s.dead, DeadEntry, JobIdOf);
    SameProjection(st.dedupTimers, st'.dedupTimers, s.dedup, PinRow, PinOf);
    SameProjection(ix.dedupTimers, ix'.dedupTimers, s.dedup, PinEntry, PinOf);
  }

  /** One state has one set of keyspaces and one set of indexes. */
  lemma MirrorIsUnique(st: Store, ix: Indexes, st': Store, ix': Indexes, s: State)
    requires Mirrors(st, ix, s) && Mirrors(st', ix', s)
    ensures st == st' && ix == ix'
  {
    hide LiveRows, DeadRows, PinRows, AuditRows;
    SameLiveRows(st, ix, st', ix', s.live);
    SameRecordRows(st, ix, st', ix', s);
    SameAuditRows(st, st', s.audit);
  }

  // ---- Cycles ----------------------------------------------------------------------------------

  lemma {:induction false} AcceptablePrefix(s: State, ops: seq<Op>, i: nat)
    requires Acceptable(s, ops) && i < |ops|
    ensures OpOk(ApplyAll(s, ops[..i]), ops[i])
  {
    if i < |ops| - 1 {
      AcceptablePrefix(s, ops[..|ops| - 1], i);
      assert ops[..|ops| - 1][..i] == ops[..i];
    }
  }

  /** One more operation on top of a cycle. */
  lemma CycleSnoc(s: State, ops: seq<Op>, i: nat)
    requires Acceptable(s, ops) && i < |ops|
    ensures OpOk(ApplyAll(s, ops[..i]), ops[i])
    ensures History(s, ops[..i + 1]) == History(s, ops[..i]) + PlanOf(ApplyAll(s, ops[..i]), ops[i]).moves
    ensures ApplyAll(s, ops[..i + 1]) == Run(ApplyAll(s, ops[..i]), PlanOf(ApplyAll(s, ops[..i]), ops[i]).moves)
  {
    hide PlanOf, OpOk, Run;
    AcceptablePrefix(s, ops, i);
    assert ops[..i + 1][..i] == ops[..i];
  }

  lemma CycleStart(s: State)
    ensures History(s, []) == [] && ApplyAll(s, []) == s
  {
  }

  /** The answers of a cycle that did not land: refusals were already sent. */
  function FailAll(outcomes: seq<Outcome>, n: nat): (replies: seq<Reply>)
    ensures |replies| == n
    ensures forall i :: 0 <= i < n ==>
              replies[i] == if i < |outcomes| && Immediate(outcomes[i]) then Told(outcomes[i]) else Failed
  {
    seq(n, i requires 0 <= i < n => if i < |outcomes| && Immediate(outcomes[i]) then Told(outcomes[i]) else Failed)
  }

  /** A rejected operation makes no move. */
  lemma RejectedChangesNothing(s: State, op: Op)
    requires IsRejection(PlanOf(s, op).outcome)
    ensures PlanOf(s, op).moves == [] && Apply(s, op) == s
  {
    hide EnqueueAll, InsertAll, ReservePlan, KeyMoves, PurgeMoves, SweepMoves, Leftovers, DrainKeys;
    RunNone(s);
  }

  /** A refusal is sent before its cycle lands, so it can speak of a state that never comes to
      be: of two acks of one lease in a cycle the second is told the job is gone, and stays told
      so when the cycle rolls back and the lease is still there. */
  lemma RefusalCanOutliveItsCycle(s: State, id: Id, attempt: nat)
    requires HoldsLease(s, id, attempt)
    ensures var ops := [AckOp(id, attempt), AckOp(id, attempt)];
            && OutcomeAt(s, ops, 1) == NotFound && Immediate(NotFound)
            && PlanOf(s, ops[1]).outcome == Acked(s.live[id].queue)
  {
    var op := AckOp(id, attempt);
    var ops := [op, op];
    RunOne(s, Ack(id, attempt));
    assert ops[..1] == [op] && [op][..0] == [];
    assert ApplyAll(s, []) == s;
    assert ApplyAll(s, [op]) == Step(s, Ack(id, attempt));
  }

  /** What has to hold of a state for a refusal to be its answer. */
  predicate Grounds(s: State, op: Op, o: Outcome) {
    match o
    case NotFound => (op.AckOp? || op.NackOp? || op.ExtendOp?) && !IsLeased(s, op.id)
    case AttemptMismatch =>
      (op.AckOp? || op.NackOp? || op.ExtendOp?) && IsLeased(s, op.id) && !HoldsLease(s, op.id, op.attempt)
    case HasInflight => op.PurgeOp? && OwnedBy(s, LeaseKeys(s), op.queue) != {}
    case InvalidState => op.BuryOp? && !op.state.PeekReady? && !op.state.PeekScheduled?
    case _ => false
  }

  lemma RefusedOnGrounds(s: State, op: Op, o: Outcome)
    requires Immediate(o)
    ensures PlanOf(s, op).outcome == o <==> Grounds(s, op, o)
  {
    hide EnqueueAll, InsertAll, ReservePlan, KeyMoves, PurgeMoves, SweepMoves, Leftovers, DrainKeys, LeaseKeys,
         OwnedBy, Run;
  }

  /** A refusal sent in a cycle is the committed state's answer exactly when the committed state has
      the grounds for it: no lease of the job, a lease under another attempt, a lease in the queue;
      an invalid state is one everywhere. */
  lemma RefusalTrueExactly(s: State, ops: seq<Op>, i: nat)
    requires i < |ops| && Immediate(OutcomeAt(s, ops, i))
    ensures OutcomeAt(s, ops, i) == PlanOf(s, ops[i]).outcome <==> Grounds(s, ops[i], OutcomeAt(s, ops, i))
    ensures OutcomeAt(s, ops, i) == InvalidState ==> PlanOf(s, ops[i]).outcome == InvalidState
  {
    hide PlanOf, ApplyAll, Immediate;
    var o := OutcomeAt(s, ops, i);
    RefusedOnGrounds(s, ops[i], o);
    RefusedOnGrounds(ApplyAll(s, ops[..i]), ops[i], o);
  }

  // ---- Why a refusal can be untrue -------------------------------------------------------------

  predicate Begins(m: Move, id: Id) {
    m.Lease? && m.id == id
  }

  predicate Ends(m: Move, id: Id) {
    (m.Ack? || m.Nack? || m.Expire?) && m.id == id
  }

  function LeaseHeld(s: State, id: Id): Option<nat> {
    if IsLeased(s, id) then Some(s.live[id].place.attempt) else None
  }

  /** Leases begin with a lease move and end with an ack, a nack or an expiry of that job. */
  lemma LeaseStep(s: State, m: Move, id: Id)
    requires Inv(s)
    ensures !Begins(m, id) && LeaseHeld(Step(s, m), id).Some? ==> LeaseHeld(s, id) == LeaseHeld(Step(s, m), id)
    ensures !Ends(m, id) && LeaseHeld(s, id).Some? ==> LeaseHeld(Step(s, m), id) == LeaseHeld(s, id)
  {
    if !Touches(m, id) {
      StepFrame(s, m, id);
      assert Lookup(s.live, id) == Lookup(Step(s, m).live, id);
    }
  }

  ghost predicate NoneBegin(ms: seq<Move>, id: Id) {
    forall i :: 0 <= i < |ms| ==> !Begins(ms[i], id)
  }

  ghost predicate NoneEnd(ms: seq<Move>, id: Id) {
    forall i :: 0 <= i < |ms| ==> !Ends(ms[i], id)
  }

  lemma {:induction false} LeaseRun(s: State, ms: seq<Move>, id: Id)
    requires Inv(s)
    ensures NoneBegin(ms, id) && LeaseHeld(Run(s, ms), id).Some? ==> LeaseHeld(s, id) == LeaseHeld(Run(s, ms), id)
    ensures NoneEnd(ms, id) && LeaseHeld(s, id).Some? ==> LeaseHeld(Run(s, ms), id) == LeaseHeld(s, id)
  {
    if ms != [] {
      hide Inv, Step, Begins, Ends, LeaseHeld;
      var front := ms[..|ms| - 1];
      LeaseRun(s, front, id);
      RunInv(s, front);
      LeaseStep(Run(s, front), ms[|ms| - 1], id);
    }
  }

  /** An untrue refusal has a cause earlier in its cycle: a job wrongly said to be gone had its lease
      ended there, a wrong mismatch had one begun there, a queue wrongly said to hold leases had one
      of its jobs leased there. */
  ghost predicate HasCause(t: State, ms: seq<Move>, op: Op, o: Outcome) {
    match o
    case NotFound => (op.AckOp? || op.NackOp? || op.ExtendOp?) && !NoneEnd(ms, op.id)
    case AttemptMismatch => (op.AckOp? || op.NackOp? || op.ExtendOp?) && !NoneBegin(ms, op.id)
    case HasInflight => op.PurgeOp? && exists id :: id in t.live && t.live[id].queue == op.queue && !NoneBegin(ms, id)
    case _ => false
  }

  lemma UntrueGroundsHaveCause(s: State, ms: seq<Move>, op: Op, o: Outcome)
    requires Inv(s) && Immediate(o) && Grounds(Run(s, ms), op, o) && !Grounds(s, op, o)
    ensures HasCause(Run(s, ms), ms, op, o)
  {
    hide Inv, Run, LeaseKeys, NoneBegin, NoneEnd;
    var t := Run(s, ms);
    match o {
      case NotFound => LeaseRun(s, ms, op.id);
      case AttemptMismatch => LeaseRun(s, ms, op.id);
      case HasInflight =>
        var k :| k in OwnedBy(t, LeaseKeys(t), op.queue);
        LeaseRun(s, ms, k.jobId);
        LeasedKeyThere(s, t, ms, k, op.queue);
      case InvalidState =>
    }
  }

  /** A leased job of the queue that no lease move of the run touched was leased before it. */
  lemma LeasedKeyThere(s: State, t: State, ms: seq<Move>, k: Key, q: Queue)
    requires Inv(s) && t == Run(s, ms) && InLeases(t, k) && Owner(t, k) == q && OwnedBy(s, LeaseKeys(s), q) == {}
    requires NoneBegin(ms, k.jobId) ==> LeaseHeld(s, k.jobId) == LeaseHeld(t, k.jobId)
    ensures t.live[k.jobId].queue == q && !NoneBegin(ms, k.jobId)
  {
    hide Run, LeaseKeys, NoneBegin;
    if IsLeased(s, k.jobId) {
      QueueStays(s, ms, k.jobId);
      var k' := TimerKey(s.live[k.jobId].place.expiry, k.jobId);
      assert k' in LeaseKeys(s) ==> k' !in OwnedBy(s, LeaseKeys(s), q);
    }
  }

  lemma QueueStays(s: State, ms: seq<Move>, id: Id)
    requires Inv(s) && id in s.live
    ensures id in Run(s, ms).live ==> Run(s, ms).live[id].queue == s.live[id].queue
  {
    hide Run;
    assert id in s.used;
    IdentityNeverChanges(s, ms, id);
  }

  /** Every untrue refusal of a cycle has such a cause; so one is true whenever nothing before it in
      the cycle began or ended a lease it speaks of, whatever else was written. */
  lemma UntrueRefusalHasCause(s: State, ops: seq<Op>, i: nat)
    requires Inv(s) && Acceptable(s, ops) && i < |ops| && Immediate(OutcomeAt(s, ops, i))
    requires OutcomeAt(s, ops, i) != PlanOf(s, ops[i]).outcome
    ensures HasCause(ApplyAll(s, ops[..i]), History(s, ops[..i]), ops[i], OutcomeAt(s, ops, i))
  {
    hide PlanOf, ApplyAll, Immediate, Acceptable, History, Run, Legal, Grounds, HasCause, Inv;
    var o := OutcomeAt(s, ops, i);
    AcceptableFront(s, ops, i);
    HistoryLegal(s, ops[..i]);
    RefusedOnGrounds(s, ops[i], o);
    RefusedOnGrounds(ApplyAll(s, ops[..i]), ops[i], o);
    UntrueGroundsHaveCause(s, History(s, ops[..i]), ops[i], o);
  }

  /** In particular when no earlier move touches the job an ack, nack or extend names. */
  lemma RefusalTrueIfUntouched(s: State, ops: seq<Op>, i: nat)
    requires Inv(s) && Acceptable(s, ops) && i < |ops| && Immediate(OutcomeAt(s, ops, i))
    requires ops[i].AckOp? || ops[i].NackOp? || ops[i].ExtendOp?
    requires forall k :: 0 <= k < |History(s, ops[..i])| ==> !Touches(History(s, ops[..i])[k], ops[i].id)
    ensures OutcomeAt(s, ops, i) == PlanOf(s, ops[i]).outcome
  {
    hide PlanOf, ApplyAll, Acceptable, History, Inv;
    if OutcomeAt(s, ops, i) != PlanOf(s, ops[i]).outcome { UntrueRefusalHasCause(s, ops, i); }
  }

  /** When nothing before it in the cycle wrote anything, every answer is the committed state's. */
  lemma RefusalIsTrueUnlessWrittenBefore(s: State, ops: seq<Op>, i: nat)
    requires Acceptable(s, ops) && i < |ops| && History(s, ops[..i]) == []
    ensures OutcomeAt(s, ops, i) == PlanOf(s, ops[i]).outcome
  {
    hide PlanOf, OpOk;
    AcceptableFront(s, ops, i);
    HistoryLegal(s, ops[..i]);
    RunNone(s);
  }

  /** `Op::stamp`: the clock of every operation that reads one. */
  function Stamp(op: Op, now: int): Op {
    if op.AckOp? || op.DrainOp? || op.OpenOp? || op.DeleteOp? || op.PurgeOp? then op else op.(now := now)
  }

  function Stamped(cmds: seq<Op>, now: int): (ops: seq<Op>)
    ensures |ops| == |cmds| && forall i :: 0 <= i < |cmds| ==> ops[i] == Stamp(cmds[i], now)
  {
    seq(|cmds|, i requires 0 <= i < |cmds| => Stamp(cmds[i], now))
  }

  /** The clock an operation carries, if it goes by one. */
  function ClockOf(op: Op): Option<int> {
    match op
    case AckOp(_, _) => None
    case DrainOp(_, _, _) => None
    case OpenOp(_) => None
    case DeleteOp(_, _) => None
    case PurgeOp(_, _) => None
    case _ => Some(op.now)
  }

  /** A stamped operation goes by the stamp, whatever clock a proposer put in it, and is otherwise what
      was proposed: stamping it back gives it back. */
  lemma StampOverrides(s: State, op: Op, t: int, now: int)
    ensures PlanOf(s, Stamp(Stamp(op, t), now)) == PlanOf(s, Stamp(op, now))
    ensures OpOk(s, Stamp(op, now)) <==> OpOk(s, op)
    ensures ClockOf(op).Some? ==> ClockOf(Stamp(op, now)) == Some(now) && Stamp(Stamp(op, now), ClockOf(op).value) == op
    ensures ClockOf(op).None? ==> Stamp(op, now) == op
  {
    hide PlanOf;
  }

  class Committer {
    const engine: Engine
    var disk: Store

    /** The state of the last commit. */
    ghost var committed: State

    constructor ()
      ensures Valid() && committed == Empty
    {
      engine := new Engine();
      disk := NewStore;
      committed := Empty;
      new;
      AtRest();
    }

    /** What a restart relies on: disk alone holds the committed state. */
    ghost predicate OnDisk()
      reads this
    {
      engine.Distinct() && Mirrors(disk, Rebuild(disk), committed) && Inv(committed)
    }

    ghost predicate Valid()
      reads this, engine, engine.Repr()
    {
      OnDisk() && engine.Valid() && engine.tx == disk && engine.model == committed
    }

    lemma AtRest()
      requires engine.Valid() && engine.tx == disk && engine.model == committed
      ensures Valid()
    {
      hide Mirrors, Inv, Tallied, Run, Legal, NewReadyAll;
      RebuildMatches(disk, engine.View(), committed);
    }

    /** Start-up after a crash at any point: whatever memory held, indexes and counters come back as
        those of the last committed cycle. */
    method Restart()
      requires OnDisk()
      modifies this, engine.Repr()
      ensures Valid() && disk == old(disk) && committed == old(committed)
      ensures engine.View() == Rebuild(disk) && engine.Counts() == CountersOf(Rebuild(disk))
    {
      hide Mirrors, Inv, Tallied, Run, Legal, NewReadyAll, Rebuild, CountersOf;
      engine.Reload(disk, Rebuild(disk), committed);
      engine.MemoryIsRebuilt();
    }

    /** The operations of a cycle from one position to another. */
    method RunSome(ops: seq<Op>, from: nat, to: nat) returns (outcomes: seq<Outcome>)
      requires from <= to <= |ops| && Acceptable(committed, ops) && engine.Valid() && engine.base == committed
      requires engine.trace == History(committed, ops[..from]) && engine.model == ApplyAll(committed, ops[..from])
      modifies engine.Repr()
      ensures engine.Valid() && engine.base == committed
      ensures engine.trace == History(committed, ops[..to]) && engine.model == ApplyAll(committed, ops[..to])
      ensures |outcomes| == to - from
      ensures forall i :: from <= i < to ==> outcomes[i - from] == OutcomeAt(committed, ops, i)
    {
      hide Mirrors, Inv, Tallied, Run, Legal, NewReadyAll, Rebuild, PlanOf, OpOk, Acceptable, History, ApplyAll;
      outcomes := [];
      for k := from to to
        invariant engine.Valid() && engine.base == committed && |outcomes| == k - from
        invariant engine.trace == History(committed, ops[..k]) && engine.model == ApplyAll(committed, ops[..k])
        invariant forall i :: from <= i < k ==> outcomes[i - from] == OutcomeAt(committed, ops, i)
      {
        CycleSnoc(committed, ops, k);
        var o := engine.ApplyOp(ops[k]);
        outcomes := outcomes + [o];
      }
    }

    /** The commands of a cycle in order, up to the first storage error; a look at a queue's depths
        is answered on the spot, from the cycle as it stands. */
    method RunOps(ops: seq<Op>, look: Option<Look>, fault: Option<Fault>) returns (outcomes: seq<Outcome>,
                  seen: Option<Depths>)
      requires Valid() && Acceptable(committed, ops)
      modifies engine.Repr()
      ensures engine.Valid() && engine.base == committed && |outcomes| == Reach(fault, |ops|)
      ensures engine.trace == History(committed, ops[..|outcomes|])
      ensures engine.model == ApplyAll(committed, ops[..|outcomes|])
      ensures forall i :: 0 <= i < |outcomes| ==> outcomes[i] == OutcomeAt(committed, ops, i)
      ensures seen == SeenAt(committed, ops, look, fault)
    {
      hide Mirrors, Inv, Tallied, Run, Legal, NewReadyAll, Rebuild, PlanOf, OpOk, Acceptable, History, ApplyAll,
           DepthsIn;
      CycleStart(committed);
      engine.Begin();
      var n := Reach(fault, |ops|);
      seen := None;
      if look.Some? && look.value.at <= n {
        outcomes := RunSome(ops, 0, look.value.at);
        var d := engine.DepthCounts(look.value.queue);
        seen := Some(d);
        var rest := RunSome(ops, look.value.at, n);
        outcomes := outcomes + rest;
      } else {
        outcomes := RunSome(ops, 0, n);
      }
    }

    /** `run_rpc_cycle` (and, with a single sweep operation, `run_sweep_cycle`): every operation
        under the cycle's one clock reading. */
    method RunCycle(cmds: seq<Op>, now: int, look: Option<Look>, fault: Option<Fault>, commits: bool)
      returns (replies: seq<Reply>, woken: set<Queue>, landed: bool, seen: Option<Depths>)
      requires Valid() && Acceptable(committed, Stamped(cmds, now))
      modifies this, engine.Repr()
      ensures Valid() && |replies| == |cmds|
      ensures landed <==> Lands(old(committed), Stamped(cmds, now), fault, commits)
      ensures landed ==> committed == ApplyAll(old(committed), Stamped(cmds, now))
      ensures landed ==> woken == NewReadyAll(old(committed), History(old(committed), Stamped(cmds, now)))
      ensures landed ==>
                forall i :: 0 <= i < |cmds| ==> replies[i] == Told(OutcomeAt(old(committed), Stamped(cmds, now), i))
      ensures History(old(committed), Stamped(cmds, now)) == [] ==> disk == old(disk) && committed == old(committed)
      ensures !landed ==> disk == old(disk) && committed == old(committed) && woken == {}
      ensures !landed ==> engine.View() == old(engine.View()) && engine.Counts() == old(engine.Counts())
      ensures !landed ==>
                forall i :: 0 <= i < |cmds| ==> replies[i] == ReplyAt(old(committed), Stamped(cmds, now), fault, i)
      ensures seen == SeenAt(old(committed), Stamped(cmds, now), look, fault)
    {
      hide Mirrors, Inv, Tallied, Run, Legal, NewReadyAll, Rebuild, PlanOf, OpOk, Acceptable, History, ApplyAll,
           Immediate, DepthsIn, SeenAt, CountersOf;
      ghost var (s0, ix0) := (committed, engine.View());
      engine.MemoryIsRebuilt();
      var ops := Stamped(cmds, now);
      var outcomes: seq<Outcome>;
      outcomes, seen := RunOps(ops, look, fault);
      if |outcomes| < |ops| {
        engine.Fail(fault.value.left);
        replies := FailAll(outcomes, |ops|);
        RollBack(ix0);
        return replies, {}, false, seen;
      }
      assert ops[..|ops|] == ops;
      if engine.dirty && !commits {
        replies := FailAll(outcomes, |ops|);
        RollBack(ix0);
        return replies, {}, false, seen;
      }
      if engine.dirty {
        disk := engine.tx;
        committed := engine.model;
      } else {
        NothingNew(s0);
        MirrorIsUnique(disk, ix0, engine.tx, engine.View(), s0);
      }
      AtRest();
      replies := seq(|ops|, i requires 0 <= i < |ops| => Told(outcomes[i]));
      woken, landed := engine.newReady, true;
    }

    /** Drop the transaction and read memory back. */
    method RollBack(ghost ix: Indexes)
      requires OnDisk() && Mirrors(disk, ix, committed)
      modifies engine.Repr()
      ensures Valid() && engine.View() == ix && engine.Counts() == CountersOf(Rebuild(disk))
    {
      hide Mirrors, Inv, Tallied, Run, Legal, NewReadyAll, Rebuild, CountersOf;
      engine.Reload(disk, ix, committed);
      AtRest();
      engine.MemoryIsRebuilt();
    }
  }
}
