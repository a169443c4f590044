/** The admin handler that deletes a queue: close, look at the depths, purge in chunks, open, with
    any other callers' cycles in between and any other operations in the same cycles. */
module Handler {
  import opened Bytes
  import opened Keys
  import opened Machine
  import opened Ops
  import opened Legality
  import opened Rows
  import opened Tables
  import opened Lockstep
  import opened Deletion
  import opened Reachable
  import opened Committer
  import opened Traffic

  datatype Answer = Deleted(purged: nat) | Inflight | NotEmpty | StorageError

  // ---- What can happen around the handler ---------------------------------------------------------

  /** Around one chunk: cycles before it, its own cycle, cycles after it, the cycle of the handler's
      next operation (the refreshed close, or the open if the chunk was the last), and cycles and
      a cycle for the open if the refresh fails. */
  datatype Turn = Turn(gap: seq<Round>, chunk: Ride, rest: seq<Round>, next: Ride, last: seq<Round>, open: Ride)

  /** Around the look at the depths: cycles before it, the cycle it is answered in and after how many
      of its operations, and cycles and a cycle for the open if it refuses. */
  datatype Glance = Glance(gap: seq<Round>, round: Round, at: nat, rest: seq<Round>, open: Ride)

  function Company(r: Ride): seq<Op> {
    r.before + r.after
  }

  function TurnOps(t: Turn): seq<Op> {
    RoundsOps(t.gap) + (Company(t.chunk)
                        + (RoundsOps(t.rest) + (Company(t.next) + (RoundsOps(t.last) + Company(t.open)))))
  }

  function TurnsOps(turns: seq<Turn>): seq<Op> {
    if turns == [] then [] else TurnOps(turns[0]) + TurnsOps(turns[1..])
  }

  function GlanceOps(g: Glance): seq<Op> {
    RoundsOps(g.gap) + (g.round.cmds + (RoundsOps(g.rest) + Company(g.open)))
  }

  predicate QuietRide(r: Ride, q: Queue, until: int, then': int) {
    AllQuiet(Stamped(r.before, r.now), q, until) && AllQuiet(Stamped(r.after, r.now), q, then')
  }

  /** Nobody else closes the queue: deletions hold one lock. */
  predicate NoneClose(ops: seq<Op>, q: Queue) {
    forall k :: 0 <= k < |ops| && ops[k].CloseOp? ==> ops[k].queue != q
  }

  /** Until the open the company is quiet; after it, anything but another close. */
  predicate QuietOpen(rest: seq<Round>, open: Ride, q: Queue, until: int) {
    QuietRounds(rest, q, until) && AllQuiet(Stamped(open.before, open.now), q, until) && NoneClose(open.after, q)
  }

  predicate QuietTurn(t: Turn, q: Queue, grace: nat, until: int) {
    && QuietRounds(t.gap, q, until) && QuietRide(t.chunk, q, until, until) && QuietRounds(t.rest, q, until)
    && QuietRide(t.next, q, until, SatAdd(t.next.now, grace)) && QuietOpen(t.last, t.open, q, until)
  }

  /** Every clock is before the end of the tombstone as last refreshed. */
  predicate QuietTurns(turns: seq<Turn>, q: Queue, grace: nat, until: int) {
    turns == [] || (QuietTurn(turns[0], q, grace, until)
                    && QuietTurns(turns[1..], q, grace, SatAdd(turns[0].next.now, grace)))
  }

  predicate QuietGlance(g: Glance, q: Queue, until: int) {
    && g.at <= |g.round.cmds| && QuietRounds(g.gap, q, until)
    && AllQuiet(Stamped(g.round.cmds, g.round.now), q, until) && QuietOpen(g.rest, g.open, q, until)
  }

  const Idle: Turn := Turn([], Alone, [], Alone, [], Alone)

  lemma IdleQuiet(q: Queue, grace: nat, until: int)
    ensures QuietTurn(Idle, q, grace, until) && TurnOps(Idle) == []
  {
  }

  // ---- Running them --------------------------------------------------------------------------------

  /** Other callers' cycles, one after another. */
  method Others(c: Committer, rs: seq<Round>, ghost rest: seq<Op>, ghost q: Queue, ghost until: int, ghost n: nat)
    requires c.Valid() && Shut(c.committed, q, until, n) && QuietRounds(rs, q, until)
    requires FreshOps(c.committed.used, RoundsOps(rs) + rest)
    modifies c, c.engine.Repr()
    ensures c.Valid() && Shut(c.committed, q, until, n) && FreshOps(c.committed.used, rest)
    ensures c.committed == RoundsEnd(old(c.committed), rs)
  {
    hide Mirrors, Inv, Run, Legal, Tallied, NewReadyAll, Rebuild, Total, ApplyAll, Acceptable, History, FreshOps,
         AllQuiet, Stamped, Shut, PlanOf, Immediate, SeenAt, ReplyAt, CountersOf;
    var i := 0;
    assert rs[0..] == rs;
    while i < |rs|
      invariant 0 <= i <= |rs| && c.Valid() && Shut(c.committed, q, until, n)
      invariant FreshOps(c.committed.used, RoundsOps(rs[i..]) + rest)
      invariant c.committed == RoundsEnd(old(c.committed), rs[..i])
    {
      ghost var s := c.committed;
      var r := rs[i];
      assert rs[i..][0] == r && rs[i..][1..] == rs[i + 1..];
      assert RoundsOps(rs[i..]) + rest == r.cmds + (RoundsOps(rs[i + 1..]) + rest);
      FreshAfterCycle(s, r.cmds, r.now, r.fault, r.commits, RoundsOps(rs[i + 1..]) + rest);
      QuietCycle(s, Stamped(r.cmds, r.now), r.fault, r.commits, q, until, n);
      var _, _, _, _ := c.RunCycle(r.cmds, r.now, None, r.fault, r.commits);
      assert rs[..i + 1][..i] == rs[..i] && rs[..i + 1][i] == r;
      i := i + 1;
    }
    assert rs[..i] == rs;
    assert RoundsOps(rs[i..]) + rest == rest;
  }

  /** Propose one operation and wait for its cycle. Its caller hears the outcome it had there, a
      refusal at once and anything else once the cycle has landed. */
  method Submit(c: Committer, r: Ride, op: Op, ghost rest: seq<Op>) returns (o: Option<Outcome>)
    requires c.Valid() && !op.EnqueueOp? && !op.EnqueueAtomicOp? && FreshOps(c.committed.used, Company(r) + rest)
    modifies c, c.engine.Repr()
    ensures c.Valid() && FreshOps(c.committed.used, rest)
    ensures c.committed == RideEnd(old(c.committed), r, op)
    ensures o.Some? ==> o.value == PlanOf(Boarding(old(c.committed), r), Stamp(op, r.now)).outcome
    ensures o.Some? ==> Immediate(o.value) || Lands(old(c.committed), RideOps(r, op), r.fault, r.commits)
    ensures o.None? ==> !Lands(old(c.committed), RideOps(r, op), r.fault, r.commits) && !Smooth(r)
  {
    hide Mirrors, Inv, Run, Legal, Tallied, NewReadyAll, Rebuild, ApplyAll, Acceptable, History, FreshOps, Stamped,
         PlanOf, Immediate, SeenAt, CountersOf, Ids, OutcomeAt, Boarding;
    ghost var s := c.committed;
    FreshRide(s.used, r, op, rest);
    FreshAfterCycle(s, RideCmds(r, op), r.now, r.fault, r.commits, rest);
    RideParts(s, r, op);
    var replies, _, _, _ := c.RunCycle(RideCmds(r, op), r.now, None, r.fault, r.commits);
    var reply := replies[|r.before|];
    o := if reply.Told? then Some(reply.outcome) else None;
  }

  lemma RideLands(s: State, r: Ride, op: Op)
    ensures RideEnd(s, r, op) == if Lands(s, RideOps(r, op), r.fault, r.commits) then ApplyAll(s, RideOps(r, op)) else s
  {
  }

  // ---- The chunk ------------------------------------------------------------------------------------

  /** What a chunk does to the queue in company. */
  lemma ChunkRide(s: State, r: Ride, q: Queue, max: nat, until: int, n: nat)
    requires Shut(s, q, until, n) && max >= 1 && QuietRide(r, q, until, until)
    ensures var b := Boarding(s, r);
            var (o, e) := (PlanOf(b, PurgeOp(q, max)).outcome, ApplyAll(s, RideOps(r, PurgeOp(q, max))));
            && (o == HasInflight || o.Purged?) && Shut(e, q, until, n)
            && (o == HasInflight ==> OwnedBy(b, LeaseKeys(b), q) != {})
            && (o.Purged? ==> o.count <= n && Shut(e, q, until, n - o.count))
            && (o.Purged? && o.remaining ==> o.count >= 1)
            && (o.Purged? && !o.remaining ==> Shut(e, q, until, 0))
  {
    hide Inv, Total, Tombstoned, ApplyAll, PlanOf, OwnedBy, LeaseKeys, Stamped, Apply;
    var (b, op) := (Boarding(s, r), PurgeOp(q, max));
    RideParts(s, r, op);
    QuietCycle(s, Stamped(r.before, r.now), None, true, q, until, n);
    PurgeChunk(b, q, max);
    OpNeverGrowsClosing(b, op, q, until);
    QuietCycle(Apply(b, op), Stamped(r.after, r.now), None, true, q, until, Total(Apply(b, op), q));
  }

  /** The state a turn's chunk is applied in. */
  ghost function ChunkState(s: State, t: Turn): State {
    Boarding(RoundsEnd(s, t.gap), t.chunk)
  }

  /** The state a chunk leaves, with the cycles around it. */
  ghost function ChunkEnd(s: State, t: Turn, q: Queue, max: nat): State {
    RoundsEnd(RideEnd(RoundsEnd(s, t.gap), t.chunk, PurgeOp(q, max)), t.rest)
  }

  /** Cycles of others, the chunk's cycle, cycles of others. */
  method PurgeTurn(c: Committer, q: Queue, max: nat, t: Turn, ghost rest: seq<Op>, ghost until: int, ghost n: nat)
    returns (o: Option<Outcome>)
    requires c.Valid() && max >= 1 && Shut(c.committed, q, until, n)
    requires QuietRounds(t.gap, q, until) && QuietRide(t.chunk, q, until, until) && QuietRounds(t.rest, q, until)
    requires FreshOps(c.committed.used, RoundsOps(t.gap) + (Company(t.chunk) + (RoundsOps(t.rest) + rest)))
    modifies c, c.engine.Repr()
    ensures c.Valid() && FreshOps(c.committed.used, rest) && Shut(c.committed, q, until, n)
    ensures c.committed == ChunkEnd(old(c.committed), t, q, max)
    ensures o.None? ==> !Smooth(t.chunk)
    ensures o.Some? ==> o.value == PlanOf(ChunkState(old(c.committed), t), PurgeOp(q, max)).outcome
    ensures o.Some? ==> o.value == HasInflight || o.value.Purged?
    ensures o.Some? && o.value.Purged? ==> o.value.count <= n && Shut(c.committed, q, until, n - o.value.count)
    ensures o.Some? && o.value.Purged? && o.value.remaining ==> o.value.count >= 1
    ensures o.Some? && o.value.Purged? && !o.value.remaining ==> Shut(c.committed, q, until, 0)
  {
    hide Mirrors, Inv, Run, Legal, Tallied, NewReadyAll, Rebuild, ApplyAll, PlanOf, FreshOps, Shut, Stamped,
         QuietRounds, RoundsOps, Boarding, RideOps, RideEnd, RoundsEnd, OwnedBy, LeaseKeys, Lands, Company;
    RideLands(RoundsEnd(c.committed, t.gap), t.chunk, PurgeOp(q, max));
    Others(c, t.gap, Company(t.chunk) + (RoundsOps(t.rest) + rest), q, until, n);
    ghost var s := c.committed;
    ChunkRide(s, t.chunk, q, max, until, n);
    o := Submit(c, t.chunk, PurgeOp(q, max), RoundsOps(t.rest) + rest);
    ghost var m := if o.None? || o.value == HasInflight then n else if o.value.remaining then n - o.value.count else 0;
    assert Shut(c.committed, q, until, m);
    Others(c, t.rest, rest, q, until, m);
    ShutLess(c.committed, q, until, m, n);
    if o.Some? && o.value.Purged? { ShutLess(c.committed, q, until, m, n - o.value.count); }
  }

  lemma ShutLess(s: State, q: Queue, until: int, m: nat, n: nat)
    requires Shut(s, q, until, m)
    ensures m <= n ==> Shut(s, q, until, n)
  {
  }

  // ---- The look -------------------------------------------------------------------------------------

  /** What the depths say about deleting; no depths, no answer. */
  function Verdict(seen: Option<Depths>, purge: bool): Option<Answer> {
    if seen.None? then Some(StorageError)
    else if seen.value.inflight > 0 then Some(Inflight)
    else if !purge && (seen.value.ready > 0 || seen.value.scheduled > 0 || seen.value.deadLetter > 0)
    then Some(NotEmpty)
    else None
  }

  /** The exact depths decide whether the queue can be drained at all. They are answered inside a
      cycle, from the cycle as it stands. */
  method CheckDeletable(c: Committer, q: Queue, purge: bool, g: Glance, ghost rest: seq<Op>, ghost until: int,
                        ghost n: nat)
    returns (refusal: Option<Answer>)
    requires c.Valid() && Shut(c.committed, q, until, n) && AllQuiet(Stamped(g.round.cmds, g.round.now), q, until)
    requires FreshOps(c.committed.used, g.round.cmds + rest)
    modifies c, c.engine.Repr()
    ensures c.Valid() && Shut(c.committed, q, until, n) && FreshOps(c.committed.used, rest)
    ensures c.committed
            == CycleEnd(old(c.committed), Stamped(g.round.cmds, g.round.now), g.round.fault, g.round.commits)
    ensures var ops := Stamped(g.round.cmds, g.round.now);
            refusal == Verdict(SeenAt(old(c.committed), ops, Some(Look(g.at, q)), g.round.fault), purge)
  {
    hide Mirrors, Inv, Run, Legal, Tallied, NewReadyAll, Rebuild, ApplyAll, Acceptable, History, FreshOps, Stamped,
         PlanOf, Immediate, SeenAt, CountersOf, ReplyAt, Shut, AllQuiet;
    ghost var s := c.committed;
    FreshAfterCycle(s, g.round.cmds, g.round.now, g.round.fault, g.round.commits, rest);
    QuietCycle(s, Stamped(g.round.cmds, g.round.now), g.round.fault, g.round.commits, q, until, n);
    var _, _, _, seen := c.RunCycle(g.round.cmds, g.round.now, Some(Look(g.at, q)), g.round.fault, g.round.commits);
    refusal := Verdict(seen, purge);
  }

  lemma Unanswered(s: State, ops: seq<Op>, look: Look, fault: Option<Fault>)
    ensures SeenAt(s, ops, Some(look), fault).None? ==> fault.Some? || look.at > |ops|
  {
    hide ApplyAll, DepthsIn;
  }

  /** When the cycle of the look lands with nothing after it, a refusal is of the committed state. */
  lemma LookAtLastIsTrue(s: State, ops: seq<Op>, q: Queue, fault: Option<Fault>, commits: bool)
    requires Lands(s, ops, fault, commits)
    ensures SeenAt(s, ops, Some(Look(|ops|, q)), fault) == Some(DepthsIn(CycleEnd(s, ops, fault, commits), q))
  {
    hide ApplyAll, DepthsIn, History;
    assert ops[..|ops|] == ops;
  }

  // ---- The drain -------------------------------------------------------------------------------------

  lemma RefreshRide(s: State, r: Ride, q: Queue, grace: nat, until: int, n: nat)
    requires Shut(s, q, until, n) && QuietRide(r, q, until, SatAdd(r.now, grace))
    ensures Shut(ApplyAll(s, RideOps(r, CloseOp(q, 0, grace))), q, SatAdd(r.now, grace), n)
  {
    hide Inv, Total, Tombstoned, ApplyAll, Stamped, Apply;
    var (b, op) := (Boarding(s, r), CloseOp(q, 0, grace));
    RideParts(s, r, op);
    assert Stamp(op, r.now) == CloseOp(q, r.now, grace);
    QuietCycle(s, Stamped(r.before, r.now), None, true, q, until, n);
    CloseRefreshes(b, q, r.now, grace);
    QuietCycle(Apply(b, Stamp(op, r.now)), Stamped(r.after, r.now), None, true, q, SatAdd(r.now, grace), n);
  }

  /** The schedule from turn `i` on, idle once it runs out. */
  function TurnAt(turns: seq<Turn>, i: nat): Turn {
    if i < |turns| then turns[i] else Idle
  }

  function From(turns: seq<Turn>, i: nat): seq<Turn> {
    if i < |turns| then turns[i..] else []
  }

  lemma NextTurn(turns: seq<Turn>, i: nat, q: Queue, grace: nat, until: int)
    requires QuietTurns(From(turns, i), q, grace, until)
    ensures var t := TurnAt(turns, i);
            && QuietTurn(t, q, grace, until) && QuietTurns(From(turns, i + 1), q, grace, SatAdd(t.next.now, grace))
            && TurnsOps(From(turns, i)) == TurnOps(t) + TurnsOps(From(turns, i + 1))
            && TurnOps(t) + TurnsOps(From(turns, i + 1)) == RoundsOps(t.gap) + (Company(t.chunk) + (RoundsOps(t.rest)
                 + (Company(t.next) + (RoundsOps(t.last) + (Company(t.open) + TurnsOps(From(turns, i + 1)))))))
  {
    hide QuietTurn, RoundsOps, Company;
    if i < |turns| {
      assert turns[i..][0] == turns[i] && turns[i..][1..] == From(turns, i + 1);
    } else {
      IdleQuiet(q, grace, until);
    }
  }

  /** What a handler that stops here leaves for the open. */
  ghost predicate ReadyToOpen(s: State, rest: seq<Round>, open: Ride, q: Queue, until: int, n: nat) {
    Shut(s, q, until, n) && QuietOpen(rest, open, q, until) && FreshOps(s.used, RoundsOps(rest) + Company(open))
  }

  lemma QuietNextOpens(t: Turn, q: Queue, grace: nat, until: int)
    requires QuietTurn(t, q, grace, until)
    ensures QuietOpen([], t.next, q, until)
  {
    forall k | 0 <= k < |t.next.after| && t.next.after[k].CloseOp? ensures t.next.after[k].queue != q {
      assert QuietOp(Stamped(t.next.after, t.next.now)[k], q, SatAdd(t.next.now, grace));
    }
  }

  lemma StopHere(s: State, open: Ride, more: seq<Op>, q: Queue, until: int, n: nat)
    requires Shut(s, q, until, n) && QuietOpen([], open, q, until) && FreshOps(s.used, Company(open) + more)
    ensures ReadyToOpen(s, [], open, q, until, n)
  {
    hide FreshOps, Company;
    FreshSplit(s.used, Company(open), more);
    assert RoundsOps([]) + Company(open) == Company(open);
  }

  lemma StopLater(s: State, rest: seq<Round>, open: Ride, more: seq<Op>, q: Queue, until: int, n: nat)
    requires Shut(s, q, until, n) && QuietOpen(rest, open, q, until)
    requires FreshOps(s.used, RoundsOps(rest) + (Company(open) + more))
    ensures ReadyToOpen(s, rest, open, q, until, n)
  {
    hide FreshOps, Company, RoundsOps;
    assert RoundsOps(rest) + (Company(open) + more) == (RoundsOps(rest) + Company(open)) + more;
    FreshSplit(s.used, RoundsOps(rest) + Company(open), more);
  }

  lemma FreshTail(used: set<Id>, a: seq<Op>, b: seq<Op>)
    requires FreshOps(used, a + b)
    ensures FreshOps(used, b)
  {
    FreshSplit(used, a, b);
  }

  ghost function TurnEnd(s: State, t: Turn, q: Queue, max: nat, grace: nat): State {
    RideEnd(ChunkEnd(s, t, q, max), t.next, CloseOp(q, 0, grace))
  }

  /** The state turn `i` starts in. */
  ghost function PlayedTo(s: State, turns: seq<Turn>, q: Queue, max: nat, grace: nat, i: nat): State {
    if i == 0 then s else TurnEnd(PlayedTo(s, turns, q, max, grace, i - 1), TurnAt(turns, i - 1), q, max, grace)
  }

  /** One turn of the loop: the chunk with its surroundings and, if more remains, the refresh. `done`
      says why the loop ends here, if it does, and what then surrounds the open. */
  method DrainTurn(c: Committer, q: Queue, max: nat, grace: nat, t: Turn, ghost more: seq<Op>, ghost until: int,
                   ghost n: nat)
    returns (count: nat, done: Option<Answer>, rest: seq<Round>, open: Ride)
    requires c.Valid() && max >= 1 && Shut(c.committed, q, until, n) && QuietTurn(t, q, grace, until)
    requires FreshOps(c.committed.used, RoundsOps(t.gap) + (Company(t.chunk) + (RoundsOps(t.rest)
               + (Company(t.next) + (RoundsOps(t.last) + (Company(t.open) + more))))))
    modifies c, c.engine.Repr()
    ensures c.Valid() && count <= n
    ensures done.None? ==> count >= 1 && Shut(c.committed, q, SatAdd(t.next.now, grace), n - count)
    ensures done.None? ==> FreshOps(c.committed.used, more)
    ensures done.Some? ==> !done.value.NotEmpty? && ReadyToOpen(c.committed, rest, open, q, until, n - count)
    ensures done.None? ==> c.committed == TurnEnd(old(c.committed), t, q, max, grace)
    ensures done == Some(Inflight) ==> Grounds(ChunkState(old(c.committed), t), PurgeOp(q, max), HasInflight)
    ensures done.Some? && done.value.Deleted? ==> Shut(c.committed, q, until, 0)
    ensures done == Some(StorageError) ==> !(Smooth(t.chunk) && Smooth(t.next))
  {
    hide Mirrors, Inv, Run, Legal, Tallied, NewReadyAll, Rebuild, ApplyAll, PlanOf, FreshOps, Shut, Stamped,
         QuietRounds, RoundsOps, Boarding, RideOps, RideEnd, RoundsEnd, Lands, Company, AllQuiet, NoneClose,
         ReadyToOpen, Grounds, ChunkEnd, ChunkState;
    RideLands(ChunkEnd(c.committed, t, q, max), t.next, CloseOp(q, 0, grace));
    RefusedOnGrounds(ChunkState(c.committed, t), PurgeOp(q, max), HasInflight);
    count, rest, open := 0, [], t.next;
    ghost var after := RoundsOps(t.last) + (Company(t.open) + more);
    QuietNextOpens(t, q, grace, until);
    var o := PurgeTurn(c, q, max, t, Company(t.next) + after, until, n);
    if o.None? || o.value == HasInflight {
      StopHere(c.committed, t.next, after, q, until, n);
      return 0, Some(if o.None? then StorageError else Inflight), [], t.next;
    }
    count := o.value.count;
    if !o.value.remaining {
      StopHere(c.committed, t.next, after, q, until, n - count);
      return count, Some(Deleted(count)), [], t.next;
    }
    ghost var s := c.committed;
    RefreshRide(s, t.next, q, grace, until, n - count);
    var refreshed := Submit(c, t.next, CloseOp(q, 0, grace), after);
    CloseIsNoRefusal(Boarding(s, t.next), q, t.next.now, grace);
    if refreshed.None? {
      StopLater(c.committed, t.last, t.open, more, q, until, n - count);
      return count, Some(StorageError), t.last, t.open;
    }
    done := None;
    assert after == (RoundsOps(t.last) + Company(t.open)) + more;
    FreshTail(c.committed.used, RoundsOps(t.last) + Company(t.open), more);
  }

  lemma CloseIsNoRefusal(s: State, q: Queue, now: int, grace: nat)
    ensures !Immediate(PlanOf(s, Stamp(CloseOp(q, 0, grace), now)).outcome)
  {
  }

  /** A lease of the queue is there when the chunk of turn `i` comes. */
  ghost predicate HeldAt(s: State, turns: seq<Turn>, q: Queue, max: nat, grace: nat, i: nat) {
    Grounds(ChunkState(PlayedTo(s, turns, q, max, grace, i), TurnAt(turns, i)), PurgeOp(q, max), HasInflight)
  }

  /** `drain_queue`: look, then purge chunk after chunk, refreshing the tombstone, until nothing
      remains. */
  method DrainQueue(c: Committer, q: Queue, purge: bool, max: nat, grace: nat, g: Glance, turns: seq<Turn>,
                    ghost until: int, ghost n: nat)
    returns (a: Answer, rest: seq<Round>, open: Ride, ghost end: int)
    requires c.Valid() && max >= 1 && Shut(c.committed, q, until, n)
    requires QuietGlance(g, q, until) && QuietTurns(turns, q, grace, until)
    requires FreshOps(c.committed.used, GlanceOps(g) + TurnsOps(turns))
    modifies c, c.engine.Repr()
    ensures c.Valid() && ReadyToOpen(c.committed, rest, open, q, end, n)
    ensures a.Deleted? ==> a.purged <= n && Total(c.committed, q) == 0 && NoRowsOf(c.disk, q)
    ensures var s := RoundsEnd(old(c.committed), g.gap);
            var ops := Stamped(g.round.cmds, g.round.now);
            var verdict := Verdict(SeenAt(s, ops, Some(Look(g.at, q)), g.round.fault), purge);
            && (verdict.Some? ==> a == verdict.value) && (a.NotEmpty? ==> verdict.Some?)
            && (a.Inflight? && verdict.None? ==>
                  exists i: nat :: HeldAt(CycleEnd(s, ops, g.round.fault, g.round.commits), turns, q, max, grace, i))
    ensures a.StorageError? ==>
              g.round.fault.Some? || exists i :: 0 <= i < |turns| && !(Smooth(turns[i].chunk) && Smooth(turns[i].next))
  {
    hide Mirrors, Inv, Run, Legal, Tallied, NewReadyAll, Rebuild, ApplyAll, PlanOf, FreshOps, Shut, Stamped,
         QuietRounds, RoundsOps, Boarding, RideOps, Lands, Company, AllQuiet, NoneClose, ReadyToOpen, QuietTurns,
         TurnsOps, NoRowsOf, TurnAt, From, DepthsIn, Grounds, ChunkState, TurnEnd, RoundsEnd, CycleEnd, SeenAt;
    end := until;
    ghost var (tail, later) := (RoundsOps(g.rest) + Company(g.open), TurnsOps(turns));
    assert GlanceOps(g) + later == RoundsOps(g.gap) + (g.round.cmds + (tail + later));
    Others(c, g.gap, g.round.cmds + (tail + later), q, until, n);
    var refusal := CheckDeletable(c, q, purge, g, tail + later, until, n);
    if refusal.Some? {
      Unanswered(RoundsEnd(old(c.committed), g.gap), Stamped(g.round.cmds, g.round.now), Look(g.at, q), g.round.fault);
      assert tail + later == RoundsOps(g.rest) + (Company(g.open) + later);
      StopLater(c.committed, g.rest, g.open, later, q, until, n);
      return refusal.value, g.rest, g.open, until;
    }
    FreshTail(c.committed.used, tail, later);
    FromStart(turns);
    var purged: nat, i: nat := 0, 0;
    ghost var m: nat := n;
    ghost var s := c.committed;
    while true
      invariant c.committed == PlayedTo(s, turns, q, max, grace, i)
      invariant c.Valid() && Shut(c.committed, q, end, m) && m + purged <= n
      invariant QuietTurns(From(turns, i), q, grace, end) && FreshOps(c.committed.used, TurnsOps(From(turns, i)))
      decreases m
    {
      var t := TurnAt(turns, i);
      NextTurn(turns, i, q, grace, end);
      var count, done;
      count, done, rest, open := DrainTurn(c, q, max, grace, t, TurnsOps(From(turns, i + 1)), end, m);
      purged := purged + count;
      if done.Some? {
        OpenLess(c.committed, rest, open, q, end, m - count, n);
        if done.value.Deleted? {
          a := Deleted(purged);
          NothingOnDisk(c.disk, Rebuild(c.disk), c.committed, q, end);
          return;
        }
        FailingTurn(turns, i);
        assert done.value.Inflight? ==> HeldAt(s, turns, q, max, grace, i);
        a := done.value;
        return;
      }
      end, m, i := SatAdd(t.next.now, grace), m - count, i + 1;
    }
  }

  lemma FromStart(turns: seq<Turn>)
    ensures From(turns, 0) == turns
  {
  }

  lemma FailingTurn(turns: seq<Turn>, i: nat)
    ensures !(Smooth(TurnAt(turns, i).chunk) && Smooth(TurnAt(turns, i).next)) ==>
              exists k :: 0 <= k < |turns| && !(Smooth(turns[k].chunk) && Smooth(turns[k].next))
  {
  }

  lemma OpenLess(s: State, rest: seq<Round>, open: Ride, q: Queue, until: int, m: nat, n: nat)
    requires ReadyToOpen(s, rest, open, q, until, m) && m <= n
    ensures ReadyToOpen(s, rest, open, q, until, n)
  {
    ShutLess(s, q, until, m, n);
  }

  lemma NothingOnDisk(disk: Store, ix: Indexes, s: State, q: Queue, until: int)
    requires Mirrors(disk, ix, s) && Shut(s, q, until, 0)
    ensures Total(s, q) == 0 && NoRowsOf(disk, q)
  {
    hide Mirrors, NoRowsOf;
    EmptyQueueHasNoRows(disk, ix, s, q);
  }

  // ---- Deleting ---------------------------------------------------------------------------------------

  lemma CloseRide(s: State, r: Ride, q: Queue, grace: nat)
    requires Inv(s) && AllQuiet(Stamped(r.after, r.now), q, SatAdd(r.now, grace))
    ensures var e := ApplyAll(s, RideOps(r, CloseOp(q, 0, grace))); Shut(e, q, SatAdd(r.now, grace), Total(e, q))
  {
    hide Inv, Total, Tombstoned, ApplyAll, Stamped, Apply;
    var (b, op) := (Boarding(s, r), CloseOp(q, 0, grace));
    RideParts(s, r, op);
    assert Stamp(op, r.now) == CloseOp(q, r.now, grace);
    RunsKeepInv(s, Stamped(r.before, r.now));
    CloseRefreshes(b, q, r.now, grace);
    var t := Apply(b, Stamp(op, r.now));
    QuietCycle(t, Stamped(r.after, r.now), None, true, q, SatAdd(r.now, grace), Total(t, q));
  }

  lemma {:induction false} RunsKeepInv(s: State, ops: seq<Op>)
    requires Inv(s)
    ensures Inv(ApplyAll(s, ops))
  {
    hide Inv, PlanOf;
    if ops != [] {
      RunsKeepInv(s, ops[..|ops| - 1]);
      RunInv(ApplyAll(s, ops[..|ops| - 1]), PlanOf(ApplyAll(s, ops[..|ops| - 1]), ops[|ops| - 1]).moves);
    }
  }

  lemma OpenedStep(s: State, m: Move, q: Queue)
    requires q !in s.closing && (m.Close? ==> m.queue != q)
    ensures q !in Step(s, m).closing
  {
  }

  lemma {:induction false} OpenedRun(s: State, ms: seq<Move>, q: Queue)
    requires q !in s.closing && forall i :: 0 <= i < |ms| && ms[i].Close? ==> ms[i].queue != q
    ensures q !in Run(s, ms).closing
  {
    hide Step;
    if ms != [] {
      OpenedRun(s, ms[..|ms| - 1], q);
      OpenedStep(Run(s, ms[..|ms| - 1]), ms[|ms| - 1], q);
    }
  }

  /** Only a close of the queue closes it. */
  lemma {:induction false} StaysOpen(s: State, ops: seq<Op>, q: Queue)
    requires q !in s.closing && NoneClose(ops, q)
    ensures q !in ApplyAll(s, ops).closing
  {
    hide PlanOf, Run;
    if ops != [] {
      var (front, op) := (ops[..|ops| - 1], ops[|ops| - 1]);
      StaysOpen(s, front, q);
      var t := ApplyAll(s, front);
      PlanKinds(t, op);
      var ms := PlanOf(t, op).moves;
      forall i | 0 <= i < |ms| && ms[i].Close? ensures ms[i].queue != q { assert Kind(op, ms[i]); }
      OpenedRun(t, ms, q);
    }
  }

  lemma OpenClears(s: State, q: Queue)
    ensures q !in Apply(s, OpenOp(q)).closing
  {
    RunOne(s, Open(q));
    RunNone(s);
  }

  /** The open's cycle, if it lands, leaves the queue open. */
  lemma OpenRide(s: State, r: Ride, q: Queue, until: int, n: nat)
    requires Shut(s, q, until, n) && AllQuiet(Stamped(r.before, r.now), q, until) && NoneClose(r.after, q)
    ensures Shut(Boarding(s, r), q, until, n) && q !in ApplyAll(s, RideOps(r, OpenOp(q))).closing
  {
    hide Inv, Total, Tombstoned, ApplyAll, Apply;
    RideParts(s, r, OpenOp(q));
    QuietCycle(s, Stamped(r.before, r.now), None, true, q, until, n);
    OpenClears(Boarding(s, r), q);
    StaysOpen(Apply(Boarding(s, r), OpenOp(q)), Stamped(r.after, r.now), q);
  }

  /** `delete_queue`, its storage side, against every interleaving. If the close lands the handler
      always gets to the open, riding in `exit`, and `at` and `rows` are the committed state and the disk just before
      the open's cycle: a queue reported deleted has no row in any keyspace there and still owns
      nothing when the open itself is applied. If that cycle lands the tombstone is gone. */
  method DeleteQueue(c: Committer, q: Queue, purge: bool, max: nat, grace: nat, close: Ride, g: Glance,
                     turns: seq<Turn>)
    returns (a: Answer, ghost exit: Option<Ride>, ghost at: State, ghost rows: Store)
    requires c.Valid() && max >= 1 && AllQuiet(Stamped(close.after, close.now), q, SatAdd(close.now, grace))
    requires QuietGlance(g, q, SatAdd(close.now, grace)) && QuietTurns(turns, q, grace, SatAdd(close.now, grace))
    requires FreshOps(c.committed.used, Company(close) + (GlanceOps(g) + TurnsOps(turns)))
    modifies c, c.engine.Repr()
    ensures c.Valid()
    ensures exit.None? <==> !Lands(old(c.committed), RideOps(close, CloseOp(q, 0, grace)), close.fault, close.commits)
    ensures exit.None? ==> a == StorageError && c.committed == old(c.committed)
    ensures exit.Some? ==> c.committed == RideEnd(at, exit.value, OpenOp(q)) && Mirrors(rows, Rebuild(rows), at)
    ensures exit.Some? && Lands(at, RideOps(exit.value, OpenOp(q)), exit.value.fault, exit.value.commits) ==>
              q !in c.committed.closing
    ensures a.Deleted? ==> exit.Some? && NoRowsOf(rows, q) && Total(Boarding(at, exit.value), q) == 0
    ensures a.Deleted? ==> a.purged <= Total(ApplyAll(old(c.committed), RideOps(close, CloseOp(q, 0, grace))), q)
    ensures a.NotEmpty? ==> !purge
  {
    hide Mirrors, Inv, Run, Legal, Tallied, NewReadyAll, Rebuild, ApplyAll, PlanOf, FreshOps, Stamped, QuietRounds,
         RoundsOps, HeldAt, SeenAt, RoundsEnd, Boarding, RideOps, Lands, Company, AllQuiet, NoneClose, QuietTurns,
         TurnsOps, NoRowsOf, Total, Shut;
    ghost var s := c.committed;
    ghost var until := SatAdd(close.now, grace);
    exit, at, rows := None, s, c.disk;
    CloseIsNoRefusal(Boarding(s, close), q, close.now, grace);
    var closed := Submit(c, close, CloseOp(q, 0, grace), GlanceOps(g) + TurnsOps(turns));
    if closed.None? { return StorageError, None, s, c.disk; }
    CloseRide(s, close, q, grace);
    ghost var n := Total(c.committed, q);
    var rest, open;
    ghost var end;
    a, rest, open, end := DrainQueue(c, q, purge, max, grace, g, turns, until, n);
    ghost var left := if a.Deleted? then 0 else n;
    ShutAt(c.committed, q, end, n, left);
    assert RoundsOps(rest) + Company(open) == RoundsOps(rest) + (Company(open) + []);
    Others(c, rest, Company(open) + [], q, end, left);
    at, rows, exit := c.committed, c.disk, Some(open);
    OpenRide(at, open, q, end, left);
    if a.Deleted? {
      NothingOnDisk(rows, Rebuild(rows), at, q, end);
      OwnsNothingThen(Boarding(at, open), q, end);
    }
    var _ := Submit(c, open, OpenOp(q), []);
  }

  lemma OwnsNothingThen(s: State, q: Queue, until: int)
    requires Shut(s, q, until, 0)
    ensures Total(s, q) == 0
  {
  }

  lemma ShutAt(s: State, q: Queue, until: int, n: nat, m: nat)
    requires Shut(s, q, until, n)
    ensures Total(s, q) <= m ==> Shut(s, q, until, m)
  {
  }
}
