/** Deleting a queue: the close tombstone stops growth, each purge chunk makes
    progress, so the drain loop ends with nothing of the queue left. */
module Deletion {
  import opened Bytes
  import opened Keys
  import opened Listing
  import opened Machine
  import opened Ops
  import opened Legality
  import opened Admission

  function DeadIn(s: State, q: Queue): set<Id> {
    set id | id in s.dead && s.dead[id].queue == q
  }

  function PinsIn(s: State, q: Queue): set<DedupKey> {
    set dk | dk in s.dedup && dk.queue == q
  }

  /** Everything the queue still owns: live jobs, dead letters and dedup records. */
  function Total(s: State, q: Queue): nat {
    Depth(s, q) + |DeadIn(s, q)| + |PinsIn(s, q)|
  }

  // ---- Growth ------------------------------------------------------------------

  function HereDead(v: Option<Dead>, q: Queue): nat {
    if v.Some? && v.value.queue == q then 1 else 0
  }

  lemma DeadPut(s: State, id: Id, v: Option<Dead>, q: Queue)
    ensures |DeadIn(s.(dead := Put(s.dead, id, v)), q)|
            == |DeadIn(s, q)| - HereDead(Lookup(s.dead, id), q) + HereDead(v, q)
  {
    var t := s.(dead := Put(s.dead, id, v));
    assert DeadIn(t, q) - {id} == DeadIn(s, q) - {id};
    OneApart(DeadIn(s, q), DeadIn(t, q), id);
  }

  lemma DeadStep(s: State, m: Move, q: Queue)
    requires Enabled(s, m) && AboutJob(m)
    ensures |DeadIn(Step(s, m), q)| == |DeadIn(s, q)| - HereDead(Lookup(s.dead, m.id), q) + HereDead(DeadAfter(s, m), q)
  {
    DeadPut(s, m.id, DeadAfter(s, m), q);
    assert DeadIn(Step(s, m), q) == DeadIn(s.(dead := Put(s.dead, m.id, DeadAfter(s, m))), q);
  }

  /** A job that moves between live and dead stays in its queue and is counted once. */
  lemma SideStep(s: State, m: Move, q: Queue)
    requires Inv(s) && Enabled(s, m) && AboutJob(m) && !Births(m, q)
    ensures Here(LiveAfter(s, m), q) + HereDead(DeadAfter(s, m), q)
         <= Here(Lookup(s.live, m.id), q) + HereDead(Lookup(s.dead, m.id), q)
  {
  }

  lemma PinsStep(s: State, m: Move, q: Queue)
    requires !Births(m, q)
    ensures PinsIn(Step(s, m), q) <= PinsIn(s, q)
    ensures |PinsIn(Step(s, m), q)| <= |PinsIn(s, q)|
  {
    assert PinsIn(Step(s, m), q) <= PinsIn(s, q);
    SmallerSet(PinsIn(Step(s, m), q), PinsIn(s, q));
  }

  lemma SmallerSet<T>(a: set<T>, b: set<T>)
    requires a <= b
    ensures |a| <= |b|
  {
    assert b == a + (b - a);
  }

  /** Only an insert into the queue adds to what it owns; a requeue does not. */
  lemma NoGrowth(s: State, m: Move, q: Queue)
    requires Inv(s) && (Births(m, q) ==> !Enabled(s, m))
    ensures Total(Step(s, m), q) <= Total(s, q)
  {
    if Enabled(s, m) {
      PinsStep(s, m, q);
      if AboutJob(m) {
        JobsNoGrowth(s, m, q);
      } else {
        assert Members(Step(s, m), q) == Members(s, q) && DeadIn(Step(s, m), q) == DeadIn(s, q);
      }
    }
  }

  lemma JobsNoGrowth(s: State, m: Move, q: Queue)
    requires Inv(s) && Enabled(s, m) && AboutJob(m) && !Births(m, q)
    ensures Depth(Step(s, m), q) + |DeadIn(Step(s, m), q)| <= Depth(s, q) + |DeadIn(s, q)|
  {
    DepthStep(s, m, q);
    DeadStep(s, m, q);
    SideStep(s, m, q);
  }

  /** Moves that respect a tombstone standing until `until`. */
  predicate Quiet(m: Move, q: Queue, until: int) {
    && (m.Insert? ==> m.job.enqueuedAt < until)
    && (m.Close? || m.Open? ==> m.queue != q)
    && (m.ExpireClosing? ==> m.now < until)
  }

  predicate Tombstoned(s: State, q: Queue, until: int) {
    q in s.closing && s.closing[q] == until
  }

  lemma TombstoneStep(s: State, m: Move, q: Queue, until: int)
    requires Tombstoned(s, q, until) && Quiet(m, q, until)
    ensures Tombstoned(Step(s, m), q, until)
  {
  }

  lemma {:induction false} QuietRun(s: State, ms: seq<Move>, q: Queue, until: int)
    requires Inv(s) && Tombstoned(s, q, until) && forall i :: 0 <= i < |ms| ==> Quiet(ms[i], q, until)
    ensures Inv(Run(s, ms)) && Tombstoned(Run(s, ms), q, until) && Total(Run(s, ms), q) <= Total(s, q)
  {
    if ms != [] {
      var front, m := ms[..|ms| - 1], ms[|ms| - 1];
      QuietRun(s, front, q, until);
      StepInv(Run(s, front), m);
      TombstoneStep(Run(s, front), m, q, until);
      NoGrowth(Run(s, front), m, q);
    }
  }

  /** Any operation on a clock before the tombstone's end, except opening or closing `q`. */
  predicate QuietOp(op: Op, q: Queue, until: int) {
    && (op.EnqueueOp? || op.EnqueueAtomicOp? || op.SweepOp? ==> op.now < until)
    && (op.CloseOp? || op.OpenOp? ==> op.queue != q)
  }

  /** While the tombstone stands no operation of any kind increases what the queue owns. */
  lemma OpNeverGrowsClosing(s: State, op: Op, q: Queue, until: int)
    requires Inv(s) && Tombstoned(s, q, until) && QuietOp(op, q, until)
    ensures Inv(Apply(s, op)) && Tombstoned(Apply(s, op), q, until) && Total(Apply(s, op), q) <= Total(s, q)
  {
    PlanKinds(s, op);
    var ms := PlanOf(s, op).moves;
    forall i | 0 <= i < |ms| ensures Quiet(ms[i], q, until) { assert Kind(op, ms[i]); }
    QuietRun(s, ms, q, until);
  }

  lemma {:induction false} RunNeverGrowsClosing(s: State, ops: seq<Op>, q: Queue, until: int)
    requires Inv(s) && Tombstoned(s, q, until) && forall i :: 0 <= i < |ops| ==> QuietOp(ops[i], q, until)
    ensures Inv(ApplyAll(s, ops)) && Tombstoned(ApplyAll(s, ops), q, until) && Total(ApplyAll(s, ops), q) <= Total(s, q)
  {
    if ops != [] {
      RunNeverGrowsClosing(s, ops[..|ops| - 1], q, until);
      OpNeverGrowsClosing(ApplyAll(s, ops[..|ops| - 1]), ops[|ops| - 1], q, until);
    }
  }

  // ---- Purge ---------------------------------------------------------------------

  /** The move discards one thing the queue owns. */
  predicate Sheds(s: State, m: Move, q: Queue) {
    || (m.DropLive? && Enabled(s, m) && s.live[m.id].queue == q)
    || (m.DropDead? && Enabled(s, m) && s.dead[m.id].queue == q)
    || (m.Forget? && Enabled(s, m) && m.dk.queue == q)
  }

  lemma ShedStep(s: State, m: Move, q: Queue)
    requires Inv(s) && Sheds(s, m, q)
    ensures Total(Step(s, m), q) == Total(s, q) - 1
  {
    if AboutJob(m) {
      DepthStep(s, m, q);
      DeadStep(s, m, q);
      assert PinsIn(Step(s, m), q) == PinsIn(s, q);
    } else {
      assert PinsIn(Step(s, m), q) == PinsIn(s, q) - {m.dk};
      assert Members(Step(s, m), q) == Members(s, q) && DeadIn(Step(s, m), q) == DeadIn(s, q);
    }
  }

  lemma ShedsLocal(s: State, t: State, m: Move, q: Queue)
    requires Sheds(s, m, q)
    requires AboutJob(m) ==>
               Lookup(s.live, m.id) == Lookup(t.live, m.id) && Lookup(s.dead, m.id) == Lookup(t.dead, m.id)
    requires m.Forget? ==> Lookup(s.dedup, m.dk) == Lookup(t.dedup, m.dk)
    ensures Sheds(t, m, q)
  {
    if AboutJob(m) {
      assert Lookup(t.live, m.id).Some? <==> m.id in t.live;
      assert Lookup(t.dead, m.id).Some? <==> m.id in t.dead;
    } else {
      assert Lookup(t.dedup, m.dk).Some? <==> m.dk in t.dedup;
    }
  }

  lemma {:induction false} ShedRun(s: State, ms: seq<Move>, q: Queue)
    requires Inv(s) && (DistinctJobs(ms) || DistinctForgets(ms)) && forall i :: 0 <= i < |ms| ==> Sheds(s, ms[i], q)
    ensures Total(Run(s, ms), q) == Total(s, q) - |ms| && Inv(Run(s, ms))
  {
    if ms != [] {
      var front, m := ms[..|ms| - 1], ms[|ms| - 1];
      ShedRun(s, front, q);
      var t := Run(s, front);
      if AboutJob(m) {
        RunFrame(s, front, m.id);
      } else {
        RunDedupFrame(s, front, m.dk);
      }
      ShedsLocal(s, t, m, q);
      ShedStep(t, m, q);
      StepInv(t, m);
    }
  }

  lemma LivesShed(s: State, ks: set<Key>, q: Queue, n: nat)
    requires Inv(s) && forall k :: k in ks ==> InReady(s, k) || InScheduled(s, k)
    ensures var ms := DropLives(FirstOf(s, ks, q, n));
            Total(Run(s, ms), q) == Total(s, q) - |ms| && Inv(Run(s, ms))
  {
    hide Inv, Total, Run, FirstOf;
    FirstOfSelects(s, ks, q, n);
    ShedRun(s, DropLives(FirstOf(s, ks, q, n)), q);
  }

  lemma DeadsShed(s: State, q: Queue, n: nat)
    requires Inv(s)
    ensures var ms := DropDeads(FirstOf(s, DeadKeys(s), q, n));
            Total(Run(s, ms), q) == Total(s, q) - |ms| && Inv(Run(s, ms))
  {
    hide Inv, Total, Run, FirstOf, ReadyKeys, ScheduledKeys, LeaseKeys, DedupTimerKeys, DeadKeys;
    FirstOfSelects(s, DeadKeys(s), q, n);
    ShedRun(s, DropDeads(FirstOf(s, DeadKeys(s), q, n)), q);
  }

  lemma PinsShed(s: State, q: Queue, n: nat)
    requires Inv(s)
    ensures var ms := Forgets(FirstOf(s, DedupTimerKeys(s), q, n), None);
            Total(Run(s, ms), q) == Total(s, q) - |ms| && Inv(Run(s, ms))
  {
    hide Inv, Total, Run, FirstOf, ReadyKeys, ScheduledKeys, LeaseKeys, DedupTimerKeys, DeadKeys;
    FirstOfSelects(s, DedupTimerKeys(s), q, n);
    ShedRun(s, Forgets(FirstOf(s, DedupTimerKeys(s), q, n), None), q);
  }

  /** Every move of a purge chunk takes away one thing of the queue. */
  lemma PurgeSheds(s: State, q: Queue, max: nat)
    requires Inv(s)
    ensures Total(Run(s, PurgeMoves(s, q, max)), q) == Total(s, q) - |PurgeMoves(s, q, max)|
  {
    var a := DropLives(FirstOf(s, ReadyKeys(s), q, max));
    LivesShed(s, ReadyKeys(s), q, max);
    var s1 := Run(s, a);
    var b' := DropLives(FirstOf(s1, ScheduledKeys(s1), q, Left(max, a)));
    LivesShed(s1, ScheduledKeys(s1), q, Left(max, a));
    RunConcat(s, a, b');
    var b := a + b';
    var s2 := Run(s, b);
    var c' := DropDeads(FirstOf(s2, DeadKeys(s2), q, Left(max, b)));
    DeadsShed(s2, q, Left(max, b));
    RunConcat(s, b, c');
    var c := b + c';
    var s3 := Run(s, c);
    PinsShed(s3, q, Left(max, c));
    RunConcat(s, c, Forgets(FirstOf(s3, DedupTimerKeys(s3), q, Left(max, c)), None));
  }

  lemma MemberHasKey(s: State, q: Queue, id: Id)
    requires id in Members(s, q)
    ensures exists k :: k in OwnedBy(s, ReadyKeys(s), q) + OwnedBy(s, ScheduledKeys(s), q) + OwnedBy(s, LeaseKeys(s), q)
  {
    var j := s.live[id];
    var k := match j.place
             case Ready(_) => ReadyKeyOf(id, j)
             case Scheduled(_, d) => TimerKey(d, id)
             case Leased(_, e) => TimerKey(e, id);
    assert InReady(s, k) || InScheduled(s, k) || InLeases(s, k);
    assert k in OwnedBy(s, ReadyKeys(s), q) + OwnedBy(s, ScheduledKeys(s), q) + OwnedBy(s, LeaseKeys(s), q);
  }

  lemma OtherHasKey(s: State, q: Queue)
    ensures forall id :: id in DeadIn(s, q) ==> DeadLetterKey(s.dead[id].failedAt, q, id) in OwnedBy(s, DeadKeys(s), q)
    ensures forall dk :: dk in PinsIn(s, q) ==>
              DedupTimerKey(s.dedup[dk].deadline, q, dk.key) in OwnedBy(s, DedupTimerKeys(s), q)
  {
    forall dk | dk in PinsIn(s, q)
      ensures DedupTimerKey(s.dedup[dk].deadline, q, dk.key) in OwnedBy(s, DedupTimerKeys(s), q)
    {
      assert InDedupTimers(s, DedupTimerKey(s.dedup[dk].deadline, q, dk.key)) by { assert DedupKey(q, dk.key) == dk; }
    }
  }

  /** No lease in the queue and nothing in the four indexes: the queue owns nothing. */
  lemma NoLeftovers(s: State, q: Queue)
    requires !Leftovers(s, q) && OwnedBy(s, LeaseKeys(s), q) == {}
    ensures Total(s, q) == 0
  {
    forall id ensures id !in Members(s, q) {
      if id in Members(s, q) { MemberHasKey(s, q, id); }
    }
    OtherHasKey(s, q);
    assert Members(s, q) == {} && DeadIn(s, q) == {} && PinsIn(s, q) == {};
  }

  /** A chunk that could do something does something. */
  lemma PurgeProgress(s: State, q: Queue, max: nat)
    requires max >= 1 && PurgeMoves(s, q, max) == []
    ensures !Leftovers(s, q)
  {
    var a := DropLives(FirstOf(s, ReadyKeys(s), q, max));
    assert a == [] && Run(s, a) == s;
    var b := a + DropLives(FirstOf(s, ScheduledKeys(s), q, max));
    assert b == [] && Run(s, b) == s;
    var c := b + DropDeads(FirstOf(s, DeadKeys(s), q, max));
    assert c == [] && Run(s, c) == s;
    FirstOfSelects(s, ReadyKeys(s), q, max);
    FirstOfSelects(s, ScheduledKeys(s), q, max);
    FirstOfSelects(s, DeadKeys(s), q, max);
    FirstOfSelects(s, DedupTimerKeys(s), q, max);
  }

  // ---- What a purge leaves alone ----------------------------------------------------

  predicate Discarding(m: Move) {
    m.DropLive? || m.DropDead? || m.Forget?
  }

  /** Discarding takes rows away and changes none. */
  lemma {:induction false} DiscardsOnlyRemove(s: State, ms: seq<Move>, id: Id)
    requires forall i :: 0 <= i < |ms| ==> Discarding(ms[i])
    ensures id in Run(s, ms).live ==> id in s.live && Run(s, ms).live[id] == s.live[id]
  {
    if ms != [] { DiscardsOnlyRemove(s, ms[..|ms| - 1], id); }
  }

  lemma NoNewLeases(s: State, q: Queue, max: nat)
    ensures var t := Run(s, PurgeMoves(s, q, max)); OwnedBy(t, LeaseKeys(t), q) <= OwnedBy(s, LeaseKeys(s), q)
  {
    hide Run, PurgeMoves, ReadyKeys, ScheduledKeys, LeaseKeys, DedupTimerKeys, DeadKeys;
    var ms := PurgeMoves(s, q, max);
    var t := Run(s, ms);
    PurgeKinds(s, PurgeOp(q, max));
    assert forall i :: 0 <= i < |ms| ==> Kind(PurgeOp(q, max), ms[i]);
    forall k | k in OwnedBy(t, LeaseKeys(t), q) ensures k in OwnedBy(s, LeaseKeys(s), q) {
      DiscardsOnlyRemove(s, ms, k.jobId);
    }
  }

  lemma PurgeUnleased(s: State, q: Queue, max: nat)
    requires Inv(s) && max >= 1 && OwnedBy(s, LeaseKeys(s), q) == {}
    ensures var ms := PurgeMoves(s, q, max);
            && Total(Run(s, ms), q) == Total(s, q) - |ms|
            && (Total(s, q) > 0 ==> |ms| >= 1)
            && (Leftovers(Run(s, ms), q) <==> Total(Run(s, ms), q) > 0)
  {
    var ms := PurgeMoves(s, q, max);
    var t := Run(s, ms);
    PurgeSheds(s, q, max);
    NoNewLeases(s, q, max);
    if ms == [] { PurgeProgress(s, q, max); NoLeftovers(s, q); }
    if !Leftovers(t, q) { NoLeftovers(t, q); } else { LeftoversCount(t, q); }
  }

  /** The chunk, as a caller sees it: refused only for leases; otherwise it takes away
      exactly what it counts, at least one thing while there is any, and `remaining`
      false means the queue owns nothing. */
  lemma PurgeChunk(s: State, q: Queue, max: nat)
    requires Inv(s) && max >= 1
    ensures var o := PlanOf(s, PurgeOp(q, max)).outcome;
            var t := Apply(s, PurgeOp(q, max));
            if OwnedBy(s, LeaseKeys(s), q) != {} then o == HasInflight && t == s
            else o.Purged? && Total(t, q) == Total(s, q) - o.count
                 && (Total(s, q) > 0 ==> o.count >= 1)
                 && (o.remaining <==> Total(t, q) > 0)
  {
    if OwnedBy(s, LeaseKeys(s), q) == {} {
      PurgeUnleased(s, q, max);
    } else {
      assert Run(s, []) == s;
    }
  }

  lemma LeftoversCount(s: State, q: Queue)
    requires Leftovers(s, q)
    ensures Total(s, q) > 0
  {
    hide ReadyKeys, ScheduledKeys, DeadKeys, DedupTimerKeys;
    if OwnedBy(s, ReadyKeys(s), q) != {} {
      var k :| k in OwnedBy(s, ReadyKeys(s), q);
      assert k.jobId in Members(s, q);
    } else if OwnedBy(s, ScheduledKeys(s), q) != {} {
      var k :| k in OwnedBy(s, ScheduledKeys(s), q);
      assert k.jobId in Members(s, q);
    } else if OwnedBy(s, DeadKeys(s), q) != {} {
      var k :| k in OwnedBy(s, DeadKeys(s), q);
      assert k.jobId in DeadIn(s, q);
    } else {
      var k :| k in OwnedBy(s, DedupTimerKeys(s), q);
      assert DedupKey(k.queue, k.idempotencyKey) in PinsIn(s, q);
    }
  }

  /** Everything in `s` under `id` and `dk` belongs to other queues than `q`. */
  predicate Elsewhere(s: State, q: Queue, id: Id, dk: DedupKey) {
    (id in s.live ==> s.live[id].queue != q) && (id in s.dead ==> s.dead[id].queue != q) && dk.queue != q
  }

  predicate SameFor(s: State, t: State, id: Id, dk: DedupKey) {
    Lookup(t.live, id) == Lookup(s.live, id) && Lookup(t.dead, id) == Lookup(s.dead, id)
    && Lookup(t.dedup, dk) == Lookup(s.dedup, dk)
  }

  lemma ShedLeavesOthers(s: State, ms: seq<Move>, q: Queue, id: Id, dk: DedupKey)
    requires (forall i :: 0 <= i < |ms| ==> Sheds(s, ms[i], q)) && Elsewhere(s, q, id, dk)
    ensures SameFor(s, Run(s, ms), id, dk) && Elsewhere(Run(s, ms), q, id, dk)
  {
    forall i | 0 <= i < |ms| ensures !Touches(ms[i], id) && !Pins(ms[i], dk) {
      assert Sheds(s, ms[i], q);
    }
    RunFrame(s, ms, id);
    RunDedupFrame(s, ms, dk);
    SameElsewhere(s, Run(s, ms), q, id, dk);
  }

  lemma SameElsewhere(s: State, t: State, q: Queue, id: Id, dk: DedupKey)
    requires SameFor(s, t, id, dk) && Elsewhere(s, q, id, dk)
    ensures Elsewhere(t, q, id, dk)
  {
    assert Lookup(t.live, id).Some? <==> id in t.live;
    assert Lookup(t.dead, id).Some? <==> id in t.dead;
  }

  lemma LivesLeaveOthers(s: State, ks: set<Key>, q: Queue, n: nat, id: Id, dk: DedupKey)
    requires Elsewhere(s, q, id, dk) && forall k :: k in ks ==> InReady(s, k) || InScheduled(s, k)
    ensures var t := Run(s, DropLives(FirstOf(s, ks, q, n))); SameFor(s, t, id, dk) && Elsewhere(t, q, id, dk)
  {
    FirstOfSelects(s, ks, q, n);
    ShedLeavesOthers(s, DropLives(FirstOf(s, ks, q, n)), q, id, dk);
  }

  lemma DeadsLeaveOthers(s: State, q: Queue, n: nat, id: Id, dk: DedupKey)
    requires Elsewhere(s, q, id, dk)
    ensures var t := Run(s, DropDeads(FirstOf(s, DeadKeys(s), q, n))); SameFor(s, t, id, dk) && Elsewhere(t, q, id, dk)
  {
    FirstOfSelects(s, DeadKeys(s), q, n);
    ShedLeavesOthers(s, DropDeads(FirstOf(s, DeadKeys(s), q, n)), q, id, dk);
  }

  lemma PinsLeaveOthers(s: State, q: Queue, n: nat, id: Id, dk: DedupKey)
    requires Elsewhere(s, q, id, dk)
    ensures SameFor(s, Run(s, Forgets(FirstOf(s, DedupTimerKeys(s), q, n), None)), id, dk)
  {
    FirstOfSelects(s, DedupTimerKeys(s), q, n);
    ShedLeavesOthers(s, Forgets(FirstOf(s, DedupTimerKeys(s), q, n), None), q, id, dk);
  }

  /** A purge chunk leaves every other queue's jobs, dead letters and dedup records alone. */
  lemma PurgeLeavesOthers(s: State, q: Queue, max: nat, id: Id, dk: DedupKey)
    requires Elsewhere(s, q, id, dk)
    ensures SameFor(s, Run(s, PurgeMoves(s, q, max)), id, dk)
  {
    var a := DropLives(FirstOf(s, ReadyKeys(s), q, max));
    LivesLeaveOthers(s, ReadyKeys(s), q, max, id, dk);
    var s1 := Run(s, a);
    var b' := DropLives(FirstOf(s1, ScheduledKeys(s1), q, Left(max, a)));
    LivesLeaveOthers(s1, ScheduledKeys(s1), q, Left(max, a), id, dk);
    RunConcat(s, a, b');
    var b := a + b';
    var s2 := Run(s, b);
    var c' := DropDeads(FirstOf(s2, DeadKeys(s2), q, Left(max, b)));
    DeadsLeaveOthers(s2, q, Left(max, b), id, dk);
    RunConcat(s, b, c');
    var c := b + c';
    var s3 := Run(s, c);
    PinsLeaveOthers(s3, q, Left(max, c), id, dk);
    RunConcat(s, c, Forgets(FirstOf(s3, DedupTimerKeys(s3), q, Left(max, c)), None));
  }

  lemma CloseRefreshes(s: State, q: Queue, now: int, grace: nat)
    requires Inv(s)
    ensures var t := Apply(s, CloseOp(q, now, grace));
            Inv(t) && Tombstoned(t, q, SatAdd(now, grace)) && Total(t, q) == Total(s, q)
  {
    var m := Close(q, SatAdd(now, grace));
    RunOne(s, m);
    StepInv(s, m);
    var t := Step(s, m);
    assert Members(t, q) == Members(s, q) && DeadIn(t, q) == DeadIn(s, q) && PinsIn(t, q) == PinsIn(s, q);
  }
}
