/** The timer sweep: the committer wakes exactly when something is due, and each
    sweep handles the earliest entries, creates no new work and so never spins. */
module Sweeping {
  import opened Bytes
  import opened Keys
  import opened Listing
  import opened Machine
  import opened Ops
  import opened Legality

  // ---- When the committer wakes -----------------------------------------------

  ghost predicate Timers(ks: set<Key>) {
    forall a, b :: a in ks && b in ks ==> !a.ReadyKey? && SameKeyspace(a, b)
  }

  /** `TimerIndex::earliest`. */
  ghost function Earliest(ks: set<Key>): Option<int>
    requires Timers(ks)
  {
    if ks == {} then None else Some(DeadlineOf(Least(ks)))
  }

  ghost predicate Reached(d: Option<int>, now: int) {
    d.Some? && d.value <= now
  }

  lemma EarliestReached(ks: set<Key>, now: int)
    requires Timers(ks)
    ensures Reached(Earliest(ks), now) <==> DueBy(ks, now) != {}
  {
    if k :| k in DueBy(ks, now) {
      if k != Least(ks) { TimerOrder(Least(ks), k); }
    }
    if Reached(Earliest(ks), now) { assert Least(ks) in DueBy(ks, now); }
  }

  function Sooner(a: Option<int>, b: Option<int>): Option<int> {
    if a.None? then b else if b.None? then a else Some(Min(a.value, b.value))
  }

  /** The earliest close deadline, if any queue is closing. */
  ghost function EarliestClosing(s: State): (r: Option<int>)
    ensures r.None? <==> s.closing == map[]
    ensures r.Some? ==> (exists q :: q in s.closing && s.closing[q] == r.value)
                        && (forall q :: q in s.closing ==> r.value <= s.closing[q])
  {
    if s.closing == map[] then None
    else
      SomeLeast(s.closing);
      var q :| q in s.closing && forall p :: p in s.closing.Keys ==> s.closing[q] <= s.closing[p];
      Some(s.closing[q])
  }

  lemma {:induction false} LeastOver(m: map<Queue, int>, qs: set<Queue>) returns (least: Queue)
    requires qs != {} && qs <= m.Keys
    ensures least in qs && forall p :: p in qs ==> m[least] <= m[p]
  {
    var q :| q in qs;
    least := q;
    if qs != {q} {
      var r := LeastOver(m, qs - {q});
      if m[r] < m[q] { least := r; }
    }
  }

  lemma SomeLeast(m: map<Queue, int>)
    requires m != map[]
    ensures exists q :: q in m && forall p :: p in m.Keys ==> m[q] <= m[p]
  {
    var q := LeastOver(m, m.Keys);
    assert q in m;
  }

  lemma TimerSets(s: State)
    ensures Timers(ScheduledKeys(s)) && Timers(LeaseKeys(s)) && Timers(DedupTimerKeys(s)) && Timers(DeadKeys(s))
  {
  }

  /** `next_deadline`. */
  ghost function NextDeadline(s: State, retention: nat): Option<int> {
    TimerSets(s);
    var dead := if retention > 0 && Earliest(DeadKeys(s)).Some?
                then Some(After(Earliest(DeadKeys(s)).value, retention)) else None;
    Sooner(Earliest(ScheduledKeys(s)),
      Sooner(Earliest(LeaseKeys(s)), Sooner(Earliest(DedupTimerKeys(s)), Sooner(EarliestClosing(s), dead))))
  }

  /** The cutoff a sweep cycle passes; the clock is not negative, so it cannot underflow. */
  function Cutoff(now: int, retention: nat): Option<int> {
    if retention > 0 then Some(now - Min(retention, I64_MAX)) else None
  }

  /** The sweep `run_sweep_cycle` builds. */
  function SweepAt(now: int, budget: nat, retention: nat): Op {
    SweepOp(now, budget, Cutoff(now, retention), retention > 0)
  }

  ghost predicate ClosingDue(s: State, now: int) {
    Unexpired(s, now) != s.closing
  }

  function DeadDue(s: State, now: int, retention: nat): set<Key> {
    if retention > 0 then DueBy(DeadKeys(s), Cutoff(now, retention).value) else {}
  }

  ghost predicate HasDue(s: State, now: int, retention: nat) {
    || DueBy(ScheduledKeys(s), now) != {}
    || DueBy(LeaseKeys(s), now) != {}
    || DueBy(DedupTimerKeys(s), now) != {}
    || DeadDue(s, now, retention) != {}
    || ClosingDue(s, now)
  }

  lemma ClosingReached(s: State, now: int)
    ensures Reached(EarliestClosing(s), now) <==> ClosingDue(s, now)
  {
    if Reached(EarliestClosing(s), now) {
      var q :| q in s.closing && s.closing[q] == EarliestClosing(s).value;
      assert q !in Unexpired(s, now);
    } else {
      assert forall q :: q in s.closing ==> s.closing[q] > now;
      assert Unexpired(s, now) == s.closing;
    }
  }

  /** The committer's test `next_deadline <= now` holds exactly when a sweep has something
      due, except that at the last representable instant any kept dead letter looks due. */
  lemma WakesWhenDue(s: State, now: int, retention: nat)
    requires 0 <= now <= I64_MAX
    ensures Reached(NextDeadline(s, retention), now) <==>
            HasDue(s, now, retention) || (now == I64_MAX && retention > 0 && s.dead != map[])
  {
    hide EarliestClosing, ClosingDue, ReadyKeys, ScheduledKeys, LeaseKeys, DedupTimerKeys, DeadKeys;
    TimerSets(s);
    EarliestReached(ScheduledKeys(s), now);
    EarliestReached(LeaseKeys(s), now);
    EarliestReached(DedupTimerKeys(s), now);
    ClosingReached(s, now);
    if retention > 0 {
      EarliestReached(DeadKeys(s), Cutoff(now, retention).value);
      DeadKeysEmpty(s);
    }
  }

  lemma DeadKeysEmpty(s: State)
    ensures DeadKeys(s) == {} <==> s.dead == map[]
  {
    if id :| id in s.dead { assert DeadLetterKey(s.dead[id].failedAt, s.dead[id].queue, id) in DeadKeys(s); }
    if s.dead == map[] { assert DeadKeys(s) == {}; }
  }

  // ---- The saturating case is real ---------------------------------------------------------

  /** A job enqueued, reserved and rejected at the last representable instant. */
  function LastInstant(j: Prepared): seq<Op> {
    [EnqueueOp([j], I64_MAX), ReserveOp([j.queue], 1, 1, I64_MAX), NackOp(j.id, 1, true, None, 0, true, I64_MAX)]
  }

  predicate Plain(j: Prepared) {
    j.key.None? && j.cap.None? && j.scheduledAt.None? && j.body.maxAttempts >= 1
  }

  function OnlyJob(j: Prepared, p: Place): State {
    State(map[j.id := Job(j.queue, j.body, I64_MAX, None, p)], map[], map[], map[], [], {j.id})
  }

  lemma EnqueueOnly(j: Prepared)
    requires Plain(j)
    ensures OpOk(Empty, EnqueueOp([j], I64_MAX)) && Apply(Empty, EnqueueOp([j], I64_MAX)) == OnlyJob(j, Ready(1))
  {
    assert [j][..0] == [];
    var m := InsertMove(j, I64_MAX);
    assert EnqueueAll(Empty, [], I64_MAX) == ([], []);
    RunNone(Empty);
    assert EnqueueOne(Empty, j, I64_MAX).0 == [m];
    assert EnqueueAll(Empty, [j], I64_MAX).0 == [] + [m] == [m];
    RunOne(Empty, m);
    InsertEnabled(Empty, j, I64_MAX);
    assert Step(Empty, m).live == OnlyJob(j, Ready(1)).live;
  }

  lemma ReserveOnly(j: Prepared)
    ensures Apply(OnlyJob(j, Ready(1)), ReserveOp([j.queue], 1, 1, I64_MAX)) == OnlyJob(j, Leased(1, I64_MAX))
  {
    var s := OnlyJob(j, Ready(1));
    var k := ReadyKeyOf(j.id, s.live[j.id]);
    assert OwnedBy(s, ReadyKeys(s), j.queue) == {k};
    LeastIs({k}, k);
    var m := Lease(j.id, I64_MAX);
    assert After(I64_MAX, 1) == I64_MAX;
    assert ReservePlan(Step(s, m), [j.queue], I64_MAX, 0) == ([], []);
    assert ReservePlan(s, [j.queue], I64_MAX, 1).0 == [m] + [] == [m];
    RunOne(s, m);
    assert Step(s, m).live == OnlyJob(j, Leased(1, I64_MAX)).live;
  }

  function OnlyLetter(j: Prepared): State {
    OnlyJob(j, Leased(1, I64_MAX)).(
      live := map[],
      dead := map[j.id := Dead(j.queue, j.body, I64_MAX, None, I64_MAX, 1, Rejected, None)])
  }

  lemma RejectOnly(j: Prepared)
    ensures Apply(OnlyJob(j, Leased(1, I64_MAX)), NackOp(j.id, 1, true, None, 0, true, I64_MAX)) == OnlyLetter(j)
  {
    var s := OnlyJob(j, Leased(1, I64_MAX));
    RunOne(s, Nack(j.id, 1, true, None, 0, I64_MAX, true));
  }

  lemma LetterNotDue(j: Prepared)
    ensures var s := OnlyLetter(j); Reached(NextDeadline(s, 1), I64_MAX) && !HasDue(s, I64_MAX, 1)
  {
    var s := OnlyLetter(j);
    WakesWhenDue(s, I64_MAX, 1);
    assert j.id in s.dead;
    assert ScheduledKeys(s) == {} && LeaseKeys(s) == {} && DedupTimerKeys(s) == {};
    assert Unexpired(s, I64_MAX) == s.closing;
    assert forall k :: k in DeadKeys(s) ==> DeadlineOf(k) == I64_MAX;
  }

  /** A run of operations reaches it: the letter is kept a millisecond longer, and yet the committer
      wakes for it at the end of time and its sweep finds nothing to do. */
  lemma SaturatedWakeFindsNothing(j: Prepared)
    requires Plain(j)
    ensures Acceptable(Empty, LastInstant(j))
    ensures var s := ApplyAll(Empty, LastInstant(j)); Reached(NextDeadline(s, 1), I64_MAX) && !HasDue(s, I64_MAX, 1)
  {
    hide Plain, Apply, OpOk, Reached, HasDue, NextDeadline;
    var ops := LastInstant(j);
    assert ops[..2][..1] == ops[..1] && ops[..1][..0] == [] && ops[..3] == ops;
    EnqueueOnly(j);
    ReserveOnly(j);
    RejectOnly(j);
    LetterNotDue(j);
    assert ApplyAll(Empty, []) == Empty && Acceptable(Empty, []);
    assert ApplyAll(Empty, ops[..1]) == OnlyJob(j, Ready(1)) && Acceptable(Empty, ops[..1]);
    OthersOk(ops);
    assert ApplyAll(Empty, ops[..2]) == OnlyJob(j, Leased(1, I64_MAX)) && Acceptable(Empty, ops[..2]);
  }

  lemma OthersOk(ops: seq<Op>)
    ensures forall s, op :: op in ops && !op.EnqueueOp? && !op.EnqueueAtomicOp? ==> OpOk(s, op)
  {
  }

  // ---- What each phase changes --------------------------------------------------

  lemma AfterLocal(s: State, t: State, m: Move)
    requires JobLocal(m) && Enabled(s, m) && Enabled(t, m)
    requires Lookup(s.live, m.id) == Lookup(t.live, m.id) && Lookup(s.dead, m.id) == Lookup(t.dead, m.id)
    ensures LiveAfter(s, m) == LiveAfter(t, m) && DeadAfter(s, m) == DeadAfter(t, m)
  {
    assert m.id in s.live <==> Lookup(s.live, m.id).Some?;
    assert m.id in t.live <==> Lookup(t.live, m.id).Some?;
    assert m.id in s.live ==> s.live[m.id] == t.live[m.id];
    assert m.id in s.dead <==> Lookup(s.dead, m.id).Some?;
    assert m.id in t.dead <==> Lookup(t.dead, m.id).Some?;
    assert m.id in s.dead ==> s.dead[m.id] == t.dead[m.id];
  }

  lemma PutThere<K, V>(m: map<K, V>, k: K, v: Option<V>)
    ensures Lookup(Put(m, k, v), k) == v
  {
  }

  /** In a run over different jobs each job ends as its own move leaves it. */
  lemma {:induction false} EachOnItsOwn(s: State, ms: seq<Move>, i: nat)
    requires DistinctJobs(ms) && i < |ms| && forall j :: 0 <= j < |ms| ==> Enabled(s, ms[j])
    ensures Lookup(Run(s, ms).live, ms[i].id) == LiveAfter(s, ms[i])
    ensures Lookup(Run(s, ms).dead, ms[i].id) == DeadAfter(s, ms[i])
  {
    var front, m := ms[..|ms| - 1], ms[|ms| - 1];
    var t := Run(s, front);
    if i < |front| {
      EachOnItsOwn(s, front, i);
      StepFrame(t, m, ms[i].id);
    } else {
      RunFrame(s, front, m.id);
      EnabledLocal(s, t, m);
      AfterLocal(s, t, m);
      PutThere(t.live, m.id, LiveAfter(t, m));
      PutThere(t.dead, m.id, DeadAfter(t, m));
    }
  }

  lemma {:induction false} JobMovesKeepRest(s: State, ms: seq<Move>)
    requires forall i :: 0 <= i < |ms| ==> JobLocal(ms[i])
    ensures Run(s, ms).dedup == s.dedup && Run(s, ms).closing == s.closing
  {
    if ms != [] { JobMovesKeepRest(s, ms[..|ms| - 1]); }
  }

  lemma {:induction false} ForgetsKeepRest(s: State, ms: seq<Move>)
    requires forall i :: 0 <= i < |ms| ==> ms[i].Forget?
    ensures Run(s, ms).live == s.live && Run(s, ms).dead == s.dead && Run(s, ms).closing == s.closing
  {
    if ms != [] { ForgetsKeepRest(s, ms[..|ms| - 1]); }
  }

  ghost predicate Chosen(ks: seq<Key>, id: Id) {
    exists i :: 0 <= i < |ks| && JobIdOf(ks[i]) == id
  }

  lemma UntouchedOrIndex(ms: seq<Move>, id: Id) returns (i: int)
    ensures -1 <= i < |ms|
    ensures i == -1 ==> forall j :: 0 <= j < |ms| ==> !Touches(ms[j], id)
    ensures i >= 0 ==> Touches(ms[i], id)
  {
    if j :| 0 <= j < |ms| && Touches(ms[j], id) { i := j; } else { i := -1; }
  }

  /** Promotion takes exactly the chosen timers away and touches no other timer. */
  lemma PromotePhase(s: State, now: int, n: nat)
    ensures var ks := DueHead(ScheduledKeys(s), now, n);
            var t := Run(s, Promotes(ks, now));
            && ScheduledKeys(t) == ScheduledKeys(s) - Elements(ks)
            && LeaseKeys(t) == LeaseKeys(s) && DeadKeys(t) == DeadKeys(s)
            && t.dedup == s.dedup && t.closing == s.closing
  {
    hide Run, DueHead, ReadyKeys, ScheduledKeys, LeaseKeys, DedupTimerKeys, DeadKeys;
    var ks := DueHead(ScheduledKeys(s), now, n);
    var ms := Promotes(ks, now);
    var t := Run(s, ms);
    DueSelects(ScheduledKeys(s), now, n);
    JobMovesKeepRest(s, ms);
    forall id
      ensures Lookup(t.dead, id) == Lookup(s.dead, id)
      ensures Lookup(t.live, id) == Lookup(s.live, id) || (IsScheduled(s, id) && IsReady(t, id))
      ensures Chosen(ks, id) <==> Lookup(t.live, id) != Lookup(s.live, id)
    {
      var i := UntouchedOrIndex(ms, id);
      if i >= 0 {
        assert ms[i].id == JobIdOf(ks[i]);
        EachOnItsOwn(s, ms, i);
        assert IsScheduled(s, id);
      } else {
        RunFrame(s, ms, id);
        assert forall j :: 0 <= j < |ks| ==> ms[j].id == JobIdOf(ks[j]);
      }
    }
    PromotedKeys(s, t, ks);
  }

  lemma SameDead(s: State, t: State)
    requires forall id :: Lookup(t.dead, id) == Lookup(s.dead, id)
    ensures t.dead == s.dead
  {
    forall id ensures id in t.dead <==> id in s.dead { assert Lookup(t.dead, id) == Lookup(s.dead, id); }
    forall id | id in s.dead ensures t.dead[id] == s.dead[id] { assert Lookup(t.dead, id) == Lookup(s.dead, id); }
  }

  lemma PromotedKeys(s: State, t: State, ks: seq<Key>)
    requires forall i :: 0 <= i < |ks| ==> InScheduled(s, ks[i])
    requires forall id :: Lookup(t.dead, id) == Lookup(s.dead, id)
    requires forall id :: Lookup(t.live, id) == Lookup(s.live, id) || (IsScheduled(s, id) && IsReady(t, id))
    requires forall id :: Chosen(ks, id) <==> Lookup(t.live, id) != Lookup(s.live, id)
    ensures ScheduledKeys(t) == ScheduledKeys(s) - Elements(ks)
    ensures LeaseKeys(t) == LeaseKeys(s) && DeadKeys(t) == DeadKeys(s)
  {
    SameDead(s, t);
    forall k ensures k in LeaseKeys(t) <==> k in LeaseKeys(s) {
      if k.TimerKey? { assert Lookup(t.live, k.jobId) == Lookup(s.live, k.jobId) || IsScheduled(s, k.jobId); }
    }
    forall k ensures k in ScheduledKeys(t) <==> k in ScheduledKeys(s) && k !in ks {
      if k.TimerKey? {
        assert Chosen(ks, k.jobId) <==> Lookup(t.live, k.jobId) != Lookup(s.live, k.jobId);
        if k in ScheduledKeys(s) {
          assert k in ks <==> Chosen(ks, k.jobId);
        }
      }
    }
  }

  /** Expiry takes exactly the chosen leases away; the only new dead letters fail now. */
  lemma ExpirePhase(s: State, now: int, n: nat, keep: bool)
    requires Inv(s)
    ensures var ks := DueHead(LeaseKeys(s), now, n);
            var t := Run(s, Expires(ks, now, keep));
            && LeaseKeys(t) == LeaseKeys(s) - Elements(ks)
            && ScheduledKeys(t) == ScheduledKeys(s)
            && DeadKeys(s) <= DeadKeys(t) && (forall k :: k in DeadKeys(t) - DeadKeys(s) ==> DeadlineOf(k) == now)
            && t.dedup == s.dedup && t.closing == s.closing
  {
    hide Inv, Run, DueHead, ReadyKeys, ScheduledKeys, LeaseKeys, DedupTimerKeys, DeadKeys;
    var ks := DueHead(LeaseKeys(s), now, n);
    var ms := Expires(ks, now, keep);
    var t := Run(s, ms);
    DueSelects(LeaseKeys(s), now, n);
    JobMovesKeepRest(s, ms);
    forall id
      ensures Lookup(t.live, id) == Lookup(s.live, id) || (IsLeased(s, id) && (id !in t.live || IsReady(t, id)))
      ensures Lookup(t.dead, id) == Lookup(s.dead, id) || (id !in s.dead && id in t.dead && t.dead[id].failedAt == now)
      ensures Chosen(ks, id) <==> Lookup(t.live, id) != Lookup(s.live, id)
    {
      var i := UntouchedOrIndex(ms, id);
      if i >= 0 {
        assert ms[i].id == JobIdOf(ks[i]);
        EachOnItsOwn(s, ms, i);
        ExpireAfter(s, t, ms[i]);
      } else {
        RunFrame(s, ms, id);
        assert forall j :: 0 <= j < |ks| ==> ms[j].id == JobIdOf(ks[j]);
      }
    }
    ExpiredKeys(s, t, ks, now);
  }

  lemma ExpireAfter(s: State, t: State, m: Move)
    requires Inv(s) && m.Expire? && Enabled(s, m)
    requires Lookup(t.live, m.id) == LiveAfter(s, m) && Lookup(t.dead, m.id) == DeadAfter(s, m)
    ensures IsLeased(s, m.id) && (m.id !in t.live || IsReady(t, m.id)) && Lookup(t.live, m.id) != Lookup(s.live, m.id)
    ensures Lookup(t.dead, m.id) == Lookup(s.dead, m.id) || (m.id !in s.dead && m.id in t.dead
                                                             && t.dead[m.id].failedAt == m.now)
  {
  }

  lemma ExpiredKeys(s: State, t: State, ks: seq<Key>, now: int)
    requires forall i :: 0 <= i < |ks| ==> InLeases(s, ks[i])
    requires forall id :: Lookup(t.live, id) == Lookup(s.live, id) || (IsLeased(s, id)
                                                                       && (id !in t.live || IsReady(t, id)))
    requires forall id :: Lookup(t.dead, id) == Lookup(s.dead, id) || (id !in s.dead && id in t.dead
                                                                       && t.dead[id].failedAt == now)
    requires forall id :: Chosen(ks, id) <==> Lookup(t.live, id) != Lookup(s.live, id)
    ensures LeaseKeys(t) == LeaseKeys(s) - Elements(ks) && ScheduledKeys(t) == ScheduledKeys(s)
    ensures DeadKeys(s) <= DeadKeys(t) && (forall k :: k in DeadKeys(t) - DeadKeys(s) ==> DeadlineOf(k) == now)
  {
    forall k ensures k in ScheduledKeys(t) <==> k in ScheduledKeys(s) {
      if k.TimerKey? { assert Lookup(t.live, k.jobId) == Lookup(s.live, k.jobId) || IsLeased(s, k.jobId); }
    }
    forall k ensures k in LeaseKeys(t) <==> k in LeaseKeys(s) && k !in ks {
      if k.TimerKey? {
        assert Chosen(ks, k.jobId) <==> Lookup(t.live, k.jobId) != Lookup(s.live, k.jobId);
        if k in LeaseKeys(s) {
          assert k in ks <==> Chosen(ks, k.jobId);
        }
      }
    }
    forall k | k in DeadKeys(s) ensures k in DeadKeys(t) {
      assert Lookup(t.dead, k.jobId) == Lookup(s.dead, k.jobId);
    }
    forall k | k in DeadKeys(t) - DeadKeys(s) ensures DeadlineOf(k) == now {
      assert Lookup(t.dead, k.jobId) != Lookup(s.dead, k.jobId);
    }
  }

  /** Dedup expiry takes exactly the chosen records away. */
  lemma ForgetPhase(s: State, now: int, n: nat)
    ensures var ks := DueHead(DedupTimerKeys(s), now, n);
            var t := Run(s, Forgets(ks, Some(now)));
            && DedupTimerKeys(t) == DedupTimerKeys(s) - Elements(ks)
            && t.live == s.live && t.dead == s.dead && t.closing == s.closing
  {
    hide Run, DueHead, Legal, ReadyKeys, ScheduledKeys, LeaseKeys, DedupTimerKeys, DeadKeys;
    var ks := DueHead(DedupTimerKeys(s), now, n);
    var ms := Forgets(ks, Some(now));
    var t := Run(s, ms);
    DueSelects(DedupTimerKeys(s), now, n);
    ForgetsLegal(s, ks, Some(now));
    ForgetsKeepRest(s, ms);
    forall k ensures k in DedupTimerKeys(t) <==> k in DedupTimerKeys(s) && k !in ks {
      if k.DedupTimerKey? {
        var dk := DedupKey(k.queue, k.idempotencyKey);
        if j :| 0 <= j < |ms| && ms[j].dk == dk {
          Forgotten(s, ms, j);
          assert InDedupTimers(s, ks[j]);
          assert k in DedupTimerKeys(s) ==> k == ks[j];
        } else {
          assert forall j :: 0 <= j < |ks| ==> ms[j].dk == DedupKey(ks[j].queue, ks[j].idempotencyKey);
          RunDedupFrame(s, ms, dk);
          assert Lookup(t.dedup, dk) == Lookup(s.dedup, dk);
        }
      }
    }
  }

  lemma {:induction false} Forgotten(s: State, ms: seq<Move>, j: nat)
    requires (forall i :: 0 <= i < |ms| ==> ms[i].Forget?) && Legal(s, ms) && j < |ms|
    ensures ms[j].dk !in Run(s, ms).dedup
  {
    if j < |ms| - 1 { Forgotten(s, ms[..|ms| - 1], j); }
  }

  /** Retention takes exactly the chosen dead letters away. */
  lemma RetirePhase(s: State, cutoff: int, n: nat)
    ensures var ks := DueHead(DeadKeys(s), cutoff, n);
            var t := Run(s, DropDeads(ks));
            && DeadKeys(t) == DeadKeys(s) - Elements(ks)
            && ScheduledKeys(t) == ScheduledKeys(s) && LeaseKeys(t) == LeaseKeys(s)
            && t.dedup == s.dedup && t.closing == s.closing
  {
    hide Run, DueHead, ReadyKeys, ScheduledKeys, LeaseKeys, DedupTimerKeys, DeadKeys;
    var ks := DueHead(DeadKeys(s), cutoff, n);
    var ms := DropDeads(ks);
    var t := Run(s, ms);
    DueSelects(DeadKeys(s), cutoff, n);
    JobMovesKeepRest(s, ms);
    forall id
      ensures Lookup(t.live, id) == Lookup(s.live, id)
      ensures if Chosen(ks, id) then id in s.dead && id !in t.dead else Lookup(t.dead, id) == Lookup(s.dead, id)
    {
      var i := UntouchedOrIndex(ms, id);
      if i >= 0 {
        assert ms[i].id == JobIdOf(ks[i]) && InDead(s, ks[i]);
        EachOnItsOwn(s, ms, i);
        assert Lookup(t.dead, id) == None;
      } else {
        RunFrame(s, ms, id);
        assert forall j :: 0 <= j < |ks| ==> ms[j].id == JobIdOf(ks[j]);
      }
    }
    RetiredKeys(s, t, ks);
  }

  lemma RetiredKeys(s: State, t: State, ks: seq<Key>)
    requires forall i :: 0 <= i < |ks| ==> InDead(s, ks[i])
    requires forall id :: Lookup(t.live, id) == Lookup(s.live, id)
    requires forall id ::
               if Chosen(ks, id) then id in s.dead && id !in t.dead else Lookup(t.dead, id) == Lookup(s.dead, id)
    ensures DeadKeys(t) == DeadKeys(s) - Elements(ks)
    ensures ScheduledKeys(t) == ScheduledKeys(s) && LeaseKeys(t) == LeaseKeys(s)
  {
    forall k ensures k in ScheduledKeys(t) <==> k in ScheduledKeys(s) {
      if k.TimerKey? { assert Lookup(t.live, k.jobId) == Lookup(s.live, k.jobId); }
    }
    forall k ensures k in LeaseKeys(t) <==> k in LeaseKeys(s) {
      if k.TimerKey? { assert Lookup(t.live, k.jobId) == Lookup(s.live, k.jobId); }
    }
    forall k ensures k in DeadKeys(t) <==> k in DeadKeys(s) && k !in ks {
      if k.DeadLetterKey? {
        if Chosen(ks, k.jobId) {
          assert k.jobId !in t.dead;
          assert k in DeadKeys(s) ==> k in ks;
        } else {
          assert Lookup(t.dead, k.jobId) == Lookup(s.dead, k.jobId);
          assert forall i :: 0 <= i < |ks| ==> JobIdOf(ks[i]) != k.jobId;
        }
      }
    }
  }

  // ---- The whole sweep -------------------------------------------------------------

  /** What is left due after a phase that took the first `n`. */
  ghost function Rest(ks: set<Key>, now: int, n: nat): set<Key>
    requires forall k :: k in ks ==> !k.ReadyKey?
  {
    DueBy(ks, now) - Elements(DueHead(ks, now, n))
  }

  lemma ClosingPhaseRun(s: State, now: int)
    ensures var t := Run(s, ClosingPhase(s, now));
            t.live == s.live && t.dead == s.dead && t.dedup == s.dedup && t.closing == Unexpired(s, now)
  {
    RunOne(s, ExpireClosing(now));
    assert Run(s, []) == s;
    var t := Run(s, ClosingPhase(s, now));
    if ClosingPhase(s, now) == [] { assert t == s; }
  }

  lemma NothingClosing(s: State, t: State, now: int)
    requires t.closing == Unexpired(s, now)
    ensures !ClosingDue(t, now)
  {
    assert Unexpired(t, now) == t.closing;
  }

  lemma KeysFollow(s: State, t: State)
    ensures s.live == t.live ==> ScheduledKeys(s) == ScheduledKeys(t) && LeaseKeys(s) == LeaseKeys(t)
    ensures s.dead == t.dead ==> DeadKeys(s) == DeadKeys(t)
    ensures s.dedup == t.dedup ==> DedupTimerKeys(s) == DedupTimerKeys(t)
  {
    forall k ensures s.live == t.live ==>
      (InScheduled(s, k) <==> InScheduled(t, k)) && (InLeases(s, k) <==> InLeases(t, k)) {}
    forall k ensures s.dead == t.dead ==> (InDead(s, k) <==> InDead(t, k)) {}
    forall k ensures s.dedup == t.dedup ==> (InDedupTimers(s, k) <==> InDedupTimers(t, k)) {}
  }

  /** Closing and promotion leave leases, dead letters and dedup records as they were. */
  lemma FirstPhases(s: State, now: int, budget: nat)
    requires Inv(s)
    ensures var a := ClosingPhase(s, now);
            var b := a + Promotes(DueHead(ScheduledKeys(Run(s, a)), now, budget), now);
            var t := Run(s, b);
            && Inv(t) && t.closing == Unexpired(s, now)
            && ScheduledKeys(t) == ScheduledKeys(s) - Elements(DueHead(ScheduledKeys(s), now, budget))
            && LeaseKeys(t) == LeaseKeys(s) && DeadKeys(t) == DeadKeys(s) && DedupTimerKeys(t) == DedupTimerKeys(s)
  {
    var a := ClosingPhase(s, now);
    var s1 := Run(s, a);
    ClosingPhaseRun(s, now);
    KeysFollow(s, s1);
    RunInv(s, a);
    var b' := Promotes(DueHead(ScheduledKeys(s1), now, budget), now);
    PromotePhase(s1, now, budget);
    RunInv(s1, b');
    RunConcat(s, a, b');
    KeysFollow(s1, Run(s1, b'));
  }

  lemma LastPhases(s: State, now: int, budget: nat, keep: bool)
    requires Inv(s)
    ensures var c := Expires(DueHead(LeaseKeys(s), now, budget), now, keep);
            var t := Run(s, c + Forgets(DueHead(DedupTimerKeys(Run(s, c)), now, budget), Some(now)));
            && t.closing == s.closing && ScheduledKeys(t) == ScheduledKeys(s)
            && LeaseKeys(t) == LeaseKeys(s) - Elements(DueHead(LeaseKeys(s), now, budget))
            && DedupTimerKeys(t) == DedupTimerKeys(s) - Elements(DueHead(DedupTimerKeys(s), now, budget))
            && DeadKeys(s) <= DeadKeys(t) && (forall k :: k in DeadKeys(t) - DeadKeys(s) ==> DeadlineOf(k) == now)
  {
    var c := Expires(DueHead(LeaseKeys(s), now, budget), now, keep);
    ExpirePhase(s, now, budget, keep);
    var s3 := Run(s, c);
    KeysFollow(s, s3);
    var d' := Forgets(DueHead(DedupTimerKeys(s3), now, budget), Some(now));
    ForgetPhase(s3, now, budget);
    RunConcat(s, c, d');
    KeysFollow(s3, Run(s3, d'));
  }

  lemma TimerRun(s: State, now: int, budget: nat, keep: bool) returns (s2: State)
    requires Inv(s)
    ensures Inv(s2) && s2.closing == Unexpired(s, now)
    ensures ScheduledKeys(s2) == ScheduledKeys(s) - Elements(DueHead(ScheduledKeys(s), now, budget))
    ensures LeaseKeys(s2) == LeaseKeys(s) && DeadKeys(s2) == DeadKeys(s) && DedupTimerKeys(s2) == DedupTimerKeys(s)
    ensures var c := Expires(DueHead(LeaseKeys(s2), now, budget), now, keep);
            var d := Forgets(DueHead(DedupTimerKeys(Run(s2, c)), now, budget), Some(now));
            Run(s, TimerMoves(s, now, budget, keep)) == Run(s2, c + d)
  {
    var a := ClosingPhase(s, now);
    var b := a + Promotes(DueHead(ScheduledKeys(Run(s, a)), now, budget), now);
    FirstPhases(s, now, budget);
    s2 := Run(s, b);
    var c' := Expires(DueHead(LeaseKeys(s2), now, budget), now, keep);
    RunConcat(s, b, c');
    var d' := Forgets(DueHead(DedupTimerKeys(Run(s2, c')), now, budget), Some(now));
    RunConcat(s, b + c', d');
    RunConcat(s2, c', d');
  }

  lemma TimerPhases(s: State, now: int, budget: nat, keep: bool)
    requires Inv(s)
    ensures var t := Run(s, TimerMoves(s, now, budget, keep));
            && t.closing == Unexpired(s, now)
            && ScheduledKeys(t) == ScheduledKeys(s) - Elements(DueHead(ScheduledKeys(s), now, budget))
            && LeaseKeys(t) == LeaseKeys(s) - Elements(DueHead(LeaseKeys(s), now, budget))
            && DedupTimerKeys(t) == DedupTimerKeys(s) - Elements(DueHead(DedupTimerKeys(s), now, budget))
            && DeadKeys(s) <= DeadKeys(t) && (forall k :: k in DeadKeys(t) - DeadKeys(s) ==> DeadlineOf(k) == now)
  {
    var s2 := TimerRun(s, now, budget, keep);
    LastPhases(s2, now, budget, keep);
  }

  lemma CycleRun(s: State, now: int, budget: nat, retention: nat)
    ensures var s4 := Run(s, TimerMoves(s, now, budget, retention > 0));
            Apply(s, SweepAt(now, budget, retention))
              == if retention > 0
                 then Run(s4, DropDeads(DueHead(DeadKeys(s4), Cutoff(now, retention).value, budget))) else s4
  {
    hide Run, TimerMoves, DueHead, DropDeads, ReadyKeys, ScheduledKeys, LeaseKeys, DedupTimerKeys, DeadKeys;
    var d := TimerMoves(s, now, budget, retention > 0);
    if retention > 0 {
      RunConcat(s, d, DropDeads(DueHead(DeadKeys(Run(s, d)), Cutoff(now, retention).value, budget)));
    }
  }

  /** New dead letters fail now, later than any cutoff, so retention sees the old ones. */
  lemma RetireOld(s: State, s4: State, now: int, cut: int, budget: nat)
    requires cut < now
    requires DeadKeys(s) <= DeadKeys(s4) && (forall k :: k in DeadKeys(s4) - DeadKeys(s) ==> DeadlineOf(k) == now)
    ensures var t := Run(s4, DropDeads(DueHead(DeadKeys(s4), cut, budget)));
            && DueBy(DeadKeys(t), cut) == Rest(DeadKeys(s), cut, budget)
            && ScheduledKeys(t) == ScheduledKeys(s4) && LeaseKeys(t) == LeaseKeys(s4)
            && DedupTimerKeys(t) == DedupTimerKeys(s4) && t.closing == s4.closing
  {
    assert DueBy(DeadKeys(s4), cut) == DueBy(DeadKeys(s), cut);
    var ks := DueHead(DeadKeys(s4), cut, budget);
    RetirePhase(s4, cut, budget);
    KeysFollow(s4, Run(s4, DropDeads(ks)));
    DueMinus(DeadKeys(s4), Elements(ks), DeadKeys(Run(s4, DropDeads(ks))), cut);
  }

  /** The same for the whole cycle, retention included. */
  lemma CyclePhases(s: State, now: int, budget: nat, retention: nat)
    requires Inv(s)
    ensures var t := Apply(s, SweepAt(now, budget, retention));
            && t.closing == Unexpired(s, now)
            && ScheduledKeys(t) == ScheduledKeys(s) - Elements(DueHead(ScheduledKeys(s), now, budget))
            && LeaseKeys(t) == LeaseKeys(s) - Elements(DueHead(LeaseKeys(s), now, budget))
            && DedupTimerKeys(t) == DedupTimerKeys(s) - Elements(DueHead(DedupTimerKeys(s), now, budget))
            && DeadDue(t, now, retention)
               == (if retention > 0 then Rest(DeadKeys(s), Cutoff(now, retention).value, budget) else {})
  {
    CycleRun(s, now, budget, retention);
    TimerPhases(s, now, budget, retention > 0);
    if retention > 0 {
      RetireOld(s, Run(s, TimerMoves(s, now, budget, true)), now, Cutoff(now, retention).value, budget);
    }
  }

  lemma DueMinus(ks: set<Key>, l: set<Key>, ks': set<Key>, now: int)
    requires (forall k :: k in ks ==> !k.ReadyKey?) && ks' == ks - l
    ensures DueBy(ks', now) == DueBy(ks, now) - l
  {
  }

  /** A sweep cycle handles, in each phase, exactly the min(budget, due) earliest due
      entries of the state it started in, and makes nothing newly due. */
  lemma SweepTakesTheEarliest(s: State, now: int, budget: nat, retention: nat)
    requires Inv(s)
    ensures var t := Apply(s, SweepAt(now, budget, retention));
            && DueBy(ScheduledKeys(t), now) == Rest(ScheduledKeys(s), now, budget)
            && DueBy(LeaseKeys(t), now) == Rest(LeaseKeys(s), now, budget)
            && DueBy(DedupTimerKeys(t), now) == Rest(DedupTimerKeys(s), now, budget)
            && DeadDue(t, now, retention)
               == (if retention > 0 then Rest(DeadKeys(s), Cutoff(now, retention).value, budget) else {})
            && !ClosingDue(t, now)
  {
    var t := Apply(s, SweepAt(now, budget, retention));
    CyclePhases(s, now, budget, retention);
    NothingClosing(s, t, now);
    DueMinus(ScheduledKeys(s), Elements(DueHead(ScheduledKeys(s), now, budget)), ScheduledKeys(t), now);
    DueMinus(LeaseKeys(s), Elements(DueHead(LeaseKeys(s), now, budget)), LeaseKeys(t), now);
    DueMinus(DedupTimerKeys(s), Elements(DueHead(DedupTimerKeys(s), now, budget)), DedupTimerKeys(t), now);
  }

  /** How many entries a sweep at `now` would find due. */
  ghost function DueCount(s: State, now: int, retention: nat): nat {
    |DueBy(ScheduledKeys(s), now)| + |DueBy(LeaseKeys(s), now)| + |DueBy(DedupTimerKeys(s), now)|
    + |DeadDue(s, now, retention)| + (if ClosingDue(s, now) then 1 else 0)
  }

  lemma RestShrinks(ks: set<Key>, now: int, n: nat)
    requires n >= 1 && forall k :: k in ks ==> !k.ReadyKey?
    ensures |Rest(ks, now, n)| <= |DueBy(ks, now)|
    ensures DueBy(ks, now) != {} ==> |Rest(ks, now, n)| < |DueBy(ks, now)|
  {
    var due, l := DueBy(ks, now), DueHead(ks, now, n);
    DueSelects(ks, now, n);
    assert due == Rest(ks, now, n) + (due * Elements(l));
    if due != {} {
      assert l[0] in l && l[0] in due * Elements(l);
    }
  }

  /** A sweep with a budget strictly reduces what is due, so the committer cannot spin. */
  lemma SweepProgress(s: State, now: int, budget: nat, retention: nat)
    requires Inv(s) && budget >= 1 && HasDue(s, now, retention)
    ensures DueCount(Apply(s, SweepAt(now, budget, retention)), now, retention) < DueCount(s, now, retention)
  {
    hide Inv, Apply, Rest, ReadyKeys, ScheduledKeys, LeaseKeys, DedupTimerKeys, DeadKeys;
    SweepTakesTheEarliest(s, now, budget, retention);
    RestShrinks(ScheduledKeys(s), now, budget);
    RestShrinks(LeaseKeys(s), now, budget);
    RestShrinks(DedupTimerKeys(s), now, budget);
    if retention > 0 { RestShrinks(DeadKeys(s), Cutoff(now, retention).value, budget); }
  }

  /** Sweeping over and over at one instant comes to rest with nothing due. */
  ghost function SweepToRest(s: State, now: int, budget: nat, retention: nat): (t: State)
    requires Inv(s) && budget >= 1
    ensures Inv(t) && !HasDue(t, now, retention)
    decreases DueCount(s, now, retention)
  {
    if !HasDue(s, now, retention) then s
    else
      SweepProgress(s, now, budget, retention);
      RunInv(s, PlanOf(s, SweepAt(now, budget, retention)).moves);
      SweepToRest(Apply(s, SweepAt(now, budget, retention)), now, budget, retention)
  }
}
