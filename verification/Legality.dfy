/** Every plan is legal: in any state the invariant admits, each move an operation
    makes is enabled when its turn comes, so `Step`'s guard never hides anything. */
module Legality {
  import opened Bytes
  import opened Keys
  import opened Listing
  import opened Machine
  import opened Ops

  /** What the handle guarantees of the operations it proposes: ids are fresh UUIDs
      and attempts are validated to be at least one. */
  ghost predicate BatchOk(s: State, jobs: seq<Prepared>) {
    && (forall i :: 0 <= i < |jobs| ==> jobs[i].id !in s.used && jobs[i].body.maxAttempts >= 1)
    && (forall i, j :: 0 <= i < j < |jobs| ==> jobs[i].id != jobs[j].id)
  }

  ghost predicate OpOk(s: State, op: Op) {
    op.EnqueueOp? || op.EnqueueAtomicOp? ==> BatchOk(s, op.jobs)
  }

  /** Whether the move is enabled depends on its own job only. */
  predicate JobLocal(m: Move) {
    AboutJob(m) && !m.Insert?
  }

  lemma EnabledLocal(s: State, t: State, m: Move)
    requires JobLocal(m)
    requires Lookup(s.live, m.id) == Lookup(t.live, m.id) && Lookup(s.dead, m.id) == Lookup(t.dead, m.id)
    ensures Enabled(s, m) == Enabled(t, m)
  {
    assert m.id in s.live <==> m.id in t.live;
    assert m.id in s.live ==> s.live[m.id] == t.live[m.id];
    assert m.id in s.dead <==> m.id in t.dead;
  }

  lemma {:induction false} RunFrame(s: State, ms: seq<Move>, id: Id)
    requires forall i :: 0 <= i < |ms| ==> !Touches(ms[i], id)
    ensures Lookup(Run(s, ms).live, id) == Lookup(s.live, id)
    ensures Lookup(Run(s, ms).dead, id) == Lookup(s.dead, id)
  {
    if ms != [] {
      RunFrame(s, ms[..|ms| - 1], id);
      StepFrame(Run(s, ms[..|ms| - 1]), ms[|ms| - 1], id);
    }
  }

  ghost predicate DistinctJobs(ms: seq<Move>) {
    && (forall i :: 0 <= i < |ms| ==> JobLocal(ms[i]))
    && (forall i, j :: 0 <= i < j < |ms| ==> ms[i].id != ms[j].id)
  }

  /** Moves about different jobs do not get in each other's way. */
  lemma {:induction false} LegalDistinct(s: State, ms: seq<Move>)
    requires DistinctJobs(ms) && forall i :: 0 <= i < |ms| ==> Enabled(s, ms[i])
    ensures Legal(s, ms)
  {
    if ms != [] {
      var front, m := ms[..|ms| - 1], ms[|ms| - 1];
      LegalDistinct(s, front);
      RunFrame(s, front, m.id);
      EnabledLocal(s, Run(s, front), m);
    }
  }

  predicate Pins(m: Move, dk: DedupKey) {
    (m.Forget? && m.dk == dk) || (m.Insert? && m.pin.Some? && DedupKey(m.job.queue, m.pin.value.key) == dk)
  }

  lemma StepDedupFrame(s: State, m: Move, dk: DedupKey)
    requires !Pins(m, dk)
    ensures Lookup(Step(s, m).dedup, dk) == Lookup(s.dedup, dk)
  {
  }

  lemma {:induction false} RunDedupFrame(s: State, ms: seq<Move>, dk: DedupKey)
    requires forall i :: 0 <= i < |ms| ==> !Pins(ms[i], dk)
    ensures Lookup(Run(s, ms).dedup, dk) == Lookup(s.dedup, dk)
  {
    if ms != [] {
      RunDedupFrame(s, ms[..|ms| - 1], dk);
      StepDedupFrame(Run(s, ms[..|ms| - 1]), ms[|ms| - 1], dk);
    }
  }

  ghost predicate DistinctForgets(ms: seq<Move>) {
    && (forall i :: 0 <= i < |ms| ==> ms[i].Forget?)
    && (forall i, j :: 0 <= i < j < |ms| ==> ms[i].dk != ms[j].dk)
  }

  lemma {:induction false} LegalForgets(s: State, ms: seq<Move>)
    requires DistinctForgets(ms) && forall i :: 0 <= i < |ms| ==> Enabled(s, ms[i])
    ensures Legal(s, ms)
  {
    if ms != [] {
      var front, m := ms[..|ms| - 1], ms[|ms| - 1];
      LegalForgets(s, front);
      RunDedupFrame(s, front, m.dk);
      assert Lookup(s.dedup, m.dk).Some?;
    }
  }

  // ---- Enqueue ---------------------------------------------------------------

  lemma OneUsed(s: State, m: Move)
    ensures Step(s, m).used == if m.Insert? && Enabled(s, m) then s.used + {m.id} else s.used
  {
  }

  /** A fresh id past the admission checks makes the insert enabled. */
  lemma InsertEnabled(s: State, j: Prepared, now: int)
    requires j.id !in s.used && j.body.maxAttempts >= 1
    requires !IsClosing(s, j.queue, now) && !DedupHit(s, j, now)
    ensures Enabled(s, InsertMove(j, now))
  {
  }

  ghost predicate UsedWithin(s: State, ms: seq<Move>, jobs: seq<Prepared>) {
    forall id :: id in Run(s, ms).used ==> id in s.used || exists i :: 0 <= i < |jobs| && jobs[i].id == id
  }

  lemma {:induction false} EnqueueLegal(s: State, jobs: seq<Prepared>, now: int)
    requires BatchOk(s, jobs)
    ensures Legal(s, EnqueueAll(s, jobs, now).0)
    ensures UsedWithin(s, EnqueueAll(s, jobs, now).0, jobs)
  {
    if jobs != [] {
      var front, j := jobs[..|jobs| - 1], jobs[|jobs| - 1];
      EnqueueLegal(s, front, now);
      var ms := EnqueueAll(s, front, now).0;
      var t := Run(s, ms);
      var (m, r) := EnqueueOne(t, j, now);
      assert EnqueueAll(s, jobs, now).0 == ms + m;
      UsedGrows(s, ms, front, jobs);
      if m == [] {
        assert ms + m == ms;
      } else {
        InsertEnabled(t, j, now);
        RunSnoc(s, ms, InsertMove(j, now));
        OneUsed(t, InsertMove(j, now));
        assert jobs[|jobs| - 1].id == j.id;
      }
    }
  }

  lemma UsedGrows(s: State, ms: seq<Move>, front: seq<Prepared>, jobs: seq<Prepared>)
    requires front <= jobs && |front| == |jobs| - 1 && UsedWithin(s, ms, front) && BatchOk(s, jobs)
    ensures UsedWithin(s, ms, jobs)
    ensures jobs[|jobs| - 1].id !in Run(s, ms).used
  {
    forall id | id in Run(s, ms).used && id !in s.used
      ensures exists i :: 0 <= i < |jobs| && jobs[i].id == id
    {
      var i :| 0 <= i < |front| && front[i].id == id;
      assert jobs[i].id == id;
    }
  }

  /** Enqueueing never writes a tombstone. */
  lemma InsertKeepsClosing(s: State, j: Prepared, now: int)
    ensures Step(s, InsertMove(j, now)).closing == s.closing
  {
  }

  lemma {:induction false} InsertAllLegal(s: State, jobs: seq<Prepared>, now: int)
    requires BatchOk(s, jobs)
    requires forall i :: 0 <= i < |jobs| ==> !IsClosing(s, jobs[i].queue, now)
    ensures Legal(s, InsertAll(s, jobs, now).0)
    ensures UsedWithin(s, InsertAll(s, jobs, now).0, jobs)
    ensures Run(s, InsertAll(s, jobs, now).0).closing == s.closing
  {
    if jobs != [] {
      var front, j := jobs[..|jobs| - 1], jobs[|jobs| - 1];
      InsertAllLegal(s, front, now);
      var ms := InsertAll(s, front, now).0;
      var t := Run(s, ms);
      var (m, r) := DedupOrInsert(t, j, now);
      assert InsertAll(s, jobs, now).0 == ms + m;
      UsedGrows(s, ms, front, jobs);
      if m == [] {
        assert ms + m == ms;
      } else {
        InsertEnabled(t, j, now);
        RunSnoc(s, ms, InsertMove(j, now));
        OneUsed(t, InsertMove(j, now));
        InsertKeepsClosing(t, j, now);
        assert jobs[|jobs| - 1].id == j.id;
      }
    }
  }

  lemma {:induction false} NoClosingErrors(s: State, jobs: seq<Prepared>, now: int)
    requires ClosingErrors(s, jobs, now) == []
    ensures forall i :: 0 <= i < |jobs| ==> !IsClosing(s, jobs[i].queue, now)
  {
    if jobs != [] { NoClosingErrors(s, jobs[..|jobs| - 1], now); }
  }

  // ---- Operations that pick keys in order ----------------------------------------

  /** Keys of one queue, picked in order from a keyspace. */
  lemma FirstOfSelects(s: State, ks: set<Key>, q: Queue, n: nat)
    ensures var l := FirstOf(s, ks, q, n);
            && |l| == Min(n, |OwnedBy(s, ks, q)|)
            && (forall i :: 0 <= i < |l| ==> l[i] in ks && Owner(s, l[i]) == q)
            && (forall i, j :: 0 <= i < j < |l| ==> l[i] != l[j])
  {
    TakeIsEarliest(OwnedBy(s, ks, q), n);
    var l := FirstOf(s, ks, q, n);
    assert forall i :: 0 <= i < |l| ==> l[i] in l;
  }

  lemma {:induction false} ReserveLegal(s: State, queues: seq<Queue>, expiry: int, n: nat)
    ensures Legal(s, ReservePlan(s, queues, expiry, n).0)
    decreases |queues|, n
  {
    if queues != [] && n != 0 {
      if OwnedBy(s, ReadyKeys(s), queues[0]) == {} {
        ReserveLegal(s, queues[1..], expiry, n);
      } else {
        var k := NextKey(s, queues[0]);
        assert InReady(s, k);
        var m := Lease(JobIdOf(k), expiry);
        ReserveLegal(Step(s, m), queues, expiry, n - 1);
        RunOne(s, m);
        RunConcat(s, [m], ReservePlan(Step(s, m), queues, expiry, n - 1).0);
      }
    }
  }

  /** Dead letters picked from a duplicate-free list can be dropped one after another. */
  lemma DropDeadsLegal(s: State, ks: seq<Key>)
    requires forall i :: 0 <= i < |ks| ==> InDead(s, ks[i])
    requires forall i, j :: 0 <= i < j < |ks| ==> ks[i] != ks[j]
    ensures Legal(s, DropDeads(ks))
  {
    LegalDistinct(s, DropDeads(ks));
  }

  lemma DropLivesLegal(s: State, ks: seq<Key>)
    requires forall i :: 0 <= i < |ks| ==> InReady(s, ks[i]) || InScheduled(s, ks[i])
    requires forall i, j :: 0 <= i < j < |ks| ==> ks[i] != ks[j]
    ensures Legal(s, DropLives(ks))
  {
    LegalDistinct(s, DropLives(ks));
  }

  lemma ForgetsLegal(s: State, ks: seq<Key>, due: Option<int>)
    requires forall i :: 0 <= i < |ks| ==> InDedupTimers(s, ks[i]) && (due.Some? ==> ks[i].deadline <= due.value)
    requires forall i, j :: 0 <= i < j < |ks| ==> ks[i] != ks[j]
    ensures Legal(s, Forgets(ks, due))
  {
    LegalForgets(s, Forgets(ks, due));
  }

  lemma {:induction false} WantedMembers(l: seq<Key>, want: Option<Queue>, k: Key)
    requires forall i :: 0 <= i < |l| ==> l[i].DeadLetterKey?
    ensures k in Wanted(l, want) <==> k in l && (want.None? || want.value == k.queue)
  {
    if l != [] {
      WantedMembers(l[..|l| - 1], want, k);
      assert l == l[..|l| - 1] + [l[|l| - 1]];
    }
  }

  lemma {:induction false} WantedAscends(l: seq<Key>, want: Option<Queue>)
    requires forall i :: 0 <= i < |l| ==> l[i].DeadLetterKey?
    requires Ascending(l)
    ensures Ascending(Wanted(l, want))
  {
    if l != [] {
      var front, last := l[..|l| - 1], l[|l| - 1];
      WantedAscends(front, want);
      var w := Wanted(front, want);
      forall a | 0 <= a < |w| ensures KeyLess(w[a], last) {
        WantedMembers(front, want, w[a]);
        assert w[a] in front;
      }
    }
  }

  lemma DrainLegal(s: State, want: Option<Queue>, max: nat, scanCap: nat)
    ensures Legal(s, DropDeads(DrainKeys(s, want, max, scanCap)))
    ensures forall k :: k in DrainKeys(s, want, max, scanCap) ==> InDead(s, k)
    ensures Ascending(DrainKeys(s, want, max, scanCap))
  {
    var all := Sorted(DeadKeys(s));
    SortedContents(DeadKeys(s));
    TakeIsEarliest(DeadKeys(s), scanCap);
    var scanned := Take(all, scanCap);
    assert forall i :: 0 <= i < |scanned| ==> scanned[i] in scanned && InDead(s, scanned[i]);
    WantedAscends(scanned, want);
    TakeOfAscending(Wanted(scanned, want), max);
    var ks := DrainKeys(s, want, max, scanCap);
    assert ks == Take(Wanted(scanned, want), max);
    AscendingDistinct(ks);
    forall k | k in ks ensures InDead(s, k) { WantedMembers(scanned, want, k); }
    assert forall i :: 0 <= i < |ks| ==> ks[i] in ks;
    DropDeadsLegal(s, ks);
  }

  lemma KeyMoveEnabled(s: State, op: Op, k: Key)
    requires op.RequeueOp? || op.BuryOp? || op.DeleteOp?
    ensures Legal(s, KeyMove(s, op, k))
  {
    var m := KeyMove(s, op, k);
    if m != [] {
      assert m == [m[0]];
      assert Enabled(s, m[0]);
      RunOne(s, m[0]);
    }
  }

  lemma {:induction false} KeyMovesLegal(s: State, op: Op, keys: seq<Key>)
    requires op.RequeueOp? || op.BuryOp? || op.DeleteOp?
    ensures Legal(s, KeyMoves(s, op, keys))
  {
    if keys != [] {
      var front := keys[..|keys| - 1];
      KeyMovesLegal(s, op, front);
      var ms := KeyMoves(s, op, front);
      var m := KeyMove(Run(s, ms), op, keys[|keys| - 1]);
      KeyMoveEnabled(Run(s, ms), op, keys[|keys| - 1]);
      RunConcat(s, ms, m);
    }
  }

  lemma PurgeLegal(s: State, q: Queue, max: nat)
    ensures Legal(s, PurgeMoves(s, q, max))
  {
    var a' := FirstOf(s, ReadyKeys(s), q, max);
    var a := DropLives(a');
    FirstOfSelects(s, ReadyKeys(s), q, max);
    DropLivesLegal(s, a');
    var s1 := Run(s, a);
    var b' := FirstOf(s1, ScheduledKeys(s1), q, Left(max, a));
    FirstOfSelects(s1, ScheduledKeys(s1), q, Left(max, a));
    DropLivesLegal(s1, b');
    RunConcat(s, a, DropLives(b'));
    var b := a + DropLives(b');
    var s2 := Run(s, b);
    var c' := FirstOf(s2, DeadKeys(s2), q, Left(max, b));
    FirstOfSelects(s2, DeadKeys(s2), q, Left(max, b));
    DropDeadsLegal(s2, c');
    RunConcat(s, b, DropDeads(c'));
    var c := b + DropDeads(c');
    var s3 := Run(s, c);
    var d' := FirstOf(s3, DedupTimerKeys(s3), q, Left(max, c));
    FirstOfSelects(s3, DedupTimerKeys(s3), q, Left(max, c));
    ForgetsLegal(s3, d', None);
    RunConcat(s, c, Forgets(d', None));
  }

  lemma DueSelects(ks: set<Key>, now: int, n: nat)
    requires forall k :: k in ks ==> !k.ReadyKey?
    ensures var l := DueHead(ks, now, n);
            && |l| == Min(n, |DueBy(ks, now)|)
            && (forall i :: 0 <= i < |l| ==> l[i] in ks && DeadlineOf(l[i]) <= now)
            && (forall i, j :: 0 <= i < j < |l| ==> l[i] != l[j])
  {
    TakeIsEarliest(DueBy(ks, now), n);
    var l := DueHead(ks, now, n);
    assert forall i :: 0 <= i < |l| ==> l[i] in l;
  }

  lemma PromotesLegal(s: State, now: int, n: nat)
    ensures Legal(s, Promotes(DueHead(ScheduledKeys(s), now, n), now))
  {
    DueSelects(ScheduledKeys(s), now, n);
    LegalDistinct(s, Promotes(DueHead(ScheduledKeys(s), now, n), now));
  }

  lemma ExpiresLegal(s: State, now: int, n: nat, keep: bool)
    ensures Legal(s, Expires(DueHead(LeaseKeys(s), now, n), now, keep))
  {
    DueSelects(LeaseKeys(s), now, n);
    LegalDistinct(s, Expires(DueHead(LeaseKeys(s), now, n), now, keep));
  }

  lemma TimersLegal(s: State, now: int, budget: nat, keep: bool)
    ensures Legal(s, TimerMoves(s, now, budget, keep))
  {
    var a := ClosingPhase(s, now);
    if a != [] { RunOne(s, ExpireClosing(now)); }
    var b' := Promotes(DueHead(ScheduledKeys(Run(s, a)), now, budget), now);
    PromotesLegal(Run(s, a), now, budget);
    RunConcat(s, a, b');
    var b := a + b';
    var c' := Expires(DueHead(LeaseKeys(Run(s, b)), now, budget), now, keep);
    ExpiresLegal(Run(s, b), now, budget, keep);
    RunConcat(s, b, c');
    var c := b + c';
    var d' := DueHead(DedupTimerKeys(Run(s, c)), now, budget);
    DueSelects(DedupTimerKeys(Run(s, c)), now, budget);
    ForgetsLegal(Run(s, c), d', Some(now));
    RunConcat(s, c, Forgets(d', Some(now)));
  }

  lemma SweepLegal(s: State, now: int, budget: nat, cutoff: Option<int>, keep: bool)
    ensures Legal(s, SweepMoves(s, now, budget, cutoff, keep))
  {
    var d := TimerMoves(s, now, budget, keep);
    TimersLegal(s, now, budget, keep);
    if cutoff.Some? {
      var e' := DueHead(DeadKeys(Run(s, d)), cutoff.value, budget);
      DueSelects(DeadKeys(Run(s, d)), cutoff.value, budget);
      DropDeadsLegal(Run(s, d), e');
      RunConcat(s, d, DropDeads(e'));
    }
  }

  lemma FencedLegal(s: State, op: Op)
    requires op.AckOp? || op.NackOp? || op.ExtendOp?
    ensures Legal(s, FencedPlan(s, op).moves)
  {
    var ms := FencedPlan(s, op).moves;
    if ms != [] {
      assert ms == [ms[0]];
      RunOne(s, ms[0]);
    }
  }

  lemma AtomicLegal(s: State, jobs: seq<Prepared>, now: int)
    requires BatchOk(s, jobs)
    ensures Legal(s, AtomicPlan(s, jobs, now).moves)
  {
    if ClosingErrors(s, jobs, now) == [] {
      NoClosingErrors(s, jobs, now);
      InsertAllLegal(s, jobs, now);
    }
  }

  lemma SingleLegal(s: State, op: Op)
    requires op.CloseOp? || op.OpenOp? || op.AuditOp?
    ensures Legal(s, PlanOf(s, op).moves)
  {
    match op {
      case CloseOp(q, now, grace) => RunOne(s, Close(q, SatAdd(now, grace)));
      case OpenOp(q) => RunOne(s, Open(q));
      case AuditOp(record, now) => RunOne(s, Append(AuditEntry(now, record)));
    }
  }

  lemma KeysLegal(s: State, op: Op)
    requires op.RequeueOp? || op.BuryOp? || op.DeleteOp?
    ensures Legal(s, PlanOf(s, op).moves)
  {
    KeyMovesLegal(s, op, op.keys);
  }

  /** No operation ever asks for a move its state does not allow. */
  lemma PlanLegal(s: State, op: Op)
    requires OpOk(s, op)
    ensures Legal(s, PlanOf(s, op).moves)
  {
    match op {
      case EnqueueOp(jobs, now) => EnqueueLegal(s, jobs, now);
      case EnqueueAtomicOp(jobs, now) => AtomicLegal(s, jobs, now);
      case ReserveOp(queues, leaseMs, maxJobs, now) => ReserveLegal(s, queues, After(now, leaseMs), maxJobs);
      case AckOp(_, _) => FencedLegal(s, op);
      case NackOp(_, _, _, _, _, _, _) => FencedLegal(s, op);
      case ExtendOp(_, _, _, _) => FencedLegal(s, op);
      case DrainOp(want, max, scanCap) => DrainLegal(s, want, max, scanCap);
      case BuryOp(_, _, _, _, _, _) => KeysLegal(s, op);
      case RequeueOp(_, _, _) => KeysLegal(s, op);
      case DeleteOp(_, _) => KeysLegal(s, op);
      case PurgeOp(q, max) => PurgeLegal(s, q, max);
      case SweepOp(now, budget, cutoff, keep) => SweepLegal(s, now, budget, cutoff, keep);
      case CloseOp(_, _, _) => SingleLegal(s, op);
      case OpenOp(_) => SingleLegal(s, op);
      case AuditOp(_, _) => SingleLegal(s, op);
    }
  }

  // ---- Which moves an operation can make -----------------------------------------

  predicate Kind(op: Op, m: Move) {
    match op
    case EnqueueOp(_, now) => m.Insert? && m.job.enqueuedAt == now
    case EnqueueAtomicOp(_, now) => m.Insert? && m.job.enqueuedAt == now
    case ReserveOp(_, _, _, _) => m.Lease?
    case AckOp(_, _) => m.Ack?
    case NackOp(_, _, _, _, _, _, _) => m.Nack?
    case ExtendOp(_, _, _, _) => m.Extend?
    case DrainOp(_, _, _) => m.DropDead?
    case CloseOp(q, now, grace) => m == Close(q, SatAdd(now, grace))
    case OpenOp(q) => m == Open(q)
    case RequeueOp(_, _, _) => m.Revive?
    case BuryOp(_, _, _, _, _, _) => m.Bury?
    case DeleteOp(_, _) => m.DropDead?
    case PurgeOp(q, _) => m.DropLive? || m.DropDead? || (m.Forget? && m.dk.queue == q)
    case SweepOp(now, _, _, keep) =>
      m == ExpireClosing(now) || m.Promote? || (m.Expire? && m.now == now && m.keep == keep)
      || (m.Forget? && m.due == Some(now)) || m.DropDead?
    case AuditOp(_, _) => m.Append?
  }

  ghost predicate AllKind(op: Op, ms: seq<Move>) {
    forall i :: 0 <= i < |ms| ==> Kind(op, ms[i])
  }

  lemma {:induction false} EnqueueKinds(s: State, op: Op, jobs: seq<Prepared>)
    requires op.EnqueueOp? || op.EnqueueAtomicOp?
    ensures AllKind(op, EnqueueAll(s, jobs, op.now).0)
    ensures AllKind(op, InsertAll(s, jobs, op.now).0)
  {
    if jobs != [] { EnqueueKinds(s, op, jobs[..|jobs| - 1]); }
  }

  lemma {:induction false} ReserveKinds(s: State, op: Op, queues: seq<Queue>, expiry: int, n: nat)
    requires op.ReserveOp?
    ensures AllKind(op, ReservePlan(s, queues, expiry, n).0)
    decreases |queues|, n
  {
    if queues != [] && n != 0 {
      if OwnedBy(s, ReadyKeys(s), queues[0]) == {} {
        ReserveKinds(s, op, queues[1..], expiry, n);
      } else {
        ReserveKinds(Step(s, Lease(JobIdOf(NextKey(s, queues[0])), expiry)), op, queues, expiry, n - 1);
      }
    }
  }

  lemma KeyKind(s: State, op: Op, k: Key)
    requires op.RequeueOp? || op.BuryOp? || op.DeleteOp?
    ensures AllKind(op, KeyMove(s, op, k))
  {
  }

  lemma {:induction false} KeyKinds(s: State, op: Op, keys: seq<Key>)
    requires op.RequeueOp? || op.BuryOp? || op.DeleteOp?
    ensures AllKind(op, KeyMoves(s, op, keys))
  {
    if keys != [] {
      var ms := KeyMoves(s, op, keys[..|keys| - 1]);
      KeyKinds(s, op, keys[..|keys| - 1]);
      KeyKind(Run(s, ms), op, keys[|keys| - 1]);
    }
  }

  lemma PurgeKind(s: State, op: Op, ks: seq<Key>, n: nat)
    requires op.PurgeOp?
    ensures AllKind(op, DropLives(ks)) && AllKind(op, DropDeads(ks))
    ensures AllKind(op, Forgets(FirstOf(s, DedupTimerKeys(s), op.queue, n), None))
  {
    FirstOfSelects(s, DedupTimerKeys(s), op.queue, n);
  }

  lemma AllKindConcat(op: Op, a: seq<Move>, b: seq<Move>)
    requires AllKind(op, a) && AllKind(op, b)
    ensures AllKind(op, a + b)
  {
  }

  lemma PurgeKinds(s: State, op: Op)
    requires op.PurgeOp?
    ensures AllKind(op, PurgeMoves(s, op.queue, op.max))
  {
    var (q, max) := (op.queue, op.max);
    var a' := FirstOf(s, ReadyKeys(s), q, max);
    var a := DropLives(a');
    PurgeKind(s, op, a', 0);
    var s1 := Run(s, a);
    var b' := FirstOf(s1, ScheduledKeys(s1), q, Left(max, a));
    var b := a + DropLives(b');
    PurgeKind(s, op, b', 0);
    AllKindConcat(op, a, DropLives(b'));
    var s2 := Run(s, b);
    var c' := FirstOf(s2, DeadKeys(s2), q, Left(max, b));
    var c := b + DropDeads(c');
    PurgeKind(s, op, c', 0);
    AllKindConcat(op, b, DropDeads(c'));
    var s3 := Run(s, c);
    PurgeKind(s3, op, [], Left(max, c));
    AllKindConcat(op, c, Forgets(FirstOf(s3, DedupTimerKeys(s3), q, Left(max, c)), None));
  }

  lemma SweepKind(s: State, op: Op, ks: seq<Key>)
    requires op.SweepOp?
    ensures AllKind(op, ClosingPhase(s, op.now)) && AllKind(op, Promotes(ks, op.now))
    ensures AllKind(op, Expires(ks, op.now, op.keep)) && AllKind(op, Forgets(ks, Some(op.now)))
    ensures AllKind(op, DropDeads(ks))
  {
  }

  lemma TimerKinds(s: State, op: Op)
    requires op.SweepOp?
    ensures AllKind(op, TimerMoves(s, op.now, op.budget, op.keep))
  {
    var a := ClosingPhase(s, op.now);
    var b' := DueHead(ScheduledKeys(Run(s, a)), op.now, op.budget);
    SweepKind(s, op, b');
    AllKindConcat(op, a, Promotes(b', op.now));
    var b := a + Promotes(b', op.now);
    var c' := DueHead(LeaseKeys(Run(s, b)), op.now, op.budget);
    SweepKind(s, op, c');
    AllKindConcat(op, b, Expires(c', op.now, op.keep));
    var c := b + Expires(c', op.now, op.keep);
    var d' := DueHead(DedupTimerKeys(Run(s, c)), op.now, op.budget);
    SweepKind(s, op, d');
    AllKindConcat(op, c, Forgets(d', Some(op.now)));
  }

  lemma SweepKinds(s: State, op: Op)
    requires op.SweepOp?
    ensures AllKind(op, SweepMoves(s, op.now, op.budget, op.cutoff, op.keep))
  {
    TimerKinds(s, op);
    if op.cutoff.Some? {
      var d := TimerMoves(s, op.now, op.budget, op.keep);
      var e' := DueHead(DeadKeys(Run(s, d)), op.cutoff.value, op.budget);
      SweepKind(s, op, e');
      AllKindConcat(op, d, DropDeads(e'));
    }
  }

  lemma PlanKinds(s: State, op: Op)
    ensures AllKind(op, PlanOf(s, op).moves)
  {
    if op.EnqueueOp? || op.EnqueueAtomicOp? {
      EnqueueKinds(s, op, op.jobs);
    } else if op.ReserveOp? {
      ReserveKinds(s, op, op.queues, After(op.now, op.leaseMs), op.maxJobs);
    } else if op.RequeueOp? || op.BuryOp? || op.DeleteOp? {
      KeyKinds(s, op, op.keys);
    } else if op.PurgeOp? {
      PurgeKinds(s, op);
    } else if op.SweepOp? {
      SweepKinds(s, op);
    }
  }

  /** Operations applied one after another, each acceptable when it is applied. */
  ghost predicate Acceptable(s: State, ops: seq<Op>) {
    ops == [] || (Acceptable(s, ops[..|ops| - 1]) && OpOk(ApplyAll(s, ops[..|ops| - 1]), ops[|ops| - 1]))
  }

  ghost function History(s: State, ops: seq<Op>): seq<Move> {
    if ops == [] then []
    else History(s, ops[..|ops| - 1]) + PlanOf(ApplyAll(s, ops[..|ops| - 1]), ops[|ops| - 1]).moves
  }

  /** Any run of operations is a legal run of moves from the same state to the same state. */
  lemma {:induction false} HistoryLegal(s: State, ops: seq<Op>)
    requires Acceptable(s, ops)
    ensures Legal(s, History(s, ops)) && Run(s, History(s, ops)) == ApplyAll(s, ops)
  {
    if ops != [] {
      var front, op := ops[..|ops| - 1], ops[|ops| - 1];
      HistoryLegal(s, front);
      PlanLegal(ApplyAll(s, front), op);
      RunConcat(s, History(s, front), PlanOf(ApplyAll(s, front), op).moves);
    }
  }

  lemma {:induction false} AcceptableFront(s: State, ops: seq<Op>, i: nat)
    requires Acceptable(s, ops) && i <= |ops|
    ensures Acceptable(s, ops[..i])
  {
    hide OpOk, ApplyAll;
    if i < |ops| {
      AcceptableFront(s, ops[..|ops| - 1], i);
      assert ops[..|ops| - 1][..i] == ops[..i];
    } else {
      assert ops[..i] == ops;
    }
  }
}
