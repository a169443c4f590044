/** Admission at enqueue: depth caps, all-or-nothing batches and idempotency keys. */
module Admission {
  import opened Bytes
  import opened Keys
  import opened Listing
  import opened Machine
  import opened Ops
  import opened Legality

  // ---- Depth ------------------------------------------------------------------

  predicate Births(m: Move, q: Queue) {
    m.Insert? && m.job.queue == q
  }

  function Here(v: Option<Job>, q: Queue): nat {
    if v.Some? && v.value.queue == q then 1 else 0
  }

  /** A queue's depth changes with the one job a move is about. */
  lemma DepthStep(s: State, m: Move, q: Queue)
    requires Enabled(s, m) && AboutJob(m)
    ensures Depth(Step(s, m), q) == Depth(s, q) - Here(Lookup(s.live, m.id), q) + Here(LiveAfter(s, m), q)
  {
    DepthPut(s, m.id, LiveAfter(s, m), q);
    assert Members(Step(s, m), q) == Members(s.(live := Put(s.live, m.id, LiveAfter(s, m))), q);
  }

  lemma DepthPut(s: State, id: Id, v: Option<Job>, q: Queue)
    ensures Depth(s.(live := Put(s.live, id, v)), q) == Depth(s, q) - Here(Lookup(s.live, id), q) + Here(v, q)
  {
    var t := s.(live := Put(s.live, id, v));
    assert Members(t, q) - {id} == Members(s, q) - {id};
    OneApart(Members(s, q), Members(t, q), id);
  }

  lemma OneApart<T>(a: set<T>, b: set<T>, x: T)
    requires a - {x} == b - {x}
    ensures |b| == |a| - (if x in a then 1 else 0) + (if x in b then 1 else 0)
  {
    if x in a { assert a == (a - {x}) + {x}; } else { assert a == a - {x}; }
    if x in b { assert b == (b - {x}) + {x}; } else { assert b == b - {x}; }
  }

  /** Only an insert, or a requeue from the queue's dead letters, deepens a queue. */
  lemma OnlyBirthsDeepen(s: State, m: Move, q: Queue)
    requires Inv(s)
    ensures Depth(Step(s, m), q) <= Depth(s, q) + (if Births(m, q) then 1 else 0)
         || (m.Revive? && m.id in s.dead && s.dead[m.id].queue == q)
  {
    if Enabled(s, m) {
      if AboutJob(m) { DepthStep(s, m, q); } else { assert Members(Step(s, m), q) == Members(s, q); }
    }
  }

  lemma InsertDepth(s: State, j: Prepared, now: int, q: Queue)
    requires Inv(s)
    ensures Depth(Step(s, InsertMove(j, now)), q) <= Depth(s, q) + (if j.queue == q then 1 else 0)
  {
    OnlyBirthsDeepen(s, InsertMove(j, now), q);
  }

  ghost predicate CarriesCap(jobs: seq<Prepared>, q: Queue, cap: nat) {
    forall i :: 0 <= i < |jobs| && jobs[i].queue == q ==> jobs[i].cap == Some(cap)
  }

  /** Jobs admitted earlier in a batch count against the cap of the later ones. */
  lemma {:induction false} EnqueueRespectsCap(s: State, jobs: seq<Prepared>, now: int, q: Queue, cap: nat)
    requires Inv(s) && CarriesCap(jobs, q, cap) && Depth(s, q) <= cap
    ensures Depth(Run(s, EnqueueAll(s, jobs, now).0), q) <= cap
  {
    if jobs != [] {
      var front, j := jobs[..|jobs| - 1], jobs[|jobs| - 1];
      EnqueueRespectsCap(s, front, now, q, cap);
      var ms := EnqueueAll(s, front, now).0;
      var t := Run(s, ms);
      RunInv(s, ms);
      var (m, r) := EnqueueOne(t, j, now);
      RunConcat(s, ms, m);
      if m != [] {
        RunOne(t, InsertMove(j, now));
        InsertDepth(t, j, now, q);
      }
    }
  }

  lemma {:induction false} InsertAllDepth(s: State, jobs: seq<Prepared>, now: int, q: Queue)
    requires Inv(s)
    ensures Depth(Run(s, InsertAll(s, jobs, now).0), q) <= Depth(s, q) + CountIn(jobs, q)
  {
    if jobs != [] {
      var front, j := jobs[..|jobs| - 1], jobs[|jobs| - 1];
      InsertAllDepth(s, front, now, q);
      var ms := InsertAll(s, front, now).0;
      var t := Run(s, ms);
      RunInv(s, ms);
      var (m, r) := DedupOrInsert(t, j, now);
      RunConcat(s, ms, m);
      if m != [] {
        RunOne(t, InsertMove(j, now));
        InsertDepth(t, j, now, q);
      }
    }
  }

  lemma {:induction false} FirstCapIs(jobs: seq<Prepared>, q: Queue, cap: nat)
    requires CarriesCap(jobs, q, cap)
    ensures FirstCap(jobs, q) == if CountIn(jobs, q) > 0 then Some(cap) else None
  {
    if jobs != [] { FirstCapIs(jobs[..|jobs| - 1], q, cap); }
  }

  /** A batch with no capacity error fits every queue it names. */
  lemma {:induction false} FullErrorsNone(s: State, all: seq<Prepared>, jobs: seq<Prepared>, i: nat)
    requires FullErrors(s, all, jobs) == [] && i < |jobs|
    ensures !Overfull(s, all, jobs[i].queue)
  {
    if i < |jobs| - 1 { FullErrorsNone(s, all, jobs[..|jobs| - 1], i); }
  }

  lemma {:induction false} CountWitness(jobs: seq<Prepared>, q: Queue)
    requires CountIn(jobs, q) > 0
    ensures exists i :: 0 <= i < |jobs| && jobs[i].queue == q
  {
    if jobs[|jobs| - 1].queue != q {
      CountWitness(jobs[..|jobs| - 1], q);
      var i :| 0 <= i < |jobs| - 1 && jobs[..|jobs| - 1][i].queue == q;
      assert jobs[i].queue == q;
    }
  }

  lemma AtomicFits(s: State, jobs: seq<Prepared>, q: Queue, cap: nat)
    requires FullErrors(s, jobs, jobs) == [] && CarriesCap(jobs, q, cap) && CountIn(jobs, q) > 0
    ensures Depth(s, q) + CountIn(jobs, q) <= cap
  {
    CountWitness(jobs, q);
    var i :| 0 <= i < |jobs| && jobs[i].queue == q;
    FullErrorsNone(s, jobs, jobs, i);
    FirstCapIs(jobs, q, cap);
  }

  lemma AtomicRespectsCap(s: State, jobs: seq<Prepared>, now: int, q: Queue, cap: nat)
    requires Inv(s) && CarriesCap(jobs, q, cap) && Depth(s, q) <= cap
    ensures Depth(Run(s, AtomicPlan(s, jobs, now).moves), q) <= cap
  {
    assert Run(s, []) == s;
    if AtomicPlan(s, jobs, now).moves != [] {
      InsertAllDepth(s, jobs, now, q);
      if CountIn(jobs, q) > 0 { AtomicFits(s, jobs, q, cap); }
    }
  }

  /** Neither births nor, for this queue, requeues. */
  ghost predicate Barren(ms: seq<Move>) {
    forall i :: 0 <= i < |ms| ==> !ms[i].Insert? && !ms[i].Revive?
  }

  lemma {:induction false} BarrenNeverDeepens(s: State, ms: seq<Move>, q: Queue)
    requires Inv(s) && Barren(ms)
    ensures Depth(Run(s, ms), q) <= Depth(s, q)
  {
    if ms != [] {
      var front := ms[..|ms| - 1];
      BarrenNeverDeepens(s, front, q);
      RunInv(s, front);
      OnlyBirthsDeepen(Run(s, front), ms[|ms| - 1], q);
    }
  }

  lemma OtherOpsBarren(s: State, op: Op)
    requires !op.EnqueueOp? && !op.EnqueueAtomicOp? && !op.RequeueOp?
    ensures Barren(PlanOf(s, op).moves)
  {
    PlanKinds(s, op);
    var ms := PlanOf(s, op).moves;
    forall i | 0 <= i < |ms| ensures !ms[i].Insert? && !ms[i].Revive? {
      assert Kind(op, ms[i]);
    }
  }

  /** A requeue revives dead letters of the queue it names and of no other. */
  lemma {:induction false} RequeueElsewhere(s: State, op: Op, keys: seq<Key>, q: Queue)
    requires Inv(s) && op.RequeueOp? && op.queue != q
    ensures Depth(Run(s, KeyMoves(s, op, keys)), q) <= Depth(s, q)
  {
    if keys != [] {
      var front, k := keys[..|keys| - 1], keys[|keys| - 1];
      RequeueElsewhere(s, op, front, q);
      var ms := KeyMoves(s, op, front);
      var t := Run(s, ms);
      RunInv(s, ms);
      var m := KeyMove(t, op, k);
      RunConcat(s, ms, m);
      if m != [] {
        RunOne(t, Revive(k.jobId, op.now));
        OnlyBirthsDeepen(t, Revive(k.jobId, op.now), q);
      }
    }
  }

  /** Operations under one fixed cap for `q`, none of them requeueing into it. */
  ghost predicate UnderCap(op: Op, q: Queue, cap: nat) {
    && (op.EnqueueOp? || op.EnqueueAtomicOp? ==> CarriesCap(op.jobs, q, cap))
    && (op.RequeueOp? ==> op.queue != q)
  }

  lemma OpRespectsCap(s: State, op: Op, q: Queue, cap: nat)
    requires Inv(s) && UnderCap(op, q, cap) && Depth(s, q) <= cap
    ensures Depth(Apply(s, op), q) <= cap
  {
    if op.EnqueueOp? {
      EnqueueRespectsCap(s, op.jobs, op.now, q, cap);
    } else if op.EnqueueAtomicOp? {
      AtomicRespectsCap(s, op.jobs, op.now, q, cap);
    } else if op.RequeueOp? {
      RequeueElsewhere(s, op, op.keys, q);
    } else {
      OtherOpsBarren(s, op);
      BarrenNeverDeepens(s, PlanOf(s, op).moves, q);
    }
  }

  /** In any run under a fixed cap, a queue at or under its cap stays there. */
  lemma {:induction false} CapHolds(s: State, ops: seq<Op>, q: Queue, cap: nat)
    requires Inv(s) && Depth(s, q) <= cap
    requires forall i :: 0 <= i < |ops| ==> UnderCap(ops[i], q, cap)
    ensures Inv(ApplyAll(s, ops)) && Depth(ApplyAll(s, ops), q) <= cap
  {
    if ops != [] {
      var front, op := ops[..|ops| - 1], ops[|ops| - 1];
      CapHolds(s, front, q, cap);
      var t := ApplyAll(s, front);
      OpRespectsCap(t, op, q, cap);
      RunInv(t, PlanOf(t, op).moves);
    }
  }

  // ---- Atomic against best effort ------------------------------------------------

  /** Jobs of one queue carry one cap: they were resolved under one registry snapshot. */
  ghost predicate EqualCaps(jobs: seq<Prepared>) {
    forall i, j :: 0 <= i < |jobs| && 0 <= j < |jobs| && jobs[i].queue == jobs[j].queue ==> jobs[i].cap == jobs[j].cap
  }

  lemma {:induction false} CountPrefix(jobs: seq<Prepared>, i: nat, q: Queue)
    requires i < |jobs| && jobs[i].queue == q
    ensures CountIn(jobs[..i], q) + 1 <= CountIn(jobs, q)
  {
    if i == |jobs| - 1 {
    } else {
      CountPrefix(jobs[..|jobs| - 1], i, q);
      assert jobs[..|jobs| - 1][..i] == jobs[..i];
    }
  }

  lemma {:induction false} InsertAllKeepsClosing(s: State, jobs: seq<Prepared>, now: int)
    ensures Run(s, InsertAll(s, jobs, now).0).closing == s.closing
  {
    if jobs != [] {
      var front, j := jobs[..|jobs| - 1], jobs[|jobs| - 1];
      InsertAllKeepsClosing(s, front, now);
      var ms := InsertAll(s, front, now).0;
      RunConcat(s, ms, DedupOrInsert(Run(s, ms), j, now).0);
      RunOne(Run(s, ms), InsertMove(j, now));
      InsertKeepsClosing(Run(s, ms), j, now);
      assert Run(Run(s, ms), []) == Run(s, ms);
    }
  }

  /** Past the batch checks no single job is refused, so the two enqueues agree. */
  lemma {:induction false} BestEffortAdmitsAll(s: State, all: seq<Prepared>, jobs: seq<Prepared>, now: int)
    requires Inv(s) && EqualCaps(all) && jobs <= all
    requires ClosingErrors(s, all, now) == [] && FullErrors(s, all, all) == []
    ensures EnqueueAll(s, jobs, now) == InsertAll(s, jobs, now)
  {
    if jobs != [] {
      var i := |jobs| - 1;
      var front, j := jobs[..i], jobs[i];
      BestEffortAdmitsAll(s, all, front, now);
      var ms := InsertAll(s, front, now).0;
      var t := Run(s, ms);
      NoClosingErrors(s, all, now);
      InsertAllKeepsClosing(s, front, now);
      assert all[i] == j;
      assert !IsClosing(t, j.queue, now);
      if j.cap.Some? {
        InsertAllDepth(s, front, now, j.queue);
        CountPrefix(all, i, j.queue);
        assert all[..i] == front;
        AtomicFits(s, all, j.queue, j.cap.value);
        assert !AtCap(t, j);
      }
      assert EnqueueOne(t, j, now) == DedupOrInsert(t, j, now);
    }
  }

  /** An atomic enqueue changes nothing when rejected, and when it commits it ends in
      the same state with the same answers as best-effort enqueue of the same jobs. */
  lemma AtomicMatchesBestEffort(s: State, jobs: seq<Prepared>, now: int)
    requires Inv(s) && EqualCaps(jobs)
    ensures var p := AtomicPlan(s, jobs, now);
            if p.outcome.BatchRejected? then p.moves == [] && p.outcome.errors != []
            else p.outcome.BatchCommitted? && Plan(p.moves, Enqueued(p.outcome.results)) == PlanOf(s,
                                                                                                   EnqueueOp(jobs, now))
  {
    if ClosingErrors(s, jobs, now) == [] && FullErrors(s, jobs, jobs) == [] {
      BestEffortAdmitsAll(s, jobs, jobs, now);
    }
  }

  // ---- Exactly-once enqueue -----------------------------------------------------------

  /** The clock a move reads when it decides about dedup records. */
  predicate ReadsClockBefore(m: Move, dk: DedupKey, deadline: int) {
    && (m.Insert? ==> m.job.enqueuedAt < deadline)
    && (m.Forget? && m.dk == dk ==> m.due.Some? && m.due.value < deadline)
  }

  lemma PinStep(s: State, m: Move, dk: DedupKey)
    requires dk in s.dedup && ReadsClockBefore(m, dk, s.dedup[dk].deadline)
    ensures dk in Step(s, m).dedup && Step(s, m).dedup[dk] == s.dedup[dk]
  {
    if !Pins(m, dk) {
      StepDedupFrame(s, m, dk);
      assert Lookup(Step(s, m).dedup, dk).Some?;
    }
  }

  /** A dedup record outlives every run that stays before its deadline and does not purge it. */
  lemma {:induction false} PinHolds(s: State, ms: seq<Move>, dk: DedupKey)
    requires dk in s.dedup
    requires forall i :: 0 <= i < |ms| ==> ReadsClockBefore(ms[i], dk, s.dedup[dk].deadline)
    ensures dk in Run(s, ms).dedup && Run(s, ms).dedup[dk] == s.dedup[dk]
  {
    if ms != [] {
      PinHolds(s, ms[..|ms| - 1], dk);
      PinStep(Run(s, ms[..|ms| - 1]), ms[|ms| - 1], dk);
    }
  }

  predicate Asks(j: Prepared, dk: DedupKey) {
    j.queue == dk.queue && j.key == Some(dk.key)
  }

  lemma {:induction false} EnqueueKeepsPin(s: State, jobs: seq<Prepared>, now: int, dk: DedupKey)
    requires Pinned(s, dk, now)
    ensures Run(s, EnqueueAll(s, jobs, now).0).dedup[dk := s.dedup[dk]] == Run(s, EnqueueAll(s, jobs, now).0).dedup
    ensures dk in Run(s, EnqueueAll(s, jobs, now).0).dedup
  {
    EnqueueKinds(s, EnqueueOp(jobs, now), jobs);
    PinHolds(s, EnqueueAll(s, jobs, now).0, dk);
  }

  lemma EnqueueLast(s: State, jobs: seq<Prepared>, now: int)
    requires jobs != []
    ensures var (ms, rs) := EnqueueAll(s, jobs[..|jobs| - 1], now);
            var (m, r) := EnqueueOne(Run(s, ms), jobs[|jobs| - 1], now);
            EnqueueAll(s, jobs, now) == (ms + m, rs + [r])
  {
    hide EnqueueOne, Run;
  }

  lemma HitAnswered(s: State, j: Prepared, now: int, dk: DedupKey)
    requires Pinned(s, dk, now) && Asks(j, dk)
    ensures var (m, r) := EnqueueOne(s, j, now);
            m == [] && (r == Refused(QueueClosing(dk.queue)) || r == Accepted(s.dedup[dk].id, true))
  {
  }

  /** While a key is pinned, a job that carries it is never inserted: it is refused because the
      queue is closing, or answered with the first job's id. */
  lemma DuplicateAnswered(s: State, jobs: seq<Prepared>, now: int, dk: DedupKey, i: nat)
    requires Pinned(s, dk, now) && i < |jobs| && Asks(jobs[i], dk)
    ensures var r := EnqueueAll(s, jobs, now).1[i];
            r == Refused(QueueClosing(dk.queue)) || r == Accepted(s.dedup[dk].id, true)
    ensures EnqueueAll(s, jobs[..i + 1], now).0 == EnqueueAll(s, jobs[..i], now).0
    decreases |jobs|
  {
    hide Run, EnqueueAll, EnqueueOne;
    var front := jobs[..|jobs| - 1];
    EnqueueLast(s, jobs, now);
    if i == |jobs| - 1 {
      EnqueueKeepsPin(s, front, now, dk);
      assert jobs[..i + 1] == jobs && jobs[..i] == front;
      HitAnswered(Run(s, EnqueueAll(s, front, now).0), jobs[i], now, dk);
    } else {
      DuplicateAnswered(s, front, now, dk, i);
      assert front[..i + 1] == jobs[..i + 1] && front[..i] == jobs[..i];
    }
  }

  // ---- The same for atomic batches ------------------------------------------------------

  lemma InsertLast(s: State, jobs: seq<Prepared>, now: int)
    requires jobs != []
    ensures var (ms, rs) := InsertAll(s, jobs[..|jobs| - 1], now);
            var (m, r) := DedupOrInsert(Run(s, ms), jobs[|jobs| - 1], now);
            InsertAll(s, jobs, now) == (ms + m, rs + [r])
  {
    hide DedupOrInsert, Run;
  }

  lemma InsertKeepsPin(s: State, jobs: seq<Prepared>, now: int, dk: DedupKey)
    requires Pinned(s, dk, now)
    ensures var t := Run(s, InsertAll(s, jobs, now).0); dk in t.dedup && t.dedup[dk] == s.dedup[dk]
  {
    EnqueueKinds(s, EnqueueAtomicOp(jobs, now), jobs);
    PinHolds(s, InsertAll(s, jobs, now).0, dk);
  }

  /** In an admitted atomic batch it is always answered with the first job's id. */
  lemma DuplicateInAtomicBatch(s: State, jobs: seq<Prepared>, now: int, dk: DedupKey, i: nat)
    requires Pinned(s, dk, now) && i < |jobs| && Asks(jobs[i], dk)
    ensures InsertAll(s, jobs, now).1[i] == Accepted(s.dedup[dk].id, true)
    ensures InsertAll(s, jobs[..i + 1], now).0 == InsertAll(s, jobs[..i], now).0
    decreases |jobs|
  {
    hide Run, InsertAll;
    var front := jobs[..|jobs| - 1];
    InsertLast(s, jobs, now);
    if i == |jobs| - 1 {
      InsertKeepsPin(s, front, now, dk);
      assert jobs[..i + 1] == jobs && jobs[..i] == front;
    } else {
      DuplicateInAtomicBatch(s, front, now, dk, i);
      assert front[..i + 1] == jobs[..i + 1] && front[..i] == jobs[..i];
    }
  }

  ghost predicate NonePins(ms: seq<Move>, dk: DedupKey) {
    forall i :: 0 <= i < |ms| ==> !Pins(ms[i], dk)
  }

  /** While a key is pinned no batch inserts anything under it. */
  lemma {:induction false} PinnedInsertsNothing(s: State, jobs: seq<Prepared>, now: int, dk: DedupKey)
    requires Pinned(s, dk, now)
    ensures NonePins(EnqueueAll(s, jobs, now).0, dk) && NonePins(InsertAll(s, jobs, now).0, dk)
  {
    if jobs != [] {
      var (front, j) := (jobs[..|jobs| - 1], jobs[|jobs| - 1]);
      PinnedInsertsNothing(s, front, now, dk);
      EnqueueKeepsPin(s, front, now, dk);
      InsertKeepsPin(s, front, now, dk);
      EnqueueLast(s, jobs, now);
      InsertLast(s, jobs, now);
      hide Run, EnqueueAll, InsertAll;
      OnePinsNothing(Run(s, EnqueueAll(s, front, now).0), j, now, dk);
      OnePinsNothing(Run(s, InsertAll(s, front, now).0), j, now, dk);
    }
  }

  lemma OnePinsNothing(s: State, j: Prepared, now: int, dk: DedupKey)
    requires Pinned(s, dk, now)
    ensures NonePins(EnqueueOne(s, j, now).0, dk) && NonePins(DedupOrInsert(s, j, now).0, dk)
  {
  }

  // ---- From an accepted job to its last duplicate ----------------------------------------------

  /** What an enqueue, atomic or not, answers the job at `i`; nothing for a batch rejected whole. */
  ghost function AnswerAt(s: State, op: Op, i: nat): Option<EnqueueResult>
    requires (op.EnqueueOp? || op.EnqueueAtomicOp?) && i < |op.jobs|
  {
    if op.EnqueueOp? then Some(EnqueueAll(s, op.jobs, op.now).1[i])
    else if AtomicPlan(s, op.jobs, op.now).outcome.BatchCommitted? then Some(InsertAll(s, op.jobs, op.now).1[i])
    else None
  }

  lemma AnswersAreThePlans(s: State, op: Op, i: nat)
    requires (op.EnqueueOp? || op.EnqueueAtomicOp?) && i < |op.jobs|
    ensures var o := PlanOf(s, op).outcome;
            && (op.EnqueueOp? ==> o.Enqueued? && |o.results| == |op.jobs| && AnswerAt(s, op, i) == Some(o.results[i]))
            && (op.EnqueueAtomicOp? && AnswerAt(s, op, i).None? ==> o.BatchRejected?)
            && (op.EnqueueAtomicOp? && AnswerAt(s, op, i).Some? ==>
                  o.BatchCommitted? && |o.results| == |op.jobs| && AnswerAt(s, op, i) == Some(o.results[i]))
  {
    hide EnqueueAll, InsertAll, ClosingErrors, FullErrors;
  }

  /** The record a keyed job leaves when it is inserted. */
  function PinOfJob(j: Prepared, now: int): DedupValue {
    DedupValue(now, SatAdd(now, j.dedupWindow), j.id)
  }

  lemma InsertPins(s: State, j: Prepared, now: int)
    requires j.key.Some? && Enabled(s, InsertMove(j, now))
    ensures var dk := DedupKey(j.queue, j.key.value);
            dk in Step(s, InsertMove(j, now)).dedup && Step(s, InsertMove(j, now)).dedup[dk] == PinOfJob(j, now)
  {
  }

  /** Accepted and not deduplicated means inserted, so the key is pinned after its turn. */
  lemma OneAcceptedPins(s: State, j: Prepared, now: int)
    requires j.key.Some? && j.id !in s.used && j.body.maxAttempts >= 1
    ensures EnqueueOne(s, j, now).1 == Accepted(j.id, false) ==>
              EnqueueOne(s, j, now).0 == [InsertMove(j, now)] && Enabled(s, InsertMove(j, now))
    ensures !IsClosing(s, j.queue, now) && DedupOrInsert(s, j, now).1 == Accepted(j.id, false) ==>
              DedupOrInsert(s, j, now).0 == [InsertMove(j, now)] && Enabled(s, InsertMove(j, now))
  {
    hide Depth;
  }

  ghost predicate PinnedTo(s: State, j: Prepared, now: int) {
    j.key.Some? && Lookup(s.dedup, DedupKey(j.queue, j.key.value)) == Some(PinOfJob(j, now))
  }

  /** A record in force survives the next job of the batch. */
  lemma PinSurvives(s: State, ms: seq<Move>, j: Prepared, now: int, op: Op)
    requires PinnedTo(s, j, now) && now < SatAdd(now, j.dedupWindow)
    requires (op.EnqueueOp? || op.EnqueueAtomicOp?) && op.now == now && AllKind(op, ms)
    ensures PinnedTo(Run(s, ms), j, now)
  {
    hide Run;
    var dk := DedupKey(j.queue, j.key.value);
    assert dk in s.dedup && s.dedup[dk] == PinOfJob(j, now);
    forall i | 0 <= i < |ms| ensures ReadsClockBefore(ms[i], dk, s.dedup[dk].deadline) { assert Kind(op, ms[i]); }
    PinHolds(s, ms, dk);
  }

  lemma {:induction false} EnqueuePins(s: State, jobs: seq<Prepared>, now: int, i: nat)
    requires BatchOk(s, jobs) && i < |jobs| && jobs[i].key.Some? && now < SatAdd(now, jobs[i].dedupWindow)
    requires EnqueueAll(s, jobs, now).1[i] == Accepted(jobs[i].id, false)
    ensures PinnedTo(Run(s, EnqueueAll(s, jobs, now).0), jobs[i], now)
    decreases |jobs|
  {
    hide Run, EnqueueAll, EnqueueOne;
    var (n, front) := (|jobs| - 1, jobs[..|jobs| - 1]);
    var (ms, j) := (EnqueueAll(s, front, now).0, jobs[n]);
    var t := Run(s, ms);
    var m := EnqueueOne(t, j, now).0;
    EnqueueLast(s, jobs, now);
    RunConcat(s, ms, m);
    EnqueueLegal(s, front, now);
    UsedGrows(s, ms, front, jobs);
    if i == n {
      OneAcceptedPins(t, j, now);
      InsertPins(t, j, now);
      RunOne(t, InsertMove(j, now));
    } else {
      EnqueuePins(s, front, now, i);
      OneKind(t, j, now);
      PinSurvives(t, m, jobs[i], now, EnqueueOp([], now));
    }
  }

  lemma OneKind(s: State, j: Prepared, now: int)
    ensures AllKind(EnqueueOp([], now), EnqueueOne(s, j, now).0)
    ensures AllKind(EnqueueOp([], now), DedupOrInsert(s, j, now).0)
  {
  }

  lemma {:induction false} InsertBatchPins(s: State, jobs: seq<Prepared>, now: int, i: nat)
    requires BatchOk(s, jobs) && i < |jobs| && jobs[i].key.Some? && now < SatAdd(now, jobs[i].dedupWindow)
    requires forall k :: 0 <= k < |jobs| ==> !IsClosing(s, jobs[k].queue, now)
    requires InsertAll(s, jobs, now).1[i] == Accepted(jobs[i].id, false)
    ensures PinnedTo(Run(s, InsertAll(s, jobs, now).0), jobs[i], now)
    decreases |jobs|
  {
    hide Run, InsertAll, DedupOrInsert;
    var (n, front) := (|jobs| - 1, jobs[..|jobs| - 1]);
    var (ms, j) := (InsertAll(s, front, now).0, jobs[n]);
    var t := Run(s, ms);
    var m := DedupOrInsert(t, j, now).0;
    InsertLast(s, jobs, now);
    RunConcat(s, ms, m);
    InsertAllLegal(s, front, now);
    UsedGrows(s, ms, front, jobs);
    if i == n {
      OneAcceptedPins(t, j, now);
      InsertPins(t, j, now);
      RunOne(t, InsertMove(j, now));
    } else {
      InsertBatchPins(s, front, now, i);
      OneKind(t, j, now);
      PinSurvives(t, m, jobs[i], now, EnqueueOp([], now));
    }
  }

  /** An accepted keyed job, in a batch of either kind, leaves its key pinned to its id for the
      whole window, whatever the rest of the batch did. */
  lemma AcceptedPins(s: State, op: Op, i: nat)
    requires (op.EnqueueOp? || op.EnqueueAtomicOp?) && OpOk(s, op) && i < |op.jobs| && op.jobs[i].key.Some?
    requires AnswerAt(s, op, i) == Some(Accepted(op.jobs[i].id, false))
    requires op.now < SatAdd(op.now, op.jobs[i].dedupWindow)
    ensures PinnedTo(Apply(s, op), op.jobs[i], op.now)
  {
    hide Run, EnqueueAll, InsertAll, PinnedTo;
    if op.EnqueueOp? {
      EnqueuePins(s, op.jobs, op.now, i);
    } else {
      NoClosingErrors(s, op.jobs, op.now);
      InsertBatchPins(s, op.jobs, op.now, i);
    }
  }

  /** Operations on clocks before `deadline`, none of them purging `q`. */
  predicate Before(op: Op, q: Queue, deadline: int) {
    && (op.EnqueueOp? || op.EnqueueAtomicOp? || op.SweepOp? ==> op.now < deadline)
    && (op.PurgeOp? ==> op.queue != q)
  }

  lemma OpReadsClockBefore(s: State, op: Op, dk: DedupKey, deadline: int, i: nat)
    requires Before(op, dk.queue, deadline) && i < |PlanOf(s, op).moves|
    ensures ReadsClockBefore(PlanOf(s, op).moves[i], dk, deadline)
  {
    PlanKinds(s, op);
    var m := PlanOf(s, op).moves[i];
    assert Kind(op, m);
  }

  /** A pin outlives any run before its deadline that does not purge the queue. */
  lemma {:induction false} PinOutlivesRun(s: State, ops: seq<Op>, dk: DedupKey)
    requires dk in s.dedup
    requires forall i :: 0 <= i < |ops| ==> Before(ops[i], dk.queue, s.dedup[dk].deadline)
    ensures dk in ApplyAll(s, ops).dedup && ApplyAll(s, ops).dedup[dk] == s.dedup[dk]
  {
    hide PlanOf, Run, Before;
    if ops != [] {
      var front, op := ops[..|ops| - 1], ops[|ops| - 1];
      PinOutlivesRun(s, front, dk);
      var t := ApplyAll(s, front);
      var ms := PlanOf(t, op).moves;
      forall i | 0 <= i < |ms| ensures ReadsClockBefore(ms[i], dk, s.dedup[dk].deadline) {
        OpReadsClockBefore(t, op, dk, s.dedup[dk].deadline, i);
      }
      PinHolds(t, ms, dk);
    }
  }

  /** What a duplicate gets: the first job's id, or refused with its whole batch, or by itself while
      the queue is closing; and nothing is inserted under the key. */
  ghost predicate Deduplicated(s: State, op: Op, dk: DedupKey, first: Id, k: nat)
    requires (op.EnqueueOp? || op.EnqueueAtomicOp?) && k < |op.jobs|
  {
    && NonePins(PlanOf(s, op).moves, dk)
    && match AnswerAt(s, op, k)
       case None => PlanOf(s, op).moves == []
       case Some(r) => r == Accepted(first, true) || (op.EnqueueOp? && r == Refused(QueueClosing(dk.queue)))
  }

  lemma DuplicateDeduplicated(s: State, op: Op, dk: DedupKey, k: nat)
    requires (op.EnqueueOp? || op.EnqueueAtomicOp?) && k < |op.jobs| && Asks(op.jobs[k], dk) && Pinned(s, dk, op.now)
    ensures Deduplicated(s, op, dk, s.dedup[dk].id, k)
  {
    hide Run, EnqueueAll, InsertAll, ClosingErrors, FullErrors;
    PinnedInsertsNothing(s, op.jobs, op.now, dk);
    if op.EnqueueOp? {
      DuplicateAnswered(s, op.jobs, op.now, dk, k);
    } else {
      DuplicateInAtomicBatch(s, op.jobs, op.now, dk, k);
    }
  }

  /** Once a key is pinned, and after any operations before the deadline that do not purge the queue,
      every enqueue of it before the deadline, atomic or not, is a duplicate. */
  lemma OnceOverRuns(s: State, ops: seq<Op>, dk: DedupKey, again: Op, k: nat)
    requires dk in s.dedup && forall i :: 0 <= i < |ops| ==> Before(ops[i], dk.queue, s.dedup[dk].deadline)
    requires (again.EnqueueOp? || again.EnqueueAtomicOp?) && k < |again.jobs| && Asks(again.jobs[k], dk)
    requires again.now < s.dedup[dk].deadline
    ensures Deduplicated(ApplyAll(s, ops), again, dk, s.dedup[dk].id, k)
  {
    hide ApplyAll, Deduplicated, Before;
    PinOutlivesRun(s, ops, dk);
    DuplicateDeduplicated(ApplyAll(s, ops), again, dk, k);
  }

  /** Exactly-once enqueue, end to end. If an enqueue of either kind accepts a keyed job as new, then
      after the whole batch and any operations before the pinned deadline that do not purge the
      queue, every further enqueue of that key before the deadline, atomic or not, is refused or
      returns the first job's id, and inserts nothing under the key. */
  lemma ExactlyOnce(s: State, op: Op, i: nat, ops: seq<Op>, again: Op, k: nat)
    requires (op.EnqueueOp? || op.EnqueueAtomicOp?) && OpOk(s, op) && i < |op.jobs| && op.jobs[i].key.Some?
    requires AnswerAt(s, op, i) == Some(Accepted(op.jobs[i].id, false))
    requires op.now < SatAdd(op.now, op.jobs[i].dedupWindow)
    requires forall x :: 0 <= x < |ops| ==> Before(ops[x], op.jobs[i].queue, SatAdd(op.now, op.jobs[i].dedupWindow))
    requires (again.EnqueueOp? || again.EnqueueAtomicOp?) && k < |again.jobs|
    requires again.now < SatAdd(op.now, op.jobs[i].dedupWindow)
    requires again.jobs[k].queue == op.jobs[i].queue && again.jobs[k].key == op.jobs[i].key
    ensures var dk := DedupKey(op.jobs[i].queue, op.jobs[i].key.value);
            Deduplicated(ApplyAll(Apply(s, op), ops), again, dk, op.jobs[i].id, k)
  {
    hide Apply, ApplyAll, AnswerAt, Deduplicated, Before, OpOk;
    var dk := DedupKey(op.jobs[i].queue, op.jobs[i].key.value);
    AcceptedPins(s, op, i);
    OnceOverRuns(Apply(s, op), ops, dk, again, k);
  }
}
