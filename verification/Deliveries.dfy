/** Leases and attempts as callers see them: over operations and the jobs their reserves answer. */
module Deliveries {
  import opened Bytes
  import opened Keys
  import opened Machine
  import opened Ops
  import opened Legality
  import opened Lifecycle
  import opened Scheduling
  import opened Sweeping

  /** The jobs an operation answers. */
  ghost function DeliveriesOf(s: State, op: Op): seq<Delivery> {
    if op.ReserveOp? then ReservePlan(s, op.queues, After(op.now, op.leaseMs), op.maxJobs).1 else []
  }

  lemma AnsweredDeliveries(s: State, op: Op)
    requires op.ReserveOp?
    ensures PlanOf(s, op).outcome == Reserved(DeliveriesOf(s, op))
  {
  }

  // ---- Exclusivity ------------------------------------------------------------------------------

  lemma PreferredApart(s: State, queues: seq<Queue>, a: Id, b: Id)
    requires a in s.live && b in s.live && Preferred(s, queues, a, b)
    ensures a != b
  {
    hide KeyLess;
    KeyOrder(ReadyKeyOf(a, s.live[a]), ReadyKeyOf(b, s.live[b]), ReadyKeyOf(a, s.live[a]));
  }

  /** A delivered job was ready, and is leased under the delivered attempt and expiry afterwards. */
  lemma DeliveredIsLeased(s: State, op: Op, i: nat)
    requires i < |DeliveriesOf(s, op)|
    ensures var d := DeliveriesOf(s, op)[i];
            && IsReady(s, d.id) && d.job == s.live[d.id].(place := d.job.place) && d.job.place.Leased?
            && d.job.place.attempt == s.live[d.id].place.attempt
            && Lookup(Apply(s, op).live, d.id) == Some(d.job)
  {
    hide Run, ReservePlan, Preferred;
    var expiry := After(op.now, op.leaseMs);
    var (ms, ds) := ReservePlan(s, op.queues, expiry, op.maxJobs);
    ReserveExact(s, op.queues, expiry, op.maxJobs);
    ReserveLeasesWhatItReturns(s, op.queues, expiry, op.maxJobs);
    forall k | 0 <= k < |ms| ensures Enabled(s, ms[k]) { assert Available(s, op.queues, ds[k].id); }
    forall k, l | 0 <= k < l < |ms| ensures ms[k].id != ms[l].id {
      assert Available(s, op.queues, ds[k].id) && Available(s, op.queues, ds[l].id);
      PreferredApart(s, op.queues, ds[k].id, ds[l].id);
    }
    EachOnItsOwn(s, ms, i);
    assert Available(s, op.queues, ds[i].id);
  }

  /** An operation that makes the job come up again for a lease held under `attempt`: a nack that
      names it, a sweep at or after the lease's current end, or a requeue of the job. */
  ghost predicate OpHandsBack(s: State, op: Op, id: Id, attempt: nat) {
    || (op.NackOp? && op.id == id && op.attempt == attempt && HoldsLease(s, id, attempt))
    || (op.SweepOp? && HoldsLease(s, id, attempt) && s.live[id].place.expiry <= op.now)
    || Requeues(s, op, id)
  }

  ghost predicate Requeues(s: State, op: Op, id: Id) {
    op.RequeueOp? && !NeverRevived(PlanOf(s, op).moves, id)
  }

  lemma SweepStep(s: State, op: Op, m: Move, id: Id)
    requires op.SweepOp? && Kind(op, m) && IsLeased(Step(s, m), id)
    ensures id in s.live && Step(s, m).live[id] == s.live[id]
  {
    if !Touches(m, id) {
      StepFrame(s, m, id);
      assert Lookup(Step(s, m).live, id) == Lookup(s.live, id);
    }
  }

  /** A sweep never starts or extends a lease. */
  lemma {:induction false} SweepLeavesLeases(s: State, op: Op, ms: seq<Move>, id: Id)
    requires op.SweepOp? && AllKind(op, ms) && IsLeased(Run(s, ms), id)
    ensures id in s.live && Run(s, ms).live[id] == s.live[id]
  {
    hide Step;
    if ms != [] {
      var front := ms[..|ms| - 1];
      SweepStep(Run(s, front), op, ms[|ms| - 1], id);
      SweepLeavesLeases(s, op, front, id);
    }
  }

  lemma HandedBackByOp(s: State, op: Op, id: Id, attempt: nat, j: nat)
    requires Inv(s) && HoldsLease(s, id, attempt) && j < |PlanOf(s, op).moves|
    requires HandedBackAt(s, PlanOf(s, op).moves, id, attempt, j)
    ensures OpHandsBack(s, op, id, attempt)
  {
    hide Run, Inv;
    var ms := PlanOf(s, op).moves;
    PlanKinds(s, op);
    assert Kind(op, ms[j]);
    if ms[j].Expire? { SweepLeavesLeases(s, op, ms[..j], id); }
  }

  /** An operation that does not hand the lease back leaves it, or the job is gone. */
  lemma OpKeepsLease(s: State, op: Op, id: Id, attempt: nat)
    requires Inv(s) && OpOk(s, op) && HoldsLease(s, id, attempt) && !OpHandsBack(s, op, id, attempt)
    ensures HoldsLease(Apply(s, op), id, attempt) || (id !in Apply(s, op).live && id in Apply(s, op).used)
  {
    hide PlanOf, Run, Inv, OpOk, HandedBackAt, OpHandsBack;
    var ms := PlanOf(s, op).moves;
    PlanLegal(s, op);
    forall j | 0 <= j < |ms| ensures !HandedBackAt(s, ms, id, attempt, j) {
      if HandedBackAt(s, ms, id, attempt, j) { HandedBackByOp(s, op, id, attempt, j); }
    }
    HeldUntilHandedBack(s, ms, id, attempt);
  }

  /** A job that is gone stays gone unless it is requeued. */
  lemma OpKeepsGone(s: State, op: Op, id: Id)
    requires Inv(s) && id in s.used && id !in s.live && !Requeues(s, op, id)
    ensures id !in Apply(s, op).live && id in Apply(s, op).used
  {
    var ms := PlanOf(s, op).moves;
    PlanKinds(s, op);
    assert forall i :: 0 <= i < |ms| ==> Kind(op, ms[i]);
    hide PlanOf, Run, Inv;
    assert NeverRevived(ms, id);
    PhaseNeverGoesBack(s, ms, id);
    UsedRun(s, ms);
  }

  lemma OpKeepsInv(s: State, op: Op)
    requires Inv(s)
    ensures Inv(Apply(s, op))
  {
    hide PlanOf, Inv;
    RunInv(s, PlanOf(s, op).moves);
  }

  /** Held, or gone for as long as nobody requeues it. */
  ghost predicate HeldOrGone(s: State, id: Id, attempt: nat) {
    HoldsLease(s, id, attempt) || (id !in s.live && id in s.used)
  }

  lemma {:induction false} HeldOverOps(s: State, ops: seq<Op>, id: Id, attempt: nat)
    requires Inv(s) && Acceptable(s, ops) && HeldOrGone(s, id, attempt)
    requires forall j :: 0 <= j < |ops| ==> !OpHandsBack(ApplyAll(s, ops[..j]), ops[j], id, attempt)
    ensures HeldOrGone(ApplyAll(s, ops), id, attempt) && Inv(ApplyAll(s, ops))
  {
    hide Inv, Apply, OpOk;
    if ops != [] {
      var (front, op) := (ops[..|ops| - 1], ops[|ops| - 1]);
      forall j | 0 <= j < |front| ensures !OpHandsBack(ApplyAll(s, front[..j]), front[j], id, attempt) {
        assert front[..j] == ops[..j];
      }
      HeldOverOps(s, front, id, attempt);
      var t := ApplyAll(s, front);
      OpKeepsInv(t, op);
      if HoldsLease(t, id, attempt) { OpKeepsLease(t, op, id, attempt); } else { OpKeepsGone(t, op, id); }
    }
  }

  ghost predicate Answers(s: State, op: Op, id: Id) {
    Delivered(DeliveriesOf(s, op), id)
  }

  /** Exclusive delivery. Once a reserve has answered a job under an attempt, no reserve in any later
      run of operations answers it again unless in between the lease was nacked under that attempt,
      a sweep came at or after its current end, extensions included, or the job was requeued. */
  lemma DeliveryIsExclusive(s: State, op: Op, k: nat, ops: seq<Op>, i: nat)
    requires Inv(s) && k < |DeliveriesOf(s, op)| && Acceptable(Apply(s, op), ops) && i < |ops|
    requires Answers(ApplyAll(Apply(s, op), ops[..i]), ops[i], DeliveriesOf(s, op)[k].id)
    ensures var (d, t) := (DeliveriesOf(s, op)[k], Apply(s, op));
            exists j :: 0 <= j < i && OpHandsBack(ApplyAll(t, ops[..j]), ops[j], d.id, d.job.place.attempt)
  {
    hide Inv, DeliveriesOf, Apply, OpHandsBack, OpOk;
    var (d, t) := (DeliveriesOf(s, op)[k], Apply(s, op));
    DeliveredIsLeased(s, op, k);
    OpKeepsInv(s, op);
    var a := d.job.place.attempt;
    assert HoldsLease(t, d.id, a);
    var u := ApplyAll(t, ops[..i]);
    var n :| 0 <= n < |DeliveriesOf(u, ops[i])| && DeliveriesOf(u, ops[i])[n].id == d.id;
    DeliveredIsLeased(u, ops[i], n);
    if forall j :: 0 <= j < i ==> !OpHandsBack(ApplyAll(t, ops[..j]), ops[j], d.id, a) {
      forall j | 0 <= j < i ensures !OpHandsBack(ApplyAll(t, ops[..i][..j]), ops[..i][j], d.id, a) {
        assert ops[..i][..j] == ops[..j];
      }
      AcceptableFront(t, ops, i);
      HeldOverOps(t, ops[..i], d.id, a);
    }
  }

  // ---- Attempts -------------------------------------------------------------------------------------

  /** The attempts under which a list of deliveries hands out a job. */
  function AttemptsIn(ds: seq<Delivery>, id: Id): seq<nat> {
    if ds == [] then []
    else (if ds[0].id == id then [ds[0].job.place.attempt] else []) + AttemptsIn(ds[1..], id)
  }

  /** The attempts under which a run of operations answers a job, in order. */
  ghost function AttemptsAnswered(s: State, ops: seq<Op>, id: Id): seq<nat> {
    if ops == [] then []
    else
      var front := ops[..|ops| - 1];
      AttemptsAnswered(s, front, id) + AttemptsIn(DeliveriesOf(ApplyAll(s, front), ops[|ops| - 1]), id)
  }

  lemma {:induction false} AttemptsConcat(s: State, a: seq<Move>, b: seq<Move>, id: Id)
    ensures Attempts(s, a + b, id) == Attempts(s, a, id) + Attempts(Run(s, a), b, id)
  {
    hide Step;
    if b == [] {
      assert a + b == a;
    } else {
      var front := b[..|b| - 1];
      AttemptsConcat(s, a, front, id);
      RunConcat(s, a, front);
      assert (a + b)[..|a + b| - 1] == a + front;
    }
  }

  lemma AttemptsOne(s: State, m: Move, id: Id)
    ensures Attempts(s, [m], id) == if m.Lease? && m.id == id && IsReady(s, id) then [s.live[id].place.attempt] else []
  {
    assert [m][..0] == [];
    RunNone(s);
    assert Attempts(s, [], id) == [];
  }

  /** A reserve hands out attempts exactly as it answers them. */
  lemma {:induction false} ReserveAttempts(s: State, queues: seq<Queue>, expiry: int, n: nat, id: Id)
    ensures var (ms, ds) := ReservePlan(s, queues, expiry, n); Attempts(s, ms, id) == AttemptsIn(ds, id)
    decreases |queues|, n
  {
    hide Step, OwnedBy, Attempts, Run, ReadyKeys;
    if queues == [] || n == 0 {
      NoAttempts(s, id);
    } else if OwnedBy(s, ReadyKeys(s), queues[0]) == {} {
      ReserveAttempts(s, queues[1..], expiry, n, id);
    } else {
      var x := JobIdOf(NextKey(s, queues[0]));
      NextIsReady(s, queues[0]);
      var m := Lease(x, expiry);
      var (ms, ds) := ReservePlan(Step(s, m), queues, expiry, n - 1);
      ReserveAttempts(Step(s, m), queues, expiry, n - 1, id);
      AttemptsConcat(s, [m], ms, id);
      AttemptsOne(s, m, id);
      RunOne(s, m);
      var d := DeliveryOf(s, x, expiry);
      assert ([d] + ds)[1..] == ds;
    }
  }

  lemma NoAttempts(s: State, id: Id)
    ensures Attempts(s, [], id) == []
  {
  }

  lemma NextIsReady(s: State, q: Queue)
    requires OwnedBy(s, ReadyKeys(s), q) != {}
    ensures IsReady(s, JobIdOf(NextKey(s, q)))
  {
    assert InReady(s, NextKey(s, q));
  }

  lemma {:induction false} NoLeaseNoAttempts(s: State, ms: seq<Move>, id: Id)
    requires forall i :: 0 <= i < |ms| ==> !ms[i].Lease?
    ensures Attempts(s, ms, id) == []
  {
    if ms != [] { NoLeaseNoAttempts(s, ms[..|ms| - 1], id); }
  }

  lemma OpAttempts(s: State, op: Op, id: Id)
    ensures Attempts(s, PlanOf(s, op).moves, id) == AttemptsIn(DeliveriesOf(s, op), id)
  {
    if op.ReserveOp? {
      hide Attempts, ReservePlan;
      ReserveAttempts(s, op.queues, After(op.now, op.leaseMs), op.maxJobs, id);
    } else {
      hide PlanOf, Attempts;
      PlanKinds(s, op);
      var ms := PlanOf(s, op).moves;
      forall i | 0 <= i < |ms| ensures !ms[i].Lease? { assert Kind(op, ms[i]); }
      NoLeaseNoAttempts(s, ms, id);
    }
  }

  /** Over a run of operations the attempts handed out are the attempts answered. */
  lemma {:induction false} AttemptsAreAnswered(s: State, ops: seq<Op>, id: Id)
    requires Acceptable(s, ops)
    ensures Attempts(s, History(s, ops), id) == AttemptsAnswered(s, ops, id)
  {
    hide PlanOf, OpOk, Attempts, Run, Legal, DeliveriesOf, Apply;
    if ops == [] {
      NoAttempts(s, id);
    } else {
      var (front, op) := (ops[..|ops| - 1], ops[|ops| - 1]);
      AttemptsAreAnswered(s, front, id);
      HistoryLegal(s, front);
      OpAttempts(ApplyAll(s, front), op, id);
      AttemptsConcat(s, History(s, front), PlanOf(ApplyAll(s, front), op).moves, id);
    }
  }

  /** In one life the attempts callers are answered for a job are 1, 2, 3, ... without gaps, and never
      more than its max_attempts. */
  lemma DeliveriesCountUp(s: State, ops: seq<Op>, id: Id)
    requires Inv(s) && Acceptable(s, ops) && Newborn(s, id) && NeverRevived(History(s, ops), id)
    ensures var l := AttemptsAnswered(s, ops, id);
            |l| <= s.live[id].body.maxAttempts && forall i :: 0 <= i < |l| ==> l[i] == i + 1
  {
    hide Inv, Acceptable, Attempts, AttemptsAnswered, History, Run, Legal;
    HistoryLegal(s, ops);
    AttemptsAreAnswered(s, ops, id);
    AttemptsCountUp(s, History(s, ops), id);
  }
}
