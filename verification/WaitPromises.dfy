/** What a job's place promises over runs: a scheduled job is handed to nobody before a sweep reaches
    its time, and a lease stands until it is handed back or a sweep reaches its end. */
module WaitPromises {
  import opened Bytes
  import opened Keys
  import opened Machine
  import opened Ops
  import opened Legality
  import opened Lifecycle
  import opened Deliveries
  import opened Promises
  import opened BatchPromises

  // ---- Waiting for a time ---------------------------------------------------------------------------

  /** Scheduled as it was, or gone. */
  ghost predicate WaitingOrGone(s: State, id: Id, place: Place) {
    id in s.used && (id in s.live ==> s.live[id].place == place)
  }

  /** A move that could end the wait: a promotion at or after the deadline, or a new life. */
  predicate Wakes(m: Move, id: Id, deadline: int) {
    (m.Promote? && m.id == id && m.now >= deadline) || (m.Revive? && m.id == id)
  }

  lemma WaitStep(s: State, m: Move, id: Id, place: Place)
    requires Inv(s) && place.Scheduled? && WaitingOrGone(s, id, place) && !Wakes(m, id, place.deadline)
    ensures WaitingOrGone(Step(s, m), id, place)
  {
    if !Touches(m, id) {
      StepFrame(s, m, id);
      assert Lookup(Step(s, m).live, id) == Lookup(s.live, id);
    }
  }

  lemma {:induction false} WaitRun(s: State, ms: seq<Move>, id: Id, place: Place)
    requires Inv(s) && place.Scheduled? && WaitingOrGone(s, id, place)
    requires forall i :: 0 <= i < |ms| ==> !Wakes(ms[i], id, place.deadline)
    ensures WaitingOrGone(Run(s, ms), id, place)
  {
    hide Inv, Step, WaitingOrGone;
    if ms != [] {
      var front := ms[..|ms| - 1];
      WaitRun(s, front, id, place);
      RunInv(s, front);
      WaitStep(Run(s, front), ms[|ms| - 1], id, place);
    }
  }

  /** A sweep whose clock has reached the deadline, or a requeue of the job. */
  ghost predicate OpWakes(s: State, op: Op, id: Id, deadline: int) {
    (op.SweepOp? && op.now >= deadline) || Requeues(s, op, id)
  }

  lemma PromotesCarryTheClock(s: State, op: Op)
    requires op.SweepOp?
    ensures forall i :: 0 <= i < |PlanOf(s, op).moves| && PlanOf(s, op).moves[i].Promote? ==>
              PlanOf(s, op).moves[i].now == op.now
  {
    SweepClocks(s, op);
  }

  lemma SweepClocks(s: State, op: Op)
    requires op.SweepOp?
    ensures var ms := SweepMoves(s, op.now, op.budget, op.cutoff, op.keep);
            forall i :: 0 <= i < |ms| && ms[i].Promote? ==> ms[i].now == op.now
  {
    hide Run, DueHead, ScheduledKeys, LeaseKeys, DedupTimerKeys, DeadKeys;
  }

  lemma OpKeepsWaiting(s: State, op: Op, id: Id, place: Place)
    requires Inv(s) && place.Scheduled? && WaitingOrGone(s, id, place) && !OpWakes(s, op, id, place.deadline)
    ensures WaitingOrGone(Apply(s, op), id, place)
  {
    var ms := PlanOf(s, op).moves;
    PlanKinds(s, op);
    if op.SweepOp? { PromotesCarryTheClock(s, op); }
    forall i | 0 <= i < |ms| ensures !Wakes(ms[i], id, place.deadline) { assert Kind(op, ms[i]); }
    hide PlanOf, Run, Inv, WaitingOrGone;
    WaitRun(s, ms, id, place);
  }

  lemma {:induction false} WaitOverOps(s: State, ops: seq<Op>, id: Id, place: Place)
    requires Inv(s) && place.Scheduled? && WaitingOrGone(s, id, place)
    requires forall j :: 0 <= j < |ops| ==> !OpWakes(ApplyAll(s, ops[..j]), ops[j], id, place.deadline)
    ensures Inv(ApplyAll(s, ops)) && WaitingOrGone(ApplyAll(s, ops), id, place)
  {
    hide Inv, Apply, WaitingOrGone, OpWakes;
    if ops != [] {
      var (front, op) := (ops[..|ops| - 1], ops[|ops| - 1]);
      forall j | 0 <= j < |front| ensures !OpWakes(ApplyAll(s, front[..j]), front[j], id, place.deadline) {
        assert front[..j] == ops[..j];
      }
      WaitOverOps(s, front, id, place);
      OpKeepsInv(ApplyAll(s, front), op);
      OpKeepsWaiting(ApplyAll(s, front), op, id, place);
    }
  }

  /** A scheduled job is answered by no reserve of any run before a sweep whose clock is at or after
      its deadline, unless it was removed and requeued. */
  lemma ScheduledIsNotDelivered(s: State, id: Id, ops: seq<Op>, i: nat)
    requires Inv(s) && id in s.live && s.live[id].place.Scheduled? && i < |ops|
    requires Answers(ApplyAll(s, ops[..i]), ops[i], id)
    ensures exists j :: 0 <= j < i && OpWakes(ApplyAll(s, ops[..j]), ops[j], id, s.live[id].place.deadline)
  {
    hide Inv, DeliveriesOf, OpWakes;
    var (t, d) := (ApplyAll(s, ops[..i]), s.live[id].place.deadline);
    var n :| 0 <= n < |DeliveriesOf(t, ops[i])| && DeliveriesOf(t, ops[i])[n].id == id;
    DeliveredIsLeased(t, ops[i], n);
    if forall j :: 0 <= j < i ==> !OpWakes(ApplyAll(s, ops[..j]), ops[j], id, d) {
      forall j | 0 <= j < i ensures !OpWakes(ApplyAll(s, ops[..i][..j]), ops[..i][j], id, d) {
        assert ops[..i][..j] == ops[..j];
      }
      LiveIsUsed(s, id);
      WaitOverOps(s, ops[..i], id, s.live[id].place);
    }
  }

  lemma LiveIsUsed(s: State, id: Id)
    requires Inv(s) && id in s.live
    ensures id in s.used
  {
  }

  /** A job accepted for later is answered by no reserve before its time. */
  lemma DelayedJobWaits(s: State, op: Op, i: nat, ops: seq<Op>, k: nat)
    requires Inv(s) && (op.EnqueueOp? || op.EnqueueAtomicOp?) && OpOk(s, op)
    requires i < |op.jobs| && i < |Results(PlanOf(s, op).outcome)|
    requires Results(PlanOf(s, op).outcome)[i] == Accepted(op.jobs[i].id, false)
    requires op.jobs[i].scheduledAt.Some? && op.jobs[i].scheduledAt.value > op.now
    requires k < |ops| && Answers(ApplyAll(Apply(s, op), ops[..k]), ops[k], op.jobs[i].id)
    ensures exists j :: 0 <= j < k
              && OpWakes(ApplyAll(Apply(s, op), ops[..j]), ops[j], op.jobs[i].id, op.jobs[i].scheduledAt.value)
  {
    hide Inv, PlanOf, Apply, OpOk, OpWakes, Answers;
    AcceptedIsStored(s, op, i);
    OpKeepsInv(s, op);
    ScheduledIsNotDelivered(Apply(s, op), op.jobs[i].id, ops, k);
  }

  /** Nor is a job nacked with a delay before the delay is over. */
  lemma NackedJobWaits(s: State, op: Op, ops: seq<Op>, k: nat)
    requires Inv(s) && op.NackOp? && Held(s, op.id, op.attempt)
    requires !op.force && op.attempt < s.live[op.id].body.maxAttempts && op.delay > 0
    requires k < |ops| && Answers(ApplyAll(Apply(s, op), ops[..k]), ops[k], op.id)
    ensures exists j :: 0 <= j < k && OpWakes(ApplyAll(Apply(s, op), ops[..j]), ops[j], op.id, Later(op.now, op.delay))
  {
    hide Inv, PlanOf, Apply, OpWakes, Answers;
    NackRetries(s, op);
    OpKeepsInv(s, op);
    ScheduledIsNotDelivered(Apply(s, op), op.id, ops, k);
  }

  // ---- Holding a lease ------------------------------------------------------------------------------------

  /** Nobody names the lease and no sweep reaches its end. */
  predicate Undisturbed(op: Op, id: Id, attempt: nat, expiry: int) {
    && (op.AckOp? || op.NackOp? || op.ExtendOp? ==> !(op.id == id && op.attempt == attempt))
    && (op.SweepOp? ==> op.now < expiry)
  }

  /** The moves that can touch a leased job. */
  predicate Disturbs(m: Move, id: Id, attempt: nat, expiry: int) {
    || ((m.Ack? || m.Nack? || m.Extend?) && m.id == id && m.attempt == attempt)
    || (m.Expire? && m.id == id && m.now >= expiry)
  }

  lemma LeaseKept(s: State, m: Move, id: Id)
    requires Inv(s) && id in s.live && s.live[id].place.Leased?
    requires !Disturbs(m, id, s.live[id].place.attempt, s.live[id].place.expiry)
    ensures Lookup(Step(s, m).live, id) == Some(s.live[id])
  {
    if !Touches(m, id) { StepFrame(s, m, id); }
  }

  lemma {:induction false} LeaseKeptOver(s: State, ms: seq<Move>, id: Id)
    requires Inv(s) && id in s.live && s.live[id].place.Leased?
    requires forall i :: 0 <= i < |ms| ==> !Disturbs(ms[i], id, s.live[id].place.attempt, s.live[id].place.expiry)
    ensures Lookup(Run(s, ms).live, id) == Some(s.live[id])
  {
    hide Inv, Step, Disturbs;
    if ms != [] {
      var front := ms[..|ms| - 1];
      LeaseKeptOver(s, front, id);
      RunInv(s, front);
      LeaseKept(Run(s, front), ms[|ms| - 1], id);
    }
  }

  lemma OpDisturbs(s: State, op: Op, id: Id, attempt: nat, expiry: int, i: nat)
    requires Undisturbed(op, id, attempt, expiry) && i < |PlanOf(s, op).moves|
    ensures !Disturbs(PlanOf(s, op).moves[i], id, attempt, expiry)
  {
    hide EnqueueAll, InsertAll, ReservePlan, KeyMoves, PurgeMoves, SweepMoves, DrainKeys, Leftovers, LeaseKeys, OwnedBy,
         Run;
    PlanKinds(s, op);
    assert Kind(op, PlanOf(s, op).moves[i]);
  }

  /** Until an ack, nack or extend names it, no operation and no sweep before its end touches a leased
      job in any way. */
  lemma {:induction false} LeaseStands(s: State, id: Id, ops: seq<Op>)
    requires Inv(s) && id in s.live && s.live[id].place.Leased?
    requires forall j :: 0 <= j < |ops| ==> Undisturbed(ops[j], id, s.live[id].place.attempt, s.live[id].place.expiry)
    ensures Inv(ApplyAll(s, ops)) && Lookup(ApplyAll(s, ops).live, id) == Some(s.live[id])
  {
    hide Inv, PlanOf, Run, Undisturbed, Disturbs;
    if ops != [] {
      var (front, op) := (ops[..|ops| - 1], ops[|ops| - 1]);
      LeaseStands(s, id, front);
      var t := ApplyAll(s, front);
      OpKeepsInv(t, op);
      var ms := PlanOf(t, op).moves;
      forall i | 0 <= i < |ms| ensures !Disturbs(ms[i], id, t.live[id].place.attempt, t.live[id].place.expiry) {
        OpDisturbs(t, op, id, t.live[id].place.attempt, t.live[id].place.expiry, i);
      }
      LeaseKeptOver(t, ms, id);
    }
  }

  /** So an accepted extension holds for as long as it grants. */
  lemma ExtensionHolds(s: State, id: Id, attempt: nat, leaseMs: nat, now: int, ops: seq<Op>)
    requires Inv(s) && Held(s, id, attempt)
    requires forall j :: 0 <= j < |ops| ==>
               Undisturbed(ops[j], id, attempt, Later(now, if leaseMs >= 1 then leaseMs else 1))
    ensures var t := ApplyAll(Apply(s, ExtendOp(id, attempt, leaseMs, now)), ops);
            id in t.live && t.live[id].place == Leased(attempt, Later(now, if leaseMs >= 1 then leaseMs else 1))
  {
    hide Inv, PlanOf, Apply, Undisturbed;
    ExtendDoes(s, id, attempt, leaseMs, now);
    OpKeepsInv(s, ExtendOp(id, attempt, leaseMs, now));
    LeaseStands(Apply(s, ExtendOp(id, attempt, leaseMs, now)), id, ops);
  }
}
