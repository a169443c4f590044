/** What a cycle promises around its operations: who hears at once, and which queues it wakes, exactly
    those in which one of its operations put a job in line. */
module CyclePromises {
  import opened Bytes
  import opened Keys
  import opened Machine
  import opened Ops
  import opened Legality
  import opened Lockstep
  import opened Promises
  import opened Committer

  /** A job of `q` is in line in `t` that was not in line in `s`. */
  ghost predicate PutInLine(s: State, t: State, q: Queue) {
    exists id :: id in t.live && t.live[id].place.Ready? && t.live[id].queue == q
                 && !(id in s.live && s.live[id].place.Ready?)
  }

  predicate TakesOut(m: Move) {
    m.Lease? || m.Bury? || m.DropLive?
  }

  /** A job in line before and after a move is the same job. */
  lemma StaysInLine(s: State, m: Move, id: Id)
    requires Inv(s) && IsReady(s, id)
    ensures IsReady(Step(s, m), id) ==> Step(s, m).live[id] == s.live[id]
    ensures !TakesOut(m) ==> IsReady(Step(s, m), id)
  {
    if !Touches(m, id) {
      StepFrame(s, m, id);
      assert Lookup(Step(s, m).live, id) == Some(s.live[id]);
    }
  }

  lemma OneWakes(s: State, m: Move, q: Queue)
    requires Inv(s)
    ensures q in NewReady(s, m) <==> PutInLine(s, Step(s, m), q)
  {
    if PutInLine(s, Step(s, m), q) {
      var id :| id in Step(s, m).live && Step(s, m).live[id].place.Ready? && Step(s, m).live[id].queue == q
                && !(id in s.live && s.live[id].place.Ready?);
      if !Touches(m, id) { StepFrame(s, m, id); }
    }
  }

  lemma WakesLast(s: State, ms: seq<Move>, m: Move)
    ensures NewReadyAll(s, ms + [m]) == NewReadyAll(s, ms) + NewReady(Run(s, ms), m)
  {
    assert (ms + [m])[..|ms|] == ms;
  }

  /** A job put in line by the end was put there by one of the moves. */
  lemma {:induction false} PutInLineWakes(s: State, ms: seq<Move>, q: Queue)
    requires Inv(s) && PutInLine(s, Run(s, ms), q)
    ensures q in NewReadyAll(s, ms)
  {
    hide NewReady, Step, Inv, NewReadyAll, Run;
    RunNone(s);
    if ms != [] {
      var (front, m) := (ms[..|ms| - 1], ms[|ms| - 1]);
      assert ms == front + [m];
      var t := Run(s, front);
      RunSnoc(s, front, m);
      RunInv(s, front);
      WakesLast(s, front, m);
      OneWakes(t, m, q);
      var u := Run(s, ms);
      var id :| id in u.live && u.live[id].place.Ready? && u.live[id].queue == q
                && !(id in s.live && s.live[id].place.Ready?);
      if id in t.live && t.live[id].place.Ready? {
        StaysInLine(t, m, id);
        PutInLineWakes(s, front, q);
      }
    }
  }

  /** Unless jobs are taken out of line too, what a move put in line is there at the end. */
  lemma {:induction false} WakesPutInLine(s: State, ms: seq<Move>, q: Queue)
    requires Inv(s) && (forall i :: 0 <= i < |ms| ==> !TakesOut(ms[i])) && q in NewReadyAll(s, ms)
    ensures PutInLine(s, Run(s, ms), q)
  {
    hide NewReady, Step, Inv, NewReadyAll, Run, TakesOut;
    NothingNew(s);
    var (front, m) := (ms[..|ms| - 1], ms[|ms| - 1]);
    assert ms == front + [m];
    var t := Run(s, front);
    RunSnoc(s, front, m);
    RunInv(s, front);
    WakesLast(s, front, m);
    OneWakes(t, m, q);
    if q in NewReadyAll(s, front) {
      WakesPutInLine(s, front, q);
      var id :| id in t.live && t.live[id].place.Ready? && t.live[id].queue == q
                && !(id in s.live && s.live[id].place.Ready?);
      StaysInLine(t, m, id);
    } else {
      var u := Run(s, ms);
      var id :| id in u.live && u.live[id].place.Ready? && u.live[id].queue == q
                && !(id in t.live && t.live[id].place.Ready?);
      if IsReady(s, id) { LineKeeps(s, front, id); }
    }
  }

  lemma {:induction false} LineKeeps(s: State, ms: seq<Move>, id: Id)
    requires Inv(s) && (forall i :: 0 <= i < |ms| ==> !TakesOut(ms[i])) && IsReady(s, id)
    ensures IsReady(Run(s, ms), id)
  {
    hide Step, Inv, Run, TakesOut;
    RunNone(s);
    if ms != [] {
      var (front, m) := (ms[..|ms| - 1], ms[|ms| - 1]);
      assert ms == front + [m];
      LineKeeps(s, front, id);
      RunSnoc(s, front, m);
      RunInv(s, front);
      StaysInLine(Run(s, front), m, id);
    }
  }

  predicate OnlyTakes(m: Move) {
    m.Lease? || m.Bury? || m.DropLive? || m.DropDead? || m.Forget?
  }

  lemma {:induction false} TakingWakesNone(s: State, ms: seq<Move>)
    requires forall i :: 0 <= i < |ms| ==> OnlyTakes(ms[i])
    ensures NewReadyAll(s, ms) == {}
  {
    hide Run, Step;
    if ms != [] { TakingWakesNone(s, ms[..|ms| - 1]); }
  }

  /** No operation both puts jobs in line and takes them out. */
  lemma OneWay(s: State, op: Op)
    ensures var ms := PlanOf(s, op).moves;
            (forall i :: 0 <= i < |ms| ==> !TakesOut(ms[i])) || (forall i :: 0 <= i < |ms| ==> OnlyTakes(ms[i]))
  {
    hide PlanOf;
    PlanKinds(s, op);
    var ms := PlanOf(s, op).moves;
    assert forall i :: 0 <= i < |ms| ==> Kind(op, ms[i]);
    if op.ReserveOp? || op.BuryOp? || op.PurgeOp? {
      assert forall i :: 0 <= i < |ms| ==> OnlyTakes(ms[i]);
    } else {
      assert forall i :: 0 <= i < |ms| ==> !TakesOut(ms[i]);
    }
  }

  /** An operation wakes a queue exactly when it puts one of its jobs in line. */
  lemma OpWakesExactly(s: State, op: Op, q: Queue)
    requires Inv(s)
    ensures q in NewReadyAll(s, PlanOf(s, op).moves) <==> PutInLine(s, Apply(s, op), q)
  {
    hide Inv, PlanOf, Run, NewReadyAll, PutInLine, TakesOut, OnlyTakes;
    var ms := PlanOf(s, op).moves;
    if PutInLine(s, Run(s, ms), q) { PutInLineWakes(s, ms, q); }
    if q in NewReadyAll(s, ms) {
      OneWay(s, op);
      if forall i :: 0 <= i < |ms| ==> OnlyTakes(ms[i]) {
        TakingWakesNone(s, ms);
      } else {
        WakesPutInLine(s, ms, q);
      }
    }
  }

  lemma {:induction false} WakesConcat(s: State, a: seq<Move>, b: seq<Move>)
    ensures NewReadyAll(s, a + b) == NewReadyAll(s, a) + NewReadyAll(Run(s, a), b)
  {
    hide NewReadyAll, Run, NewReady;
    NothingNew(Run(s, a));
    if b == [] {
      assert a + b == a;
    } else {
      var (front, m) := (b[..|b| - 1], b[|b| - 1]);
      assert b == front + [m] && a + b == (a + front) + [m];
      WakesConcat(s, a, front);
      WakesLast(s, a + front, m);
      WakesLast(Run(s, a), front, m);
      RunConcat(s, a, front);
    }
  }

  /** A cycle wakes a queue exactly when one of its operations put a job of it in line, even if a later
      one took it out again. */
  lemma {:induction false} CycleWakesExactly(s: State, ops: seq<Op>, q: Queue)
    requires Inv(s) && Acceptable(s, ops)
    ensures q in NewReadyAll(s, History(s, ops)) <==>
            exists i :: 0 <= i < |ops| && PutInLine(ApplyAll(s, ops[..i]), Apply(ApplyAll(s, ops[..i]), ops[i]), q)
  {
    hide Inv, PlanOf, Run, NewReadyAll, PutInLine, OpOk, ApplyAll;
    if ops == [] {
      NothingNew(s);
    } else {
      var (n, front, op) := (|ops| - 1, ops[..|ops| - 1], ops[|ops| - 1]);
      CycleWakesExactly(s, front, q);
      HistoryLegal(s, front);
      RunInv(s, History(s, front));
      var t := ApplyAll(s, front);
      WakesConcat(s, History(s, front), PlanOf(t, op).moves);
      OpWakesExactly(t, op, q);
      forall i | 0 <= i < n ensures front[..i] == ops[..i] && front[i] == ops[i] {}
      if i :| 0 <= i < n && PutInLine(ApplyAll(s, front[..i]), Apply(ApplyAll(s, front[..i]), front[i]), q) {
        assert PutInLine(ApplyAll(s, ops[..i]), Apply(ApplyAll(s, ops[..i]), ops[i]), q);
      }
      if i :| 0 <= i < |ops| && PutInLine(ApplyAll(s, ops[..i]), Apply(ApplyAll(s, ops[..i]), ops[i]), q) && i < n {
        assert PutInLine(ApplyAll(s, front[..i]), Apply(ApplyAll(s, front[..i]), front[i]), q);
      }
    }
  }

  /** Answered before the commit: a lease the caller does not hold, a purge of a queue with a lease, and a
      bury of jobs that do not wait. Nothing else is, a rejected batch included. */
  lemma AnsweredAtOnce(s: State, op: Op)
    ensures Immediate(PlanOf(s, op).outcome) <==>
            || ((op.AckOp? || op.NackOp? || op.ExtendOp?) && !Promises.Held(s, op.id, op.attempt))
            || (op.PurgeOp? && exists id :: id in s.live && s.live[id].queue == op.queue && s.live[id].place.Leased?)
            || (op.BuryOp? && (op.state.PeekInflight? || op.state.PeekDeadLetter?))
  {
    hide EnqueueAll, InsertAll, ReservePlan, KeyMoves, PurgeMoves, SweepMoves, Leftovers, DrainKeys, LeaseKeys, Run;
    if op.PurgeOp? {
      if id :| id in s.live && s.live[id].queue == op.queue && s.live[id].place.Leased? {
        assert InLeases(s, TimerKey(s.live[id].place.expiry, id));
        assert TimerKey(s.live[id].place.expiry, id) in OwnedBy(s, LeaseKeys(s), op.queue);
      }
      if k :| k in OwnedBy(s, LeaseKeys(s), op.queue) {
        assert s.live[k.jobId].queue == op.queue && s.live[k.jobId].place.Leased?;
      }
    }
  }
}
