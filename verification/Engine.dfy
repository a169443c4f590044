/** The committer's write path: one transaction over the keyspaces, the in-memory
    indexes and the cycle's bookkeeping, updated together by every operation. */
module Engine {
  import opened Bytes
  import opened Keys
  import opened Listing
  import opened Machine
  import opened Ops
  import opened Legality
  import opened Rows
  import opened Writes
  import opened Tables
  import opened Lockstep

  /** What the dedup record of a key says about a new request. */
  datatype DedupCheck = Hit(id: Id) | Miss(stale: Option<Key>)

  /** The timer of the record the key already has. */
  ghost function StaleTimer(s: State, j: Prepared): Option<Key> {
    if j.key.Some? && DedupKey(j.queue, j.key.value) in s.dedup
    then Some(DedupTimerKey(s.dedup[DedupKey(j.queue, j.key.value)].deadline, j.queue, j.key.value))
    else None
  }

  /** What a failed operation can leave behind in memory. */
  datatype Wreck = Wreck(tx: Store, ready: map<Key, nat>, timers: nat -> map<Key, Queue>, counts: nat -> map<Queue,
                         nat>,
                         closing: map<Queue, int>, dirty: bool, newReady: set<Queue>)

  class Engine {
    // The write transaction: every keyspace as this cycle sees it.
    var tx: Store

    // The in-memory indexes.
    const ready: ReadyIndex
    const scheduled: TimerIndex
    const leases: TimerIndex
    const dedupTimers: TimerIndex
    const deadLetter: TimerIndex
    var closing: map<Queue, int>

    // The cycle.
    var dirty: bool
    var newReady: set<Queue>

    // What it all stands for: the state at the start of the cycle, the moves made since,
    // and the state they lead to.
    ghost var base: State
    ghost var trace: seq<Move>
    ghost var model: State

    /** A new database. */
    constructor ()
      ensures Valid() && fresh(Repr()) && tx == NewStore && model == Empty && base == Empty && trace == []
    {
      hide Mirrors, Inv, Tallied;
      tx, closing, dirty, newReady := NewStore, map[], false, {};
      ready := new ReadyIndex();
      scheduled := new TimerIndex();
      leases := new TimerIndex();
      dedupTimers := new TimerIndex();
      deadLetter := new TimerIndex();
      base, trace, model := Empty, [], Empty;
      new;
      NewStoreMirrors();
    }

    ghost function Repr(): set<object> {
      {this, ready, scheduled, leases, dedupTimers, deadLetter}
    }

    ghost function View(): Indexes
      reads this, Repr()
    {
      Indexes(ready.keys, scheduled.keys, leases.keys, dedupTimers.keys, deadLetter.keys, closing)
    }

    /** The index objects are distinct and every per-queue counter is right. */
    ghost predicate Counted()
      reads this, Repr()
    {
      && Distinct()
      && ready.Valid() && scheduled.Valid() && leases.Valid() && dedupTimers.Valid() && deadLetter.Valid()
    }

    /** Disk, memory and cycle all agree with the model. */
    ghost predicate Valid()
      reads this, Repr()
    {
      && Counted()
      && Mirrors(tx, View(), model) && Inv(model)
      && model == Run(base, trace) && Legal(base, trace)
      && dirty == (trace != []) && newReady == NewReadyAll(base, trace)
    }

    ghost function Counts(): Counters
      reads this, Repr()
    {
      Counters(ready.byQueue, scheduled.byQueue, leases.byQueue, dedupTimers.byQueue, deadLetter.byQueue)
    }

    /** In every valid state the indexes and all counters kept in memory are exactly those a rebuild
        computes from the keyspaces. */
    lemma MemoryIsRebuilt()
      requires Valid()
      ensures View() == Rebuild(tx) && Counts() == CountersOf(Rebuild(tx))
    {
      hide Mirrors, Inv, Run, Legal, NewReadyAll, Tallied, Tally, Rebuild;
      RebuildMatches(tx, View(), model);
      assert ready.Owners() == ReadyOwners(View().ready);
      TalliedIs(ready.byQueue, ready.Owners());
      TalliedIs(scheduled.byQueue, scheduled.keys);
      TalliedIs(leases.byQueue, leases.keys);
      TalliedIs(dedupTimers.byQueue, dedupTimers.keys);
      TalliedIs(deadLetter.byQueue, deadLetter.keys);
    }

    lemma ClosingIs()
      requires Valid()
      ensures closing == model.closing
    {
      hide Inv, Run, Legal, NewReadyAll, Tallied, LiveRows, DeadRows, PinRows, AuditRows;
    }

    twostate predicate Did(ms: seq<Move>)
      reads this
    {
      base == old(base) && trace == old(trace) + ms && model == Run(old(model), ms)
    }

    /** Record a move whose writes are in place. */
    ghost method Settle(m: Move, st: Store, ix: Indexes)
      requires Counted() && Mirrors(st, ix, model) && Inv(model) && Enabled(model, m)
      requires model == Run(base, trace) && Legal(base, trace)
      requires tx == StoreAfter(st, model, m) && View() == IndexesAfter(ix, model, m)
      requires dirty && newReady == NewReadyAll(base, trace) + NewReady(model, m)
      modifies this`model, this`trace
      ensures Valid() && Did([m]) && model == Step(old(model), m)
    {
      hide Mirrors, Inv, StoreAfter, IndexesAfter, NewReady, Enabled, Effect;
      MoveMirrored(st, ix, model, m);
      StepInv(model, m);
      Recorded(base, trace, m);
      RunOne(model, m);
      model, trace := Step(model, m), trace + [m];
    }

    // ---- One keyspace and its index at a time ------------------------------------------

    method PutReady(k: Key, attempt: nat)
      requires Counted() && k.ReadyKey?
      modifies this`tx, this`newReady, ready
      ensures Counted() && newReady == old(newReady) + {k.queue}
      ensures tx == old(tx).(ready := old(tx).ready[k := attempt])
      ensures View() == old(View()).(ready := old(View()).ready[k := attempt])
    {
      hide Tallied;
      tx := tx.(ready := tx.ready[k := attempt]);
      ready.Insert(k, attempt);
      newReady := newReady + {k.queue};
    }

    method CutReady(k: Key)
      requires Counted()
      modifies this`tx, ready
      ensures Counted()
      ensures tx == old(tx).(ready := old(tx).ready - {k})
      ensures View() == old(View()).(ready := old(View()).ready - {k})
    {
      hide Tallied;
      tx := tx.(ready := tx.ready - {k});
      ready.Remove(k);
    }

    method PutScheduled(k: Key, attempt: nat, q: Queue)
      requires Counted() && k !in View().scheduled
      modifies this`tx, scheduled
      ensures Counted()
      ensures tx == old(tx).(scheduled := old(tx).scheduled[k := attempt])
      ensures View() == old(View()).(scheduled := old(View()).scheduled[k := q])
    {
      hide Tallied;
      tx := tx.(scheduled := tx.scheduled[k := attempt]);
      scheduled.Insert(k, q);
    }

    method CutScheduled(k: Key)
      requires Counted()
      modifies this`tx, scheduled
      ensures Counted()
      ensures tx == old(tx).(scheduled := old(tx).scheduled - {k})
      ensures View() == old(View()).(scheduled := old(View()).scheduled - {k})
    {
      hide Tallied;
      tx := tx.(scheduled := tx.scheduled - {k});
      scheduled.Remove(k);
    }

    /** An inflight row and its lease timer. */
    method PutLease(id: Id, f: Flight)
      requires Counted() && TimerKey(f.expiry, id) !in View().leases
      modifies this`tx, leases
      ensures Counted()
      ensures tx
              == old(tx).(inflight := old(tx).inflight[id := f], leases := old(tx).leases[TimerKey(f.expiry, id) := []])
      ensures View() == old(View()).(leases := old(View()).leases[TimerKey(f.expiry, id) := f.queue])
    {
      hide Tallied;
      var k := TimerKey(f.expiry, id);
      tx := tx.(inflight := tx.inflight[id := f], leases := tx.leases[k := []]);
      leases.Insert(k, f.queue);
    }

    method CutLease(id: Id, expiry: int)
      requires Counted()
      modifies this`tx, leases
      ensures Counted()
      ensures tx == old(tx).(inflight := old(tx).inflight - {id}, leases := old(tx).leases - {TimerKey(expiry, id)})
      ensures View() == old(View()).(leases := old(View()).leases - {TimerKey(expiry, id)})
    {
      hide Tallied;
      var k := TimerKey(expiry, id);
      tx := tx.(inflight := tx.inflight - {id}, leases := tx.leases - {k});
      leases.Remove(k);
    }

    /** `maybe_store_dead_letter`: the job's letter, or nothing when letters are not kept. */
    method StoreDeadLetter(id: Id, letter: Dead, keep: bool)
      requires Counted() && forall t, q :: DeadLetterKey(t, q, id) !in View().deadLetter
      modifies this`tx, deadLetter
      ensures Counted()
      ensures var k := DeadLetterKey(letter.failedAt, letter.queue, id);
              && tx == old(tx).(deadLetter := if keep then old(tx).deadLetter[k := Letter(id, letter)]
                                              else old(tx).deadLetter)
              && View() == old(View()).(deadLetter := if keep then old(View()).deadLetter[k := letter.queue]
                                                      else old(View()).deadLetter)
    {
      hide Tallied;
      if !keep { return; }
      var k := DeadLetterKey(letter.failedAt, letter.queue, id);
      deadLetter.Insert(k, letter.queue);
      tx := tx.(deadLetter := tx.deadLetter[k := Letter(id, letter)]);
    }

    method CutJob(id: Id)
      modifies this`tx
      ensures tx == old(tx).(jobs := old(tx).jobs - {id}, payloads := old(tx).payloads - {id})
    {
      tx := tx.(jobs := tx.jobs - {id}, payloads := tx.payloads - {id});
    }

    // ---- The writes of each outcome of a lease --------------------------------------------

    method WriteAcked(id: Id, expiry: int)
      requires Counted()
      modifies this`tx, this`dirty, leases
      ensures Counted() && dirty
      ensures tx == old(tx).(jobs := old(tx).jobs - {id}, payloads := old(tx).payloads - {id},
                             inflight := old(tx).inflight - {id},
                             leases := old(tx).leases - {TimerKey(expiry, id)})
      ensures View() == old(View()).(leases := old(View()).leases - {TimerKey(expiry, id)})
    {
      hide Tallied;
      CutJob(id);
      CutLease(id, expiry);
      dirty := true;
    }

    method WriteExtended(id: Id, was: Flight, expiry: int)
      requires Counted() && forall e :: TimerKey(e, id) in View().leases ==> e == was.expiry
      modifies this`tx, this`dirty, leases
      ensures Counted() && dirty
      ensures tx == old(tx).(inflight := old(tx).inflight[id := was.(expiry := expiry)],
                             leases := (old(tx).leases - {TimerKey(was.expiry, id)})[TimerKey(expiry, id) := []])
      ensures var (k, k') := (TimerKey(was.expiry, id), TimerKey(expiry, id));
              View() == old(View()).(leases := (old(View()).leases - {k})[k' := was.queue])
    {
      hide Tallied;
      CutLease(id, was.expiry);
      PutLease(id, was.(expiry := expiry));
      assert (old(tx).inflight - {id})[id := was.(expiry := expiry)] == old(tx).inflight[id := was.(expiry := expiry)];
      dirty := true;
    }

    method WriteFailed(id: Id, expiry: int, letter: Dead, keep: bool)
      requires Counted() && forall t, q :: DeadLetterKey(t, q, id) !in View().deadLetter
      requires id in tx.jobs
      modifies this`tx, this`dirty, leases, deadLetter
      ensures Counted() && dirty
      ensures var k := DeadLetterKey(letter.failedAt, letter.queue, id);
              && tx == old(tx).(jobs := old(tx).jobs - {id}, payloads := old(tx).payloads - {id},
                                inflight := old(tx).inflight - {id},
                                leases := old(tx).leases - {TimerKey(expiry, id)},
                                deadLetter := if keep then old(tx).deadLetter[k := Letter(id, letter)]
                                              else old(tx).deadLetter)
              && View() == old(View()).(leases := old(View()).leases - {TimerKey(expiry, id)},
                                        deadLetter := if keep then old(View()).deadLetter[k := letter.queue]
                                                      else old(View()).deadLetter)
    {
      hide Tallied;
      StoreDeadLetter(id, letter, keep);
      CutJob(id);
      CutLease(id, expiry);
      dirty := true;
    }

    method WriteRetryLater(id: Id, f: Flight, deadline: int)
      requires Counted() && TimerKey(deadline, id) !in View().scheduled
      modifies this`tx, this`dirty, leases, scheduled
      ensures Counted() && dirty
      ensures tx == old(tx).(inflight := old(tx).inflight - {id}, leases := old(tx).leases - {TimerKey(f.expiry, id)},
                             scheduled := old(tx).scheduled[TimerKey(deadline, id) := f.attempt + 1])
      ensures View() == old(View()).(leases := old(View()).leases - {TimerKey(f.expiry, id)},
                                     scheduled := old(View()).scheduled[TimerKey(deadline, id) := f.queue])
    {
      hide Tallied;
      PutScheduled(TimerKey(deadline, id), f.attempt + 1, f.queue);
      CutLease(id, f.expiry);
      dirty := true;
    }

    method WriteRetryNow(id: Id, f: Flight)
      requires Counted()
      modifies this`tx, this`dirty, this`newReady, leases, ready
      ensures Counted() && dirty && newReady == old(newReady) + {f.queue}
      ensures var k := ReadyKey(f.queue, Min(f.priority, 9), f.enqueuedAt, id);
              && tx == old(tx).(inflight := old(tx).inflight - {id},
                                leases := old(tx).leases - {TimerKey(f.expiry, id)},
                                ready := old(tx).ready[k := f.attempt + 1])
              && View() == old(View()).(leases := old(View()).leases - {TimerKey(f.expiry, id)},
                                        ready := old(View()).ready[k := f.attempt + 1])
    {
      hide Tallied;
      PutReady(ReadyKey(f.queue, Min(f.priority, 9), f.enqueuedAt, id), f.attempt + 1);
      CutLease(id, f.expiry);
      dirty := true;
    }

    // ---- Ack, nack, extend ---------------------------------------------------------

    method ApplyAck(id: Id, attempt: nat) returns (o: Outcome)
      requires Valid()
      modifies Repr()
      ensures Valid() && Did(FencedPlan(old(model), AckOp(id, attempt)).moves)
      ensures o == FencedPlan(old(model), AckOp(id, attempt)).outcome
    {
      hide Mirrors, Inv, StoreAfter, IndexesAfter, NewReady, NewReadyAll, Run, Legal, Effect, Tallied, LiveAfter,
           DeadAfter, Failure;
      ghost var (st, ix) := (tx, View());
      ReadRows(st, ix, model, id);
      RunNone(model);
      if id !in tx.inflight { return NotFound; }
      var flight := tx.inflight[id];
      if flight.attempt != attempt { return AttemptMismatch; }

      ghost var m := Ack(id, attempt);
      AckFacts(st, ix, model, id, attempt);
      WriteAcked(id, flight.expiry);
      Settle(m, st, ix);
      o := Acked(flight.queue);
    }

    method ApplyNack(id: Id, attempt: nat, force: bool, reason: Option<Blob>, delay: nat, keep: bool,
                     now: int) returns (o: Outcome)
      requires Valid()
      modifies Repr()
      ensures Valid() && Did(FencedPlan(old(model), NackOp(id, attempt, force, reason, delay, keep, now)).moves)
      ensures o == FencedPlan(old(model), NackOp(id, attempt, force, reason, delay, keep, now)).outcome
    {
      hide Mirrors, Inv, NewReady, NewReadyAll, Run, Legal, Effect, Tallied, LiveAfter, DeadAfter;
      ReadRows(tx, View(), model, id);
      RunNone(model);
      if id !in tx.inflight { return NotFound; }
      var flight := tx.inflight[id];
      if flight.attempt != attempt { return AttemptMismatch; }

      ghost var m := Nack(id, attempt, force, reason, delay, now, keep);
      if force || flight.attempt >= flight.maxAttempts {
        FailLeased(id, flight, now, if force then Rejected else AttemptsExhausted, reason, keep, m);
        o := Nacked(flight.queue, true, 0);
      } else if delay > 0 {
        RetryLater(id, flight, After(now, delay), m);
        o := Nacked(flight.queue, false, delay);
      } else {
        RetryNow(id, flight, m);
        o := Nacked(flight.queue, false, delay);
      }
    }

    /** The end of a leased job that is rejected or out of attempts. */
    method FailLeased(id: Id, flight: Flight, now: int, cause: Cause, reason: Option<Blob>, keep: bool, ghost m: Move)
      requires Valid() && Enabled(model, m) && (m.Nack? || m.Expire?) && m.id == id
      requires FlightOf(model.live[id]) == Some(flight)
      requires Failure(model, m) == Some(cause) && m.keep == keep && m.now == now
      requires reason == if m.Expire? then None else m.reason
      modifies Repr()
      ensures Valid() && Did([m])
    {
      hide Mirrors, Inv, StoreAfter, IndexesAfter, NewReady, NewReadyAll, Run, Legal, Effect, Tallied, LiveAfter,
           DeadAfter, Failure;
      ghost var (st, ix) := (tx, View());
      FailFacts(st, ix, model, m);
      var payload := if id in tx.payloads then Some(tx.payloads[id]) else None;
      WriteFailed(id, flight.expiry, LetterFrom(tx.jobs[id], payload, now, flight.attempt, cause, reason), keep);
      Settle(m, st, ix);
    }

    /** Back to the queue on the next attempt, after a delay. */
    method RetryLater(id: Id, flight: Flight, deadline: int, ghost m: Move)
      requires Valid() && Enabled(model, m) && m.Nack? && m.delay > 0 && m.id == id && Failure(model, m) == None
      requires FlightOf(model.live[id]) == Some(flight) && deadline == After(m.now, m.delay)
      modifies Repr()
      ensures Valid() && Did([m])
    {
      hide Mirrors, Inv, StoreAfter, IndexesAfter, NewReady, NewReadyAll, Run, Legal, Effect, Tallied, LiveAfter,
           DeadAfter, Failure;
      ghost var (st, ix) := (tx, View());
      RetryLaterFacts(st, ix, model, m);
      WriteRetryLater(id, flight, deadline);
      Settle(m, st, ix);
    }

    /** Back to the queue on the next attempt, at its old place in line. */
    method RetryNow(id: Id, flight: Flight, ghost m: Move)
      requires Valid() && Enabled(model, m) && (m.Expire? || (m.Nack? && m.delay == 0)) && m.id == id
      requires Failure(model, m) == None
      requires FlightOf(model.live[id]) == Some(flight)
      modifies Repr()
      ensures Valid() && Did([m])
    {
      hide Mirrors, Inv, StoreAfter, IndexesAfter, NewReady, NewReadyAll, Run, Legal, Effect, Tallied, LiveAfter,
           DeadAfter, Failure;
      ghost var (st, ix) := (tx, View());
      RetryNowFacts(st, ix, model, m);
      WriteRetryNow(id, flight);
      Settle(m, st, ix);
    }

    method ApplyExtend(id: Id, attempt: nat, leaseMs: nat, now: int) returns (o: Outcome)
      requires Valid()
      modifies Repr()
      ensures Valid() && Did(FencedPlan(old(model), ExtendOp(id, attempt, leaseMs, now)).moves)
      ensures o == FencedPlan(old(model), ExtendOp(id, attempt, leaseMs, now)).outcome
    {
      hide Mirrors, Inv, StoreAfter, IndexesAfter, NewReady, NewReadyAll, Run, Legal, Effect, Tallied, LiveAfter,
           DeadAfter, Failure;
      ghost var (st, ix) := (tx, View());
      ReadRows(st, ix, model, id);
      RunNone(model);
      if id !in tx.inflight { return NotFound; }
      var flight := tx.inflight[id];
      if flight.attempt != attempt { return AttemptMismatch; }

      var expiry := After(now, Max(leaseMs, 1));
      ghost var m := Extend(id, attempt, expiry);
      ExtendFacts(st, ix, model, id, attempt, expiry);
      WriteExtended(id, flight, expiry);
      Settle(m, st, ix);
      o := Extended(flight.queue, expiry);
    }

    // ---- Enqueue --------------------------------------------------------------------

    method WriteJob(id: Id, j: Job)
      modifies this`tx
      ensures tx == JobWritten(old(tx), id, j)
    {
      tx := tx.(jobs := tx.jobs[id := RowOf(j)]);
      if j.body.payload.Some? { tx := tx.(payloads := tx.payloads[id := j.body.payload.value]); }
    }

    /** The rows of a new job and its ready or scheduled entry. */
    method WriteNewJob(id: Id, j: Job)
      requires Counted() && !j.place.Leased? && forall d :: TimerKey(d, id) !in View().scheduled
      modifies this`tx, this`newReady, ready, scheduled
      ensures Counted() && newReady == old(newReady) + if j.place.Ready? then {j.queue} else {}
      ensures tx == NewRows(old(tx), id, j) && View() == NewEntries(old(View()), id, j)
    {
      hide Tallied, JobWritten;
      WriteJob(id, j);
      if j.place.Scheduled? {
        PutScheduled(TimerKey(j.place.deadline, id), j.place.attempt, j.queue);
      } else {
        PutReady(ReadyKeyOf(id, j), j.place.attempt);
      }
    }

    /** The dedup record of a new job and its timer, a stale record's timer out of the way. */
    method WritePin(dk: DedupKey, stale: Option<Key>, v: DedupValue, ghost was: Option<DedupValue>)
      requires Counted() && forall k :: k in View().dedupTimers ==> k.DedupTimerKey? && View().dedupTimers[k] == k.queue
      requires stale == if was.Some? then Some(DedupTimerKey(was.value.deadline, dk.queue, dk.key)) else None
      modifies this`tx, dedupTimers
      ensures Counted()
      ensures tx == PinRecord(old(tx), dk, was, v) && View() == PinIndexed(old(View()), dk, was, v)
    {
      hide Tallied;
      if stale.Some? {
        tx := tx.(dedupTimers := tx.dedupTimers - {stale.value});
        dedupTimers.Remove(stale.value);
      }
      var timer := DedupTimerKey(v.deadline, dk.queue, dk.key);
      tx := tx.(dedupTimers := tx.dedupTimers[timer := []], dedup := tx.dedup[dk := v]);
      dedupTimers.Insert(timer, dk.queue);
    }

    method CheckDedup(j: Prepared, now: int) returns (r: DedupCheck)
      requires Valid()
      ensures r.Hit? <==> DedupHit(model, j, now)
      ensures r.Hit? ==> r.id == model.dedup[DedupKey(j.queue, j.key.value)].id
      ensures r.Miss? ==> r.stale == StaleTimer(model, j)
    {
      hide Inv, Run, Legal, NewReadyAll, Tallied, LiveRows, DeadRows, AuditRows;
      if j.key.None? { return Miss(None); }
      var dk := DedupKey(j.queue, j.key.value);
      if dk !in tx.dedup { return Miss(None); }
      var v := tx.dedup[dk];
      if now < v.deadline { return Hit(v.id); }
      r := Miss(Some(DedupTimerKey(v.deadline, dk.queue, dk.key)));
    }

    method WriteInserted(id: Id, j: Job, pin: Option<Pin>, stale: Option<Key>, ghost was: Option<DedupValue>)
      requires Counted() && !j.place.Leased? && forall d :: TimerKey(d, id) !in View().scheduled
      requires forall k :: k in View().dedupTimers ==> k.DedupTimerKey? && View().dedupTimers[k] == k.queue
      requires pin.Some? ==>
                 stale == if was.Some? then Some(DedupTimerKey(was.value.deadline, j.queue, pin.value.key)) else None
      modifies this`tx, this`newReady, this`dirty, ready, scheduled, dedupTimers
      ensures Counted() && dirty && newReady == old(newReady) + if j.place.Ready? then {j.queue} else {}
      ensures tx == InsertedRows(old(tx), id, j, pin, was) && View() == InsertedEntries(old(View()), id, j, pin, was)
    {
      hide Tallied, NewRows, NewEntries, PinRecord, PinIndexed;
      NewRowsKeepPins(tx, View(), id, j);
      WriteNewJob(id, j);
      if pin.Some? {
        WritePin(DedupKey(j.queue, pin.value.key), stale, DedupValue(j.enqueuedAt, pin.value.deadline, id), was);
      }
      dirty := true;
    }

    method InsertJob(j: Prepared, now: int, stale: Option<Key>)
      requires Valid() && Enabled(model, InsertMove(j, now)) && stale == StaleTimer(model, j)
      modifies Repr()
      ensures Valid() && Did([InsertMove(j, now)])
    {
      hide Mirrors, Inv, StoreAfter, IndexesAfter, NewReady, NewReadyAll, Run, Legal, Effect, Tallied, LiveAfter,
           DeadAfter, Failure, InsertedRows, InsertedEntries, Enabled;
      ghost var (st, ix) := (tx, View());
      ghost var m := InsertMove(j, now);
      InsertFacts(st, ix, model, m);
      var place := if j.scheduledAt.Some? && j.scheduledAt.value > now
                   then Scheduled(1, j.scheduledAt.value) else Ready(1);
      var pin := if j.key.Some? then Some(Pin(j.key.value, SatAdd(now, j.dedupWindow))) else None;
      WriteInserted(j.id, Job(j.queue, j.body, now, j.scheduledAt, place), pin, stale, Previous(model, m));
      Settle(m, st, ix);
    }

    method LiveDepth(q: Queue) returns (n: nat)
      requires Valid()
      ensures n == Depth(model, q)
    {
      hide Mirrors, Inv, Run, Legal, NewReadyAll, Tallied, Depth, ReadyKeys, ScheduledKeys, LeaseKeys, DedupTimerKeys,
           DeadKeys;
      CountIs(ready.byQueue, ready.Owners(), q);
      CountIs(scheduled.byQueue, scheduled.keys, q);
      CountIs(leases.byQueue, leases.keys, q);
      IndexOwned(tx, View(), model, q);
      CountersAddUp(model, q);
      n := Count(ready.byQueue, q) + Count(scheduled.byQueue, q) + Count(leases.byQueue, q);
    }

    /** One job of a best-effort batch. */
    method EnqueueJob(j: Prepared, now: int) returns (r: EnqueueResult)
      requires Valid() && j.id !in model.used && j.body.maxAttempts >= 1
      modifies Repr()
      ensures Valid() && Did(EnqueueOne(old(model), j, now).0) && r == EnqueueOne(old(model), j, now).1
    {
      hide Valid, Run, Legal, Depth, InsertMove;
      RunNone(model);
      ClosingIs();
      if j.queue in closing && closing[j.queue] > now { return Refused(QueueClosing(j.queue)); }
      var check := CheckDedup(j, now);
      if check.Hit? { return Accepted(check.id, true); }
      if j.cap.Some? {
        var depth := LiveDepth(j.queue);
        if depth >= j.cap.value { return Refused(QueueFull(j.queue, j.cap.value)); }
      }
      InsertEnabled(model, j, now);
      InsertJob(j, now, check.stale);
      r := Accepted(j.id, false);
    }

    method ApplyEnqueue(jobs: seq<Prepared>, now: int) returns (results: seq<EnqueueResult>)
      requires Valid() && BatchOk(model, jobs)
      modifies Repr()
      ensures Valid() && Did(EnqueueAll(old(model), jobs, now).0) && results == EnqueueAll(old(model), jobs, now).1
    {
      hide Valid, Run, Legal, EnqueueOne, EnqueueAll, BatchOk;
      NoBatch(model, now);
      results := [];
      RunNone(model);
      ghost var ms: seq<Move> := [];
      for i := 0 to |jobs|
        invariant Valid() && Did(ms) && EnqueueAll(old(model), jobs[..i], now) == (ms, results)
      {
        ghost var s0 := old(model);
        EnqueueTurn(s0, jobs, i, now);
        var r := EnqueueJob(jobs[i], now);
        ghost var m := EnqueueOne(Run(s0, ms), jobs[i], now).0;
        RunConcat(s0, ms, m);
        ms, results := ms + m, results + [r];
      }
      assert jobs[..|jobs|] == jobs;
    }

    method FindClosing(jobs: seq<Prepared>, now: int) returns (errors: seq<(nat, Refusal)>)
      requires Valid()
      ensures errors == ClosingErrors(model, jobs, now)
    {
      hide Valid;
      ClosingIs();
      errors := [];
      for i := 0 to |jobs|
        invariant errors == ClosingErrors(model, jobs[..i], now)
      {
        assert jobs[..i + 1][..i] == jobs[..i];
        var q := jobs[i].queue;
        if q in closing && closing[q] > now { errors := errors + [(i, QueueClosing(q))]; }
      }
      assert jobs[..|jobs|] == jobs;
    }

    /** The queues a batch would overfill, with their caps. */
    method FindOverfull(jobs: seq<Prepared>) returns (full: map<Queue, nat>)
      requires Valid()
      ensures forall q :: q in full <==> CountIn(jobs, q) > 0 && Overfull(model, jobs, q)
      ensures forall q :: q in full ==> Some(full[q]) == FirstCap(jobs, q)
    {
      hide Mirrors, Inv, Run, Legal, NewReadyAll, Tallied, Depth;
      var wanted := CountWanted(jobs);
      full := map[];
      var todo := wanted.Keys;
      while todo != {}
        invariant todo <= wanted.Keys
        invariant forall q :: q in full <==> q in wanted && q !in todo && Overfull(model, jobs, q)
        invariant forall q :: q in full ==> Some(full[q]) == FirstCap(jobs, q)
        decreases todo
      {
        var q :| q in todo;
        todo := todo - {q};
        var (count, cap) := wanted[q];
        if cap.Some? {
          var depth := LiveDepth(q);
          if depth + count > cap.value { full := full[q := cap.value]; }
        }
      }
    }

    method FindFull(jobs: seq<Prepared>) returns (errors: seq<(nat, Refusal)>)
      requires Valid()
      ensures errors == FullErrors(model, jobs, jobs)
    {
      hide Valid, Depth, Overfull;
      var full := FindOverfull(jobs);
      errors := [];
      for i := 0 to |jobs|
        invariant errors == FullErrors(model, jobs, jobs[..i])
      {
        assert jobs[..i + 1][..i] == jobs[..i];
        var q := jobs[i].queue;
        CountInMember(jobs, i);
        assert q in full ==> Some(full[q]) == FirstCap(jobs, q);
        if q in full { errors := errors + [(i, QueueFull(q, full[q]))]; }
      }
      assert jobs[..|jobs|] == jobs;
    }

    /** One job of a batch already admitted. */
    method InsertUnlessPinned(j: Prepared, now: int) returns (r: EnqueueResult)
      requires Valid() && j.id !in model.used && j.body.maxAttempts >= 1 && !IsClosing(model, j.queue, now)
      modifies Repr()
      ensures Valid() && Did(DedupOrInsert(old(model), j, now).0) && r == DedupOrInsert(old(model), j, now).1
    {
      hide Valid, Run, Legal, InsertMove;
      RunNone(model);
      var check := CheckDedup(j, now);
      if check.Hit? { return Accepted(check.id, true); }
      InsertEnabled(model, j, now);
      InsertJob(j, now, check.stale);
      r := Accepted(j.id, false);
    }

    method InsertBatch(jobs: seq<Prepared>, now: int) returns (results: seq<EnqueueResult>)
      requires Valid() && BatchOk(model, jobs) && forall i :: 0 <= i < |jobs| ==> !IsClosing(model, jobs[i].queue, now)
      modifies Repr()
      ensures Valid() && Did(InsertAll(old(model), jobs, now).0) && results == InsertAll(old(model), jobs, now).1
    {
      hide Valid, Run, Legal, DedupOrInsert, InsertAll, BatchOk;
      NoBatch(model, now);
      results := [];
      RunNone(model);
      ghost var ms: seq<Move> := [];
      for i := 0 to |jobs|
        invariant Valid() && Did(ms) && InsertAll(old(model), jobs[..i], now) == (ms, results)
      {
        ghost var s0 := old(model);
        InsertTurn(s0, jobs, i, now);
        var r := InsertUnlessPinned(jobs[i], now);
        ghost var m := DedupOrInsert(Run(s0, ms), jobs[i], now).0;
        RunConcat(s0, ms, m);
        ms, results := ms + m, results + [r];
      }
      assert jobs[..|jobs|] == jobs;
    }

    method ApplyEnqueueAtomic(jobs: seq<Prepared>, now: int) returns (o: Outcome)
      requires Valid() && BatchOk(model, jobs)
      modifies Repr()
      ensures Valid() && Did(AtomicPlan(old(model), jobs, now).moves) && o == AtomicPlan(old(model), jobs, now).outcome
    {
      hide Valid, Run, Legal;
      RunNone(model);
      var closed := FindClosing(jobs, now);
      if closed != [] { return BatchRejected(closed); }
      var full := FindFull(jobs);
      if full != [] { return BatchRejected(full); }
      NoClosingErrors(model, jobs, now);
      var results := InsertBatch(jobs, now);
      o := BatchCommitted(results);
    }

    // ---- Reserve ----------------------------------------------------------------------

    method WriteLeased(id: Id, k: Key, f: Flight)
      requires Counted() && TimerKey(f.expiry, id) !in View().leases
      modifies this`tx, this`dirty, ready, leases
      ensures Counted() && dirty
      ensures tx == old(tx).(inflight := old(tx).inflight[id := f], ready := old(tx).ready - {k},
                             leases := old(tx).leases[TimerKey(f.expiry, id) := []])
      ensures View() == old(View()).(ready := old(View()).ready - {k},
                                     leases := old(View()).leases[TimerKey(f.expiry, id) := f.queue])
    {
      hide Tallied;
      CutReady(k);
      PutLease(id, f);
      dirty := true;
    }

    method LeaseJob(k: Key, attempt: nat, expiry: int) returns (d: Delivery)
      requires Valid() && InReady(model, k) && attempt == model.live[k.jobId].place.attempt
      modifies Repr()
      ensures Valid() && Did([Lease(k.jobId, expiry)]) && d == DeliveryOf(old(model), k.jobId, expiry)
    {
      hide Mirrors, Inv, StoreAfter, IndexesAfter, NewReady, NewReadyAll, Run, Legal, Effect, Tallied, LiveAfter,
           DeadAfter, Failure;
      ghost var (st, ix) := (tx, View());
      var id := k.jobId;
      LeaseFacts(st, ix, model, id, expiry);
      var row := tx.jobs[id];
      var payload := if id in tx.payloads then Some(tx.payloads[id]) else None;
      d := DeliveryFrom(id, row, payload, attempt, expiry);
      WriteLeased(id, k, Flight(attempt, expiry, row.enqueuedAt, row.priority, row.maxAttempts, row.queue, row.trace));
      Settle(Lease(id, expiry), st, ix);
    }

    /** The queue's next job, leased. */
    method ReserveNext(q: Queue, expiry: int) returns (r: Option<Delivery>)
      requires Valid()
      modifies Repr()
      ensures Valid() && (r.None? <==> OwnedBy(old(model), ReadyKeys(old(model)), q) == {})
      ensures r.None? ==> Did([])
      ensures r.Some? ==> var id := JobIdOf(NextKey(old(model), q));
                          Did([Lease(id, expiry)]) && r.value == DeliveryOf(old(model), id, expiry)
    {
      hide Valid, Run, Legal, DeliveryOf, NextKey, OwnedBy, ReadyKeys;
      RunNone(model);
      var front := NextReady(q);
      if front.None? { return None; }
      var d := LeaseJob(front.value.0, front.value.1, expiry);
      r := Some(d);
    }

    method ApplyReserve(queues: seq<Queue>, leaseMs: nat, maxJobs: nat, now: int) returns (jobs: seq<Delivery>)
      requires Valid()
      modifies Repr()
      ensures Valid()
      ensures var (ms, ds) := ReservePlan(old(model), queues, After(now, leaseMs), maxJobs); Did(ms) && jobs == ds
    {
      hide Valid, Run, Legal, Step, DeliveryOf, ReadyKeys, OwnedBy, NextKey;
      var expiry := After(now, leaseMs);
      jobs := [];
      ghost var ms: seq<Move> := [];
      RunNone(model);
      AheadStart(model, queues, expiry, maxJobs);
      var i := 0;
      while i < |queues| && |jobs| < maxJobs
        invariant 0 <= i <= |queues| && |jobs| <= maxJobs && Valid() && Did(ms)
        invariant Ahead(old(model), model, queues, i, expiry, maxJobs, ms, jobs)
      {
        var more := true;
        while more && |jobs| < maxJobs
          invariant |jobs| <= maxJobs && Valid() && Did(ms)
          invariant Ahead(old(model), model, queues, i, expiry, maxJobs, ms, jobs)
          invariant !more ==> OwnedBy(model, ReadyKeys(model), queues[i]) == {}
          decreases maxJobs - |jobs|, more
        {
          ghost var s := model;
          var d := ReserveNext(queues[i], expiry);
          if d.None? {
            RunNone(s);
            more := false;
          } else {
            ghost var m := Lease(JobIdOf(NextKey(s, queues[i])), expiry);
            RunOne(s, m);
            RunConcat(old(model), ms, [m]);
            AheadOne(old(model), s, queues, i, expiry, maxJobs, ms, jobs);
            ms, jobs := ms + [m], jobs + [d.value];
          }
        }
        AheadNext(old(model), model, queues, i, expiry, maxJobs, ms, jobs);
        i := i + 1;
      }
      AheadEnd(old(model), model, queues, i, expiry, maxJobs, ms, jobs);
    }

    // ---- Dead letters ---------------------------------------------------------------------

    method CutLetter(k: Key)
      requires Counted()
      modifies this`tx, deadLetter
      ensures Counted()
      ensures tx == old(tx).(deadLetter := old(tx).deadLetter - {k})
      ensures View() == old(View()).(deadLetter := old(View()).deadLetter - {k})
    {
      hide Tallied;
      tx := tx.(deadLetter := tx.deadLetter - {k});
      deadLetter.Remove(k);
    }

    /** Take one dead letter out. */
    method DropLetter(k: Key) returns (letter: Letter)
      requires Valid() && InDead(model, k)
      modifies Repr()
      ensures Valid() && Did([DropDead(k.jobId)]) && letter == LetterOf(old(model), k.jobId)
    {
      hide Mirrors, Inv, StoreAfter, IndexesAfter, NewReady, NewReadyAll, Run, Legal, Effect, Tallied, LiveAfter,
           DeadAfter, Failure;
      ghost var (st, ix) := (tx, View());
      DropDeadFacts(st, ix, model, k);
      letter := tx.deadLetter[k];
      CutLetter(k);
      dirty := true;
      Settle(DropDead(k.jobId), st, ix);
    }

    method DropLetters(ks: seq<Key>) returns (letters: seq<Letter>)
      requires Valid() && DistinctIn(ks) && forall i :: 0 <= i < |ks| ==> InDead(model, ks[i])
      modifies Repr()
      ensures Valid() && Did(DropDeads(ks)) && letters == Letters(old(model), ks)
    {
      hide Valid, Run, Legal, LetterOf;
      letters := [];
      RunNone(model);
      for i := 0 to |ks|
        invariant Valid() && Did(DropDeads(ks[..i])) && letters == Letters(old(model), ks[..i])
      {
        ghost var (s0, ms) := (old(model), DropDeads(ks[..i]));
        StillDead(s0, ks, i);
        var letter := DropLetter(ks[i]);
        RunConcat(s0, ms, [DropDead(ks[i].jobId)]);
        assert DropDeads(ks[..i + 1]) == ms + [DropDead(ks[i].jobId)];
        letters := letters + [letter];
      }
      assert ks[..|ks|] == ks;
    }

    /** The oldest wanted letters among the first `scanCap`. */
    method ChooseLetters(want: Option<Queue>, max: nat, scanCap: nat) returns (chosen: seq<Key>)
      requires Valid()
      ensures Valid() && chosen == DrainKeys(model, want, max, scanCap)
    {
      hide Mirrors, Inv, NewReadyAll, Run, Legal, Tallied, ReadyKeys, ScheduledKeys, LeaseKeys, DedupTimerKeys;
      RecordKeys(tx, View(), model);
      var all := ListInOrder(deadLetter.keys.Keys);
      SortedContents(DeadKeys(model));
      assert forall i :: 0 <= i < |all| ==> all[i] in DeadKeys(model);
      chosen := ChooseWanted(all, want, max, scanCap);
    }

    method ApplyDrain(want: Option<Queue>, max: nat, scanCap: nat) returns (letters: seq<Letter>)
      requires Valid()
      modifies Repr()
      ensures Valid()
      ensures var ks := DrainKeys(old(model), want, max, scanCap);
              Did(DropDeads(ks)) && letters == Letters(old(model), ks)
    {
      hide Valid, Run, Legal, Letters, DrainKeys;
      var ks := ChooseLetters(want, max, scanCap);
      DrainLegal(model, want, max, scanCap);
      AscendingDistinct(ks);
      assert forall i :: 0 <= i < |ks| ==> ks[i] in ks;
      letters := DropLetters(ks);
    }

    /** Put a dead letter back in its queue as a new first attempt. */
    method Requeue(k: Key, now: int)
      requires Valid() && InDead(model, k)
      modifies Repr()
      ensures Valid() && Did([Revive(k.jobId, now)])
    {
      hide Mirrors, Inv, StoreAfter, IndexesAfter, NewReady, NewReadyAll, Run, Legal, Effect, Tallied, LiveAfter,
           DeadAfter, Failure, NewRows, NewEntries;
      ghost var (st, ix) := (tx, View());
      ReviveFacts(st, ix, model, k, now);
      var d := tx.deadLetter[k].record;
      WriteNewJob(k.jobId, Job(d.queue, d.body, now, None, Ready(1)));
      CutLetter(k);
      dirty := true;
      Settle(Revive(k.jobId, now), st, ix);
    }

    // ---- Jobs taken out while they wait -------------------------------------------------------

    method CutPlace(k: Key)
      requires Counted()
      modifies this`tx, ready, scheduled
      ensures Counted() && tx == PlaceCut(old(tx), k) && View() == PlaceUnindexed(old(View()), k)
    {
      if k.ReadyKey? { CutReady(k); } else { CutScheduled(k); }
    }

    method WriteDropped(id: Id, k: Key)
      requires Counted()
      modifies this`tx, this`dirty, ready, scheduled
      ensures Counted() && dirty && tx == JobCut(PlaceCut(old(tx), k), id) && View() == PlaceUnindexed(old(View()), k)
    {
      hide Tallied, PlaceCut, PlaceUnindexed;
      CutPlace(k);
      CutJob(id);
      dirty := true;
    }

    method WriteBuried(id: Id, k: Key, letter: Dead, keep: bool)
      requires Counted() && forall t, q :: DeadLetterKey(t, q, id) !in View().deadLetter
      modifies this`tx, this`dirty, ready, scheduled, deadLetter
      ensures Counted() && dirty
      ensures tx == JobCut(PlaceCut(LetterKept(old(tx), id, letter, keep), k), id)
      ensures View() == PlaceUnindexed(LetterIndexed(old(View()), id, letter, keep), k)
    {
      hide Tallied, PlaceCut, PlaceUnindexed, JobCut;
      StoreDeadLetter(id, letter, keep);
      WriteDropped(id, k);
    }

    /** Purge a waiting job. */
    method DropWaiting(k: Key)
      requires Valid() && Waiting(model, k)
      modifies Repr()
      ensures Valid() && Did([DropLive(k.jobId)])
    {
      hide Mirrors, Inv, StoreAfter, IndexesAfter, NewReady, NewReadyAll, Run, Legal, Effect, Tallied, LiveAfter,
           DeadAfter, Failure, PlaceCut, PlaceUnindexed, JobCut;
      ghost var (st, ix) := (tx, View());
      DropLiveFacts(st, ix, model, k);
      WriteDropped(k.jobId, k);
      Settle(DropLive(k.jobId), st, ix);
    }

    /** Dead-letter a waiting job. */
    method BuryWaiting(k: Key, attempt: nat, now: int, reason: Option<Blob>, keep: bool)
      requires Valid() && Waiting(model, k) && attempt == model.live[k.jobId].place.attempt
      modifies Repr()
      ensures Valid() && Did([Bury(k.jobId, now, reason, keep)])
    {
      hide Mirrors, Inv, StoreAfter, IndexesAfter, NewReady, NewReadyAll, Run, Legal, Effect, Tallied, LiveAfter,
           DeadAfter, Failure, PlaceCut, PlaceUnindexed, JobCut, LetterKept, LetterIndexed;
      ghost var (st, ix) := (tx, View());
      ghost var m := Bury(k.jobId, now, reason, keep);
      BuryFacts(st, ix, model, k, m);
      var id := k.jobId;
      var payload := if id in tx.payloads then Some(tx.payloads[id]) else None;
      WriteBuried(id, k, LetterFrom(tx.jobs[id], payload, now, attempt, Admin, reason), keep);
      Settle(m, st, ix);
    }

    // ---- Admin operations on peeked keys ----------------------------------------------------------

    /** One key of a requeue, delete or dead-letter request; a key gone stale since it was
        peeked is in neither its keyspace nor its index, and nothing happens. */
    method ApplyKey(op: Op, k: Key) returns (hit: bool)
      requires Valid() && (op.RequeueOp? || op.BuryOp? || op.DeleteOp?)
      modifies Repr()
      ensures Valid() && Did(KeyMove(old(model), op, k)) && hit == (KeyMove(old(model), op, k) != [])
    {
      hide Mirrors, Inv, NewReadyAll, Run, Legal, Tallied;
      RunNone(model);
      KeysKnown(tx, View(), model, k);
      hit := false;
      match op {
        case RequeueOp(q, _, now) =>
          if k.DeadLetterKey? && k.queue == q && k in tx.deadLetter {
            Requeue(k, now);
            hit := true;
          }
        case DeleteOp(q, _) =>
          if k in deadLetter.keys && deadLetter.keys[k] == q {
            var _ := DropLetter(k);
            hit := true;
          }
        case BuryOp(q, state, _, reason, keep, now) =>
          if state.PeekReady? && k.ReadyKey? && k.queue == q && k in tx.ready {
            BuryWaiting(k, ready.keys[k], now, reason, keep);
            hit := true;
          } else if state.PeekScheduled? && k.TimerKey? && k in tx.scheduled && tx.jobs[k.jobId].queue == q {
            BuryWaiting(k, tx.scheduled[k], now, reason, keep);
            hit := true;
          }
      }
    }

    method ApplyKeys(op: Op, keys: seq<Key>) returns (o: Outcome)
      requires Valid() && (op.RequeueOp? || op.BuryOp? || op.DeleteOp?)
      modifies Repr()
      ensures Valid() && Did(KeysPlan(old(model), op, keys).moves) && o == KeysPlan(old(model), op, keys).outcome
    {
      hide Valid, Run, Legal, KeyMove, KeyMoves, MoveIds, JobIdOf;
      var ids, missing := [], 0;
      ghost var ms: seq<Move> := [];
      RunNone(model);
      NoKeyMoves(model, op);
      for i := 0 to |keys|
        invariant Valid() && Did(ms) && ms == KeyMoves(old(model), op, keys[..i])
        invariant ids == MoveIds(ms) && missing == i - |ms|
      {
        ghost var (s0, s) := (old(model), model);
        ghost var m := KeyMove(s, op, keys[i]);
        KeyMovesSnoc(s0, op, keys, i);
        var hit := ApplyKey(op, keys[i]);
        RunConcat(s0, ms, m);
        if hit { ids := ids + [JobIdOf(keys[i])]; } else { missing := missing + 1; }
        ms := ms + m;
      }
      assert keys[..|keys|] == keys;
      o := KeysHandled(ids, missing);
    }

    // ---- Dedup records --------------------------------------------------------------------------

    method WriteForgotten(k: Key, dk: DedupKey, record: bool)
      requires Counted()
      modifies this`tx, this`dirty, dedupTimers
      ensures Counted() && dirty
      ensures tx == old(tx).(dedup := if record then old(tx).dedup - {dk} else old(tx).dedup,
                             dedupTimers := old(tx).dedupTimers - {k})
      ensures View() == old(View()).(dedupTimers := old(View()).dedupTimers - {k})
    {
      hide Tallied;
      if record { tx := tx.(dedup := tx.dedup - {dk}); }
      tx := tx.(dedupTimers := tx.dedupTimers - {k});
      dedupTimers.Remove(k);
      dirty := true;
    }

    /** Drop a dedup record by its timer: always when purging, and in a sweep when the record
        itself is due. */
    method ForgetPin(k: Key, due: Option<int>)
      requires Valid() && InDedupTimers(model, k) && (due.Some? ==> k.deadline <= due.value)
      modifies Repr()
      ensures Valid() && Did([Forget(PinOf(k), due)])
    {
      hide Mirrors, Inv, StoreAfter, IndexesAfter, NewReady, NewReadyAll, Run, Legal, Effect, Tallied, LiveAfter,
           DeadAfter, Failure;
      ghost var (st, ix) := (tx, View());
      ForgetFacts(st, ix, model, k, due);
      var dk := DedupKey(k.queue, k.idempotencyKey);
      WriteForgotten(k, dk, due.None? || (dk in tx.dedup && tx.dedup[dk].deadline <= due.value));
      Settle(Forget(dk, due), st, ix);
    }

    // ---- Purge ------------------------------------------------------------------------------------

    /** The queue's next ready key, if it has one. */
    method NextReady(q: Queue) returns (r: Option<(Key, nat)>)
      requires Valid()
      ensures Valid() && (r.None? <==> OwnedBy(model, ReadyKeys(model), q) == {})
      ensures r.Some? ==> var (k, attempt) := r.value;
                          k == NextKey(model, q) && InReady(model, k) && attempt == model.live[k.jobId].place.attempt
    {
      hide Mirrors, Inv, NewReadyAll, Run, Legal, Tallied;
      IndexOwned(tx, View(), model, q);
      assert ready.Owners() == ReadyOwners(View().ready);
      r := ready.Front(q);
      if r.Some? { IndexOwners(tx, View(), model, r.value.0); }
    }

    method PurgeReady(q: Queue, max: nat) returns (purged: nat)
      requires Valid()
      modifies Repr()
      ensures Valid()
      ensures var ms := DropLives(FirstOf(old(model), ReadyKeys(old(model)), q, max)); Did(ms) && purged == |ms|
    {
      hide Valid, Run, Legal, Step, FirstOf, NextKey, OwnedBy, ReadyKeys, DropLives;
      purged := 0;
      ghost var done: seq<Key> := [];
      RunNone(model);
      NoDrops(model, q, max);
      while purged < max
        invariant Valid() && Did(DropLives(done)) && purged == |done| <= max
        invariant FirstOf(old(model), ReadyKeys(old(model)), q, max)
                  == done + FirstOf(model, ReadyKeys(model), q, max - purged)
      {
        ghost var s := model;
        var next := NextReady(q);
        if next.None? { break; }
        var k := next.value.0;
        DropWaiting(k);
        PopReady(s, q, max - purged);
        RunOne(s, DropLive(k.jobId));
        DropSnoc(old(model), done, k);
        done, purged := done + [k], purged + 1;
      }
      FirstOfNone(model, q, max - purged);
      assert done + [] == done;
      PurgeCount(done, model, q, max);
    }

    method DropAll(ks: seq<Key>)
      requires Valid() && DistinctIn(ks) && forall i :: 0 <= i < |ks| ==> InScheduled(model, ks[i])
      modifies Repr()
      ensures Valid() && Did(DropLives(ks))
    {
      hide Valid, Run, Legal, DropLives;
      RunNone(model);
      NoDrops(model, [], 0);
      for i := 0 to |ks|
        invariant Valid() && Did(DropLives(ks[..i]))
      {
        StillWaiting(old(model), ks, i);
        DropWaiting(ks[i]);
        DropSnoc(old(model), ks[..i], ks[i]);
        assert ks[..i + 1] == ks[..i] + [ks[i]];
      }
      assert ks[..|ks|] == ks;
    }

    method ForgetAll(ks: seq<Key>)
      requires Valid() && DistinctIn(ks) && forall i :: 0 <= i < |ks| ==> InDedupTimers(model, ks[i])
      modifies Repr()
      ensures Valid() && Did(Forgets(ks, None))
    {
      hide Valid, Run, Legal, Forgets;
      RunNone(model);
      NoForgets(None);
      for i := 0 to |ks|
        invariant Valid() && Did(Forgets(ks[..i], None))
      {
        StillPinned(old(model), ks, i);
        ForgetPin(ks[i], None);
        ForgetSnoc(old(model), ks[..i], ks[i], None);
        assert ks[..i + 1] == ks[..i] + [ks[i]];
      }
      assert ks[..|ks|] == ks;
    }

    /** The queue's first keys in three of the indexes. */
    method Listed(q: Queue, n: nat) returns (waiting: seq<Key>, letters: seq<Key>, pins: seq<Key>)
      requires Valid()
      ensures Valid() && waiting == FirstOf(model, ScheduledKeys(model), q, n)
      ensures letters == FirstOf(model, DeadKeys(model), q, n) && pins == FirstOf(model, DedupTimerKeys(model), q, n)
    {
      hide Mirrors, Inv, NewReadyAll, Run, Legal, Tallied, ReadyKeys, ScheduledKeys, LeaseKeys, DedupTimerKeys,
           DeadKeys, OwnedBy, OwnedKeys;
      IndexOwned(tx, View(), model, q);
      waiting := scheduled.FirstOfQueue(q, n);
      letters := deadLetter.FirstOfQueue(q, n);
      pins := dedupTimers.FirstOfQueue(q, n);
    }

    /** Whether the queue has leases, and whether it has anything else. */
    method Occupied(q: Queue) returns (leased: bool, rest: bool)
      requires Valid()
      ensures Valid() && leased == (OwnedBy(model, LeaseKeys(model), q) != {}) && rest == Leftovers(model, q)
    {
      hide Mirrors, Inv, NewReadyAll, Run, Legal, Tallied, ReadyKeys, ScheduledKeys, LeaseKeys, DedupTimerKeys,
           DeadKeys, OwnedBy, OwnedKeys;
      IndexOwned(tx, View(), model, q);
      CountIs(ready.byQueue, ready.Owners(), q);
      assert ready.Owners() == ReadyOwners(View().ready);
      CountIs(scheduled.byQueue, scheduled.keys, q);
      CountIs(leases.byQueue, leases.keys, q);
      CountIs(deadLetter.byQueue, deadLetter.keys, q);
      CountIs(dedupTimers.byQueue, dedupTimers.keys, q);
      leased := Count(leases.byQueue, q) > 0;
      rest := q in ready.byQueue || q in scheduled.byQueue || q in deadLetter.byQueue || q in dedupTimers.byQueue;
    }

    /** `depth_counts`: four counters. */
    method DepthCounts(q: Queue) returns (d: Depths)
      requires Valid()
      ensures Valid() && d == DepthsIn(model, q)
    {
      hide Mirrors, Inv, NewReadyAll, Run, Legal, Tallied, ReadyKeys, ScheduledKeys, LeaseKeys, DedupTimerKeys,
           DeadKeys, OwnedBy, OwnedKeys;
      IndexOwned(tx, View(), model, q);
      CountIs(ready.byQueue, ready.Owners(), q);
      assert ready.Owners() == ReadyOwners(View().ready);
      CountIs(scheduled.byQueue, scheduled.keys, q);
      CountIs(leases.byQueue, leases.keys, q);
      CountIs(deadLetter.byQueue, deadLetter.keys, q);
      d := Depths(Count(ready.byQueue, q), Count(scheduled.byQueue, q), Count(leases.byQueue, q),
                  Count(deadLetter.byQueue, q));
    }

    method PurgeAll(q: Queue, max: nat) returns (purged: nat)
      requires Valid()
      modifies Repr()
      ensures Valid() && Did(PurgeMoves(old(model), q, max)) && purged == |PurgeMoves(old(model), q, max)|
    {
      hide Valid, Run, Legal, FirstOf, DropLives, DropDeads, Forgets, ReadyKeys, ScheduledKeys, DeadKeys,
           DedupTimerKeys;
      ghost var s0 := model;
      purged := PurgeReady(q, max);
      ghost var ms := DropLives(FirstOf(s0, ReadyKeys(s0), q, max));
      PurgeCount(FirstOf(s0, ReadyKeys(s0), q, max), s0, q, max);

      var waiting, _, _ := Listed(q, max - purged);
      PurgeCount(waiting, model, q, max - purged);
      RunConcat(s0, ms, DropLives(waiting));
      DropAll(waiting);
      purged, ms := purged + |waiting|, ms + DropLives(waiting);

      var _, letters, _ := Listed(q, max - purged);
      PurgeCount(letters, model, q, max - purged);
      RunConcat(s0, ms, DropDeads(letters));
      var _ := DropLetters(letters);
      purged, ms := purged + |letters|, ms + DropDeads(letters);

      var _, _, pins := Listed(q, max - purged);
      PurgeCount(pins, model, q, max - purged);
      RunConcat(s0, ms, Forgets(pins, None));
      ForgetAll(pins);
      purged := purged + |pins|;
    }

    method ApplyPurge(q: Queue, max: nat) returns (o: Outcome)
      requires Valid()
      modifies Repr()
      ensures Valid() && Did(PlanOf(old(model), PurgeOp(q, max)).moves)
      ensures o == PlanOf(old(model), PurgeOp(q, max)).outcome
    {
      hide Valid, Run, Legal, PurgeMoves, Leftovers, LeaseKeys, OwnedBy;
      RunNone(model);
      var leased, _ := Occupied(q);
      if leased { return HasInflight; }
      var purged := PurgeAll(q, max);
      var _, remaining := Occupied(q);
      o := Purged(purged, remaining);
    }

    // ---- Sweep --------------------------------------------------------------------------------------

    /** `pop_due`, one per index: the earliest key of the keyspace, if it is due. */
    method DueScheduled(now: int) returns (r: Option<Key>)
      requires Valid()
      ensures Valid() && IsNextDue(r, ScheduledKeys(model), now)
    {
      hide Mirrors, Inv, NewReadyAll, Run, Legal, Tallied, ReadyKeys, LeaseKeys, DedupTimerKeys, DeadKeys;
      IndexKeys(tx, View(), model);
      assert scheduled.keys.Keys == ScheduledKeys(model);
      r := scheduled.FirstDue(now);
    }

    method DueLease(now: int) returns (r: Option<Key>)
      requires Valid()
      ensures Valid() && IsNextDue(r, LeaseKeys(model), now)
    {
      hide Mirrors, Inv, NewReadyAll, Run, Legal, Tallied, ReadyKeys, ScheduledKeys, DedupTimerKeys, DeadKeys;
      IndexKeys(tx, View(), model);
      assert leases.keys.Keys == LeaseKeys(model);
      r := leases.FirstDue(now);
    }

    method DuePin(now: int) returns (r: Option<Key>)
      requires Valid()
      ensures Valid() && IsNextDue(r, DedupTimerKeys(model), now)
    {
      hide Mirrors, Inv, NewReadyAll, Run, Legal, Tallied, ReadyKeys, ScheduledKeys, LeaseKeys, DeadKeys;
      RecordKeys(tx, View(), model);
      assert dedupTimers.keys.Keys == DedupTimerKeys(model);
      r := dedupTimers.FirstDue(now);
    }

    method DueLetter(now: int) returns (r: Option<Key>)
      requires Valid()
      ensures Valid() && IsNextDue(r, DeadKeys(model), now)
    {
      hide Mirrors, Inv, NewReadyAll, Run, Legal, Tallied, ReadyKeys, ScheduledKeys, LeaseKeys, DedupTimerKeys;
      RecordKeys(tx, View(), model);
      assert deadLetter.keys.Keys == DeadKeys(model);
      r := deadLetter.FirstDue(now);
    }

    method WritePromoted(t: Key, k: Key, attempt: nat)
      requires Counted() && k.ReadyKey?
      modifies this`tx, this`dirty, this`newReady, ready, scheduled
      ensures Counted() && dirty && newReady == old(newReady) + {k.queue}
      ensures tx == old(tx).(scheduled := old(tx).scheduled - {t}, ready := old(tx).ready[k := attempt])
      ensures View() == old(View()).(scheduled := old(View()).scheduled - {t}, ready := old(View()).ready[k := attempt])
    {
      hide Tallied;
      CutScheduled(t);
      PutReady(k, attempt);
      dirty := true;
    }

    method PromoteJob(t: Key, now: int)
      requires Valid() && InScheduled(model, t) && t.deadline <= now
      modifies Repr()
      ensures Valid() && Did([Promote(t.jobId, now)])
    {
      hide Mirrors, Inv, StoreAfter, IndexesAfter, NewReady, NewReadyAll, Run, Legal, Effect, Tallied, LiveAfter,
           DeadAfter, Failure;
      ghost var (st, ix) := (tx, View());
      PromoteFacts(st, ix, model, t, now);
      var row := tx.jobs[t.jobId];
      WritePromoted(t, ReadyKey(row.queue, Min(row.priority, 9), row.enqueuedAt, t.jobId), tx.scheduled[t]);
      Settle(Promote(t.jobId, now), st, ix);
    }

    method ExpireLease(t: Key, now: int, keep: bool)
      requires Valid() && InLeases(model, t) && t.deadline <= now
      modifies Repr()
      ensures Valid() && Did([Expire(t.jobId, now, keep)])
    {
      hide Mirrors, Inv, NewReadyAll, Run, Legal, Tallied;
      var id := t.jobId;
      ReadRows(tx, View(), model, id);
      var flight := tx.inflight[id];
      ghost var m := Expire(id, now, keep);
      if flight.attempt >= flight.maxAttempts {
        FailLeased(id, flight, now, LeaseExpired, None, keep, m);
      } else {
        RetryNow(id, flight, m);
      }
    }

    method SweepScheduled(now: int, budget: nat) returns (n: nat)
      requires Valid()
      modifies Repr()
      ensures Valid()
      ensures var ms := Promotes(DueHead(ScheduledKeys(old(model)), now, budget), now); Did(ms) && n == |ms|
    {
      hide Valid, Run, Legal, Step, DueHead, IsNextDue, ScheduledKeys, Promotes;
      n := 0;
      ghost var done: seq<Key> := [];
      RunNone(model);
      NothingSwept(ScheduledKeys(model), now, budget);
      while n < budget
        invariant Valid() && Did(Promotes(done, now)) && n == |done| <= budget
        invariant DueHead(ScheduledKeys(old(model)), now, budget)
                  == done + DueHead(ScheduledKeys(model), now, budget - n)
      {
        ghost var s := model;
        var next := DueScheduled(now);
        NextScheduled(s, next, now, budget - n);
        if next.None? { break; }
        var t := next.value;
        PromoteJob(t, now);
        RunOne(s, Promote(t.jobId, now));
        PromoteSnoc(old(model), done, t, now);
        done, n := done + [t], n + 1;
      }
      SweptAll(ScheduledKeys(model), now, done);
    }

    method SweepLeases(now: int, budget: nat, keep: bool) returns (n: nat)
      requires Valid()
      modifies Repr()
      ensures Valid()
      ensures var ms := Expires(DueHead(LeaseKeys(old(model)), now, budget), now, keep); Did(ms) && n == |ms|
    {
      hide Valid, Run, Legal, Step, DueHead, IsNextDue, LeaseKeys, Expires;
      n := 0;
      ghost var done: seq<Key> := [];
      RunNone(model);
      NothingSwept(LeaseKeys(model), now, budget);
      while n < budget
        invariant Valid() && Did(Expires(done, now, keep)) && n == |done| <= budget
        invariant DueHead(LeaseKeys(old(model)), now, budget) == done + DueHead(LeaseKeys(model), now, budget - n)
      {
        ghost var s := model;
        var next := DueLease(now);
        NextLease(s, next, now, keep, budget - n);
        if next.None? { break; }
        var t := next.value;
        ExpireLease(t, now, keep);
        RunOne(s, Expire(t.jobId, now, keep));
        ExpireSnoc(old(model), done, t, now, keep);
        done, n := done + [t], n + 1;
      }
      SweptAll(LeaseKeys(model), now, done);
    }

    method SweepPins(now: int, budget: nat) returns (n: nat)
      requires Valid()
      modifies Repr()
      ensures Valid()
      ensures var ms := Forgets(DueHead(DedupTimerKeys(old(model)), now, budget), Some(now)); Did(ms) && n == |ms|
    {
      hide Valid, Run, Legal, Step, DueHead, IsNextDue, DedupTimerKeys, Forgets;
      n := 0;
      ghost var done: seq<Key> := [];
      RunNone(model);
      NothingSwept(DedupTimerKeys(model), now, budget);
      while n < budget
        invariant Valid() && Did(Forgets(done, Some(now))) && n == |done| <= budget
        invariant DueHead(DedupTimerKeys(old(model)), now, budget)
                  == done + DueHead(DedupTimerKeys(model), now, budget - n)
      {
        ghost var s := model;
        var next := DuePin(now);
        NextPin(s, next, now, budget - n);
        if next.None? { break; }
        var t := next.value;
        ForgetPin(t, Some(now));
        RunOne(s, Forget(PinOf(t), Some(now)));
        ForgetSnoc(old(model), done, t, Some(now));
        done, n := done + [t], n + 1;
      }
      SweptAll(DedupTimerKeys(model), now, done);
    }

    method SweepLetters(cutoff: int, budget: nat) returns (n: nat)
      requires Valid()
      modifies Repr()
      ensures Valid()
      ensures var ms := DropDeads(DueHead(DeadKeys(old(model)), cutoff, budget)); Did(ms) && n == |ms|
    {
      hide Valid, Run, Legal, Step, DueHead, IsNextDue, DeadKeys, DropDeads;
      n := 0;
      ghost var done: seq<Key> := [];
      RunNone(model);
      NothingSwept(DeadKeys(model), cutoff, budget);
      while n < budget
        invariant Valid() && Did(DropDeads(done)) && n == |done| <= budget
        invariant DueHead(DeadKeys(old(model)), cutoff, budget) == done + DueHead(DeadKeys(model), cutoff, budget - n)
      {
        ghost var s := model;
        var next := DueLetter(cutoff);
        NextLetter(s, next, cutoff, budget - n);
        if next.None? { break; }
        var t := next.value;
        var _ := DropLetter(t);
        RunOne(s, DropDead(t.jobId));
        DropDeadSnoc(old(model), done, t);
        done, n := done + [t], n + 1;
      }
      SweptAll(DeadKeys(model), cutoff, done);
    }

    // ---- Tombstones and the audit log -----------------------------------------------------------------

    /** The closing map and its rows always change together. */
    method WriteClosing(next: map<Queue, int>, ghost m: Move)
      requires Valid() && Enabled(model, m) && (m.Close? || m.Open? || m.ExpireClosing?)
      requires next == Effect(model, m).closing
      modifies Repr()
      ensures Valid() && Did([m])
    {
      hide Inv, StoreAfter, IndexesAfter, NewReady, NewReadyAll, Run, Legal, Effect, Tallied, Enabled, LiveRows,
           DeadRows, PinRows, AuditRows;
      ghost var (st, ix) := (tx, View());
      ClosingWrites(st, ix, model, m);
      Unannounced(model, m);
      tx := tx.(closing := next);
      closing := next;
      dirty := true;
      Settle(m, st, ix);
    }

    method ApplyClose(q: Queue, now: int, grace: nat)
      requires Valid()
      modifies Repr()
      ensures Valid() && Did([Close(q, SatAdd(now, grace))])
    {
      hide Valid, Run, Legal;
      ClosingIs();
      WriteClosing(closing[q := SatAdd(now, grace)], Close(q, SatAdd(now, grace)));
    }

    method ApplyOpen(q: Queue)
      requires Valid()
      modifies Repr()
      ensures Valid() && Did(if q in old(model).closing then [Open(q)] else [])
    {
      hide Valid, Run, Legal;
      ClosingIs();
      RunNone(model);
      if q in closing { WriteClosing(closing - {q}, Open(q)); }
    }

    method SweepClosing(now: int)
      requires Valid()
      modifies Repr()
      ensures Valid() && Did(ClosingPhase(old(model), now))
    {
      hide Valid, Run, Legal;
      ClosingIs();
      RunNone(model);
      var kept := map q | q in closing && closing[q] > now :: closing[q];
      assert kept == Unexpired(model, now);
      if kept != closing { WriteClosing(kept, ExpireClosing(now)); }
    }

    method ApplySweep(now: int, budget: nat, cutoff: Option<int>, keep: bool) returns (processed: nat)
      requires Valid()
      modifies Repr()
      ensures Valid() && Did(SweepMoves(old(model), now, budget, cutoff, keep))
      ensures processed == |SweepMoves(old(model), now, budget, cutoff, keep)| - |ClosingPhase(old(model), now)|
    {
      hide Valid, Run, Legal, DueHead, ScheduledKeys, LeaseKeys, DedupTimerKeys, DeadKeys, Promotes, Expires, Forgets,
           DropDeads, ClosingPhase;
      ghost var s0 := model;
      SweepClosing(now);
      ghost var ms := ClosingPhase(s0, now);
      ghost var step := Promotes(DueHead(ScheduledKeys(model), now, budget), now);
      RunConcat(s0, ms, step);
      processed := SweepScheduled(now, budget);
      ms := ms + step;

      step := Expires(DueHead(LeaseKeys(model), now, budget), now, keep);
      RunConcat(s0, ms, step);
      var n := SweepLeases(now, budget, keep);
      processed, ms := processed + n, ms + step;

      step := Forgets(DueHead(DedupTimerKeys(model), now, budget), Some(now));
      RunConcat(s0, ms, step);
      n := SweepPins(now, budget);
      processed, ms := processed + n, ms + step;

      if cutoff.Some? {
        step := DropDeads(DueHead(DeadKeys(model), cutoff.value, budget));
        RunConcat(s0, ms, step);
        n := SweepLetters(cutoff.value, budget);
        processed := processed + n;
      }
    }

    method ApplyAudit(record: Blob, now: int) returns (number: nat)
      requires Valid()
      modifies Repr()
      ensures Valid() && Did([Append(AuditEntry(now, record))]) && number == |old(model).audit| + 1
    {
      hide Inv, StoreAfter, IndexesAfter, NewReady, NewReadyAll, Run, Legal, Effect, Tallied, LiveRows, DeadRows,
           PinRows;
      ghost var (st, ix) := (tx, View());
      ghost var m := Append(AuditEntry(now, record));
      AppendWrites(st, ix, model, m);
      Unannounced(model, m);
      number := if tx.auditSeq.Some? then tx.auditSeq.value + 1 else 1;
      tx := tx.(auditSeq := Some(number), audit := tx.audit[number := AuditEntry(now, record)]);
      dirty := true;
      Settle(m, st, ix);
    }

    // ---- Every operation --------------------------------------------------------------------------------

    method ApplyJobOp(op: Op) returns (o: Outcome)
      requires Valid() && OpOk(model, op)
      requires op.EnqueueOp? || op.EnqueueAtomicOp? || op.ReserveOp? || op.AckOp? || op.NackOp? || op.ExtendOp?
      modifies Repr()
      ensures Valid() && Did(PlanOf(old(model), op).moves) && o == PlanOf(old(model), op).outcome
    {
      hide Valid, Run, Legal, EnqueueAll, AtomicPlan, ReservePlan, FencedPlan, BatchOk;
      match op {
        case EnqueueOp(jobs, now) =>
          var results := ApplyEnqueue(jobs, now);
          o := Enqueued(results);
        case EnqueueAtomicOp(jobs, now) => o := ApplyEnqueueAtomic(jobs, now);
        case ReserveOp(queues, leaseMs, maxJobs, now) =>
          var jobs := ApplyReserve(queues, leaseMs, maxJobs, now);
          o := Reserved(jobs);
        case AckOp(id, attempt) => o := ApplyAck(id, attempt);
        case NackOp(id, attempt, force, reason, delay, keep, now) =>
          o := ApplyNack(id, attempt, force, reason, delay, keep, now);
        case ExtendOp(id, attempt, leaseMs, now) => o := ApplyExtend(id, attempt, leaseMs, now);
      }
    }

    /** `apply_op`: rows, indexes and cycle move exactly as the operation's plan says. */
    method ApplyOp(op: Op) returns (o: Outcome)
      requires Valid() && OpOk(model, op)
      modifies Repr()
      ensures Valid() && Did(PlanOf(old(model), op).moves) && o == PlanOf(old(model), op).outcome
    {
      hide Valid, Run, Legal, EnqueueAll, AtomicPlan, ReservePlan, FencedPlan, DrainKeys, Letters, DropDeads,
           KeysPlan, SweepMoves, ClosingPhase, BatchOk, LeaseKeys, OwnedBy, PurgeMoves, Leftovers;
      match op {
        case DrainOp(want, max, scanCap) =>
          var letters := ApplyDrain(want, max, scanCap);
          o := Drained(letters);
        case CloseOp(q, now, grace) =>
          ApplyClose(q, now, grace);
          o := Done;
        case OpenOp(q) =>
          ApplyOpen(q);
          o := Done;
        case RequeueOp(_, keys, _) => o := ApplyKeys(op, keys);
        case BuryOp(_, state, keys, _, _, _) =>
          RunNone(model);
          if !state.PeekReady? && !state.PeekScheduled? { return InvalidState; }
          o := ApplyKeys(op, keys);
        case DeleteOp(_, keys) => o := ApplyKeys(op, keys);
        case PurgeOp(q, max) => o := ApplyPurge(q, max);
        case SweepOp(now, budget, cutoff, keep) =>
          var processed := ApplySweep(now, budget, cutoff, keep);
          o := Swept(processed);
        case AuditOp(record, now) =>
          var number := ApplyAudit(record, now);
          o := Appended(number);
        case _ => o := ApplyJobOp(op);
      }
    }

    // ---- Cycles ------------------------------------------------------------------------------------------

    /** Open a write transaction over what is on disk. */
    method Begin()
      requires Valid()
      modifies this`dirty, this`newReady, this`base, this`trace
      ensures Valid() && base == model && trace == [] && !dirty && newReady == {}
    {
      hide Mirrors, Inv, Tallied;
      RunNone(model);
      dirty, newReady := false, {};
      base, trace := model, [];
    }

    /** A storage error part way through an operation: the transaction, the indexes and their
        counters can be left holding anything. */
    method Fail(left: Wreck)
      modifies Repr()
      ensures base == old(base)
    {
      tx, closing, dirty, newReady := left.tx, left.closing, left.dirty, left.newReady;
      ready.keys, ready.byQueue := left.ready, left.counts(0);
      scheduled.keys, scheduled.byQueue := left.timers(0), left.counts(1);
      leases.keys, leases.byQueue := left.timers(1), left.counts(2);
      dedupTimers.keys, dedupTimers.byQueue := left.timers(2), left.counts(3);
      deadLetter.keys, deadLetter.byQueue := left.timers(3), left.counts(4);
    }

    ghost predicate Distinct() {
      && scheduled != leases && scheduled != dedupTimers && scheduled != deadLetter
      && leases != dedupTimers && leases != deadLetter && dedupTimers != deadLetter
    }

    method LoadIndexes(read: Indexes)
      requires Distinct() && forall k :: k in read.ready ==> k.ReadyKey?
      modifies this`closing, ready, scheduled, leases, dedupTimers, deadLetter
      ensures Counted() && View() == read
    {
      hide Tallied;
      closing := read.closing;
      ready.Load(read.ready);
      scheduled.Load(read.scheduled);
      leases.Load(read.leases);
      dedupTimers.Load(read.dedupTimers);
      deadLetter.Load(read.deadLetter);
    }

    /** A transaction over what is on disk, nothing written yet. */
    method Restore(disk: Store, ghost s: State)
      requires Counted() && Mirrors(disk, View(), s) && Inv(s)
      modifies this`tx, this`dirty, this`newReady, this`base, this`trace, this`model
      ensures Valid() && tx == disk && model == s && base == s && trace == [] && newReady == {}
    {
      hide Mirrors, Inv, Tallied, Run, Legal, NewReadyAll;
      NothingNew(s);
      tx, dirty, newReady := disk, false, {};
      base, trace, model := s, [], s;
    }

    /** `resync`, and loading at start-up: drop the transaction, read the indexes back from disk. */
    method Reload(disk: Store, ghost ix: Indexes, ghost s: State)
      requires Distinct() && Mirrors(disk, ix, s) && Inv(s)
      modifies Repr()
      ensures Valid() && tx == disk && View() == ix && model == s && base == s && trace == [] && newReady == {}
    {
      hide Mirrors, Inv, Tallied, Run, Legal, NewReadyAll, Rebuild;
      RebuildMatches(disk, ix, s);
      ReadyKeysOnly(disk, ix, s);
      LoadIndexes(Rebuild(disk));
      Restore(disk, s);
    }
  }
}
