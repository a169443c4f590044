/** For each move, the exact keyspace and index writes the committer issues. */
module Writes {
  import opened Bytes
  import opened Keys
  import opened Machine
  import opened Ops
  import opened Rows

  lemma PutSame<K, V>(m: map<K, V>, k: K, v: Option<V>)
    requires Lookup(m, k) == v
    ensures Put(m, k, v) == m
  {
  }

  /** The rows under one id are those of the job `j`, or there are none. */
  predicate RowsAre(st: Store, id: Id, j: Option<Job>) {
    && Lookup(st.jobs, id) == (if j.Some? then JobRowOf(j.value) else None)
    && Lookup(st.payloads, id) == (if j.Some? then PayloadOf(j.value) else None)
    && Lookup(st.inflight, id) == (if j.Some? then FlightOf(j.value) else None)
  }

  predicate SameClosing(st: Store, ix: Indexes, s: State) {
    st.closing == s.closing && ix.closing == s.closing
  }

  /** What the writes below rely on: the mirror, read at one job. */
  lemma ReadRows(st: Store, ix: Indexes, s: State, id: Id)
    requires Mirrors(st, ix, s) && Inv(s)
    ensures RowsAre(st, id, Lookup(s.live, id)) && SameClosing(st, ix, s) && st.dedup == s.dedup
    ensures id in s.live ==> id !in s.dead && JobOk(s.live[id])
    ensures id in s.live ==> id in s.used
    ensures id in s.dead ==> id in s.used
  {
  }

  /** The timers and letters the indexes hold for one job. */
  lemma ReadTimers(st: Store, ix: Indexes, s: State, id: Id)
    requires Mirrors(st, ix, s)
    ensures forall d :: TimerKey(d, id) in ix.scheduled <==> IsScheduled(s, id) && d == s.live[id].place.deadline
    ensures forall e :: TimerKey(e, id) in ix.leases <==> IsLeased(s, id) && e == s.live[id].place.expiry
    ensures forall t, q :: DeadLetterKey(t, q, id) in ix.deadLetter <==>
              id in s.dead && t == s.dead[id].failedAt && q == s.dead[id].queue
  {
    forall d ensures TimerKey(d, id) in ix.scheduled <==> IsScheduled(s, id) && d == s.live[id].place.deadline {
      assert Lookup(ix.scheduled, TimerKey(d, id)) == At(s.live, TimerKey(d, id), ScheduledEntry, JobIdOf);
    }
    forall e ensures TimerKey(e, id) in ix.leases <==> IsLeased(s, id) && e == s.live[id].place.expiry {
      assert Lookup(ix.leases, TimerKey(e, id)) == At(s.live, TimerKey(e, id), LeaseEntry, JobIdOf);
    }
    forall t, q ensures DeadLetterKey(t, q, id) in ix.deadLetter <==>
      id in s.dead && t == s.dead[id].failedAt && q == s.dead[id].queue {
      assert Lookup(ix.deadLetter, DeadLetterKey(t, q, id)) == At(s.dead, DeadLetterKey(t, q, id), DeadEntry, JobIdOf);
    }
  }

  lemma ReadPins(st: Store, ix: Indexes, s: State)
    requires Mirrors(st, ix, s)
    ensures forall k :: k in ix.dedupTimers ==> k.DedupTimerKey? && ix.dedupTimers[k] == k.queue
  {
    forall k | k in ix.dedupTimers ensures k.DedupTimerKey? && ix.dedupTimers[k] == k.queue {
      assert Lookup(ix.dedupTimers, k) == At(s.dedup, k, PinEntry, PinOf);
    }
  }

  /** A move about a known job, as row writes: its own rows and its dead letter. */
  lemma JobWrites(st: Store, ix: Indexes, s: State, m: Move)
    requires Enabled(s, m) && AboutJob(m) && !m.Insert? && SameClosing(st, ix, s)
    ensures StoreAfter(st, s, m) == SpliceJob(st, m.id, Lookup(s.live, m.id), LiveAfter(s, m)).(
              deadLetter := Splice(st.deadLetter, LetterRow(m.id, Lookup(s.dead, m.id)),
                                   LetterRow(m.id, DeadAfter(s, m))))
    ensures IndexesAfter(ix, s, m) == SpliceJobIndex(ix, m.id, Lookup(s.live, m.id), LiveAfter(s, m)).(
              deadLetter := Splice(ix.deadLetter, LetterEntry(m.id, Lookup(s.dead, m.id)),
                                   LetterEntry(m.id, DeadAfter(s, m))))
  {
  }

  /** Changing a job's place leaves its job row and payload alone. */
  lemma PlaceWrites(st: Store, id: Id, j: Job, p: Place)
    requires RowsAre(st, id, Some(j))
    ensures var j' := j.(place := p);
            SpliceJob(st, id, Some(j), Some(j')) == st.(
              inflight := Put(st.inflight, id, FlightOf(j')),
              ready := Splice(st.ready, ReadyOf(id, Some(j)), ReadyOf(id, Some(j'))),
              scheduled := Splice(st.scheduled, ScheduledOf(id, Some(j)), ScheduledOf(id, Some(j'))),
              leases := Splice(st.leases, LeaseOf(id, Some(j)), LeaseOf(id, Some(j'))))
  {
    PutSame(st.jobs, id, JobRowOf(j));
    PutSame(st.payloads, id, PayloadOf(j));
  }

  lemma LeaseWrites(st: Store, ix: Indexes, s: State, id: Id, expiry: int)
    requires IsReady(s, id) && id !in s.dead && RowsAre(st, id, Some(s.live[id])) && SameClosing(st, ix, s)
    ensures var j := s.live[id];
            var m := Lease(id, expiry);
            var k := ReadyKeyOf(id, j);
            var f := Flight(j.place.attempt, expiry, j.enqueuedAt, j.body.priority, j.body.maxAttempts, j.queue,
                            j.body.trace);
            && StoreAfter(st, s, m) == st.(inflight := st.inflight[id := f], ready := st.ready - {k},
                                           leases := st.leases[TimerKey(expiry, id) := []])
            && IndexesAfter(ix, s, m) == ix.(ready := ix.ready - {k},
                                             leases := ix.leases[TimerKey(expiry, id) := j.queue])
  {
    hide StoreAfter, IndexesAfter, SpliceJob;
    JobWrites(st, ix, s, Lease(id, expiry));
    PlaceWrites(st, id, s.live[id], Leased(s.live[id].place.attempt, expiry));
  }

  lemma PromoteWrites(st: Store, ix: Indexes, s: State, id: Id, now: int)
    requires Enabled(s, Promote(id, now)) && id !in s.dead && RowsAre(st, id, Some(s.live[id]))
    requires SameClosing(st, ix, s)
    ensures var j := s.live[id];
            var m := Promote(id, now);
            var k := ReadyKeyOf(id, j);
            var t := TimerKey(j.place.deadline, id);
            && StoreAfter(st, s, m) == st.(scheduled := st.scheduled - {t}, ready := st.ready[k := j.place.attempt])
            && IndexesAfter(ix, s, m) == ix.(scheduled := ix.scheduled - {t}, ready := ix.ready[k := j.place.attempt])
  {
    hide StoreAfter, IndexesAfter, SpliceJob;
    JobWrites(st, ix, s, Promote(id, now));
    PlaceWrites(st, id, s.live[id], Ready(s.live[id].place.attempt));
    PutSame(st.inflight, id, None);
  }

  lemma ExtendWrites(st: Store, ix: Indexes, s: State, id: Id, attempt: nat, expiry: int)
    requires HoldsLease(s, id, attempt) && id !in s.dead && RowsAre(st, id, Some(s.live[id])) && SameClosing(st, ix, s)
    ensures var j := s.live[id];
            var m := Extend(id, attempt, expiry);
            var f := Flight(attempt, expiry, j.enqueuedAt, j.body.priority, j.body.maxAttempts, j.queue, j.body.trace);
            var (t, t') := (TimerKey(j.place.expiry, id), TimerKey(expiry, id));
            && StoreAfter(st, s, m) == st.(inflight := st.inflight[id := f], leases := (st.leases - {t})[t' := []])
            && IndexesAfter(ix, s, m) == ix.(leases := (ix.leases - {t})[t' := j.queue])
  {
    hide StoreAfter, IndexesAfter, SpliceJob;
    JobWrites(st, ix, s, Extend(id, attempt, expiry));
    PlaceWrites(st, id, s.live[id], Leased(attempt, expiry));
  }

  /** A failed attempt that is retried later: only a nack asks for a delay. */
  lemma RetryLaterWrites(st: Store, ix: Indexes, s: State, m: Move)
    requires Enabled(s, m) && m.Nack? && m.delay > 0 && Failure(s, m).None?
    requires m.id !in s.dead && RowsAre(st, m.id, Some(s.live[m.id])) && SameClosing(st, ix, s)
    ensures var j := s.live[m.id];
            var t := TimerKey(j.place.expiry, m.id);
            var d := TimerKey(After(m.now, m.delay), m.id);
            && StoreAfter(st, s, m) == st.(inflight := st.inflight - {m.id}, leases := st.leases - {t},
                                           scheduled := st.scheduled[d := j.place.attempt + 1])
            && IndexesAfter(ix, s, m) == ix.(leases := ix.leases - {t}, scheduled := ix.scheduled[d := j.queue])
  {
    hide StoreAfter, IndexesAfter, SpliceJob;
    JobWrites(st, ix, s, m);
    PlaceWrites(st, m.id, s.live[m.id], Scheduled(m.attempt + 1, After(m.now, m.delay)));
  }

  /** A failed attempt that is retried at once, from a nack or from an expired lease. */
  lemma RetryNowWrites(st: Store, ix: Indexes, s: State, m: Move)
    requires Enabled(s, m) && (m.Expire? || (m.Nack? && m.delay == 0)) && Failure(s, m).None?
    requires m.id !in s.dead && RowsAre(st, m.id, Some(s.live[m.id])) && SameClosing(st, ix, s)
    ensures var j := s.live[m.id];
            var t := TimerKey(j.place.expiry, m.id);
            var k := ReadyKeyOf(m.id, j);
            && StoreAfter(st, s, m) == st.(inflight := st.inflight - {m.id}, leases := st.leases - {t},
                                           ready := st.ready[k := j.place.attempt + 1])
            && IndexesAfter(ix, s, m) == ix.(leases := ix.leases - {t}, ready := ix.ready[k := j.place.attempt + 1])
  {
    hide StoreAfter, IndexesAfter, SpliceJob;
    var j := s.live[m.id];
    assert LiveAfter(s, m) == Some(j.(place := Ready(j.place.attempt + 1)));
    JobWrites(st, ix, s, m);
    PlaceWrites(st, m.id, j, Ready(j.place.attempt + 1));
  }

  /** The index entries a job occupies by its place, taken away. */
  function IndexesWithoutPlace(ix: Indexes, id: Id, j: Job): Indexes {
    ix.(ready := Splice(ix.ready, ReadyRow(id, j), None),
        scheduled := Splice(ix.scheduled, ScheduledEntry(id, j), None),
        leases := Splice(ix.leases, LeaseEntry(id, j), None))
  }

  /** All rows of a job, taken away. */
  function WithoutJob(st: Store, id: Id, j: Job): Store {
    st.(jobs := st.jobs - {id}, payloads := st.payloads - {id}, inflight := st.inflight - {id},
        ready := Splice(st.ready, ReadyRow(id, j), None),
        scheduled := Splice(st.scheduled, ScheduledRow(id, j), None),
        leases := Splice(st.leases, LeaseRow(id, j), None))
  }

  lemma GoneWrites(st: Store, ix: Indexes, id: Id, j: Job)
    ensures SpliceJob(st, id, Some(j), None) == WithoutJob(st, id, j)
    ensures SpliceJobIndex(ix, id, Some(j), None) == IndexesWithoutPlace(ix, id, j)
  {
  }

  /** Ack and purge: the job's rows go and nothing else changes. */
  lemma RemovalWrites(st: Store, ix: Indexes, s: State, m: Move)
    requires Enabled(s, m) && (m.Ack? || m.DropLive?)
    requires m.id !in s.dead && RowsAre(st, m.id, Some(s.live[m.id])) && SameClosing(st, ix, s)
    ensures StoreAfter(st, s, m) == WithoutJob(st, m.id, s.live[m.id])
    ensures IndexesAfter(ix, s, m) == IndexesWithoutPlace(ix, m.id, s.live[m.id])
  {
    hide StoreAfter, IndexesAfter, SpliceJob, SpliceJobIndex;
    JobWrites(st, ix, s, m);
    GoneWrites(st, ix, m.id, s.live[m.id]);
  }

  /** `maybe_store_dead_letter` and the removal of the live rows. */
  lemma FailureWrites(st: Store, ix: Indexes, s: State, m: Move)
    requires Enabled(s, m) && AboutJob(m) && Failure(s, m).Some?
    requires m.id !in s.dead && RowsAre(st, m.id, Some(s.live[m.id])) && SameClosing(st, ix, s)
    ensures var j := s.live[m.id];
            var letter := DeadOf(j, m.now, Failure(s, m).value, if m.Expire? then None else m.reason);
            var k := DeadLetterKey(m.now, j.queue, m.id);
            && StoreAfter(st, s, m) == WithoutJob(st, m.id, j).(
                 deadLetter := if m.keep then st.deadLetter[k := Letter(m.id, letter)] else st.deadLetter)
            && IndexesAfter(ix, s, m) == IndexesWithoutPlace(ix, m.id, j).(
                 deadLetter := if m.keep then ix.deadLetter[k := j.queue] else ix.deadLetter)
  {
    hide StoreAfter, IndexesAfter, SpliceJob, SpliceJobIndex, WithoutJob, IndexesWithoutPlace;
    JobWrites(st, ix, s, m);
    GoneWrites(st, ix, m.id, s.live[m.id]);
  }

  /** A leased job's rows are its job row, payload, inflight row and lease timer. */
  lemma LeasedGone(st: Store, ix: Indexes, id: Id, j: Job)
    requires j.place.Leased?
    ensures WithoutJob(st, id, j)
            == st.(jobs := st.jobs - {id}, payloads := st.payloads - {id}, inflight := st.inflight - {id},
                                         leases := st.leases - {TimerKey(j.place.expiry, id)})
    ensures IndexesWithoutPlace(ix, id, j) == ix.(leases := ix.leases - {TimerKey(j.place.expiry, id)})
  {
  }

  /** A waiting job has a timer instead of an inflight row. */
  lemma ScheduledGone(st: Store, ix: Indexes, id: Id, j: Job)
    requires j.place.Scheduled? && RowsAre(st, id, Some(j))
    ensures WithoutJob(st, id, j) == st.(jobs := st.jobs - {id}, payloads := st.payloads - {id},
                                         scheduled := st.scheduled - {TimerKey(j.place.deadline, id)})
    ensures IndexesWithoutPlace(ix, id, j) == ix.(scheduled := ix.scheduled - {TimerKey(j.place.deadline, id)})
  {
    PutSame(st.inflight, id, None);
  }

  lemma ReadyGone(st: Store, ix: Indexes, id: Id, j: Job)
    requires j.place.Ready? && RowsAre(st, id, Some(j))
    ensures WithoutJob(st, id, j) == st.(jobs := st.jobs - {id}, payloads := st.payloads - {id},
                                         ready := st.ready - {ReadyKeyOf(id, j)})
    ensures IndexesWithoutPlace(ix, id, j) == ix.(ready := ix.ready - {ReadyKeyOf(id, j)})
  {
    PutSame(st.inflight, id, None);
  }

  lemma DropDeadWrites(st: Store, ix: Indexes, s: State, id: Id)
    requires id in s.dead && id !in s.live && RowsAre(st, id, None) && SameClosing(st, ix, s)
    ensures var k := DeadLetterKey(s.dead[id].failedAt, s.dead[id].queue, id);
            && StoreAfter(st, s, DropDead(id)) == st.(deadLetter := st.deadLetter - {k})
            && IndexesAfter(ix, s, DropDead(id)) == ix.(deadLetter := ix.deadLetter - {k})
  {
    JobWrites(st, ix, s, DropDead(id));
    PutSame(st.jobs, id, None);
    PutSame(st.payloads, id, None);
    PutSame(st.inflight, id, None);
  }

  /** A new job row, and its payload if it has one. */
  function JobWritten(st: Store, id: Id, j: Job): Store {
    st.(jobs := st.jobs[id := RowOf(j)],
        payloads := if j.body.payload.Some? then st.payloads[id := j.body.payload.value] else st.payloads)
  }

  /** The rows of a job that was not there: its own and the one of its place. */
  function NewRows(st: Store, id: Id, j: Job): Store {
    var st' := JobWritten(st, id, j);
    match j.place
    case Ready(a) => st'.(ready := st'.ready[ReadyKeyOf(id, j) := a])
    case Scheduled(a, d) => st'.(scheduled := st'.scheduled[TimerKey(d, id) := a])
    case Leased(_, _) => st'
  }

  function NewEntries(ix: Indexes, id: Id, j: Job): Indexes {
    match j.place
    case Ready(a) => ix.(ready := ix.ready[ReadyKeyOf(id, j) := a])
    case Scheduled(_, d) => ix.(scheduled := ix.scheduled[TimerKey(d, id) := j.queue])
    case Leased(_, _) => ix
  }

  /** What each keyspace of a new job's rows comes to. */
  lemma NewRowFacts(st: Store, id: Id, j: Job)
    requires RowsAre(st, id, None) && !j.place.Leased?
    ensures Put(st.jobs, id, Some(RowOf(j))) == st.jobs[id := RowOf(j)]
    ensures Put(st.payloads, id, j.body.payload) == JobWritten(st, id, j).payloads
    ensures Put(st.inflight, id, FlightOf(j)) == st.inflight
    ensures Splice(st.leases, LeaseOf(id, None), LeaseOf(id, Some(j))) == st.leases
    ensures Splice(st.ready, ReadyOf(id, None), ReadyOf(id, Some(j)))
         == if j.place.Ready? then st.ready[ReadyKeyOf(id, j) := j.place.attempt] else st.ready
    ensures Splice(st.scheduled, ScheduledOf(id, None), ScheduledOf(id, Some(j)))
         == if j.place.Scheduled? then st.scheduled[TimerKey(j.place.deadline, id) := j.place.attempt] else st.scheduled
  {
  }

  lemma NewWrites(st: Store, ix: Indexes, id: Id, j: Job)
    requires RowsAre(st, id, None) && !j.place.Leased?
    ensures SpliceJob(st, id, None, Some(j)) == NewRows(st, id, j)
    ensures SpliceJobIndex(ix, id, None, Some(j)) == NewEntries(ix, id, j)
  {
    NewIndexWrites(ix, id, j);
    hide RowsAre, RowOf, ReadyKeyOf, Put, Splice, FlightOf, LeaseOf, ReadyOf, ScheduledOf, SpliceJobIndex, NewEntries;
    NewRowFacts(st, id, j);
  }

  lemma NewIndexWrites(ix: Indexes, id: Id, j: Job)
    requires !j.place.Leased?
    ensures SpliceJobIndex(ix, id, None, Some(j)) == NewEntries(ix, id, j)
  {
  }

  /** A new job leaves the dedup records alone. */
  lemma NewRowsKeepPins(st: Store, ix: Indexes, id: Id, j: Job)
    ensures NewRows(st, id, j).dedup == st.dedup && NewRows(st, id, j).dedupTimers == st.dedupTimers
    ensures NewEntries(ix, id, j).dedupTimers == ix.dedupTimers
  {
    hide JobWritten, ReadyKeyOf;
    JobWrittenKeeps(st, id, j);
    match j.place { case Ready(_) => case Scheduled(_, _) => case Leased(_, _) => }
  }

  lemma JobWrittenKeeps(st: Store, id: Id, j: Job)
    ensures var st' := JobWritten(st, id, j);
            st'.dedup == st.dedup && st'.dedupTimers == st.dedupTimers && st'.deadLetter == st.deadLetter
  {
  }

  lemma ReviveWrites(st: Store, ix: Indexes, s: State, id: Id, now: int)
    requires id in s.dead && id !in s.live && RowsAre(st, id, None) && SameClosing(st, ix, s)
    ensures var d := s.dead[id];
            var k := DeadLetterKey(d.failedAt, d.queue, id);
            && StoreAfter(st, s, Revive(id, now))
               == NewRows(st, id, RevivedJob(d, now)).(deadLetter := st.deadLetter - {k})
            && IndexesAfter(ix, s, Revive(id, now))
               == NewEntries(ix, id, RevivedJob(d, now)).(deadLetter := ix.deadLetter - {k})
  {
    JobWrites(st, ix, s, Revive(id, now));
    NewWrites(st, ix, id, RevivedJob(s.dead[id], now));
  }

  lemma ForgetWrites(st: Store, ix: Indexes, s: State, dk: DedupKey, due: Option<int>)
    requires Enabled(s, Forget(dk, due)) && st.dedup == s.dedup && SameClosing(st, ix, s)
    ensures var k := DedupTimerKey(s.dedup[dk].deadline, dk.queue, dk.key);
            && StoreAfter(st, s, Forget(dk, due)) == st.(dedup := st.dedup - {dk}, dedupTimers := st.dedupTimers - {k})
            && IndexesAfter(ix, s, Forget(dk, due)) == ix.(dedupTimers := ix.dedupTimers - {k})
  {
  }

  /** A dedup record and its timer, in place of a stale one's. */
  function PinRecord(st: Store, dk: DedupKey, was: Option<DedupValue>, v: DedupValue): Store {
    st.(dedup := st.dedup[dk := v], dedupTimers := Splice(st.dedupTimers, PinTimer(dk, was), PinTimer(dk, Some(v))))
  }

  function PinIndexed(ix: Indexes, dk: DedupKey, was: Option<DedupValue>, v: DedupValue): Indexes {
    ix.(dedupTimers := Splice(ix.dedupTimers, PinTimerEntry(dk, was), PinTimerEntry(dk, Some(v))))
  }

  lemma InsertWrites(st: Store, ix: Indexes, s: State, m: Move)
    requires m.Insert? && Enabled(s, m) && m.id !in s.live && m.id !in s.dead && SameClosing(st, ix, s) && m.pin.None?
    requires RowsAre(st, m.id, None)
    ensures StoreAfter(st, s, m) == NewRows(st, m.id, m.job)
    ensures IndexesAfter(ix, s, m) == NewEntries(ix, m.id, m.job)
  {
    NewWrites(st, ix, m.id, m.job);
  }

  /** With an idempotency key: a stale record's timer goes, the new record and its timer come. */
  lemma PinnedInsertWrites(st: Store, ix: Indexes, s: State, m: Move)
    requires m.Insert? && Enabled(s, m) && m.id !in s.live && m.id !in s.dead && SameClosing(st, ix, s) && m.pin.Some?
    requires RowsAre(st, m.id, None) && st.dedup == s.dedup
    ensures var dk := DedupKey(m.job.queue, m.pin.value.key);
            var v := DedupValue(m.job.enqueuedAt, m.pin.value.deadline, m.id);
            && StoreAfter(st, s, m) == PinRecord(NewRows(st, m.id, m.job), dk, Lookup(s.dedup, dk), v)
            && IndexesAfter(ix, s, m) == PinIndexed(NewEntries(ix, m.id, m.job), dk, Lookup(s.dedup, dk), v)
  {
    hide SpliceJob, SpliceJobIndex, StoreAfter, IndexesAfter, PinTimer, PinTimerEntry, NewRows, NewEntries, Splice;
    NewWrites(st, ix, m.id, m.job);
    NewRowsKeepPins(st, ix, m.id, m.job);
    PinnedInsertSplices(st, ix, s, m);
  }

  lemma PinnedInsertSplices(st: Store, ix: Indexes, s: State, m: Move)
    requires m.Insert? && Enabled(s, m) && m.id !in s.live && m.id !in s.dead && SameClosing(st, ix, s) && m.pin.Some?
    ensures var dk := DedupKey(m.job.queue, m.pin.value.key);
            var v := DedupValue(m.job.enqueuedAt, m.pin.value.deadline, m.id);
            && StoreAfter(st, s, m) == SpliceJob(st, m.id, None, Some(m.job)).(
                 dedup := s.dedup[dk := v],
                 dedupTimers := Splice(st.dedupTimers, PinTimer(dk, Lookup(s.dedup, dk)), PinTimer(dk, Some(v))))
            && IndexesAfter(ix, s, m) == SpliceJobIndex(ix, m.id, None, Some(m.job)).(
                 dedupTimers := Splice(ix.dedupTimers, PinTimerEntry(dk, Lookup(s.dedup, dk)),
                                       PinTimerEntry(dk, Some(v))))
  {
    hide PinTimer, PinTimerEntry;
    assert PinChange(s, m) == Some((DedupKey(m.job.queue, m.pin.value.key),
                                    Some(DedupValue(m.job.enqueuedAt, m.pin.value.deadline, m.id))));
  }

  lemma InsertReady(s: State, m: Move)
    requires Inv(s) && Enabled(s, m) && m.Insert?
    ensures NewReady(s, m) == if m.job.place.Ready? then {m.job.queue} else {}
    ensures !m.job.place.Leased? && m.id !in s.live && m.id !in s.dead
  {
    StepParts(s, m);
  }

  function InsertedRows(st: Store, id: Id, j: Job, pin: Option<Pin>, was: Option<DedupValue>): Store {
    if pin.None? then NewRows(st, id, j)
    else PinRecord(NewRows(st, id, j), DedupKey(j.queue, pin.value.key), was,
                   DedupValue(j.enqueuedAt, pin.value.deadline, id))
  }

  function InsertedEntries(ix: Indexes, id: Id, j: Job, pin: Option<Pin>, was: Option<DedupValue>): Indexes {
    if pin.None? then NewEntries(ix, id, j)
    else PinIndexed(NewEntries(ix, id, j), DedupKey(j.queue, pin.value.key), was,
                    DedupValue(j.enqueuedAt, pin.value.deadline, id))
  }

  /** The record an insert finds under its key. */
  function Previous(s: State, m: Move): Option<DedupValue> {
    if m.Insert? && m.pin.Some? then Lookup(s.dedup, DedupKey(m.job.queue, m.pin.value.key)) else None
  }

  /** Everything an insert finds, writes and announces. */
  lemma InsertFacts(st: Store, ix: Indexes, s: State, m: Move)
    requires Mirrors(st, ix, s) && Inv(s) && m.Insert? && Enabled(s, m)
    ensures !m.job.place.Leased? && NewReady(s, m) == (if m.job.place.Ready? then {m.job.queue} else {})
    ensures forall d :: TimerKey(d, m.id) !in ix.scheduled
    ensures forall k :: k in ix.dedupTimers ==> k.DedupTimerKey? && ix.dedupTimers[k] == k.queue
    ensures StoreAfter(st, s, m) == InsertedRows(st, m.id, m.job, m.pin, Previous(s, m))
    ensures IndexesAfter(ix, s, m) == InsertedEntries(ix, m.id, m.job, m.pin, Previous(s, m))
  {
    hide Mirrors, Inv, StoreAfter, IndexesAfter, NewReady, NewRows, NewEntries, PinRecord, PinIndexed, Enabled;
    InsertReady(s, m);
    ReadRows(st, ix, s, m.id);
    ReadTimers(st, ix, s, m.id);
    ReadPins(st, ix, s);
    if m.pin.None? { InsertWrites(st, ix, s, m); } else { PinnedInsertWrites(st, ix, s, m); }
  }

  // ---- The remaining writes, and a new database ----------------------------------------

  /** The tombstone rows and the closing map change together. */
  lemma ClosingWrites(st: Store, ix: Indexes, s: State, m: Move)
    requires Enabled(s, m) && (m.Close? || m.Open? || m.ExpireClosing?) && SameClosing(st, ix, s)
    ensures StoreAfter(st, s, m) == st.(closing := Effect(s, m).closing)
    ensures IndexesAfter(ix, s, m) == ix.(closing := Effect(s, m).closing)
    ensures Effect(s, m).closing == match m
                                    case Close(q, until) => s.closing[q := until]
                                    case Open(q) => s.closing - {q}
                                    case _ => Unexpired(s, m.now)
  {
  }

  lemma AppendWrites(st: Store, ix: Indexes, s: State, m: Move)
    requires m.Append? && SameClosing(st, ix, s)
    ensures StoreAfter(st, s, m) == st.(auditSeq := Some(|s.audit| + 1), audit := st.audit[|s.audit| + 1 := m.entry])
    ensures IndexesAfter(ix, s, m) == ix
  {
  }

  lemma NewStoreMirrors()
    ensures Mirrors(NewStore, Indexes(map[], map[], map[], map[], map[], map[]), Empty) && Inv(Empty)
  {
  }

  /** The letter made from a job row, as `read_dead_letter_job` reads it back. */
  function LetterFrom(r: JobRow, payload: Option<Blob>, now: int, attempt: nat, cause: Cause,
                      reason: Option<Blob>): Dead {
    Dead(r.queue, Body(r.jobType, payload, r.priority, r.maxAttempts, r.custom, r.trace), r.enqueuedAt, r.scheduledAt,
         now, attempt, cause, reason)
  }

  lemma LetterIsComplete(j: Job, now: int, cause: Cause, reason: Option<Blob>)
    ensures LetterFrom(RowOf(j), j.body.payload, now, j.place.attempt, cause, reason) == DeadOf(j, now, cause, reason)
  {
  }

  /** A delivery put together from the job row, its payload and the popped attempt. */
  function DeliveryFrom(id: Id, r: JobRow, payload: Option<Blob>, attempt: nat, expiry: int): Delivery {
    Delivery(id, Job(r.queue, Body(r.jobType, payload, r.priority, r.maxAttempts, r.custom, r.trace), r.enqueuedAt,
                     r.scheduledAt, Leased(attempt, expiry)))
  }

  lemma Unannounced(s: State, m: Move)
    requires !m.Insert? && !m.Nack? && !m.Promote? && !m.Expire? && !m.Revive?
    ensures NewReady(s, m) == {}
  {
  }

  /** Everything a lease finds, writes and hands out. */
  lemma LeaseFacts(st: Store, ix: Indexes, s: State, id: Id, expiry: int)
    requires Mirrors(st, ix, s) && Inv(s) && IsReady(s, id)
    ensures var j := s.live[id];
            var m := Lease(id, expiry);
            var k := ReadyKeyOf(id, j);
            var f := Flight(j.place.attempt, expiry, j.enqueuedAt, j.body.priority, j.body.maxAttempts, j.queue,
                            j.body.trace);
            && Enabled(s, m) && NewReady(s, m) == {} && TimerKey(expiry, id) !in ix.leases
            && id in st.jobs && st.jobs[id] == RowOf(j) && Lookup(st.payloads, id) == j.body.payload
            && DeliveryFrom(id, RowOf(j), j.body.payload, j.place.attempt, expiry) == DeliveryOf(s, id, expiry)
            && StoreAfter(st, s, m) == st.(inflight := st.inflight[id := f], ready := st.ready - {k},
                                           leases := st.leases[TimerKey(expiry, id) := []])
            && IndexesAfter(ix, s, m) == ix.(ready := ix.ready - {k},
                                             leases := ix.leases[TimerKey(expiry, id) := j.queue])
  {
    hide Mirrors, Inv, StoreAfter, IndexesAfter, NewReady;
    ReadRows(st, ix, s, id);
    ReadTimers(st, ix, s, id);
    Unannounced(s, Lease(id, expiry));
    LeaseWrites(st, ix, s, id, expiry);
  }

  /** Which keys each keyspace and index knows, and what they say. */
  lemma KeysKnown(st: Store, ix: Indexes, s: State, k: Key)
    requires Mirrors(st, ix, s)
    ensures k in st.deadLetter <==> InDead(s, k)
    ensures k in ix.deadLetter <==> InDead(s, k)
    ensures InDead(s, k) ==> ix.deadLetter[k] == k.queue && st.deadLetter[k] == Letter(k.jobId, s.dead[k.jobId])
    ensures k in st.ready <==> InReady(s, k)
    ensures k in ix.ready <==> InReady(s, k)
    ensures InReady(s, k) ==> ix.ready[k] == s.live[k.jobId].place.attempt
    ensures k in st.scheduled <==> InScheduled(s, k)
    ensures InScheduled(s, k) ==> st.scheduled[k] == s.live[k.jobId].place.attempt
    ensures InScheduled(s, k) ==> k.jobId in st.jobs && st.jobs[k.jobId].queue == s.live[k.jobId].queue
  {
    hide LiveRows, DeadRows, PinRows, AuditRows;
    LettersKnown(st, ix, s, k);
    ReadyKnown(st, ix, s, k);
    ScheduledKnown(st, ix, s, k);
  }

  lemma LettersKnown(st: Store, ix: Indexes, s: State, k: Key)
    requires DeadRows(st, ix, s.dead)
    ensures k in st.deadLetter <==> InDead(s, k)
    ensures k in ix.deadLetter <==> InDead(s, k)
    ensures InDead(s, k) ==> ix.deadLetter[k] == k.queue && st.deadLetter[k] == Letter(k.jobId, s.dead[k.jobId])
  {
    assert Lookup(st.deadLetter, k) == At(s.dead, k, DeadRow, JobIdOf);
    assert Lookup(ix.deadLetter, k) == At(s.dead, k, DeadEntry, JobIdOf);
  }

  lemma ReadyKnown(st: Store, ix: Indexes, s: State, k: Key)
    requires LiveRows(st, ix, s.live)
    ensures k in st.ready <==> InReady(s, k)
    ensures k in ix.ready <==> InReady(s, k)
    ensures InReady(s, k) ==> ix.ready[k] == s.live[k.jobId].place.attempt
  {
    assert Lookup(st.ready, k) == At(s.live, k, ReadyRow, JobIdOf);
    assert Lookup(ix.ready, k) == At(s.live, k, ReadyRow, JobIdOf);
  }

  lemma ScheduledKnown(st: Store, ix: Indexes, s: State, k: Key)
    requires LiveRows(st, ix, s.live)
    ensures k in st.scheduled <==> InScheduled(s, k)
    ensures InScheduled(s, k) ==> st.scheduled[k] == s.live[k.jobId].place.attempt
    ensures InScheduled(s, k) ==> k.jobId in st.jobs && st.jobs[k.jobId].queue == s.live[k.jobId].queue
  {
    assert Lookup(st.scheduled, k) == At(s.live, k, ScheduledRow, JobIdOf);
    if k.TimerKey? {
      assert Lookup(st.jobs, k.jobId) == if k.jobId in s.live then Some(RowOf(s.live[k.jobId])) else None;
    }
  }

  lemma DropDeadFacts(st: Store, ix: Indexes, s: State, k: Key)
    requires Mirrors(st, ix, s) && Inv(s) && InDead(s, k)
    ensures var m := DropDead(k.jobId);
            && Enabled(s, m) && NewReady(s, m) == {} && k in st.deadLetter && st.deadLetter[k] == LetterOf(s, k.jobId)
            && StoreAfter(st, s, m) == st.(deadLetter := st.deadLetter - {k})
            && IndexesAfter(ix, s, m) == ix.(deadLetter := ix.deadLetter - {k})
  {
    hide Mirrors, Inv, StoreAfter, IndexesAfter, NewReady;
    ReadRows(st, ix, s, k.jobId);
    KeysKnown(st, ix, s, k);
    Unannounced(s, DropDead(k.jobId));
    DropDeadWrites(st, ix, s, k.jobId);
  }

  lemma ReviveReady(s: State, id: Id, now: int)
    requires Inv(s) && id in s.dead
    ensures NewReady(s, Revive(id, now)) == {s.dead[id].queue} && id !in s.live
  {
    StepParts(s, Revive(id, now));
  }

  lemma ReviveFacts(st: Store, ix: Indexes, s: State, k: Key, now: int)
    requires Mirrors(st, ix, s) && Inv(s) && InDead(s, k)
    ensures var m := Revive(k.jobId, now);
            var d := s.dead[k.jobId];
            && Enabled(s, m) && NewReady(s, m) == {d.queue} && k in st.deadLetter
            && st.deadLetter[k] == Letter(k.jobId, d)
            && (forall t :: TimerKey(t, k.jobId) !in ix.scheduled)
            && var (rows, entries) := (NewRows(st, k.jobId, RevivedJob(d, now)),
                                       NewEntries(ix, k.jobId, RevivedJob(d, now)));
            && StoreAfter(st, s, m) == rows.(deadLetter := rows.deadLetter - {k})
            && IndexesAfter(ix, s, m) == entries.(deadLetter := entries.deadLetter - {k})
  {
    hide Mirrors, Inv, StoreAfter, IndexesAfter, NewReady, NewRows, NewEntries;
    ReviveReady(s, k.jobId, now);
    ReadRows(st, ix, s, k.jobId);
    ReadTimers(st, ix, s, k.jobId);
    KeysKnown(st, ix, s, k);
    ReviveWrites(st, ix, s, k.jobId, now);
    NewRowsKeepLetters(st, ix, k.jobId, RevivedJob(s.dead[k.jobId], now));
  }

  lemma NewRowsKeepLetters(st: Store, ix: Indexes, id: Id, j: Job)
    ensures NewRows(st, id, j).deadLetter == st.deadLetter && NewEntries(ix, id, j).deadLetter == ix.deadLetter
  {
    hide JobWritten, ReadyKeyOf;
    JobWrittenKeeps(st, id, j);
    match j.place { case Ready(_) => case Scheduled(_, _) => case Leased(_, _) => }
  }

  // ---- Waiting jobs ------------------------------------------------------------------------

  /** The key of a job that waits, in line or for its time. */
  predicate Waiting(s: State, k: Key) {
    InReady(s, k) || InScheduled(s, k)
  }

  function PlaceCut(st: Store, k: Key): Store {
    if k.ReadyKey? then st.(ready := st.ready - {k}) else st.(scheduled := st.scheduled - {k})
  }

  function PlaceUnindexed(ix: Indexes, k: Key): Indexes {
    if k.ReadyKey? then ix.(ready := ix.ready - {k}) else ix.(scheduled := ix.scheduled - {k})
  }

  function JobCut(st: Store, id: Id): Store {
    st.(jobs := st.jobs - {id}, payloads := st.payloads - {id})
  }

  function LetterKept(st: Store, id: Id, letter: Dead, keep: bool): Store {
    st.(deadLetter := if keep then st.deadLetter[DeadLetterKey(letter.failedAt, letter.queue, id) := Letter(id, letter)]
                      else st.deadLetter)
  }

  function LetterIndexed(ix: Indexes, id: Id, letter: Dead, keep: bool): Indexes {
    ix.(deadLetter := if keep then ix.deadLetter[DeadLetterKey(letter.failedAt, letter.queue, id) := letter.queue]
                      else ix.deadLetter)
  }

  lemma WaitingGone(st: Store, ix: Indexes, s: State, k: Key)
    requires Waiting(s, k) && RowsAre(st, k.jobId, Some(s.live[k.jobId]))
    ensures WithoutJob(st, k.jobId, s.live[k.jobId]) == JobCut(PlaceCut(st, k), k.jobId)
    ensures IndexesWithoutPlace(ix, k.jobId, s.live[k.jobId]) == PlaceUnindexed(ix, k)
  {
    hide WithoutJob, IndexesWithoutPlace;
    if k.ReadyKey? { ReadyGone(st, ix, k.jobId, s.live[k.jobId]); } else { ScheduledGone(st, ix, k.jobId,
                                                                                         s.live[k.jobId]); }
  }

  lemma DropLiveFacts(st: Store, ix: Indexes, s: State, k: Key)
    requires Mirrors(st, ix, s) && Inv(s) && Waiting(s, k)
    ensures var m := DropLive(k.jobId);
            && Enabled(s, m) && NewReady(s, m) == {}
            && StoreAfter(st, s, m) == JobCut(PlaceCut(st, k), k.jobId)
            && IndexesAfter(ix, s, m) == PlaceUnindexed(ix, k)
  {
    hide Mirrors, Inv, StoreAfter, IndexesAfter, NewReady, WithoutJob, IndexesWithoutPlace, PlaceCut, PlaceUnindexed,
         JobCut;
    ReadRows(st, ix, s, k.jobId);
    Unannounced(s, DropLive(k.jobId));
    RemovalWrites(st, ix, s, DropLive(k.jobId));
    WaitingGone(st, ix, s, k);
  }

  lemma KeptApart(st: Store, ix: Indexes, id: Id, letter: Dead, keep: bool, k: Key)
    ensures JobCut(PlaceCut(LetterKept(st, id, letter, keep), k), id)
         == JobCut(PlaceCut(st, k), id).(deadLetter := LetterKept(st, id, letter, keep).deadLetter)
    ensures PlaceUnindexed(LetterIndexed(ix, id, letter, keep), k)
         == PlaceUnindexed(ix, k).(deadLetter := LetterIndexed(ix, id, letter, keep).deadLetter)
  {
  }

  lemma BuryFacts(st: Store, ix: Indexes, s: State, k: Key, m: Move)
    requires Mirrors(st, ix, s) && Inv(s) && Waiting(s, k) && m.Bury? && m.id == k.jobId
    ensures var j := s.live[k.jobId];
            var letter := LetterFrom(RowOf(j), j.body.payload, m.now, j.place.attempt, Admin, m.reason);
            && Enabled(s, m) && NewReady(s, m) == {} && (forall t, q :: DeadLetterKey(t, q, m.id) !in ix.deadLetter)
            && m.id in st.jobs && st.jobs[m.id] == RowOf(j) && Lookup(st.payloads, m.id) == j.body.payload
            && StoreAfter(st, s, m) == JobCut(PlaceCut(LetterKept(st, m.id, letter, m.keep), k), m.id)
            && IndexesAfter(ix, s, m) == PlaceUnindexed(LetterIndexed(ix, m.id, letter, m.keep), k)
  {
    hide Mirrors, Inv, StoreAfter, IndexesAfter, NewReady, WithoutJob, IndexesWithoutPlace, PlaceCut, PlaceUnindexed,
         JobCut;
    var j := s.live[k.jobId];
    ReadRows(st, ix, s, k.jobId);
    ReadTimers(st, ix, s, k.jobId);
    Unannounced(s, m);
    FailureWrites(st, ix, s, m);
    WaitingGone(st, ix, s, k);
    LetterIsComplete(j, m.now, Admin, m.reason);
    KeptApart(st, ix, m.id, LetterFrom(RowOf(j), j.body.payload, m.now, j.place.attempt, Admin, m.reason), m.keep, k);
  }

  lemma ForgetFacts(st: Store, ix: Indexes, s: State, k: Key, due: Option<int>)
    requires Mirrors(st, ix, s) && InDedupTimers(s, k) && (due.Some? ==> k.deadline <= due.value)
    ensures var dk := DedupKey(k.queue, k.idempotencyKey);
            var m := Forget(dk, due);
            && Enabled(s, m) && NewReady(s, m) == {} && dk in st.dedup && st.dedup[dk].deadline == k.deadline
            && StoreAfter(st, s, m) == st.(dedup := st.dedup - {dk}, dedupTimers := st.dedupTimers - {k})
            && IndexesAfter(ix, s, m) == ix.(dedupTimers := ix.dedupTimers - {k})
  {
    hide StoreAfter, IndexesAfter, NewReady, LiveRows, DeadRows, AuditRows;
    var dk := DedupKey(k.queue, k.idempotencyKey);
    Unannounced(s, Forget(dk, due));
    ForgetWrites(st, ix, s, dk, due);
  }

  lemma PromoteFacts(st: Store, ix: Indexes, s: State, t: Key, now: int)
    requires Mirrors(st, ix, s) && Inv(s) && InScheduled(s, t) && t.deadline <= now
    ensures var j := s.live[t.jobId];
            var m := Promote(t.jobId, now);
            var k := ReadyKeyOf(t.jobId, j);
            && Enabled(s, m) && NewReady(s, m) == {j.queue}
            && t.jobId in st.jobs && st.jobs[t.jobId] == RowOf(j) && t in st.scheduled
            && st.scheduled[t] == j.place.attempt
            && StoreAfter(st, s, m) == st.(scheduled := st.scheduled - {t}, ready := st.ready[k := j.place.attempt])
            && IndexesAfter(ix, s, m) == ix.(scheduled := ix.scheduled - {t}, ready := ix.ready[k := j.place.attempt])
  {
    hide Mirrors, Inv, StoreAfter, IndexesAfter, NewReady;
    ReadRows(st, ix, s, t.jobId);
    KeysKnown(st, ix, s, t);
    PromoteReady(s, t.jobId, now);
    PromoteWrites(st, ix, s, t.jobId, now);
  }

  lemma PromoteReady(s: State, id: Id, now: int)
    requires Enabled(s, Promote(id, now))
    ensures NewReady(s, Promote(id, now)) == {s.live[id].queue}
  {
    StepParts(s, Promote(id, now));
  }

  // ---- Leases ----------------------------------------------------------------------------------

  lemma AckFacts(st: Store, ix: Indexes, s: State, id: Id, attempt: nat)
    requires Mirrors(st, ix, s) && Inv(s) && HoldsLease(s, id, attempt)
    ensures var m := Ack(id, attempt);
            var t := TimerKey(s.live[id].place.expiry, id);
            && Enabled(s, m) && NewReady(s, m) == {}
            && StoreAfter(st, s, m) == st.(jobs := st.jobs - {id}, payloads := st.payloads - {id},
                                           inflight := st.inflight - {id},
                                           leases := st.leases - {t})
            && IndexesAfter(ix, s, m) == ix.(leases := ix.leases - {t})
  {
    hide Mirrors, Inv, StoreAfter, IndexesAfter, NewReady, WithoutJob, IndexesWithoutPlace;
    ReadRows(st, ix, s, id);
    Unannounced(s, Ack(id, attempt));
    RemovalWrites(st, ix, s, Ack(id, attempt));
    LeasedGone(st, ix, id, s.live[id]);
  }

  lemma ExtendFacts(st: Store, ix: Indexes, s: State, id: Id, attempt: nat, expiry: int)
    requires Mirrors(st, ix, s) && Inv(s) && HoldsLease(s, id, attempt)
    ensures var j := s.live[id];
            var m := Extend(id, attempt, expiry);
            var f := Flight(attempt, expiry, j.enqueuedAt, j.body.priority, j.body.maxAttempts, j.queue, j.body.trace);
            var (t, t') := (TimerKey(j.place.expiry, id), TimerKey(expiry, id));
            && Enabled(s, m) && NewReady(s, m) == {}
            && (forall e :: TimerKey(e, id) in ix.leases ==> e == j.place.expiry)
            && StoreAfter(st, s, m) == st.(inflight := st.inflight[id := f], leases := (st.leases - {t})[t' := []])
            && IndexesAfter(ix, s, m) == ix.(leases := (ix.leases - {t})[t' := j.queue])
  {
    hide Mirrors, Inv, StoreAfter, IndexesAfter, NewReady;
    ReadRows(st, ix, s, id);
    ReadTimers(st, ix, s, id);
    Unannounced(s, Extend(id, attempt, expiry));
    ExtendWrites(st, ix, s, id, attempt, expiry);
  }

  /** A lease that ends in failure or in another attempt. */
  lemma EndingReady(s: State, m: Move)
    requires Enabled(s, m) && (m.Nack? || m.Expire?)
    ensures NewReady(s, m) == if Failure(s, m).Some? || (m.Nack? && m.delay > 0) then {} else {s.live[m.id].queue}
  {
    StepParts(s, m);
  }

  lemma FailFacts(st: Store, ix: Indexes, s: State, m: Move)
    requires Mirrors(st, ix, s) && Inv(s) && Enabled(s, m) && (m.Nack? || m.Expire?) && Failure(s, m).Some?
    ensures var (id, j) := (m.id, s.live[m.id]);
            var t := TimerKey(j.place.expiry, id);
            var letter := LetterFrom(RowOf(j), j.body.payload, m.now, j.place.attempt, Failure(s, m).value,
                                     if m.Expire? then None else m.reason);
            var k := DeadLetterKey(letter.failedAt, letter.queue, id);
            && NewReady(s, m) == {} && (forall t, q :: DeadLetterKey(t, q, id) !in ix.deadLetter)
            && id in st.jobs && st.jobs[id] == RowOf(j) && Lookup(st.payloads, id) == j.body.payload
            && StoreAfter(st, s, m) == st.(jobs := st.jobs - {id}, payloads := st.payloads - {id},
                                           inflight := st.inflight - {id},
                                           leases := st.leases - {t},
                                           deadLetter := if m.keep then st.deadLetter[k := Letter(id, letter)]
                                                         else st.deadLetter)
            && IndexesAfter(ix, s, m) == ix.(leases := ix.leases - {t},
                                             deadLetter := if m.keep then ix.deadLetter[k := letter.queue]
                                                           else ix.deadLetter)
  {
    hide Mirrors, Inv, StoreAfter, IndexesAfter, NewReady, WithoutJob, IndexesWithoutPlace;
    ReadRows(st, ix, s, m.id);
    ReadTimers(st, ix, s, m.id);
    EndingReady(s, m);
    FailureWrites(st, ix, s, m);
    LeasedGone(st, ix, m.id, s.live[m.id]);
    LetterIsComplete(s.live[m.id], m.now, Failure(s, m).value, if m.Expire? then None else m.reason);
  }

  lemma RetryLaterFacts(st: Store, ix: Indexes, s: State, m: Move)
    requires Mirrors(st, ix, s) && Inv(s) && Enabled(s, m) && m.Nack? && m.delay > 0 && Failure(s, m).None?
    ensures var j := s.live[m.id];
            var (t, d) := (TimerKey(j.place.expiry, m.id), TimerKey(After(m.now, m.delay), m.id));
            && NewReady(s, m) == {} && d !in ix.scheduled
            && StoreAfter(st, s, m) == st.(inflight := st.inflight - {m.id}, leases := st.leases - {t},
                                           scheduled := st.scheduled[d := j.place.attempt + 1])
            && IndexesAfter(ix, s, m) == ix.(leases := ix.leases - {t}, scheduled := ix.scheduled[d := j.queue])
  {
    hide Mirrors, Inv, StoreAfter, IndexesAfter, NewReady;
    ReadRows(st, ix, s, m.id);
    ReadTimers(st, ix, s, m.id);
    EndingReady(s, m);
    RetryLaterWrites(st, ix, s, m);
  }

  lemma RetryNowFacts(st: Store, ix: Indexes, s: State, m: Move)
    requires Mirrors(st, ix, s) && Inv(s) && Enabled(s, m) && (m.Expire? || (m.Nack? && m.delay == 0))
    requires Failure(s, m).None?
    ensures var j := s.live[m.id];
            var (t, k) := (TimerKey(j.place.expiry, m.id), ReadyKeyOf(m.id, j));
            && NewReady(s, m) == {j.queue}
            && StoreAfter(st, s, m) == st.(inflight := st.inflight - {m.id}, leases := st.leases - {t},
                                           ready := st.ready[k := j.place.attempt + 1])
            && IndexesAfter(ix, s, m) == ix.(leases := ix.leases - {t}, ready := ix.ready[k := j.place.attempt + 1])
  {
    hide Mirrors, Inv, StoreAfter, IndexesAfter, NewReady;
    ReadRows(st, ix, s, m.id);
    EndingReady(s, m);
    RetryNowWrites(st, ix, s, m);
  }
}
