/** What each operation answers and does, said outright: the answer and the whole new state as values
    of the old state's fields, without the plans and moves that carry it out. */
module Promises {
  import opened Bytes
  import opened Keys
  import opened Listing
  import opened Machine
  import opened Ops
  import opened Legality

  /** `ms` milliseconds after `now`, both clamped to an i64. */
  function Later(now: int, ms: nat): int {
    var wait := if ms <= 0x7FFF_FFFF_FFFF_FFFF then ms else 0x7FFF_FFFF_FFFF_FFFF;
    if now + wait <= 0x7FFF_FFFF_FFFF_FFFF then now + wait else 0x7FFF_FFFF_FFFF_FFFF
  }

  /** The job is leased under that attempt. */
  predicate Held(s: State, id: Id, attempt: nat) {
    id in s.live && s.live[id].place.Leased? && s.live[id].place.attempt == attempt
  }

  function AsSet(ids: seq<Id>): set<Id> {
    set id | id in ids
  }

  /** An operation answers `o` and leaves `t`. */
  ghost predicate Does(s: State, op: Op, o: Outcome, t: State) {
    PlanOf(s, op).outcome == o && Apply(s, op) == t
  }

  // ---- Ack, nack, extend -----------------------------------------------------------------------

  /** Not leased: no such job. Leased under another attempt: a mismatch. Either way nothing changes. */
  lemma StaleRefused(s: State, op: Op)
    requires (op.AckOp? || op.NackOp? || op.ExtendOp?) && !Held(s, op.id, op.attempt)
    ensures Does(s, op, if op.id in s.live && s.live[op.id].place.Leased? then AttemptMismatch else NotFound, s)
  {
    RunNone(s);
  }

  lemma AckDoes(s: State, id: Id, attempt: nat)
    requires Held(s, id, attempt)
    ensures Does(s, AckOp(id, attempt), Acked(s.live[id].queue), s.(live := s.live - {id}))
  {
    RunOne(s, Ack(id, attempt));
  }

  /** An extension lasts what was asked for, at least a millisecond, from now. */
  lemma ExtendDoes(s: State, id: Id, attempt: nat, leaseMs: nat, now: int)
    requires Held(s, id, attempt)
    ensures var expiry := Later(now, if leaseMs >= 1 then leaseMs else 1);
            Does(s, ExtendOp(id, attempt, leaseMs, now), Extended(s.live[id].queue, expiry),
                 s.(live := s.live[id := s.live[id].(place := Leased(attempt, expiry))]))
  {
    RunOne(s, Extend(id, attempt, After(now, Max(leaseMs, 1))));
  }

  /** Another attempt is left and the nack does not reject the job: it is ready again at once, or
      scheduled for when the delay is over, and the answer names the delay. */
  lemma NackRetries(s: State, op: Op)
    requires op.NackOp? && Held(s, op.id, op.attempt)
    requires !op.force && op.attempt < s.live[op.id].body.maxAttempts
    ensures var next := if op.delay > 0 then Scheduled(op.attempt + 1, Later(op.now, op.delay))
                        else Ready(op.attempt + 1);
            Does(s, op, Nacked(s.live[op.id].queue, false, op.delay),
                 s.(live := s.live[op.id := s.live[op.id].(place := next)]))
  {
    RunOne(s, Nack(op.id, op.attempt, op.force, op.reason, op.delay, op.now, op.keep));
  }

  /** Rejected or out of attempts: the job is gone, and kept as a letter exactly when letters are. */
  lemma NackFails(s: State, op: Op)
    requires op.NackOp? && Held(s, op.id, op.attempt)
    requires op.force || op.attempt >= s.live[op.id].body.maxAttempts
    ensures var j := s.live[op.id];
            var letter := Dead(j.queue, j.body, j.enqueuedAt, j.scheduledAt, op.now, op.attempt,
                               if op.force then Rejected else AttemptsExhausted, op.reason);
            Does(s, op, Nacked(j.queue, true, 0),
                 s.(live := s.live - {op.id}, dead := if op.keep then s.dead[op.id := letter] else s.dead))
  {
    RunOne(s, Nack(op.id, op.attempt, op.force, op.reason, op.delay, op.now, op.keep));
  }

  // ---- Tombstones and the audit log -----------------------------------------------------------------

  lemma CloseDoes(s: State, q: Queue, now: int, grace: nat)
    ensures var until := if now + grace <= 0x7FFF_FFFF_FFFF_FFFF then now + grace else 0x7FFF_FFFF_FFFF_FFFF;
            Does(s, CloseOp(q, now, grace), Done, s.(closing := s.closing[q := until]))
  {
    RunOne(s, Close(q, SatAdd(now, grace)));
  }

  lemma OpenDoes(s: State, q: Queue)
    ensures Does(s, OpenOp(q), Done, s.(closing := s.closing - {q}))
  {
    RunOne(s, Open(q));
    RunNone(s);
    if q !in s.closing { assert s.closing - {q} == s.closing; }
  }

  lemma AuditDoes(s: State, record: Blob, now: int)
    ensures Does(s, AuditOp(record, now), Appended(|s.audit| + 1), s.(audit := s.audit + [AuditEntry(now, record)]))
  {
    RunOne(s, Append(AuditEntry(now, record)));
  }

  // ---- Enqueue --------------------------------------------------------------------------------------

  /** The job as it is stored: in line, or waiting for its time if that is still to come. */
  function Stored(j: Prepared, now: int): Job {
    Job(j.queue, j.body, now, j.scheduledAt,
        if j.scheduledAt.Some? && j.scheduledAt.value > now then Scheduled(1, j.scheduledAt.value) else Ready(1))
  }

  /** The record its idempotency key gets, if it has one. */
  function Remembered(s: State, j: Prepared, now: int): map<DedupKey, DedupValue> {
    if j.key.None? then s.dedup
    else
      var until := if now + j.dedupWindow <= 0x7FFF_FFFF_FFFF_FFFF then now + j.dedupWindow else 0x7FFF_FFFF_FFFF_FFFF;
      s.dedup[DedupKey(j.queue, j.key.value) := DedupValue(now, until, j.id)]
  }

  function Added(s: State, j: Prepared, now: int): State {
    s.(live := s.live[j.id := Stored(j, now)], dedup := Remembered(s, j, now), used := s.used + {j.id})
  }

  predicate Shutting(s: State, q: Queue, now: int) {
    q in s.closing && s.closing[q] > now
  }

  predicate Known(s: State, j: Prepared, now: int) {
    && j.key.Some? && DedupKey(j.queue, j.key.value) in s.dedup
    && now < s.dedup[DedupKey(j.queue, j.key.value)].deadline
  }

  function InQueue(s: State, q: Queue): set<Id> {
    set id | id in s.live && s.live[id].queue == q
  }

  predicate NewJob(s: State, j: Prepared) {
    j.id !in s.used && j.body.maxAttempts >= 1
  }

  lemma InsertAdds(s: State, j: Prepared, now: int)
    requires NewJob(s, j) && !Shutting(s, j.queue, now) && !Known(s, j, now) && j.id !in s.live && j.id !in s.dead
    ensures Step(s, InsertMove(j, now)) == Added(s, j, now)
  {
    var m := InsertMove(j, now);
    assert Enabled(s, m);
    assert Put(s.dead, j.id, None) == s.dead;
  }

  /** One job: refused while its queue closes, answered with the first id while its key is known,
      refused at its cap, and otherwise stored. */
  lemma EnqueueOneDoes(s: State, j: Prepared, now: int)
    requires Inv(s) && NewJob(s, j)
    ensures var op := EnqueueOp([j], now);
            if Shutting(s, j.queue, now) then Does(s, op, Enqueued([Refused(QueueClosing(j.queue))]), s)
            else if Known(s, j, now) then
              Does(s, op, Enqueued([Accepted(s.dedup[DedupKey(j.queue, j.key.value)].id, true)]), s)
            else if j.cap.Some? && |InQueue(s, j.queue)| >= j.cap.value then
              Does(s, op, Enqueued([Refused(QueueFull(j.queue, j.cap.value))]), s)
            else Does(s, op, Enqueued([Accepted(j.id, false)]), Added(s, j, now))
  {
    assert [j][..0] == [];
    assert EnqueueAll(s, [], now) == ([], []);
    RunNone(s);
    var (m, r) := EnqueueOne(s, j, now);
    assert [] + m == m && [] + [r] == [r];
    assert EnqueueAll(s, [j], now) == (m, [r]);
    assert InQueue(s, j.queue) == Members(s, j.queue);
    RunOne(s, InsertMove(j, now));
    if !Shutting(s, j.queue, now) && !Known(s, j, now) { InsertAdds(s, j, now); }
  }
}
