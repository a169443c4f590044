/** What holds of the database after any run of operations on a new one. */
module Reachable {
  import opened Bytes
  import opened Keys
  import opened Machine
  import opened Ops
  import opened Legality
  import opened Rows
  import opened Writes
  import opened Deletion

  const NoIndexes: Indexes := Indexes(map[], map[], map[], map[], map[], map[])

  /** Keyspaces and indexes after a run, each move writing its own rows. */
  ghost function Database(ops: seq<Op>): (Store, Indexes) {
    Written(NewStore, NoIndexes, Empty, History(Empty, ops))
  }

  /** After any acceptable run the indexes kept in memory are those a rebuild reads from disk,
      every job row is in exactly one of ready, scheduled and inflight with keys that agree with
      it, and dead letters and dedup records each sit under their one key. */
  lemma EveryReachableDatabase(ops: seq<Op>, id: Id, k: Key)
    requires Acceptable(Empty, ops)
    ensures var (st, ix) := Database(ops);
            && Rebuild(st) == ix && Mirrors(st, ix, ApplyAll(Empty, ops)) && Inv(ApplyAll(Empty, ops))
            && JobConsistent(st, id) && KeyConsistent(st, k) && RecordsConsistent(st)
  {
    hide Mirrors, Inv, Rebuild, Run, Legal, History, ApplyAll, Acceptable, JobConsistent, KeyConsistent,
         RecordsConsistent;
    var (st, ix) := Database(ops);
    var s := ApplyAll(Empty, ops);
    NewStoreMirrors();
    HistoryLegal(Empty, ops);
    RunInv(Empty, History(Empty, ops));
    RunMirrored(NewStore, NoIndexes, Empty, History(Empty, ops));
    MirroredIsConsistent(st, ix, s, id, k);
    MirroredRecords(st, ix, s);
  }

  // ---- A purged queue on disk -------------------------------------------------------------

  /** No keyspace holds a row of the queue. */
  ghost predicate NoRowsOf(st: Store, q: Queue) {
    && (forall id :: id in st.jobs ==> st.jobs[id].queue != q)
    && (forall id :: id in st.payloads ==> id in st.jobs)
    && (forall id :: id in st.inflight ==> st.inflight[id].queue != q)
    && (forall k :: k in st.ready ==> k.ReadyKey? && k.queue != q)
    && (forall k :: k in st.scheduled || k in st.leases ==> k.TimerKey? && k.jobId in st.jobs)
    && (forall dk :: dk in st.dedup ==> dk.queue != q)
    && (forall k :: k in st.dedupTimers ==> k.DedupTimerKey? && k.queue != q)
    && (forall k :: k in st.deadLetter ==> k.DeadLetterKey? && k.queue != q)
  }

  lemma OwnsNothing(s: State, q: Queue)
    requires Total(s, q) == 0
    ensures forall id :: id in s.live ==> s.live[id].queue != q
    ensures forall id :: id in s.dead ==> s.dead[id].queue != q
    ensures forall dk :: dk in s.dedup ==> dk.queue != q
  {
    assert Members(s, q) == {} && DeadIn(s, q) == {} && PinsIn(s, q) == {};
    forall id | id in s.live ensures s.live[id].queue != q { assert id !in Members(s, q); }
    forall id | id in s.dead ensures s.dead[id].queue != q { assert id !in DeadIn(s, q); }
    forall dk | dk in s.dedup ensures dk.queue != q { assert dk !in PinsIn(s, q); }
  }

  lemma NoLiveRows(st: Store, ix: Indexes, live: map<Id, Job>, q: Queue)
    requires LiveRows(st, ix, live) && forall id :: id in live ==> live[id].queue != q
    ensures forall id :: id in st.jobs ==> st.jobs[id].queue != q
    ensures forall id :: id in st.payloads ==> id in st.jobs
    ensures forall id :: id in st.inflight ==> st.inflight[id].queue != q
    ensures forall k :: k in st.ready ==> k.ReadyKey? && k.queue != q
    ensures forall k :: k in st.scheduled || k in st.leases ==> k.TimerKey? && k.jobId in st.jobs
  {
    hide LiveRows;
    forall id
      ensures id in st.jobs ==> st.jobs[id].queue != q
      ensures id in st.payloads ==> id in st.jobs
      ensures id in st.inflight ==> st.inflight[id].queue != q
    {
      RowsAt(st, ix, live, id);
    }
    forall k
      ensures k in st.ready ==> k.ReadyKey? && k.queue != q
      ensures k in st.scheduled || k in st.leases ==> k.TimerKey? && k.jobId in st.jobs
    {
      KeysAt(st, ix, live, k);
      if k.TimerKey? { RowsAt(st, ix, live, k.jobId); }
    }
  }

  lemma NoRecordRows(st: Store, ix: Indexes, s: State, q: Queue)
    requires DeadRows(st, ix, s.dead) && PinRows(st, ix, s.dedup)
    requires (forall id :: id in s.dead ==> s.dead[id].queue != q) && forall dk :: dk in s.dedup ==> dk.queue != q
    ensures forall dk :: dk in st.dedup ==> dk.queue != q
    ensures forall k :: k in st.dedupTimers ==> k.DedupTimerKey? && k.queue != q
    ensures forall k :: k in st.deadLetter ==> k.DeadLetterKey? && k.queue != q
  {
    forall k | k in st.dedupTimers ensures k.DedupTimerKey? && k.queue != q {
      assert Lookup(st.dedupTimers, k) == At(s.dedup, k, PinRow, PinOf);
    }
    forall k | k in st.deadLetter ensures k.DeadLetterKey? && k.queue != q {
      assert Lookup(st.deadLetter, k) == At(s.dead, k, DeadRow, JobIdOf);
    }
  }

  /** A queue that owns nothing has no row in any keyspace. */
  lemma EmptyQueueHasNoRows(st: Store, ix: Indexes, s: State, q: Queue)
    requires Mirrors(st, ix, s) && Total(s, q) == 0
    ensures NoRowsOf(st, q)
  {
    hide LiveRows, DeadRows, PinRows, AuditRows, Total;
    OwnsNothing(s, q);
    NoLiveRows(st, ix, s.live, q);
    NoRecordRows(st, ix, s, q);
  }

  /** When a purge chunk reports nothing remaining, no keyspace holds a row of the queue. */
  lemma PurgedQueueLeavesNoRows(st: Store, ix: Indexes, s: State, q: Queue, max: nat)
    requires Inv(s) && max >= 1 && PlanOf(s, PurgeOp(q, max)).outcome.Purged?
    requires !PlanOf(s, PurgeOp(q, max)).outcome.remaining
    requires Mirrors(st, ix, Apply(s, PurgeOp(q, max)))
    ensures NoRowsOf(st, q)
  {
    hide Inv, Run, Mirrors, PlanOf, Total;
    PurgeChunk(s, q, max);
    EmptyQueueHasNoRows(st, ix, Apply(s, PurgeOp(q, max)), q);
  }
}
