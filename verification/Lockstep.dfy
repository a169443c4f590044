/** Facts that tie the loops of the committer to the plans they carry out. */
module Lockstep {
  import opened Bytes
  import opened Keys
  import opened Listing
  import opened Machine
  import opened Ops
  import opened Legality
  import opened Rows
  import opened Tables

  // ---- Indexes as key sets --------------------------------------------------------

  /** Which keys each index holds, read off the mirror. */
  lemma IndexKeys(st: Store, ix: Indexes, s: State)
    requires Mirrors(st, ix, s)
    ensures ix.ready.Keys == ReadyKeys(s) && ix.scheduled.Keys == ScheduledKeys(s) && ix.leases.Keys == LeaseKeys(s)
    ensures ix.dedupTimers.Keys == DedupTimerKeys(s) && ix.deadLetter.Keys == DeadKeys(s)
  {
    hide Projects, DeadRows, PinRows, AuditRows, ReadyKeys, ScheduledKeys, LeaseKeys, DedupTimerKeys, DeadKeys;
    ReadyIndexKeys(ix.ready, s);
    ScheduledIndexKeys(ix.scheduled, s);
    LeaseIndexKeys(ix.leases, s);
    RecordKeys(st, ix, s);
  }

  lemma ReadyIndexKeys(keys: map<Key, nat>, s: State)
    requires Projects(keys, s.live, ReadyRow, JobIdOf)
    ensures keys.Keys == ReadyKeys(s)
  {
    forall k ensures k in keys <==> InReady(s, k) { assert Lookup(keys, k) == At(s.live, k, ReadyRow, JobIdOf); }
  }

  lemma ScheduledIndexKeys(keys: map<Key, Queue>, s: State)
    requires Projects(keys, s.live, ScheduledEntry, JobIdOf)
    ensures keys.Keys == ScheduledKeys(s)
  {
    forall k ensures k in keys <==> InScheduled(s, k) {
      assert Lookup(keys, k) == At(s.live, k, ScheduledEntry, JobIdOf);
    }
  }

  lemma LeaseIndexKeys(keys: map<Key, Queue>, s: State)
    requires Projects(keys, s.live, LeaseEntry, JobIdOf)
    ensures keys.Keys == LeaseKeys(s)
  {
    forall k ensures k in keys <==> InLeases(s, k) { assert Lookup(keys, k) == At(s.live, k, LeaseEntry, JobIdOf); }
  }

  lemma RecordKeys(st: Store, ix: Indexes, s: State)
    requires Mirrors(st, ix, s)
    ensures ix.dedupTimers.Keys == DedupTimerKeys(s) && ix.deadLetter.Keys == DeadKeys(s)
  {
    forall k ensures k in ix.dedupTimers <==> InDedupTimers(s, k) {
      assert Lookup(ix.dedupTimers, k) == At(s.dedup, k, PinEntry, PinOf);
    }
    forall k ensures k in ix.deadLetter <==> InDead(s, k) {
      assert Lookup(ix.deadLetter, k) == At(s.dead, k, DeadEntry, JobIdOf);
    }
  }

  /** Every index files a key under the queue that owns it. */
  lemma IndexOwners(st: Store, ix: Indexes, s: State, k: Key)
    requires Mirrors(st, ix, s)
    ensures k in ix.ready ==> InReady(s, k) && ix.ready[k] == s.live[k.jobId].place.attempt
    ensures k in ix.scheduled ==> ix.scheduled[k] == Owner(s, k)
    ensures k in ix.leases ==> ix.leases[k] == Owner(s, k)
    ensures k in ix.dedupTimers ==> ix.dedupTimers[k] == Owner(s, k)
    ensures k in ix.deadLetter ==> ix.deadLetter[k] == Owner(s, k)
  {
    assert Lookup(ix.ready, k) == At(s.live, k, ReadyRow, JobIdOf);
    assert Lookup(ix.scheduled, k) == At(s.live, k, ScheduledEntry, JobIdOf);
    assert Lookup(ix.leases, k) == At(s.live, k, LeaseEntry, JobIdOf);
    assert Lookup(ix.dedupTimers, k) == At(s.dedup, k, PinEntry, PinOf);
    assert Lookup(ix.deadLetter, k) == At(s.dead, k, DeadEntry, JobIdOf);
  }

  function ReadyOwners(keys: map<Key, nat>): map<Key, Queue> {
    map k | k in keys :: if k.ReadyKey? then k.queue else []
  }

  /** The five per-queue counters. */
  datatype Counters = Counters(ready: map<Queue, nat>, scheduled: map<Queue, nat>, leases: map<Queue, nat>,
                               dedupTimers: map<Queue, nat>, deadLetter: map<Queue, nat>)

  /** The counters that go with a set of indexes, as reading them back counts them. */
  ghost function CountersOf(ix: Indexes): Counters {
    Counters(Tally(ReadyOwners(ix.ready)), Tally(ix.scheduled), Tally(ix.leases), Tally(ix.dedupTimers),
             Tally(ix.deadLetter))
  }

  /** A queue's depth in each keyspace, as `depth_counts` reports it. */
  datatype Depths = Depths(ready: nat, scheduled: nat, inflight: nat, deadLetter: nat)

  ghost function DepthsIn(s: State, q: Queue): Depths {
    Depths(|OwnedBy(s, ReadyKeys(s), q)|, |OwnedBy(s, ScheduledKeys(s), q)|, |OwnedBy(s, LeaseKeys(s), q)|,
           |OwnedBy(s, DeadKeys(s), q)|)
  }

  /** A queue's keys in an index are the queue's keys in the keyspace. */
  lemma IndexOwned(st: Store, ix: Indexes, s: State, q: Queue)
    requires Mirrors(st, ix, s)
    ensures OwnedKeys(ReadyOwners(ix.ready), q) == OwnedBy(s, ReadyKeys(s), q)
    ensures OwnedKeys(ix.scheduled, q) == OwnedBy(s, ScheduledKeys(s), q)
    ensures OwnedKeys(ix.leases, q) == OwnedBy(s, LeaseKeys(s), q)
    ensures OwnedKeys(ix.dedupTimers, q) == OwnedBy(s, DedupTimerKeys(s), q)
    ensures OwnedKeys(ix.deadLetter, q) == OwnedBy(s, DeadKeys(s), q)
  {
    IndexKeys(st, ix, s);
    OwnedSame(ReadyOwners(ix.ready), s, ReadyKeys(s), q) by { assert ReadyOwners(ix.ready).Keys == ReadyKeys(s); }
    OwnedSame(ix.scheduled, s, ScheduledKeys(s), q) by {
      forall k | k in ix.scheduled ensures ix.scheduled[k] == Owner(s, k) { IndexOwners(st, ix, s, k); }
    }
    OwnedSame(ix.leases, s, LeaseKeys(s), q) by {
      forall k | k in ix.leases ensures ix.leases[k] == Owner(s, k) { IndexOwners(st, ix, s, k); }
    }
    OwnedSame(ix.dedupTimers, s, DedupTimerKeys(s), q) by {
      forall k | k in ix.dedupTimers ensures ix.dedupTimers[k] == Owner(s, k) { IndexOwners(st, ix, s, k); }
    }
    OwnedSame(ix.deadLetter, s, DeadKeys(s), q) by {
      forall k | k in ix.deadLetter ensures ix.deadLetter[k] == Owner(s, k) { IndexOwners(st, ix, s, k); }
    }
  }

  lemma OwnedSame(owners: map<Key, Queue>, s: State, ks: set<Key>, q: Queue)
    requires owners.Keys == ks && forall k :: k in owners ==> owners[k] == Owner(s, k)
    ensures OwnedKeys(owners, q) == OwnedBy(s, ks, q)
  {
  }

  // ---- live_depth -----------------------------------------------------------------

  /** Keys that name different jobs are as many as the jobs they name. */
  lemma {:induction false} AsManyKeysAsIds(ks: set<Key>, ids: set<Id>)
    requires forall k :: k in ks ==> JobIdOf(k) in ids
    requires forall id :: id in ids ==> exists k :: k in ks && JobIdOf(k) == id
    requires forall k, k' :: k in ks && k' in ks && JobIdOf(k) == JobIdOf(k') ==> k == k'
    ensures |ks| == |ids|
  {
    if ks != {} {
      var k :| k in ks;
      var (ks', ids') := (ks - {k}, ids - {JobIdOf(k)});
      forall id | id in ids' ensures exists x :: x in ks' && JobIdOf(x) == id {
        var x :| x in ks && JobIdOf(x) == id;
        assert x in ks';
      }
      AsManyKeysAsIds(ks', ids');
    } else {
      assert ids == {};
    }
  }

  function Placed(s: State, q: Queue, ready: bool, leased: bool): set<Id> {
    set id | id in Members(s, q) && s.live[id].place.Ready? == ready && s.live[id].place.Leased? == leased
  }

  lemma CountPlaced(s: State, q: Queue)
    ensures |OwnedBy(s, ReadyKeys(s), q)| == |Placed(s, q, true, false)|
    ensures |OwnedBy(s, ScheduledKeys(s), q)| == |Placed(s, q, false, false)|
    ensures |OwnedBy(s, LeaseKeys(s), q)| == |Placed(s, q, false, true)|
  {
    forall id | id in Placed(s, q, true, false)
      ensures exists k :: k in OwnedBy(s, ReadyKeys(s), q) && JobIdOf(k) == id
    {
      assert ReadyKeyOf(id, s.live[id]) in OwnedBy(s, ReadyKeys(s), q);
    }
    AsManyKeysAsIds(OwnedBy(s, ReadyKeys(s), q), Placed(s, q, true, false));
    forall id | id in Placed(s, q, false, false)
      ensures exists k :: k in OwnedBy(s, ScheduledKeys(s), q) && JobIdOf(k) == id
    {
      assert TimerKey(s.live[id].place.deadline, id) in OwnedBy(s, ScheduledKeys(s), q);
    }
    AsManyKeysAsIds(OwnedBy(s, ScheduledKeys(s), q), Placed(s, q, false, false));
    forall id | id in Placed(s, q, false, true)
      ensures exists k :: k in OwnedBy(s, LeaseKeys(s), q) && JobIdOf(k) == id
    {
      assert TimerKey(s.live[id].place.expiry, id) in OwnedBy(s, LeaseKeys(s), q);
    }
    AsManyKeysAsIds(OwnedBy(s, LeaseKeys(s), q), Placed(s, q, false, true));
  }

  /** The three counters together count the queue's job rows. */
  lemma CountersAddUp(s: State, q: Queue)
    ensures Depth(s, q)
            == |OwnedBy(s, ReadyKeys(s), q)| + |OwnedBy(s, ScheduledKeys(s), q)| + |OwnedBy(s, LeaseKeys(s), q)|
  {
    CountPlaced(s, q);
    var (a, b, c) := (Placed(s, q, true, false), Placed(s, q, false, false), Placed(s, q, false, true));
    assert Members(s, q) == a + b + c;
    assert |a + b| == |a| + |b| by { assert a * b == {}; }
    assert |(a + b) + c| == |a + b| + |c| by { assert (a + b) * c == {}; }
  }

  // ---- Bookkeeping of a cycle ---------------------------------------------------------

  lemma Recorded(base: State, trace: seq<Move>, m: Move)
    requires Legal(base, trace) && Enabled(Run(base, trace), m)
    ensures Run(base, trace + [m]) == Step(Run(base, trace), m) && Legal(base, trace + [m])
    ensures NewReadyAll(base, trace + [m]) == NewReadyAll(base, trace) + NewReady(Run(base, trace), m)
  {
    RunSnoc(base, trace, m);
    assert (trace + [m])[..|trace|] == trace;
  }

  lemma NothingNew(s: State)
    ensures Run(s, []) == s && Legal(s, []) && NewReadyAll(s, []) == {}
  {
  }

  lemma ReadyKeysOnly(st: Store, ix: Indexes, s: State)
    requires Mirrors(st, ix, s)
    ensures forall k :: k in ix.ready ==> k.ReadyKey?
  {
    hide Mirrors;
    forall k | k in ix.ready ensures k.ReadyKey? { IndexOwners(st, ix, s, k); }
  }

  // ---- Batches and reserves, one job at a time ------------------------------------------

  lemma NoBatch(s: State, now: int)
    ensures EnqueueAll(s, [], now) == ([], []) && InsertAll(s, [], now) == ([], [])
  {
  }

  /** The next job of a batch has a fresh id, and is enqueued on top of those before it. */
  lemma EnqueueTurn(s: State, jobs: seq<Prepared>, i: nat, now: int)
    requires BatchOk(s, jobs) && i < |jobs|
    ensures var (ms, rs) := EnqueueAll(s, jobs[..i], now);
            var (m, r) := EnqueueOne(Run(s, ms), jobs[i], now);
            && EnqueueAll(s, jobs[..i + 1], now) == (ms + m, rs + [r])
            && jobs[i].id !in Run(s, ms).used && jobs[i].body.maxAttempts >= 1
  {
    hide Run, EnqueueOne;
    assert jobs[..i + 1][..i] == jobs[..i] && jobs[..i + 1][i] == jobs[i];
    EnqueueLegal(s, jobs[..i], now);
    UsedGrows(s, EnqueueAll(s, jobs[..i], now).0, jobs[..i], jobs[..i + 1]);
  }

  lemma InsertTurn(s: State, jobs: seq<Prepared>, i: nat, now: int)
    requires BatchOk(s, jobs) && i < |jobs| && forall k :: 0 <= k < |jobs| ==> !IsClosing(s, jobs[k].queue, now)
    ensures var (ms, rs) := InsertAll(s, jobs[..i], now);
            var (m, r) := DedupOrInsert(Run(s, ms), jobs[i], now);
            && InsertAll(s, jobs[..i + 1], now) == (ms + m, rs + [r])
            && jobs[i].id !in Run(s, ms).used && jobs[i].body.maxAttempts >= 1
            && !IsClosing(Run(s, ms), jobs[i].queue, now)
  {
    hide Run, DedupOrInsert;
    assert jobs[..i + 1][..i] == jobs[..i] && jobs[..i + 1][i] == jobs[i];
    InsertAllLegal(s, jobs[..i], now);
    UsedGrows(s, InsertAll(s, jobs[..i], now).0, jobs[..i], jobs[..i + 1]);
  }

  /** A queue some job of the batch names is counted. */
  lemma {:induction false} CountInMember(jobs: seq<Prepared>, i: nat)
    requires i < |jobs|
    ensures CountIn(jobs, jobs[i].queue) > 0
  {
    if i < |jobs| - 1 { CountInMember(jobs[..|jobs| - 1], i); }
  }

  /** How many jobs a batch has for each queue, and the cap the first of them carries. */
  method CountWanted(jobs: seq<Prepared>) returns (wanted: map<Queue, (nat, Option<nat>)>)
    ensures forall q :: q in wanted <==> CountIn(jobs, q) > 0
    ensures forall q :: q in wanted ==> wanted[q] == (CountIn(jobs, q), FirstCap(jobs, q))
  {
    wanted := map[];
    for i := 0 to |jobs|
      invariant forall q :: q in wanted <==> CountIn(jobs[..i], q) > 0
      invariant forall q :: q in wanted ==> wanted[q] == (CountIn(jobs[..i], q), FirstCap(jobs[..i], q))
    {
      assert jobs[..i + 1][..i] == jobs[..i];
      var q := jobs[i].queue;
      wanted := wanted[q := if q in wanted then (wanted[q].0 + 1, wanted[q].1) else (1, jobs[i].cap)];
    }
    assert jobs[..|jobs|] == jobs;
  }

  /** A reserve part way: what it has done, followed by what it would still do from here,
      is the whole plan. */
  ghost predicate Ahead(s0: State, s: State, queues: seq<Queue>, i: nat, expiry: int, max: nat, ms: seq<Move>,
                        jobs: seq<Delivery>)
    requires i <= |queues| && |jobs| <= max
  {
    var rest := ReservePlan(s, queues[i..], expiry, max - |jobs|);
    ReservePlan(s0, queues, expiry, max) == (ms + rest.0, jobs + rest.1)
  }

  lemma AheadStart(s: State, queues: seq<Queue>, expiry: int, max: nat)
    ensures Ahead(s, s, queues, 0, expiry, max, [], [])
  {
    var rest := ReservePlan(s, queues, expiry, max);
    assert queues[0..] == queues && [] + rest.0 == rest.0 && [] + rest.1 == rest.1;
  }

  lemma AheadEnd(s0: State, s: State, queues: seq<Queue>, i: nat, expiry: int, max: nat, ms: seq<Move>,
                 jobs: seq<Delivery>)
    requires i <= |queues| && |jobs| <= max && Ahead(s0, s, queues, i, expiry, max, ms, jobs)
    requires (i == |queues| || |jobs| == max)
    ensures ReservePlan(s0, queues, expiry, max) == (ms, jobs)
  {
    assert ms + [] == ms && jobs + [] == jobs;
  }

  lemma AheadOne(s0: State, s: State, queues: seq<Queue>, i: nat, expiry: int, max: nat, ms: seq<Move>,
                 jobs: seq<Delivery>)
    requires i < |queues| && |jobs| < max && Ahead(s0, s, queues, i, expiry, max, ms, jobs)
    requires OwnedBy(s, ReadyKeys(s), queues[i]) != {}
    ensures var id := JobIdOf(NextKey(s, queues[i]));
            var m := Lease(id, expiry);
            Ahead(s0, Step(s, m), queues, i, expiry, max, ms + [m], jobs + [DeliveryOf(s, id, expiry)])
  {
    hide Step, DeliveryOf, ReadyKeys, OwnedBy, NextKey;
    var id := JobIdOf(NextKey(s, queues[i]));
    var m := Lease(id, expiry);
    var rest := ReservePlan(Step(s, m), queues[i..], expiry, max - |jobs| - 1);
    assert ms + ([m] + rest.0) == (ms + [m]) + rest.0;
    assert jobs + ([DeliveryOf(s, id, expiry)] + rest.1) == (jobs + [DeliveryOf(s, id, expiry)]) + rest.1;
  }

  lemma AheadNext(s0: State, s: State, queues: seq<Queue>, i: nat, expiry: int, max: nat, ms: seq<Move>,
                  jobs: seq<Delivery>)
    requires i < |queues| && |jobs| <= max && Ahead(s0, s, queues, i, expiry, max, ms, jobs)
    requires |jobs| == max || OwnedBy(s, ReadyKeys(s), queues[i]) == {}
    ensures Ahead(s0, s, queues, i + 1, expiry, max, ms, jobs)
  {
    assert queues[i..][1..] == queues[i + 1..];
  }

  // ---- Keys taken one after another -------------------------------------------------------

  ghost predicate DistinctIn(ks: seq<Key>) {
    forall i, j :: 0 <= i < j < |ks| ==> ks[i] != ks[j]
  }

  /** Dropping other letters leaves the next one to be dropped. */
  lemma StillDead(s: State, ks: seq<Key>, i: nat)
    requires i < |ks| && DistinctIn(ks) && forall j :: 0 <= j < |ks| ==> InDead(s, ks[j])
    ensures var t := Run(s, DropDeads(ks[..i]));
            InDead(t, ks[i]) && LetterOf(t, ks[i].jobId) == LetterOf(s, ks[i].jobId)
  {
    RunFrame(s, DropDeads(ks[..i]), ks[i].jobId);
    assert Lookup(s.dead, ks[i].jobId).Some?;
  }

  lemma StillWaiting(s: State, ks: seq<Key>, i: nat)
    requires i < |ks| && DistinctIn(ks) && forall j :: 0 <= j < |ks| ==> InScheduled(s, ks[j])
    ensures InScheduled(Run(s, DropLives(ks[..i])), ks[i])
  {
    RunFrame(s, DropLives(ks[..i]), ks[i].jobId);
    assert Lookup(s.live, ks[i].jobId).Some?;
  }

  lemma StillPinned(s: State, ks: seq<Key>, i: nat)
    requires i < |ks| && DistinctIn(ks) && forall j :: 0 <= j < |ks| ==> InDedupTimers(s, ks[j])
    ensures InDedupTimers(Run(s, Forgets(ks[..i], None)), ks[i])
  {
    var dk := DedupKey(ks[i].queue, ks[i].idempotencyKey);
    RunDedupFrame(s, Forgets(ks[..i], None), dk);
    assert Lookup(s.dedup, dk).Some?;
  }

  lemma NoDrops(s: State, q: Queue, max: nat)
    ensures DropLives([]) == [] && [] + FirstOf(s, ReadyKeys(s), q, max) == FirstOf(s, ReadyKeys(s), q, max)
  {
  }

  lemma NoForgets(due: Option<int>)
    ensures Forgets([], due) == []
  {
  }

  lemma DropSnoc(s: State, ks: seq<Key>, k: Key)
    requires !k.DedupTimerKey?
    ensures DropLives(ks + [k]) == DropLives(ks) + [DropLive(k.jobId)] && |DropLives(ks)| == |ks|
    ensures Run(s, DropLives(ks + [k])) == Run(Run(s, DropLives(ks)), [DropLive(k.jobId)])
  {
    RunConcat(s, DropLives(ks), [DropLive(k.jobId)]);
    assert DropLives(ks + [k]) == DropLives(ks) + [DropLive(k.jobId)];
  }

  lemma ForgetSnoc(s: State, ks: seq<Key>, k: Key, due: Option<int>)
    requires k.DedupTimerKey?
    ensures Forgets(ks + [k], due) == Forgets(ks, due) + [Forget(PinOf(k), due)]
    ensures Run(s, Forgets(ks + [k], due)) == Run(Run(s, Forgets(ks, due)), [Forget(PinOf(k), due)])
  {
    RunConcat(s, Forgets(ks, due), [Forget(PinOf(k), due)]);
    assert Forgets(ks + [k], due) == Forgets(ks, due) + [Forget(PinOf(k), due)];
  }

  /** The queue's next ready key heads its list, and dropping its job leaves the rest. */
  lemma PopReady(s: State, q: Queue, n: nat)
    requires n > 0 && OwnedBy(s, ReadyKeys(s), q) != {}
    ensures var k := NextKey(s, q);
            var t := Step(s, DropLive(JobIdOf(k)));
            FirstOf(s, ReadyKeys(s), q, n) == [k] + FirstOf(t, ReadyKeys(t), q, n - 1)
  {
    var k := NextKey(s, q);
    assert InReady(s, k);
    DropLiveTakesKey(s, q, k.jobId);
    SortedPop(OwnedBy(s, ReadyKeys(s), q), n);
  }

  lemma FirstOfNone(s: State, q: Queue, n: nat)
    ensures n == 0 || OwnedBy(s, ReadyKeys(s), q) == {} ==> FirstOf(s, ReadyKeys(s), q, n) == []
  {
  }

  /** How many moves a purge phase makes, and that its keys are there to be purged. */
  lemma PurgeCount(ks: seq<Key>, s: State, q: Queue, n: nat)
    ensures |DropLives(ks)| == |ks| && |DropDeads(ks)| == |ks| && |Forgets(ks, None)| == |ks|
    ensures ks == FirstOf(s, ReadyKeys(s), q, n) ==> |ks| <= n
    ensures ks == FirstOf(s, ScheduledKeys(s), q, n) ==>
              |ks| <= n && DistinctIn(ks) && forall i :: 0 <= i < |ks| ==> InScheduled(s, ks[i])
    ensures ks == FirstOf(s, DeadKeys(s), q, n) ==>
              |ks| <= n && DistinctIn(ks) && forall i :: 0 <= i < |ks| ==> InDead(s, ks[i])
    ensures ks == FirstOf(s, DedupTimerKeys(s), q, n) ==>
              DistinctIn(ks) && forall i :: 0 <= i < |ks| ==> InDedupTimers(s, ks[i])
  {
    hide FirstOf, OwnedBy;
    FirstOfSelects(s, ReadyKeys(s), q, n);
    FirstOfSelects(s, ScheduledKeys(s), q, n);
    FirstOfSelects(s, DeadKeys(s), q, n);
    FirstOfSelects(s, DedupTimerKeys(s), q, n);
  }

  /** `apply_drain`'s scan. */
  method ChooseWanted(all: seq<Key>, want: Option<Queue>, max: nat, scanCap: nat) returns (chosen: seq<Key>)
    requires forall i :: 0 <= i < |all| ==> all[i].DeadLetterKey?
    ensures chosen == Take(Wanted(Take(all, scanCap), want), max)
  {
    chosen := [];
    var examined := 0;
    while examined < |all| && |chosen| < max && examined < scanCap
      invariant examined <= |all| && examined <= scanCap && |chosen| <= max
      invariant chosen == Wanted(all[..examined], want)
    {
      assert all[..examined + 1][..examined] == all[..examined];
      if want.None? || want.value == all[examined].queue { chosen := chosen + [all[examined]]; }
      examined := examined + 1;
    }
    var scanned := Take(all, scanCap);
    WantedPrefix(scanned, want, examined);
    assert all[..examined] == scanned[..examined];
    if examined == |scanned| { assert scanned[..examined] == scanned; }
  }

  lemma {:induction false} WantedPrefix(l: seq<Key>, want: Option<Queue>, n: nat)
    requires n <= |l| && forall i :: 0 <= i < |l| ==> l[i].DeadLetterKey?
    ensures Wanted(l[..n], want) <= Wanted(l, want)
  {
    if n < |l| {
      WantedPrefix(l[..|l| - 1], want, n);
      assert l[..|l| - 1][..n] == l[..n];
    } else {
      assert l[..n] == l;
    }
  }

  lemma NoKeyMoves(s: State, op: Op)
    requires op.RequeueOp? || op.BuryOp? || op.DeleteOp?
    ensures KeyMoves(s, op, []) == [] && MoveIds([]) == []
  {
  }

  lemma KeyMoveNames(s: State, op: Op, k: Key)
    requires op.RequeueOp? || op.BuryOp? || op.DeleteOp?
    ensures |KeyMove(s, op, k)| <= 1
    ensures MoveIds(KeyMove(s, op, k)) == if KeyMove(s, op, k) == [] then [] else [JobIdOf(k)]
  {
  }

  lemma MoveIdsConcat(a: seq<Move>, b: seq<Move>)
    ensures MoveIds(a + b) == MoveIds(a) + MoveIds(b)
  {
  }

  /** One more key: at most one more move, and it names the key's job. */
  lemma KeyMovesSnoc(s: State, op: Op, keys: seq<Key>, i: nat)
    requires (op.RequeueOp? || op.BuryOp? || op.DeleteOp?) && i < |keys|
    ensures var ms := KeyMoves(s, op, keys[..i]);
            var m := KeyMove(Run(s, ms), op, keys[i]);
            && KeyMoves(s, op, keys[..i + 1]) == ms + m && |m| <= 1
            && MoveIds(ms + m) == MoveIds(ms) + if m == [] then [] else [JobIdOf(keys[i])]
  {
    hide KeyMove, MoveIds, Run;
    var front := keys[..i + 1];
    assert front[..i] == keys[..i] && front[i] == keys[i];
    var ms := KeyMoves(s, op, keys[..i]);
    KeyMoveNames(Run(s, ms), op, keys[i]);
    MoveIdsConcat(ms, KeyMove(Run(s, ms), op, keys[i]));
  }

  // ---- Sweeps, one timer at a time --------------------------------------------------------------

  /** The earliest key, when due, heads the due list. */
  lemma DuePop(ks: set<Key>, now: int, n: nat)
    requires (forall a, b :: a in ks && b in ks ==> !a.ReadyKey? && SameKeyspace(a, b)) && ks != {} && n > 0
    requires DeadlineOf(Least(ks)) <= now
    ensures DueHead(ks, now, n) == [Least(ks)] + DueHead(ks - {Least(ks)}, now, n - 1)
  {
    var due, k := DueBy(ks, now), Least(ks);
    LeastIs(due, k);
    SortedPop(due, n);
    assert DueBy(ks - {k}, now) == due - {k};
  }

  lemma DueNone(ks: set<Key>, now: int, n: nat)
    requires forall k :: k in ks ==> !k.ReadyKey? && DeadlineOf(k) > now
    ensures DueHead(ks, now, n) == []
  {
    assert DueBy(ks, now) == {};
  }

  lemma PromoteTakesKey(s: State, id: Id, now: int)
    requires Enabled(s, Promote(id, now))
    ensures ScheduledKeys(Step(s, Promote(id, now))) == ScheduledKeys(s) - {TimerKey(s.live[id].place.deadline, id)}
  {
    var t := Step(s, Promote(id, now));
    forall k ensures InScheduled(t, k) <==> InScheduled(s, k) && k != TimerKey(s.live[id].place.deadline, id) {
      if k.TimerKey? && k.jobId != id {
        StepFrame(s, Promote(id, now), k.jobId);
        assert Lookup(t.live, k.jobId) == Lookup(s.live, k.jobId);
      }
    }
  }

  lemma ExpireTakesKey(s: State, id: Id, now: int, keep: bool)
    requires Enabled(s, Expire(id, now, keep))
    ensures LeaseKeys(Step(s, Expire(id, now, keep))) == LeaseKeys(s) - {TimerKey(s.live[id].place.expiry, id)}
  {
    var m := Expire(id, now, keep);
    var t := Step(s, m);
    forall k ensures InLeases(t, k) <==> InLeases(s, k) && k != TimerKey(s.live[id].place.expiry, id) {
      if k.TimerKey? && k.jobId != id {
        StepFrame(s, m, k.jobId);
        assert Lookup(t.live, k.jobId) == Lookup(s.live, k.jobId);
      }
    }
  }

  lemma ForgetTakesKey(s: State, dk: DedupKey, due: Option<int>)
    requires Enabled(s, Forget(dk, due))
    ensures DedupTimerKeys(Step(s, Forget(dk, due)))
            == DedupTimerKeys(s) - {DedupTimerKey(s.dedup[dk].deadline, dk.queue, dk.key)}
  {
    var t := Step(s, Forget(dk, due));
    forall k ensures InDedupTimers(t, k) <==>
      InDedupTimers(s, k) && k != DedupTimerKey(s.dedup[dk].deadline, dk.queue, dk.key) {
      if k.DedupTimerKey? {
        assert DedupKey(k.queue, k.idempotencyKey) == dk <==> k.queue == dk.queue && k.idempotencyKey == dk.key;
      }
    }
  }

  lemma DropDeadTakesKey(s: State, id: Id)
    requires id in s.dead
    ensures DeadKeys(Step(s, DropDead(id))) == DeadKeys(s) - {DeadLetterKey(s.dead[id].failedAt, s.dead[id].queue, id)}
  {
    var t := Step(s, DropDead(id));
    forall k ensures InDead(t, k) <==> InDead(s, k) && k != DeadLetterKey(s.dead[id].failedAt, s.dead[id].queue, id) {
      if k.DeadLetterKey? && k.jobId != id {
        StepFrame(s, DropDead(id), k.jobId);
        assert Lookup(t.dead, k.jobId) == Lookup(s.dead, k.jobId);
      }
    }
  }

  lemma DropLiveTakesKey(s: State, q: Queue, id: Id)
    requires IsReady(s, id) && s.live[id].queue == q
    ensures var t := Step(s, DropLive(id));
            OwnedBy(t, ReadyKeys(t), q) == OwnedBy(s, ReadyKeys(s), q) - {ReadyKeyOf(id, s.live[id])}
  {
    var t := Step(s, DropLive(id));
    forall k ensures InReady(t, k) <==> InReady(s, k) && k != ReadyKeyOf(id, s.live[id]) {
      if k.ReadyKey? && k.jobId != id {
        StepFrame(s, DropLive(id), k.jobId);
        assert Lookup(t.live, k.jobId) == Lookup(s.live, k.jobId);
      }
    }
  }

  /** What `pop_due` answers: the least key if it is due, nothing if none is. */
  ghost predicate IsNextDue(r: Option<Key>, ks: set<Key>, now: int)
    requires forall k :: k in ks ==> !k.ReadyKey?
  {
    if r.None? then forall k :: k in ks ==> DeadlineOf(k) > now
    else r.value in ks && r.value == Least(ks) && DeadlineOf(r.value) <= now
  }

  lemma NothingSwept(ks: set<Key>, now: int, n: nat)
    requires forall k :: k in ks ==> !k.ReadyKey?
    ensures Promotes([], now) == [] && Forgets([], Some(now)) == [] && DropDeads([]) == []
    ensures Expires([], now, true) == [] && Expires([], now, false) == []
    ensures [] + DueHead(ks, now, n) == DueHead(ks, now, n)
  {
  }

  lemma SweptAll(ks: set<Key>, now: int, done: seq<Key>)
    requires forall k :: k in ks ==> !k.ReadyKey?
    ensures DueHead(ks, now, 0) == [] && done + [] == done
    ensures |Promotes(done, now)| == |done| && |Forgets(done, Some(now))| == |done| && |DropDeads(done)| == |done|
    ensures |Expires(done, now, true)| == |done| && |Expires(done, now, false)| == |done|
  {
  }

  lemma NextScheduled(s: State, r: Option<Key>, now: int, n: nat)
    requires n > 0 && IsNextDue(r, ScheduledKeys(s), now)
    ensures r.None? ==> DueHead(ScheduledKeys(s), now, n) == []
    ensures r.Some? ==> InScheduled(s, r.value) && r.value.deadline <= now
    ensures r.Some? ==>
              var t := Step(s, Promote(r.value.jobId, now));
              DueHead(ScheduledKeys(s), now, n) == [r.value] + DueHead(ScheduledKeys(t), now, n - 1)
  {
    hide DueHead, Step;
    if r.None? {
      DueNone(ScheduledKeys(s), now, n);
    } else {
      DuePop(ScheduledKeys(s), now, n);
      PromoteTakesKey(s, r.value.jobId, now);
    }
  }

  lemma NextLease(s: State, r: Option<Key>, now: int, keep: bool, n: nat)
    requires n > 0 && IsNextDue(r, LeaseKeys(s), now)
    ensures r.None? ==> DueHead(LeaseKeys(s), now, n) == []
    ensures r.Some? ==> InLeases(s, r.value) && r.value.deadline <= now
    ensures r.Some? ==>
              var t := Step(s, Expire(r.value.jobId, now, keep));
              DueHead(LeaseKeys(s), now, n) == [r.value] + DueHead(LeaseKeys(t), now, n - 1)
  {
    hide DueHead, Step;
    if r.None? {
      DueNone(LeaseKeys(s), now, n);
    } else {
      DuePop(LeaseKeys(s), now, n);
      ExpireTakesKey(s, r.value.jobId, now, keep);
    }
  }

  lemma NextPin(s: State, r: Option<Key>, now: int, n: nat)
    requires n > 0 && IsNextDue(r, DedupTimerKeys(s), now)
    ensures r.None? ==> DueHead(DedupTimerKeys(s), now, n) == []
    ensures r.Some? ==> InDedupTimers(s, r.value) && r.value.deadline <= now
    ensures r.Some? ==>
              var t := Step(s, Forget(PinOf(r.value), Some(now)));
              DueHead(DedupTimerKeys(s), now, n) == [r.value] + DueHead(DedupTimerKeys(t), now, n - 1)
  {
    hide DueHead, Step;
    if r.None? {
      DueNone(DedupTimerKeys(s), now, n);
    } else {
      DuePop(DedupTimerKeys(s), now, n);
      ForgetTakesKey(s, PinOf(r.value), Some(now));
    }
  }

  lemma NextLetter(s: State, r: Option<Key>, cutoff: int, n: nat)
    requires n > 0 && IsNextDue(r, DeadKeys(s), cutoff)
    ensures r.None? ==> DueHead(DeadKeys(s), cutoff, n) == []
    ensures r.Some? ==> InDead(s, r.value) && r.value.failedAt <= cutoff
    ensures r.Some? ==>
              var t := Step(s, DropDead(r.value.jobId));
              DueHead(DeadKeys(s), cutoff, n) == [r.value] + DueHead(DeadKeys(t), cutoff, n - 1)
  {
    hide DueHead, Step;
    if r.None? {
      DueNone(DeadKeys(s), cutoff, n);
    } else {
      DuePop(DeadKeys(s), cutoff, n);
      DropDeadTakesKey(s, r.value.jobId);
    }
  }

  lemma PromoteSnoc(s: State, ks: seq<Key>, k: Key, now: int)
    requires k.TimerKey?
    ensures Promotes(ks + [k], now) == Promotes(ks, now) + [Promote(k.jobId, now)]
    ensures Run(s, Promotes(ks + [k], now)) == Run(Run(s, Promotes(ks, now)), [Promote(k.jobId, now)])
  {
    RunConcat(s, Promotes(ks, now), [Promote(k.jobId, now)]);
    assert Promotes(ks + [k], now) == Promotes(ks, now) + [Promote(k.jobId, now)];
  }

  lemma ExpireSnoc(s: State, ks: seq<Key>, k: Key, now: int, keep: bool)
    requires k.TimerKey?
    ensures Expires(ks + [k], now, keep) == Expires(ks, now, keep) + [Expire(k.jobId, now, keep)]
    ensures Run(s, Expires(ks + [k], now, keep)) == Run(Run(s, Expires(ks, now, keep)), [Expire(k.jobId, now, keep)])
  {
    RunConcat(s, Expires(ks, now, keep), [Expire(k.jobId, now, keep)]);
    assert Expires(ks + [k], now, keep) == Expires(ks, now, keep) + [Expire(k.jobId, now, keep)];
  }

  lemma DropDeadSnoc(s: State, ks: seq<Key>, k: Key)
    requires k.DeadLetterKey?
    ensures DropDeads(ks + [k]) == DropDeads(ks) + [DropDead(k.jobId)]
    ensures Run(s, DropDeads(ks + [k])) == Run(Run(s, DropDeads(ks)), [DropDead(k.jobId)])
  {
    RunConcat(s, DropDeads(ks), [DropDead(k.jobId)]);
    assert DropDeads(ks + [k]) == DropDeads(ks) + [DropDead(k.jobId)];
  }
}
