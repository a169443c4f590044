/** What a purge chunk discards: a queue's jobs in line, then its scheduled jobs, its dead letters and
    its dedup records, each in order, until the chunk is full. */
module PurgePromises {
  import opened Bytes
  import opened Keys
  import opened Listing
  import opened Machine
  import opened Ops
  import opened Legality
  import Deletion
  import opened Writes
  import opened Lockstep
  import opened Promises
  import opened ReservePromises
  import opened LetterPromises

  // ---- What a queue owns, in the order it is discarded ---------------------------------------------

  function LineKey(s: State, id: Id): Key
    requires id in s.live
  {
    ReadyKey(s.live[id].queue, Urgency(s.live[id]), s.live[id].enqueuedAt, id)
  }

  function Line(s: State, q: Queue): set<Key> {
    set id | id in s.live && s.live[id].queue == q && s.live[id].place.Ready? :: LineKey(s, id)
  }

  function Delayed(s: State, q: Queue): set<Key> {
    set id | id in s.live && s.live[id].queue == q && s.live[id].place.Scheduled? ::
      TimerKey(s.live[id].place.deadline, id)
  }

  function Failed(s: State, q: Queue): set<Key> {
    set id | id in s.dead && s.dead[id].queue == q :: LetterKey(s, id)
  }

  function RecordKey(s: State, dk: DedupKey): Key
    requires dk in s.dedup
  {
    DedupTimerKey(s.dedup[dk].deadline, dk.queue, dk.key)
  }

  function Records(s: State, q: Queue): set<Key> {
    set dk | dk in s.dedup && dk.queue == q :: RecordKey(s, dk)
  }

  /** The first `n` in line. */
  function FirstInLine(s: State, q: Queue, n: int): set<Id> {
    set id | id in s.live && s.live[id].queue == q && s.live[id].place.Ready? && |Below(Line(s, q), LineKey(s, id))| < n
  }

  /** The `n` due first. */
  function FirstDelayed(s: State, q: Queue, n: int): set<Id> {
    set id | id in s.live && s.live[id].queue == q && s.live[id].place.Scheduled?
             && |Below(Delayed(s, q), TimerKey(s.live[id].place.deadline, id))| < n
  }

  /** The `n` that failed first. */
  function FirstFailed(s: State, q: Queue, n: int): set<Id> {
    set id | id in s.dead && s.dead[id].queue == q && |Below(Failed(s, q), LetterKey(s, id))| < n
  }

  /** The `n` that end first. */
  function FirstRecords(s: State, q: Queue, n: int): set<DedupKey> {
    set dk | dk in s.dedup && dk.queue == q && |Below(Records(s, q), RecordKey(s, dk))| < n
  }

  lemma OwnedAre(s: State, q: Queue)
    ensures OwnedBy(s, ReadyKeys(s), q) == Line(s, q)
    ensures OwnedBy(s, ScheduledKeys(s), q) == Delayed(s, q)
    ensures OwnedBy(s, DeadKeys(s), q) == Failed(s, q)
    ensures OwnedBy(s, DedupTimerKeys(s), q) == Records(s, q)
  {
    forall k ensures k in OwnedBy(s, ReadyKeys(s), q) <==> k in Line(s, q) {
      if k in Line(s, q) { assert InReady(s, k); }
    }
    forall k ensures k in OwnedBy(s, ScheduledKeys(s), q) <==> k in Delayed(s, q) {
      if k in Delayed(s, q) { assert InScheduled(s, k); }
    }
    forall k ensures k in OwnedBy(s, DeadKeys(s), q) <==> k in Failed(s, q) {
      if k in Failed(s, q) { assert InDead(s, k); }
    }
    forall k ensures k in OwnedBy(s, DedupTimerKeys(s), q) <==> k in Records(s, q) {
      if k in OwnedBy(s, DedupTimerKeys(s), q) { assert k == RecordKey(s, DedupKey(k.queue, k.idempotencyKey)); }
      if k in Records(s, q) { assert InDedupTimers(s, k); }
    }
  }

  // ---- Runs of drops -------------------------------------------------------------------------------

  lemma DropLiveOne(s: State, id: Id)
    requires id in s.live && !s.live[id].place.Leased?
    ensures Step(s, DropLive(id)) == s.(live := s.live - {id})
  {
    if id !in s.dead { assert Put(s.dead, id, None) == s.dead; }
  }

  lemma {:induction false} DropLivesRun(s: State, ks: seq<Key>)
    requires (forall i :: 0 <= i < |ks| ==> InReady(s, ks[i]) || InScheduled(s, ks[i])) && DistinctIn(ks)
    ensures Run(s, DropLives(ks)) == s.(live := s.live - IdsIn(ks))
  {
    hide Run, Step;
    if ks == [] {
      RunNone(s);
      assert DropLives(ks) == [] && IdsIn(ks) == {};
      assert s.live - {} == s.live;
    } else {
      var (front, k) := (ks[..|ks| - 1], ks[|ks| - 1]);
      DropLivesRun(s, front);
      assert ks == front + [k];
      DropSnoc(s, front, k);
      var t := Run(s, DropLives(front));
      RunOne(t, DropLive(k.jobId));
      assert k.jobId !in IdsIn(front);
      DropLiveOne(t, k.jobId);
      assert IdsIn(ks) == IdsIn(front) + {k.jobId};
      assert (s.live - IdsIn(front)) - {k.jobId} == s.live - IdsIn(ks);
    }
  }

  function PinsOf(ks: seq<Key>): set<DedupKey>
    requires forall i :: 0 <= i < |ks| ==> ks[i].DedupTimerKey?
  {
    set i | 0 <= i < |ks| :: DedupKey(ks[i].queue, ks[i].idempotencyKey)
  }

  lemma {:induction false} ForgetsRun(s: State, ks: seq<Key>, due: Option<int>)
    requires forall i :: 0 <= i < |ks| ==> ks[i].DedupTimerKey?
    requires forall i :: 0 <= i < |ks| ==> InDedupTimers(s, ks[i]) && (due.Some? ==> ks[i].deadline <= due.value)
    requires DistinctIn(ks)
    ensures Run(s, Forgets(ks, due)) == s.(dedup := s.dedup - PinsOf(ks))
  {
    hide Run;
    if ks == [] {
      RunNone(s);
      assert Forgets(ks, due) == [] && PinsOf(ks) == {};
      assert s.dedup - {} == s.dedup;
    } else {
      var (front, k) := (ks[..|ks| - 1], ks[|ks| - 1]);
      ForgetsRun(s, front, due);
      assert ks == front + [k];
      ForgetSnoc(s, front, k, due);
      var (t, dk) := (Run(s, Forgets(front, due)), DedupKey(k.queue, k.idempotencyKey));
      RunOne(t, Forget(dk, due));
      assert dk !in PinsOf(front);
      assert PinsOf(ks) == PinsOf(front) + {dk};
      assert (s.dedup - PinsOf(front)) - {dk} == s.dedup - PinsOf(ks);
    }
  }

  // ---- The four phases -------------------------------------------------------------------------------

  lemma LinePhase(s: State, q: Queue, n: nat)
    ensures var ks := FirstOf(s, ReadyKeys(s), q, n);
            && |ks| == Min(n, |Line(s, q)|)
            && Run(s, DropLives(ks)) == s.(live := s.live - FirstInLine(s, q, n))
  {
    hide Run, KeyLess, Sorted, ReadyKeys;
    var ks := FirstOf(s, ReadyKeys(s), q, n);
    FirstOfSelects(s, ReadyKeys(s), q, n);
    DropLivesRun(s, ks);
    OwnedAre(s, q);
    forall id ensures id in IdsIn(ks) <==> id in FirstInLine(s, q, n) {
      if id in IdsIn(ks) {
        var i :| 0 <= i < |ks| && JobIdOf(ks[i]) == id;
        assert ks[i] in ks && ks[i] == LineKey(s, id);
        TakeByRank(Line(s, q), n, ks[i]);
      }
      if id in FirstInLine(s, q, n) {
        TakeByRank(Line(s, q), n, LineKey(s, id));
        assert LineKey(s, id) in ks;
        var i :| 0 <= i < |ks| && ks[i] == LineKey(s, id);
        assert JobIdOf(ks[i]) == id;
      }
    }
    assert IdsIn(ks) == FirstInLine(s, q, n);
  }

  lemma DelayedPhase(s: State, q: Queue, n: nat)
    ensures var ks := FirstOf(s, ScheduledKeys(s), q, n);
            && |ks| == Min(n, |Delayed(s, q)|)
            && Run(s, DropLives(ks)) == s.(live := s.live - FirstDelayed(s, q, n))
  {
    hide Run, KeyLess, Sorted, ScheduledKeys;
    var ks := FirstOf(s, ScheduledKeys(s), q, n);
    FirstOfSelects(s, ScheduledKeys(s), q, n);
    DropLivesRun(s, ks);
    OwnedAre(s, q);
    forall id ensures id in IdsIn(ks) <==> id in FirstDelayed(s, q, n) {
      if id in IdsIn(ks) {
        var i :| 0 <= i < |ks| && JobIdOf(ks[i]) == id;
        assert ks[i] in ks && ks[i] == TimerKey(s.live[id].place.deadline, id);
        TakeByRank(Delayed(s, q), n, ks[i]);
      }
      if id in FirstDelayed(s, q, n) {
        var k := TimerKey(s.live[id].place.deadline, id);
        TakeByRank(Delayed(s, q), n, k);
        assert k in ks;
        var i :| 0 <= i < |ks| && ks[i] == k;
        assert JobIdOf(ks[i]) == id;
      }
    }
    assert IdsIn(ks) == FirstDelayed(s, q, n);
  }

  lemma FailedPhase(s: State, q: Queue, n: nat)
    ensures var ks := FirstOf(s, DeadKeys(s), q, n);
            && |ks| == Min(n, |Failed(s, q)|)
            && Run(s, DropDeads(ks)) == s.(dead := s.dead - FirstFailed(s, q, n))
  {
    hide Run, KeyLess, Sorted, DeadKeys;
    var ks := FirstOf(s, DeadKeys(s), q, n);
    FirstOfSelects(s, DeadKeys(s), q, n);
    DropAllRun(s, ks);
    OwnedAre(s, q);
    forall id ensures id in IdsIn(ks) <==> id in FirstFailed(s, q, n) {
      if id in IdsIn(ks) {
        var i :| 0 <= i < |ks| && JobIdOf(ks[i]) == id;
        assert ks[i] in ks && ks[i] == LetterKey(s, id);
        TakeByRank(Failed(s, q), n, ks[i]);
      }
      if id in FirstFailed(s, q, n) {
        TakeByRank(Failed(s, q), n, LetterKey(s, id));
        assert LetterKey(s, id) in ks;
        var i :| 0 <= i < |ks| && ks[i] == LetterKey(s, id);
        assert JobIdOf(ks[i]) == id;
      }
    }
    assert IdsIn(ks) == FirstFailed(s, q, n);
  }

  lemma RecordsPhase(s: State, q: Queue, n: nat)
    ensures var ks := FirstOf(s, DedupTimerKeys(s), q, n);
            && |ks| == Min(n, |Records(s, q)|)
            && Run(s, Forgets(ks, None)) == s.(dedup := s.dedup - FirstRecords(s, q, n))
  {
    hide Run, KeyLess, Sorted, DedupTimerKeys;
    var ks := FirstOf(s, DedupTimerKeys(s), q, n);
    FirstOfSelects(s, DedupTimerKeys(s), q, n);
    ForgetsRun(s, ks, None);
    OwnedAre(s, q);
    forall dk ensures dk in PinsOf(ks) <==> dk in FirstRecords(s, q, n) {
      if dk in PinsOf(ks) {
        var i :| 0 <= i < |ks| && DedupKey(ks[i].queue, ks[i].idempotencyKey) == dk;
        assert ks[i] in ks && ks[i] == RecordKey(s, dk);
        TakeByRank(Records(s, q), n, ks[i]);
      }
      if dk in FirstRecords(s, q, n) {
        TakeByRank(Records(s, q), n, RecordKey(s, dk));
        assert RecordKey(s, dk) in ks;
        var i :| 0 <= i < |ks| && ks[i] == RecordKey(s, dk);
        assert DedupKey(ks[i].queue, ks[i].idempotencyKey) == dk;
      }
    }
    assert PinsOf(ks) == FirstRecords(s, q, n);
  }

  // ---- What one phase leaves the next ----------------------------------------------------------------

  lemma DelayedAfter(s: State, q: Queue, n: int, m: int)
    ensures var t := s.(live := s.live - FirstInLine(s, q, n));
            Delayed(t, q) == Delayed(s, q) && FirstDelayed(t, q, m) == FirstDelayed(s, q, m)
  {
    var t := s.(live := s.live - FirstInLine(s, q, n));
    forall k ensures k in Delayed(t, q) <==> k in Delayed(s, q) {
      if k in Delayed(s, q) { assert k.jobId in t.live; }
    }
    assert Delayed(t, q) == Delayed(s, q);
  }

  lemma FailedAfter(s: State, t: State, q: Queue, n: int)
    requires t.dead == s.dead
    ensures Failed(t, q) == Failed(s, q) && FirstFailed(t, q, n) == FirstFailed(s, q, n)
  {
    assert Failed(t, q) == Failed(s, q);
  }

  lemma RecordsAfter(s: State, t: State, q: Queue, n: int)
    requires t.dedup == s.dedup
    ensures Records(t, q) == Records(s, q) && FirstRecords(t, q, n) == FirstRecords(s, q, n)
  {
    assert Records(t, q) == Records(s, q);
  }

  /** With nothing left of the chunk a phase takes nothing. */
  lemma NoneLeft(s: State, q: Queue, n: int)
    requires n <= 0
    ensures FirstDelayed(s, q, n) == {} && FirstFailed(s, q, n) == {} && FirstRecords(s, q, n) == {}
  {
  }

  function AfterPurge(s: State, q: Queue, max: nat): State {
    var (line, delayed, failed) := (|Line(s, q)|, |Delayed(s, q)|, |Failed(s, q)|);
    s.(live := s.live - FirstInLine(s, q, max) - FirstDelayed(s, q, max - line),
       dead := s.dead - FirstFailed(s, q, max - line - delayed),
       dedup := s.dedup - FirstRecords(s, q, max - line - delayed - failed))
  }

  function Owned(s: State, q: Queue): nat {
    |Line(s, q)| + |Delayed(s, q)| + |Failed(s, q)| + |Records(s, q)|
  }

  lemma LiveRun(s: State, q: Queue, max: nat)
    ensures var a := DropLives(FirstOf(s, ReadyKeys(s), q, max));
            var s1 := Run(s, a);
            var b := a + DropLives(FirstOf(s1, ScheduledKeys(s1), q, Left(max, a)));
            && |b| == Min(max, |Line(s, q)| + |Delayed(s, q)|)
            && Run(s, b) == s.(live := s.live - FirstInLine(s, q, max) - FirstDelayed(s, q, max - |Line(s, q)|))
  {
    hide Run, FirstOf, FirstInLine, FirstDelayed, Line, Delayed, ReadyKeys, ScheduledKeys;
    var ks := FirstOf(s, ReadyKeys(s), q, max);
    var a := DropLives(ks);
    LinePhase(s, q, max);
    var s1 := Run(s, a);
    var n := Left(max, a);
    DelayedAfter(s, q, max, n);
    DelayedPhase(s1, q, n);
    RunConcat(s, a, DropLives(FirstOf(s1, ScheduledKeys(s1), q, n)));
    NoneLeft(s, q, 0);
    if max < |Line(s, q)| { NoneLeft(s, q, max - |Line(s, q)|); }
  }

  lemma PurgeRun(s: State, q: Queue, max: nat)
    ensures var ms := PurgeMoves(s, q, max); |ms| == Min(max, Owned(s, q)) && Run(s, ms) == AfterPurge(s, q, max)
  {
    hide Run, FirstOf, FirstInLine, FirstDelayed, FirstFailed, FirstRecords, Line, Delayed, Failed, Records;
    hide ReadyKeys, ScheduledKeys, DeadKeys, DedupTimerKeys;
    var a := DropLives(FirstOf(s, ReadyKeys(s), q, max));
    var s1 := Run(s, a);
    var b := a + DropLives(FirstOf(s1, ScheduledKeys(s1), q, Left(max, a)));
    LiveRun(s, q, max);
    var s2 := Run(s, b);
    var n := Left(max, b);
    FailedAfter(s, s2, q, n);
    FailedPhase(s2, q, n);
    var c' := DropDeads(FirstOf(s2, DeadKeys(s2), q, n));
    RunConcat(s, b, c');
    var s3 := Run(s, b + c');
    var m := Left(max, b + c');
    RecordsAfter(s, s3, q, m);
    RecordsPhase(s3, q, m);
    RunConcat(s, b + c', Forgets(FirstOf(s3, DedupTimerKeys(s3), q, m), None));
    NoneLeft(s, q, 0);
    var (x, y) := (max - |Line(s, q)| - |Delayed(s, q)|, max - |Line(s, q)| - |Delayed(s, q)| - |Failed(s, q)|);
    if x <= 0 { NoneLeft(s, q, x); }
    if y <= 0 { NoneLeft(s, q, y); }
  }

  // ---- What is left ------------------------------------------------------------------------------------

  /** Everything has fewer than `n` before it exactly when there are no more than `n`. */
  lemma RankReach(ks: set<Key>, n: int)
    ensures (forall k :: k in ks ==> |Below(ks, k)| < n) <==> ks == {} || |ks| <= n
  {
    hide KeyLess, Sorted;
    if ks == {} || |ks| <= n {
      forall k | k in ks ensures |Below(ks, k)| < n {
        KeyOrder(k, k, k);
        assert Below(ks, k) <= ks - {k};
        Deletion.SmallerSet(Below(ks, k), ks - {k});
      }
    } else if n >= 0 {
      SortedContents(ks);
      PlaceIsRank(ks, n);
      assert !(|Below(ks, Sorted(ks)[n])| < n);
    } else {
      var k :| k in ks;
      assert !(|Below(ks, k)| < n);
    }
  }

  lemma LineLeft(s: State, q: Queue, max: nat)
    ensures Line(AfterPurge(s, q, max), q) == {} <==> |Line(s, q)| <= max
  {
    hide KeyLess;
    var t := AfterPurge(s, q, max);
    RankReach(Line(s, q), max);
    forall k | k in Line(s, q) ensures k in Line(t, q) || |Below(Line(s, q), k)| < max {
      assert k == LineKey(s, k.jobId);
      assert k.jobId in t.live ==> LineKey(t, k.jobId) == k;
    }
    forall k | k in Line(t, q) ensures k in Line(s, q) && !(|Below(Line(s, q), k)| < max) {
      assert k == LineKey(s, k.jobId);
    }
  }

  lemma DelayedLeft(s: State, q: Queue, max: nat)
    ensures Delayed(AfterPurge(s, q, max), q) == {} <==> Delayed(s, q) == {} || |Line(s, q)| + |Delayed(s, q)| <= max
  {
    hide KeyLess, Line;
    var t := AfterPurge(s, q, max);
    var n := max - |Line(s, q)|;
    RankReach(Delayed(s, q), n);
    forall k | k in Delayed(s, q) ensures k in Delayed(t, q) || |Below(Delayed(s, q), k)| < n {
      assert k.jobId in t.live ==> t.live[k.jobId] == s.live[k.jobId];
    }
    forall k | k in Delayed(t, q) ensures k in Delayed(s, q) && !(|Below(Delayed(s, q), k)| < n) {
      assert t.live[k.jobId] == s.live[k.jobId];
    }
  }

  lemma FailedLeft(s: State, q: Queue, max: nat)
    ensures Failed(AfterPurge(s, q, max), q) == {} <==>
            Failed(s, q) == {} || |Line(s, q)| + |Delayed(s, q)| + |Failed(s, q)| <= max
  {
    hide KeyLess, Line, Delayed;
    var t := AfterPurge(s, q, max);
    var n := max - |Line(s, q)| - |Delayed(s, q)|;
    RankReach(Failed(s, q), n);
    forall k | k in Failed(s, q) ensures k in Failed(t, q) || |Below(Failed(s, q), k)| < n {
      assert k.jobId in t.dead ==> LetterKey(t, k.jobId) == k;
    }
    forall k | k in Failed(t, q) ensures k in Failed(s, q) && !(|Below(Failed(s, q), k)| < n) {
      assert k == LetterKey(s, k.jobId);
    }
  }

  lemma RecordsLeft(s: State, q: Queue, max: nat)
    ensures Records(AfterPurge(s, q, max), q) == {} <==> Records(s, q) == {} || Owned(s, q) <= max
  {
    hide KeyLess, Line, Delayed, Failed;
    var t := AfterPurge(s, q, max);
    var n := max - |Line(s, q)| - |Delayed(s, q)| - |Failed(s, q)|;
    RankReach(Records(s, q), n);
    forall k | k in Records(s, q) ensures k in Records(t, q) || |Below(Records(s, q), k)| < n {
      var dk := DedupKey(k.queue, k.idempotencyKey);
      assert RecordKey(s, dk) == k;
      assert dk in t.dedup ==> RecordKey(t, dk) == k;
    }
    forall k | k in Records(t, q) ensures k in Records(s, q) && !(|Below(Records(s, q), k)| < n) {
      var dk := DedupKey(k.queue, k.idempotencyKey);
      assert RecordKey(s, dk) == k;
    }
  }

  /** A leased job keeps the queue. Otherwise the chunk discards as many as it holds, those in line first,
      then the scheduled, the dead letters and the dedup records, each from its front; it counts them, says
      whether any were too many for it, and changes nothing else. */
  lemma PurgeDoes(s: State, q: Queue, max: nat)
    ensures if exists id :: id in s.live && s.live[id].queue == q && s.live[id].place.Leased?
            then Does(s, PurgeOp(q, max), HasInflight, s)
            else Does(s, PurgeOp(q, max), Purged(if Owned(s, q) <= max then Owned(s, q) else max, Owned(s, q) > max),
                      AfterPurge(s, q, max))
  {
    hide Run, AfterPurge, PurgeMoves, Line, Delayed, Failed, Records;
    hide ReadyKeys, ScheduledKeys, DeadKeys, DedupTimerKeys, LeaseKeys;
    if id :| id in s.live && s.live[id].queue == q && s.live[id].place.Leased? {
      assert InLeases(s, TimerKey(s.live[id].place.expiry, id));
      assert TimerKey(s.live[id].place.expiry, id) in OwnedBy(s, LeaseKeys(s), q);
      RunNone(s);
    } else {
      assert OwnedBy(s, LeaseKeys(s), q) == {} by {
        forall k ensures k !in OwnedBy(s, LeaseKeys(s), q) {}
      }
      PurgeRun(s, q, max);
      OwnedAre(AfterPurge(s, q, max), q);
      LineLeft(s, q, max);
      DelayedLeft(s, q, max);
      FailedLeft(s, q, max);
      RecordsLeft(s, q, max);
    }
  }
}
