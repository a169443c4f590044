/** What a sweep does: each timer that is due and among the earliest fires, once, and nothing else. */
module SweepPromises {
  import opened Bytes
  import opened Keys
  import opened Listing
  import opened Machine
  import opened Ops
  import opened Legality
  import opened Sweeping
  import opened Lockstep
  import opened Promises
  import opened LetterPromises
  import opened PurgePromises

  // ---- What is due -----------------------------------------------------------------------------------

  function DelayTimers(s: State): set<Key> {
    set id | id in s.live && s.live[id].place.Scheduled? :: TimerKey(s.live[id].place.deadline, id)
  }

  function LeaseTimers(s: State): set<Key> {
    set id | id in s.live && s.live[id].place.Leased? :: TimerKey(s.live[id].place.expiry, id)
  }

  function RecordTimers(s: State): set<Key> {
    set dk | dk in s.dedup :: RecordKey(s, dk)
  }

  function LetterTimers(s: State): set<Key> {
    set id | id in s.dead :: LetterKey(s, id)
  }

  /** Scheduled jobs whose time has come, with fewer than `budget` scheduled jobs before them. */
  function Ripe(s: State, now: int, budget: nat): set<Id> {
    set id | id in s.live && s.live[id].place.Scheduled? && s.live[id].place.deadline <= now
             && |Below(DelayTimers(s), TimerKey(s.live[id].place.deadline, id))| < budget
  }

  /** Leases that are over, with fewer than `budget` leases before them. */
  function Lapsed(s: State, now: int, budget: nat): set<Id> {
    set id | id in s.live && s.live[id].place.Leased? && s.live[id].place.expiry <= now
             && |Below(LeaseTimers(s), TimerKey(s.live[id].place.expiry, id))| < budget
  }

  /** Dedup records that answer no more, with fewer than `budget` records before them. */
  function Stale(s: State, now: int, budget: nat): set<DedupKey> {
    set dk | dk in s.dedup && s.dedup[dk].deadline <= now && |Below(RecordTimers(s), RecordKey(s, dk))| < budget
  }

  /** Letters that failed at or before the cutoff, with fewer than `budget` letters before them. */
  function Old(s: State, cutoff: int, budget: nat): set<Id> {
    set id | id in s.dead && s.dead[id].failedAt <= cutoff && |Below(LetterTimers(s), LetterKey(s, id))| < budget
  }

  predicate Spent(j: Job) {
    j.place.attempt >= j.body.maxAttempts
  }

  // ---- What becomes of it ------------------------------------------------------------------------------

  /** Ripe jobs are in line; lapsed leases are in line for another attempt, if one is left. */
  function LiveAfterSweep(s: State, ripe: set<Id>, lapsed: set<Id>): map<Id, Job> {
    map id | id in s.live && !(id in lapsed && Spent(s.live[id])) ::
      if id in ripe then s.live[id].(place := Ready(s.live[id].place.attempt))
      else if id in lapsed then s.live[id].(place := Ready(s.live[id].place.attempt + 1))
      else s.live[id]
  }

  /** The letters of the jobs whose last attempt lapsed. */
  function NewLetters(s: State, lapsed: set<Id>, now: int): map<Id, Dead> {
    map id | id in lapsed && id in s.live && Spent(s.live[id]) ::
      Dead(s.live[id].queue, s.live[id].body, s.live[id].enqueuedAt, s.live[id].scheduledAt, now,
           s.live[id].place.attempt, LeaseExpired, None)
  }

  /** The tombstones still standing. */
  function Unclosed(s: State, now: int): map<Queue, int> {
    map q | q in s.closing && s.closing[q] > now :: s.closing[q]
  }

  /** All but the retirement of old letters. */
  function TimersFired(s: State, now: int, budget: nat, keep: bool): State {
    var (ripe, lapsed) := (Ripe(s, now, budget), Lapsed(s, now, budget));
    s.(live := LiveAfterSweep(s, ripe, lapsed),
       dead := if keep then s.dead + NewLetters(s, lapsed, now) else s.dead,
       dedup := s.dedup - Stale(s, now, budget),
       closing := Unclosed(s, now))
  }

  function Retired(s: State, cutoff: Option<int>, budget: nat): set<Id> {
    if cutoff.None? then {} else Old(s, cutoff.value, budget)
  }

  function AfterSweep(s: State, now: int, budget: nat, cutoff: Option<int>, keep: bool): State {
    var t := TimersFired(s, now, budget, keep);
    t.(dead := t.dead - Retired(t, cutoff, budget))
  }

  // ---- Picking the due ---------------------------------------------------------------------------------

  lemma TimersAre(s: State)
    ensures DelayTimers(s) == ScheduledKeys(s) && LeaseTimers(s) == LeaseKeys(s)
    ensures RecordTimers(s) == DedupTimerKeys(s) && LetterTimers(s) == DeadKeys(s)
  {
    forall k ensures k in DelayTimers(s) <==> InScheduled(s, k) {}
    forall k ensures k in LeaseTimers(s) <==> InLeases(s, k) {}
    forall k ensures k in LetterTimers(s) <==> InDead(s, k) {}
    forall k ensures k in RecordTimers(s) <==> InDedupTimers(s, k) {
      if InDedupTimers(s, k) { assert k == RecordKey(s, DedupKey(k.queue, k.idempotencyKey)); }
    }
  }

  /** What is before a due timer is due. */
  lemma DueByRank(ks: set<Key>, now: int, n: nat, k: Key)
    requires Timers(ks)
    ensures k in DueHead(ks, now, n) <==> k in ks && DeadlineOf(k) <= now && |Below(ks, k)| < n
  {
    hide KeyLess, Sorted;
    TakeByRank(DueBy(ks, now), n, k);
    if k in DueBy(ks, now) {
      forall x | x in Below(ks, k) ensures x in Below(DueBy(ks, now), k) {
        if DeadlineOf(k) < DeadlineOf(x) { TimerOrder(k, x); KeyOrder(x, k, x); }
      }
      assert Below(ks, k) == Below(DueBy(ks, now), k);
    }
  }

  lemma {:induction false} IdsCount(ks: seq<Key>)
    requires forall i, j :: 0 <= i < j < |ks| ==> JobIdOf(ks[i]) != JobIdOf(ks[j])
    ensures |IdsIn(ks)| == |ks|
  {
    if ks == [] {
      assert IdsIn(ks) == {};
    } else {
      var (front, k) := (ks[..|ks| - 1], ks[|ks| - 1]);
      IdsCount(front);
      assert IdsIn(ks) == IdsIn(front) + {JobIdOf(k)};
      assert JobIdOf(k) !in IdsIn(front);
    }
  }

  lemma {:induction false} PinsCount(ks: seq<Key>)
    requires DistinctIn(ks) && forall i :: 0 <= i < |ks| ==> ks[i].DedupTimerKey?
    requires forall i, j :: 0 <= i < j < |ks| ==>
               DedupKey(ks[i].queue, ks[i].idempotencyKey) != DedupKey(ks[j].queue, ks[j].idempotencyKey)
    ensures |PinsOf(ks)| == |ks|
  {
    if ks == [] {
      assert PinsOf(ks) == {};
    } else {
      var (front, k) := (ks[..|ks| - 1], ks[|ks| - 1]);
      PinsCount(front);
      var dk := DedupKey(k.queue, k.idempotencyKey);
      assert PinsOf(ks) == PinsOf(front) + {dk};
      assert dk !in PinsOf(front);
    }
  }

  lemma RipePicked(s: State, now: int, n: nat)
    ensures var ks := DueHead(ScheduledKeys(s), now, n); IdsIn(ks) == Ripe(s, now, n) && |ks| == |Ripe(s, now, n)|
  {
    hide KeyLess, DueHead, ScheduledKeys;
    var ks := DueHead(ScheduledKeys(s), now, n);
    TimersAre(s);
    DueSelects(ScheduledKeys(s), now, n);
    IdsCount(ks);
    forall id ensures id in IdsIn(ks) <==> id in Ripe(s, now, n) {
      if id in IdsIn(ks) {
        var i :| 0 <= i < |ks| && JobIdOf(ks[i]) == id;
        assert ks[i] in ks && ks[i] == TimerKey(s.live[id].place.deadline, id);
        DueByRank(ScheduledKeys(s), now, n, ks[i]);
      }
      if id in Ripe(s, now, n) {
        var k := TimerKey(s.live[id].place.deadline, id);
        DueByRank(ScheduledKeys(s), now, n, k);
        var i :| 0 <= i < |ks| && ks[i] == k;
        assert JobIdOf(ks[i]) == id;
      }
    }
    assert IdsIn(ks) == Ripe(s, now, n);
  }

  lemma LapsedPicked(s: State, now: int, n: nat)
    ensures var ks := DueHead(LeaseKeys(s), now, n); IdsIn(ks) == Lapsed(s, now, n) && |ks| == |Lapsed(s, now, n)|
  {
    hide KeyLess, DueHead, LeaseKeys;
    var ks := DueHead(LeaseKeys(s), now, n);
    TimersAre(s);
    DueSelects(LeaseKeys(s), now, n);
    IdsCount(ks);
    forall id ensures id in IdsIn(ks) <==> id in Lapsed(s, now, n) {
      if id in IdsIn(ks) {
        var i :| 0 <= i < |ks| && JobIdOf(ks[i]) == id;
        assert ks[i] in ks && ks[i] == TimerKey(s.live[id].place.expiry, id);
        DueByRank(LeaseKeys(s), now, n, ks[i]);
      }
      if id in Lapsed(s, now, n) {
        var k := TimerKey(s.live[id].place.expiry, id);
        DueByRank(LeaseKeys(s), now, n, k);
        var i :| 0 <= i < |ks| && ks[i] == k;
        assert JobIdOf(ks[i]) == id;
      }
    }
    assert IdsIn(ks) == Lapsed(s, now, n);
  }

  lemma OldPicked(s: State, cutoff: int, n: nat)
    ensures var ks := DueHead(DeadKeys(s), cutoff, n); IdsIn(ks) == Old(s, cutoff, n) && |ks| == |Old(s, cutoff, n)|
  {
    hide KeyLess, DueHead, DeadKeys;
    var ks := DueHead(DeadKeys(s), cutoff, n);
    TimersAre(s);
    DueSelects(DeadKeys(s), cutoff, n);
    IdsCount(ks);
    forall id ensures id in IdsIn(ks) <==> id in Old(s, cutoff, n) {
      if id in IdsIn(ks) {
        var i :| 0 <= i < |ks| && JobIdOf(ks[i]) == id;
        assert ks[i] in ks && ks[i] == LetterKey(s, id);
        DueByRank(DeadKeys(s), cutoff, n, ks[i]);
      }
      if id in Old(s, cutoff, n) {
        DueByRank(DeadKeys(s), cutoff, n, LetterKey(s, id));
        var i :| 0 <= i < |ks| && ks[i] == LetterKey(s, id);
        assert JobIdOf(ks[i]) == id;
      }
    }
    assert IdsIn(ks) == Old(s, cutoff, n);
  }

  lemma StalePicked(s: State, now: int, n: nat)
    ensures var ks := DueHead(DedupTimerKeys(s), now, n);
            && (forall i :: 0 <= i < |ks| ==> ks[i].DedupTimerKey?)
            && PinsOf(ks) == Stale(s, now, n) && |ks| == |Stale(s, now, n)|
  {
    hide KeyLess, DueHead, DedupTimerKeys;
    var ks := DueHead(DedupTimerKeys(s), now, n);
    TimersAre(s);
    DueSelects(DedupTimerKeys(s), now, n);
    PinsCount(ks);
    forall dk ensures dk in PinsOf(ks) <==> dk in Stale(s, now, n) {
      if dk in PinsOf(ks) {
        var i :| 0 <= i < |ks| && DedupKey(ks[i].queue, ks[i].idempotencyKey) == dk;
        assert ks[i] in ks && ks[i] == RecordKey(s, dk);
        DueByRank(DedupTimerKeys(s), now, n, ks[i]);
      }
      if dk in Stale(s, now, n) {
        DueByRank(DedupTimerKeys(s), now, n, RecordKey(s, dk));
        var i :| 0 <= i < |ks| && ks[i] == RecordKey(s, dk);
        assert DedupKey(ks[i].queue, ks[i].idempotencyKey) == dk;
      }
    }
    assert PinsOf(ks) == Stale(s, now, n);
  }

  // ---- Runs of promotions and expiries -----------------------------------------------------------------

  lemma PromoteOne(s: State, id: Id, now: int)
    requires IsScheduled(s, id) && s.live[id].place.deadline <= now
    ensures Step(s, Promote(id, now)) == s.(live := LiveAfterSweep(s, {id}, {}))
  {
    if id !in s.dead { assert Put(s.dead, id, None) == s.dead; }
    assert Put(s.live, id, LiveAfter(s, Promote(id, now))) == LiveAfterSweep(s, {id}, {});
  }

  lemma PromoteMore(s: State, ids: set<Id>, id: Id)
    requires id in s.live && id !in ids
    ensures var t := s.(live := LiveAfterSweep(s, ids, {}));
            id in t.live && t.live[id] == s.live[id]
            && LiveAfterSweep(t, {id}, {}) == LiveAfterSweep(s, ids + {id}, {})
  {
  }

  lemma NothingSweeps(s: State, now: int)
    ensures LiveAfterSweep(s, {}, {}) == s.live && s.dead + NewLetters(s, {}, now) == s.dead
  {
    assert NewLetters(s, {}, now) == map[];
  }

  lemma {:induction false} PromotesRun(s: State, ks: seq<Key>, now: int)
    requires (forall i :: 0 <= i < |ks| ==> InScheduled(s, ks[i]) && ks[i].deadline <= now) && DistinctIn(ks)
    ensures Run(s, Promotes(ks, now)) == s.(live := LiveAfterSweep(s, IdsIn(ks), {}))
  {
    hide Run, Step, LiveAfterSweep;
    if ks == [] {
      RunNone(s);
      assert Promotes(ks, now) == [] && IdsIn(ks) == {};
      NothingSweeps(s, now);
    } else {
      var (front, k) := (ks[..|ks| - 1], ks[|ks| - 1]);
      PromotesRun(s, front, now);
      assert ks == front + [k];
      PromoteSnoc(s, front, k, now);
      var t := Run(s, Promotes(front, now));
      RunOne(t, Promote(k.jobId, now));
      assert k.jobId !in IdsIn(front);
      PromoteMore(s, IdsIn(front), k.jobId);
      PromoteOne(t, k.jobId, now);
      assert IdsIn(ks) == IdsIn(front) + {k.jobId};
    }
  }

  function Expired(s: State, ids: set<Id>, now: int, keep: bool): State {
    s.(live := LiveAfterSweep(s, {}, ids), dead := if keep then s.dead + NewLetters(s, ids, now) else s.dead)
  }

  lemma ExpireOne(s: State, id: Id, now: int, keep: bool)
    requires IsLeased(s, id) && s.live[id].place.expiry <= now
    ensures Step(s, Expire(id, now, keep)) == Expired(s, {id}, now, keep)
  {
    var m := Expire(id, now, keep);
    assert Put(s.live, id, LiveAfter(s, m)) == LiveAfterSweep(s, {}, {id});
    assert Put(s.dead, id, DeadAfter(s, m)) == Expired(s, {id}, now, keep).dead;
  }

  lemma LiveMore(s: State, ids: set<Id>, id: Id, t: State)
    requires id in s.live && id !in ids && t.live == LiveAfterSweep(s, {}, ids)
    ensures id in t.live && t.live[id] == s.live[id]
    ensures LiveAfterSweep(t, {}, {id}) == LiveAfterSweep(s, {}, ids + {id})
  {
  }

  lemma LettersMore(s: State, ids: set<Id>, id: Id, now: int, t: State)
    requires id in s.live && id in t.live && t.live[id] == s.live[id]
    ensures s.dead + NewLetters(s, ids, now) + NewLetters(t, {id}, now) == s.dead + NewLetters(s, ids + {id}, now)
  {
    assert NewLetters(s, ids, now) + NewLetters(t, {id}, now) == NewLetters(s, ids + {id}, now);
  }

  lemma ExpireMore(s: State, ids: set<Id>, id: Id, now: int, keep: bool)
    requires id in s.live && id !in ids
    ensures var t := Expired(s, ids, now, keep);
            id in t.live && t.live[id] == s.live[id] && Expired(t, {id}, now, keep) == Expired(s, ids + {id}, now, keep)
  {
    hide LiveAfterSweep, NewLetters;
    var t := Expired(s, ids, now, keep);
    LiveMore(s, ids, id, t);
    LettersMore(s, ids, id, now, t);
  }

  lemma {:induction false} ExpiresRun(s: State, ks: seq<Key>, now: int, keep: bool)
    requires (forall i :: 0 <= i < |ks| ==> InLeases(s, ks[i]) && ks[i].deadline <= now) && DistinctIn(ks)
    ensures Run(s, Expires(ks, now, keep)) == Expired(s, IdsIn(ks), now, keep)
  {
    hide Run, Step, LiveAfterSweep, NewLetters;
    if ks == [] {
      RunNone(s);
      assert Expires(ks, now, keep) == [] && IdsIn(ks) == {};
      NothingSweeps(s, now);
    } else {
      var (front, k) := (ks[..|ks| - 1], ks[|ks| - 1]);
      ExpiresRun(s, front, now, keep);
      assert ks == front + [k];
      ExpireSnoc(s, front, k, now, keep);
      var t := Run(s, Expires(front, now, keep));
      RunOne(t, Expire(k.jobId, now, keep));
      assert k.jobId !in IdsIn(front);
      ExpireMore(s, IdsIn(front), k.jobId, now, keep);
      ExpireOne(t, k.jobId, now, keep);
      assert IdsIn(ks) == IdsIn(front) + {k.jobId};
    }
  }

  // ---- One sweep ---------------------------------------------------------------------------------------

  lemma ClosingRun(s: State, now: int)
    ensures Run(s, ClosingPhase(s, now)) == s.(closing := Unclosed(s, now))
  {
    RunOne(s, ExpireClosing(now));
    RunNone(s);
    assert Unclosed(s, now) == Unexpired(s, now);
  }

  /** What is due depends on its own table only. */
  lemma DueFollows(s: State, t: State, now: int, n: nat)
    ensures s.live == t.live ==> Ripe(t, now, n) == Ripe(s, now, n) && Lapsed(t, now, n) == Lapsed(s, now, n)
    ensures s.dedup == t.dedup ==> Stale(t, now, n) == Stale(s, now, n)
  {
    if s.live == t.live { assert DelayTimers(t) == DelayTimers(s) && LeaseTimers(t) == LeaseTimers(s); }
    if s.dedup == t.dedup { assert RecordTimers(t) == RecordTimers(s); }
  }

  /** Promotion leaves the leases as they were. */
  lemma LapsedFollows(s: State, t: State, now: int, n: nat)
    requires t.live == LiveAfterSweep(s, Ripe(s, now, n), {})
    ensures Lapsed(t, now, n) == Lapsed(s, now, n)
  {
    forall id ensures id in t.live && t.live[id].place.Leased? <==> id in s.live && s.live[id].place.Leased?
      ensures id in s.live && s.live[id].place.Leased? ==> id in t.live && t.live[id] == s.live[id]
    {}
    assert LeaseTimers(t) == LeaseTimers(s) by {
      forall k ensures k in LeaseTimers(t) <==> k in LeaseTimers(s) {}
    }
  }

  /** Promoting and then expiring is both at once: no job is scheduled and leased. */
  lemma BothAtOnce(s: State, t: State, now: int, n: nat)
    requires t.live == LiveAfterSweep(s, Ripe(s, now, n), {})
    ensures LiveAfterSweep(t, {}, Lapsed(s, now, n)) == LiveAfterSweep(s, Ripe(s, now, n), Lapsed(s, now, n))
    ensures NewLetters(t, Lapsed(s, now, n), now) == NewLetters(s, Lapsed(s, now, n), now)
  {
    forall id | id in Lapsed(s, now, n) ensures id in t.live && t.live[id] == s.live[id] {}
  }

  lemma TimersRun(s: State, now: int, budget: nat, keep: bool)
    ensures var ms := TimerMoves(s, now, budget, keep);
            && Run(s, ms) == TimersFired(s, now, budget, keep)
            && |ms| == |ClosingPhase(s, now)| + |Ripe(s, now, budget)| + |Lapsed(s, now, budget)|
                       + |Stale(s, now, budget)|
  {
    hide Run, DueHead, ScheduledKeys, LeaseKeys, DedupTimerKeys, DeadKeys, LiveAfterSweep, NewLetters;
    hide Ripe, Lapsed, Stale, ClosingPhase;
    var a := ClosingPhase(s, now);
    var s1 := Run(s, a);
    ClosingRun(s, now);
    DueFollows(s, s1, now, budget);
    var ks := DueHead(ScheduledKeys(s1), now, budget);
    DueSelects(ScheduledKeys(s1), now, budget);
    RipePicked(s1, now, budget);
    PromotesRun(s1, ks, now);
    RunConcat(s, a, Promotes(ks, now));
    var b := a + Promotes(ks, now);
    var s2 := Run(s, b);
    SameSweep(s, s1, Ripe(s, now, budget), {}, now);
    LapsedFollows(s, s2, now, budget);
    DueFollows(s1, s2, now, budget);
    var ls := DueHead(LeaseKeys(s2), now, budget);
    DueSelects(LeaseKeys(s2), now, budget);
    LapsedPicked(s2, now, budget);
    ExpiresRun(s2, ls, now, keep);
    RunConcat(s, b, Expires(ls, now, keep));
    BothAtOnce(s, s2, now, budget);
    var c := b + Expires(ls, now, keep);
    var s3 := Run(s, c);
    DueFollows(s2, s3, now, budget);
    var ps := DueHead(DedupTimerKeys(s3), now, budget);
    DueSelects(DedupTimerKeys(s3), now, budget);
    StalePicked(s3, now, budget);
    ForgetsRun(s3, ps, Some(now));
    RunConcat(s, c, Forgets(ps, Some(now)));
  }

  lemma SameSweep(s: State, t: State, ripe: set<Id>, lapsed: set<Id>, now: int)
    requires s.live == t.live
    ensures LiveAfterSweep(t, ripe, lapsed) == LiveAfterSweep(s, ripe, lapsed)
    ensures NewLetters(t, lapsed, now) == NewLetters(s, lapsed, now)
  {
  }

  /** A sweep puts ripe jobs in line, ends lapsed leases, forgets stale records, reopens queues and retires
      old letters, at most `budget` of each kind but the queues, the earliest first, and counts them. */
  lemma SweepDoes(s: State, now: int, budget: nat, cutoff: Option<int>, keep: bool)
    ensures var t := TimersFired(s, now, budget, keep);
            var count := |Ripe(s, now, budget)| + |Lapsed(s, now, budget)| + |Stale(s, now, budget)|
                         + |Retired(t, cutoff, budget)|;
            Does(s, SweepOp(now, budget, cutoff, keep), Swept(count), AfterSweep(s, now, budget, cutoff, keep))
  {
    hide Run, DueHead, ScheduledKeys, LeaseKeys, DedupTimerKeys, DeadKeys, TimersFired, TimerMoves, ClosingPhase;
    hide Ripe, Lapsed, Stale, Old;
    var t := TimersFired(s, now, budget, keep);
    TimersRun(s, now, budget, keep);
    if cutoff.Some? {
      var ks := DueHead(DeadKeys(t), cutoff.value, budget);
      DueSelects(DeadKeys(t), cutoff.value, budget);
      OldPicked(t, cutoff.value, budget);
      DropAllRun(t, ks);
      RunConcat(s, TimerMoves(s, now, budget, keep), DropDeads(ks));
    } else {
      assert t.dead - {} == t.dead;
    }
  }
}
