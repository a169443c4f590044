/** What a drain takes: the oldest wanted letters within the scan, and nothing else. */
module LetterPromises {
  import opened Bytes
  import opened Keys
  import opened Listing
  import opened Machine
  import opened Ops
  import opened Legality
  import opened Lockstep
  import opened Promises

  // ---- Letters in order ---------------------------------------------------------------------------

  function LetterKey(s: State, id: Id): Key
    requires id in s.dead
  {
    DeadLetterKey(s.dead[id].failedAt, s.dead[id].queue, id)
  }

  /** The letters before one in the store's order: failed earlier, or at the same time and before it by
      queue and id. */
  function Older(s: State, id: Id): set<Id>
    requires id in s.dead
  {
    set x | x in s.dead && KeyLess(LetterKey(s, x), LetterKey(s, id))
  }

  lemma OlderFailedEarlier(s: State, id: Id, x: Id)
    requires id in s.dead && x in Older(s, id)
    ensures s.dead[x].failedAt <= s.dead[id].failedAt
  {
    TimerOrder(LetterKey(s, x), LetterKey(s, id));
  }

  lemma LetterKeys(s: State)
    ensures forall id :: id in s.dead ==> LetterKey(s, id) in DeadKeys(s) && JobIdOf(LetterKey(s, id)) == id
    ensures forall k :: k in DeadKeys(s) ==> k.DeadLetterKey? && k.jobId in s.dead && k == LetterKey(s, k.jobId)
  {
  }

  /** Keys of dead letters and the ids they name are equally many. */
  lemma AsManyLetters(s: State, ks: set<Key>, ids: set<Id>)
    requires ks <= DeadKeys(s) && ids <= s.dead.Keys
    requires forall id :: id in s.dead ==> (LetterKey(s, id) in ks <==> id in ids)
    ensures |ks| == |ids|
  {
    LetterKeys(s);
    forall id | id in ids ensures exists k :: k in ks && JobIdOf(k) == id { assert LetterKey(s, id) in ks; }
    AsManyKeysAsIds(ks, ids);
  }

  lemma OlderCounts(s: State, id: Id)
    requires id in s.dead
    ensures |Below(DeadKeys(s), LetterKey(s, id))| == |Older(s, id)|
  {
    hide KeyLess, DeadKeys;
    LetterKeys(s);
    AsManyLetters(s, Below(DeadKeys(s), LetterKey(s, id)), Older(s, id));
  }

  // ---- Drain ----------------------------------------------------------------------------------------

  /** A letter of the wanted queue, if one is wanted, with fewer than `scanCap` letters before it. */
  predicate Eligible(s: State, want: Option<Queue>, scanCap: nat, id: Id) {
    id in s.dead && (want.None? || s.dead[id].queue == want.value) && |Older(s, id)| < scanCap
  }

  function EligibleIds(s: State, want: Option<Queue>, scanCap: nat): set<Id> {
    set id | id in s.dead && Eligible(s, want, scanCap, id)
  }

  /** Eligible, with fewer than `max` eligible letters before it. */
  predicate Taken(s: State, want: Option<Queue>, max: nat, scanCap: nat, id: Id) {
    Eligible(s, want, scanCap, id) && |EligibleIds(s, want, scanCap) * Older(s, id)| < max
  }

  /** The scanned keys that are wanted are the eligible ones, in order. */
  lemma ScannedAreEligible(s: State, want: Option<Queue>, scanCap: nat)
    ensures var all := Sorted(DeadKeys(s));
            var ks := set k | k in DeadKeys(s) && Eligible(s, want, scanCap, k.jobId);
            && (forall i :: 0 <= i < |all| ==> all[i].DeadLetterKey?)
            && Wanted(Take(all, scanCap), want) == Sorted(ks)
  {
    hide KeyLess, Sorted, DeadKeys, Older;
    LetterKeys(s);
    SortedContents(DeadKeys(s));
    var all := Sorted(DeadKeys(s));
    assert forall i :: 0 <= i < |all| ==> all[i] in all;
    var scanned := Take(all, scanCap);
    var ks := set k | k in DeadKeys(s) && Eligible(s, want, scanCap, k.jobId);
    SortedAscends(DeadKeys(s));
    TakeOfAscending(all, scanCap);
    WantedAscends(scanned, want);
    forall k ensures k in Wanted(scanned, want) <==> k in ks {
      WantedMembers(scanned, want, k);
      TakeByRank(DeadKeys(s), scanCap, k);
      if k in DeadKeys(s) { OlderCounts(s, k.jobId); }
    }
    SortedUnique(Wanted(scanned, want), ks);
  }

  lemma EligibleBelow(s: State, want: Option<Queue>, scanCap: nat, id: Id)
    requires id in s.dead
    ensures var ks := set k | k in DeadKeys(s) && Eligible(s, want, scanCap, k.jobId);
            |Below(ks, LetterKey(s, id))| == |EligibleIds(s, want, scanCap) * Older(s, id)|
  {
    hide KeyLess, DeadKeys, Eligible;
    LetterKeys(s);
    var ks := set k | k in DeadKeys(s) && Eligible(s, want, scanCap, k.jobId);
    AsManyLetters(s, Below(ks, LetterKey(s, id)), EligibleIds(s, want, scanCap) * Older(s, id));
  }

  /** Which keys a drain picks. */
  lemma DrainPicks(s: State, want: Option<Queue>, max: nat, scanCap: nat)
    ensures var ks := DrainKeys(s, want, max, scanCap);
            && Ascending(ks) && |ks| <= max && (forall i :: 0 <= i < |ks| ==> InDead(s, ks[i]))
            && forall id :: id in s.dead ==> (LetterKey(s, id) in ks <==> Taken(s, want, max, scanCap, id))
  {
    hide KeyLess, Sorted, DeadKeys, Older, Eligible;
    var ks := DrainKeys(s, want, max, scanCap);
    var es := set k | k in DeadKeys(s) && Eligible(s, want, scanCap, k.jobId);
    ScannedAreEligible(s, want, scanCap);
    DrainLegal(s, want, max, scanCap);
    assert forall i :: 0 <= i < |ks| ==> ks[i] in ks;
    assert ks == Take(Sorted(es), max);
    LetterKeys(s);
    forall id | id in s.dead ensures LetterKey(s, id) in ks <==> Taken(s, want, max, scanCap, id) {
      TakeByRank(es, max, LetterKey(s, id));
      EligibleBelow(s, want, scanCap, id);
    }
  }

  function IdsIn(ks: seq<Key>): set<Id> {
    set i | 0 <= i < |ks| :: JobIdOf(ks[i])
  }

  lemma DropOne(s: State, id: Id)
    requires id in s.dead
    ensures Step(s, DropDead(id)) == s.(dead := s.dead - {id})
  {
    if id !in s.live { assert Put(s.live, id, None) == s.live; }
  }

  lemma {:induction false} DropAllRun(s: State, ks: seq<Key>)
    requires (forall i :: 0 <= i < |ks| ==> InDead(s, ks[i])) && DistinctIn(ks)
    ensures Run(s, DropDeads(ks)) == s.(dead := s.dead - IdsIn(ks))
  {
    if ks == [] {
      RunNone(s);
      assert DropDeads(ks) == [] && IdsIn(ks) == {};
      assert s.dead - {} == s.dead;
    } else {
      var (front, k) := (ks[..|ks| - 1], ks[|ks| - 1]);
      DropAllRun(s, front);
      assert ks == front + [k];
      DropDeadSnoc(s, front, k);
      var t := Run(s, DropDeads(front));
      RunOne(t, DropDead(k.jobId));
      assert k.jobId !in IdsIn(front);
      DropOne(t, k.jobId);
      assert IdsIn(ks) == IdsIn(front) + {k.jobId};
      assert (s.dead - IdsIn(front)) - {k.jobId} == s.dead - IdsIn(ks);
    }
  }

  /** The keys picked name the letters taken. */
  lemma PickedIds(s: State, want: Option<Queue>, max: nat, scanCap: nat, id: Id)
    ensures id in IdsIn(DrainKeys(s, want, max, scanCap)) <==> Taken(s, want, max, scanCap, id)
  {
    hide KeyLess, DrainKeys, DeadKeys;
    var ks := DrainKeys(s, want, max, scanCap);
    DrainPicks(s, want, max, scanCap);
    if id in IdsIn(ks) {
      var i :| 0 <= i < |ks| && JobIdOf(ks[i]) == id;
      assert ks[i] in ks && ks[i] == LetterKey(s, id);
    }
    if Taken(s, want, max, scanCap, id) {
      var i :| 0 <= i < |ks| && ks[i] == LetterKey(s, id);
      assert JobIdOf(ks[i]) == id;
    }
  }

  /** A drain returns exactly the letters taken, oldest first, each as it was stored; they leave the
      store and nothing else changes. */
  lemma DrainDoes(s: State, want: Option<Queue>, max: nat, scanCap: nat)
    ensures var o := PlanOf(s, DrainOp(want, max, scanCap)).outcome;
            && o.Drained? && |o.letters| <= max
            && (forall i :: 0 <= i < |o.letters| ==>
                  o.letters[i].id in s.dead && o.letters[i].record == s.dead[o.letters[i].id]
                  && Taken(s, want, max, scanCap, o.letters[i].id))
            && (forall id :: Taken(s, want, max, scanCap, id) ==>
                  exists i :: 0 <= i < |o.letters| && o.letters[i].id == id)
            && (forall i, j :: 0 <= i < j < |o.letters| ==> o.letters[i].id in Older(s, o.letters[j].id))
            && Apply(s, DrainOp(want, max, scanCap))
               == s.(dead := s.dead - set id | id in s.dead && Taken(s, want, max, scanCap, id))
  {
    hide KeyLess, DrainKeys, DeadKeys, Run, Taken;
    var ks := DrainKeys(s, want, max, scanCap);
    DrainPicks(s, want, max, scanCap);
    AscendingDistinct(ks);
    DropAllRun(s, ks);
    var o := PlanOf(s, DrainOp(want, max, scanCap)).outcome;
    forall i | 0 <= i < |ks| ensures LetterKey(s, ks[i].jobId) == ks[i] && o.letters[i].id == ks[i].jobId {}
    forall id ensures id in IdsIn(ks) <==> Taken(s, want, max, scanCap, id) { PickedIds(s, want, max, scanCap, id); }
    TakenAreDead(s, want, max, scanCap);
    assert IdsIn(ks) == set id | id in s.dead && Taken(s, want, max, scanCap, id);
  }

  lemma TakenAreDead(s: State, want: Option<Queue>, max: nat, scanCap: nat)
    ensures forall id :: Taken(s, want, max, scanCap, id) ==> id in s.dead
  {
  }
}
