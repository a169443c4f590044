/** `ReadyIndex` and `TimerIndex`: an ordered map of keys plus a counter per queue. */
module Tables {
  import opened Bytes
  import opened Keys
  import opened Listing
  import opened Machine

  // ---- Per-queue counters ------------------------------------------------------

  function OwnedKeys(owners: map<Key, Queue>, q: Queue): set<Key> {
    set k | k in owners && owners[k] == q
  }

  /** Each queue's counter is the number of its keys; a queue without keys has none. */
  ghost predicate Tallied(byQueue: map<Queue, nat>, owners: map<Key, Queue>) {
    forall q :: Lookup(byQueue, q) == Counter(|OwnedKeys(owners, q)|)
  }

  function Counter(n: nat): Option<nat> {
    if n == 0 then None else Some(n)
  }

  function Count(byQueue: map<Queue, nat>, q: Queue): nat {
    if q in byQueue then byQueue[q] else 0
  }

  function Bump(byQueue: map<Queue, nat>, q: Queue): map<Queue, nat> {
    byQueue[q := Count(byQueue, q) + 1]
  }

  function Drop(byQueue: map<Queue, nat>, q: Queue): map<Queue, nat> {
    if q !in byQueue then byQueue
    else if byQueue[q] <= 1 then byQueue - {q}
    else byQueue[q := byQueue[q] - 1]
  }

  lemma BumpTallies(byQueue: map<Queue, nat>, owners: map<Key, Queue>, k: Key, q: Queue)
    requires Tallied(byQueue, owners) && k !in owners
    ensures Tallied(Bump(byQueue, q), owners[k := q])
  {
    forall p ensures Lookup(Bump(byQueue, q), p) == Counter(|OwnedKeys(owners[k := q], p)|) {
      assert Lookup(byQueue, p) == Counter(|OwnedKeys(owners, p)|);
      if p == q {
        assert OwnedKeys(owners[k := q], p) == OwnedKeys(owners, p) + {k};
      } else {
        assert OwnedKeys(owners[k := q], p) == OwnedKeys(owners, p);
      }
    }
  }

  lemma DropTallies(byQueue: map<Queue, nat>, owners: map<Key, Queue>, k: Key)
    requires Tallied(byQueue, owners) && k in owners
    ensures Tallied(Drop(byQueue, owners[k]), owners - {k})
  {
    var q := owners[k];
    forall p ensures Lookup(Drop(byQueue, q), p) == Counter(|OwnedKeys(owners - {k}, p)|) {
      assert Lookup(byQueue, p) == Counter(|OwnedKeys(owners, p)|);
      if p == q {
        assert k in OwnedKeys(owners, p);
        assert OwnedKeys(owners - {k}, p) == OwnedKeys(owners, p) - {k};
      } else {
        assert OwnedKeys(owners - {k}, p) == OwnedKeys(owners, p);
      }
    }
  }

  /** Equal keys mean equal counters. */
  lemma TallyUnique(a: map<Queue, nat>, b: map<Queue, nat>, owners: map<Key, Queue>)
    requires Tallied(a, owners) && Tallied(b, owners)
    ensures a == b
  {
    forall q ensures Lookup(a, q) == Lookup(b, q) {
      assert Lookup(a, q) == Counter(|OwnedKeys(owners, q)|);
    }
    forall q ensures q in a <==> q in b { assert Lookup(a, q) == Lookup(b, q); }
    forall q | q in a ensures a[q] == b[q] { assert Lookup(a, q) == Lookup(b, q); }
  }

  /** The counters a rebuild arrives at. */
  ghost function Tally(owners: map<Key, Queue>): map<Queue, nat> {
    map q | q in owners.Values :: |OwnedKeys(owners, q)|
  }

  lemma TallyTallies(owners: map<Key, Queue>)
    ensures Tallied(Tally(owners), owners)
  {
    forall q ensures Lookup(Tally(owners), q) == Counter(|OwnedKeys(owners, q)|) {
      if q in owners.Values {
        var k :| k in owners && owners[k] == q;
        assert k in OwnedKeys(owners, q);
      } else {
        assert OwnedKeys(owners, q) == {};
      }
    }
  }

  /** Right counters are the rebuilt ones. */
  lemma TalliedIs(byQueue: map<Queue, nat>, owners: map<Key, Queue>)
    requires Tallied(byQueue, owners)
    ensures byQueue == Tally(owners)
  {
    hide Tallied, Tally;
    TallyTallies(owners);
    TallyUnique(byQueue, Tally(owners), owners);
  }

  lemma CountIs(byQueue: map<Queue, nat>, owners: map<Key, Queue>, q: Queue)
    requires Tallied(byQueue, owners)
    ensures Count(byQueue, q) == |OwnedKeys(owners, q)|
    ensures q in byQueue <==> OwnedKeys(owners, q) != {}
  {
    assert Lookup(byQueue, q) == Counter(|OwnedKeys(owners, q)|);
  }

  /** The least of a set of keys, found by looking at each once. */
  method FindLeast(ks: set<Key>) returns (least: Key)
    requires ks != {}
    ensures least == Least(ks)
  {
    least :| least in ks;
    var todo := ks - {least};
    while todo != {}
      invariant todo <= ks && least in ks && least !in todo
      invariant forall x :: x in ks && x !in todo && x != least ==> KeyLess(least, x)
      decreases todo
    {
      var k :| k in todo;
      todo := todo - {k};
      KeyOrder(least, k, least);
      if KeyLess(k, least) {
        forall x | x in ks && x !in todo && x != k && x != least ensures KeyLess(k, x) {
          KeyOrder(k, least, x);
        }
        least := k;
      }
    }
    LeastIs(ks, least);
  }

  /** Iterating a BTreeMap: its keys in order. */
  method ListInOrder(ks: set<Key>) returns (l: seq<Key>)
    ensures l == Sorted(ks)
  {
    hide Sorted;
    l := [];
    var todo := ks;
    SortedEnds(ks);
    while todo != {}
      invariant l + Sorted(todo) == Sorted(ks)
      decreases todo
    {
      var k := FindLeast(todo);
      SortedEnds(todo);
      assert l + Sorted(todo) == (l + [k]) + Sorted(todo - {k});
      l := l + [k];
      todo := todo - {k};
    }
    SortedEnds(todo);
  }

  // ---- ReadyIndex ---------------------------------------------------------------

  class ReadyIndex {
    var keys: map<Key, nat>
    var byQueue: map<Queue, nat>

    ghost function Owners(): map<Key, Queue>
      reads this
    {
      map k | k in keys :: if k.ReadyKey? then k.queue else []
    }

    ghost predicate Valid()
      reads this
    {
      (forall k :: k in keys ==> k.ReadyKey?) && Tallied(byQueue, Owners())
    }

    constructor ()
      ensures Valid() && keys == map[]
    {
      keys, byQueue := map[], map[];
      new;
      forall q ensures Lookup(byQueue, q) == Counter(|OwnedKeys(Owners(), q)|) {
        assert OwnedKeys(Owners(), q) == {};
      }
    }

    /** Read back from disk, whatever was here before. */
    method Load(rows: map<Key, nat>)
      requires forall k :: k in rows ==> k.ReadyKey?
      modifies this
      ensures Valid() && keys == rows
    {
      keys, byQueue := map[], map[];
      forall q ensures Lookup(byQueue, q) == Counter(|OwnedKeys(Owners(), q)|) { assert OwnedKeys(Owners(), q) == {}; }
      var todo := rows.Keys;
      while todo != {}
        invariant Valid() && todo <= rows.Keys && keys.Keys == rows.Keys - todo
        invariant forall k :: k in keys ==> keys[k] == rows[k]
        decreases todo
      {
        var k :| k in todo;
        Insert(k, rows[k]);
        todo := todo - {k};
      }
    }

    method Insert(k: Key, attempt: nat)
      requires Valid() && k.ReadyKey?
      modifies this
      ensures Valid() && keys == old(keys)[k := attempt]
    {
      ghost var was := Owners();
      if k !in keys {
        BumpTallies(byQueue, was, k, k.queue);
        byQueue := Bump(byQueue, k.queue);
      }
      keys := keys[k := attempt];
      assert Owners() == was[k := k.queue];
      assert k in old(keys) ==> Owners() == was;
    }

    /** The queue's first key: its most urgent, oldest job. */
    method Front(q: Queue) returns (r: Option<(Key, nat)>)
      requires Valid()
      ensures r.None? <==> OwnedKeys(Owners(), q) == {}
      ensures r.Some? ==>
                r.value.0 == Least(OwnedKeys(Owners(), q)) && r.value.0 in keys && r.value.1 == keys[r.value.0]
    {
      var mine := set k | k in keys && k.queue == q;
      assert mine == OwnedKeys(Owners(), q);
      if mine == {} { return None; }
      var k := FindLeast(mine);
      r := Some((k, keys[k]));
    }

    method Remove(k: Key)
      requires Valid()
      modifies this
      ensures Valid() && keys == old(keys) - {k}
    {
      ghost var was := Owners();
      if k in keys {
        DropTallies(byQueue, was, k);
        keys := keys - {k};
        byQueue := Drop(byQueue, k.queue);
        assert Owners() == was - {k};
      }
      assert k !in old(keys) ==> old(keys) - {k} == old(keys);
    }
  }

  // ---- TimerIndex ----------------------------------------------------------------

  class TimerIndex {
    var keys: map<Key, Queue>
    var byQueue: map<Queue, nat>

    ghost predicate Valid()
      reads this
    {
      Tallied(byQueue, keys)
    }

    constructor ()
      ensures Valid() && keys == map[]
    {
      keys, byQueue := map[], map[];
      new;
      forall q ensures Lookup(byQueue, q) == Counter(|OwnedKeys(keys, q)|) {
        assert OwnedKeys(keys, q) == {};
      }
    }

    method Load(rows: map<Key, Queue>)
      modifies this
      ensures Valid() && keys == rows
    {
      keys, byQueue := map[], map[];
      forall q ensures Lookup(byQueue, q) == Counter(|OwnedKeys(keys, q)|) { assert OwnedKeys(keys, q) == {}; }
      var todo := rows.Keys;
      while todo != {}
        invariant Valid() && todo <= rows.Keys && keys.Keys == rows.Keys - todo
        invariant forall k :: k in keys ==> keys[k] == rows[k]
        decreases todo
      {
        var k :| k in todo;
        Insert(k, rows[k]);
        todo := todo - {k};
      }
    }

    /** A key already present must be re-inserted under its own queue: the counter is
        not moved. */
    method Insert(k: Key, q: Queue)
      requires Valid() && (k in keys ==> keys[k] == q)
      modifies this
      ensures Valid() && keys == old(keys)[k := q]
    {
      if k !in keys {
        BumpTallies(byQueue, keys, k, q);
        byQueue := Bump(byQueue, q);
      }
      keys := keys[k := q];
      assert k in old(keys) ==> keys == old(keys);
    }

    method Remove(k: Key)
      requires Valid()
      modifies this
      ensures Valid() && keys == old(keys) - {k}
    {
      if k in keys {
        DropTallies(byQueue, keys, k);
        byQueue := Drop(byQueue, keys[k]);
        keys := keys - {k};
      }
      assert k !in old(keys) ==> old(keys) - {k} == old(keys);
    }

    /** The earliest key, if it is due. */
    method FirstDue(now: int) returns (r: Option<Key>)
      requires Valid() && forall k, k' :: k in keys && k' in keys ==> !k.ReadyKey? && SameKeyspace(k, k')
      ensures r.None? ==> forall k :: k in keys ==> DeadlineOf(k) > now
      ensures r.Some? ==> r.value in keys && r.value == Least(keys.Keys) && DeadlineOf(r.value) <= now
    {
      if keys.Keys == {} { return None; }
      var k := FindLeast(keys.Keys);
      if DeadlineOf(k) > now {
        forall x | x in keys && x != k ensures DeadlineOf(x) > now { TimerOrder(k, x); }
        return None;
      }
      r := Some(k);
    }

    /** A queue's first keys. */
    method FirstOfQueue(q: Queue, n: nat) returns (l: seq<Key>)
      ensures l == Take(Sorted(OwnedKeys(keys, q)), n)
    {
      l := ListInOrder(set k | k in keys && keys[k] == q);
      l := if n < |l| then l[..n] else l;
    }
  }
}
