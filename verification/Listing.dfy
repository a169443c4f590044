/** A finite set of keys listed in key order: what iterating a BTreeMap yields. */
module Listing {
  import opened Bytes
  import opened Keys

  lemma {:induction false} LeastExists(s: set<Key>) returns (k: Key)
    requires s != {}
    ensures k in s && forall x :: x in s && x != k ==> KeyLess(k, x)
  {
    k :| k in s;
    if s != {k} {
      var m := LeastExists(s - {k});
      KeyOrder(k, m, k);
      if KeyLess(k, m) {
        forall x | x in s && x != k ensures KeyLess(k, x) {
          if x != m { KeyOrder(k, m, x); }
        }
      } else {
        k := m;
      }
    }
  }

  ghost function Least(s: set<Key>): (k: Key)
    requires s != {}
    ensures k in s && forall x :: x in s && x != k ==> KeyLess(k, x)
  {
    LeastWitness(s);
    var k :| k in s && forall x :: x in s && x != k ==> KeyLess(k, x);
    k
  }

  lemma LeastWitness(s: set<Key>)
    requires s != {}
    ensures exists k :: k in s && forall x :: x in s && x != k ==> KeyLess(k, x)
  {
    var k := LeastExists(s);
  }

  lemma LeastIs(s: set<Key>, k: Key)
    requires k in s && forall x :: x in s && x != k ==> KeyLess(k, x)
    ensures Least(s) == k
  {
    if Least(s) != k { KeyOrder(k, Least(s), k); }
  }

  ghost predicate Ascending(l: seq<Key>) {
    forall i, j :: 0 <= i < j < |l| ==> KeyLess(l[i], l[j])
  }

  /** The elements of `s`, least first. */
  ghost function Sorted(s: set<Key>): seq<Key>
    decreases |s|
  {
    if s == {} then [] else [Least(s)] + Sorted(s - {Least(s)})
  }

  lemma SortedEnds(s: set<Key>)
    ensures s == {} ==> Sorted(s) == []
    ensures s != {} ==> Sorted(s) == [Least(s)] + Sorted(s - {Least(s)})
  {
  }

  lemma {:induction false} SortedContents(s: set<Key>)
    ensures |Sorted(s)| == |s|
    ensures forall k :: k in Sorted(s) <==> k in s
    decreases |s|
  {
    if s != {} {
      SortedContents(s - {Least(s)});
    }
  }

  lemma {:induction false} SortedAscends(s: set<Key>)
    ensures Ascending(Sorted(s))
    decreases |s|
  {
    if s != {} {
      var rest := Sorted(s - {Least(s)});
      SortedAscends(s - {Least(s)});
      SortedContents(s - {Least(s)});
      forall j | 0 <= j < |rest| ensures KeyLess(Least(s), rest[j]) {
        assert rest[j] in rest;
      }
    }
  }

  lemma AscendingDistinct(l: seq<Key>)
    requires Ascending(l)
    ensures forall i, j :: 0 <= i < j < |l| ==> l[i] != l[j]
  {
    forall i, j | 0 <= i < j < |l| ensures l[i] != l[j] {
      KeyOrder(l[i], l[j], l[i]);
    }
  }

  /** The listing is determined by its contents: any ascending enumeration is it. */
  lemma {:induction false} SortedUnique(l: seq<Key>, s: set<Key>)
    requires Ascending(l) && forall k :: k in l <==> k in s
    ensures l == Sorted(s)
    decreases |l|
  {
    if l == [] {
      assert forall x :: x in s ==> x in l;
      assert s == {};
    } else {
      var h, t := l[0], l[1..];
      assert l == [h] + t;
      AscendingDistinct(l);
      forall x | x in s && x != h ensures KeyLess(h, x) { assert x in l; }
      LeastIs(s, h);
      assert forall k :: k in t <==> k in s - {h} by {
        forall k | k in t ensures k != h {}
        forall k | k in s - {h} ensures k in t { assert k in l; }
      }
      SortedUnique(t, s - {h});
    }
  }

  /** Taking the least off the front leaves the listing of the rest. */
  lemma SortedPop(s: set<Key>, n: nat)
    requires s != {} && n > 0
    ensures Take(Sorted(s), n) == [Least(s)] + Take(Sorted(s - {Least(s)}), n - 1)
  {
  }

  lemma TakeOfAscending(l: seq<Key>, n: nat)
    requires Ascending(l)
    ensures Ascending(Take(l, n))
    ensures |Take(l, n)| == Min(n, |l|)
    ensures forall k :: k in Take(l, n) ==> k in l
    ensures forall x, i :: x in l && x !in Take(l, n) && 0 <= i < |Take(l, n)| ==> KeyLess(Take(l, n)[i], x)
  {
    var t := Take(l, n);
    forall x, i | x in l && x !in t && 0 <= i < |t| ensures KeyLess(t[i], x) {
      var j :| 0 <= j < |l| && l[j] == x;
      assert KeyLess(l[i], l[j]);
    }
  }

  /** The first `n` keys of a set: `min(n, |s|)` distinct members, in order, each
      below every member left out. */
  lemma TakeIsEarliest(s: set<Key>, n: nat)
    ensures var t := Take(Sorted(s), n);
            && Ascending(t) && |t| == Min(n, |s|)
            && (forall i, j :: 0 <= i < j < |t| ==> t[i] != t[j])
            && (forall k :: k in t ==> k in s)
            && (forall x, i :: x in s && x !in t && 0 <= i < |t| ==> KeyLess(t[i], x))
  {
    SortedAscends(s);
    SortedContents(s);
    TakeOfAscending(Sorted(s), n);
    AscendingDistinct(Take(Sorted(s), n));
  }

  /** The members of `s` before `k`. */
  function Below(s: set<Key>, k: Key): set<Key> {
    set x | x in s && KeyLess(x, k)
  }

  function Elements(l: seq<Key>): set<Key> {
    set k | k in l
  }

  lemma {:induction false} DistinctSize(l: seq<Key>)
    requires forall i, j :: 0 <= i < j < |l| ==> l[i] != l[j]
    ensures |Elements(l)| == |l|
  {
    if l != [] {
      var (front, last) := (l[..|l| - 1], l[|l| - 1]);
      DistinctSize(front);
      assert Elements(l) == Elements(front) + {last} by {
        forall k | k in l ensures k in front || k == last {
          var i :| 0 <= i < |l| && l[i] == k;
          if i < |front| { assert front[i] == k; }
        }
      }
      assert last !in front;
    } else {
      assert Elements(l) == {};
    }
  }

  /** A key's place in the listing is the number of keys before it. */
  lemma PlaceIsRank(s: set<Key>, i: nat)
    requires i < |Sorted(s)|
    ensures Sorted(s)[i] in s && |Below(s, Sorted(s)[i])| == i
  {
    hide Sorted, KeyLess;
    var l := Sorted(s);
    SortedAscends(s);
    SortedContents(s);
    AscendingDistinct(l);
    assert l[i] in l;
    DistinctSize(l[..i]);
    forall x | x in Below(s, l[i]) ensures x in Elements(l[..i]) {
      assert x in l;
      var j :| 0 <= j < |l| && l[j] == x;
      KeyOrder(l[i], x, l[i]);
      assert l[..i][j] == x;
    }
    forall x | x in Elements(l[..i]) ensures x in Below(s, l[i]) {
      var j :| 0 <= j < i && l[..i][j] == x;
      assert l[j] in l;
    }
    assert Elements(l[..i]) == Below(s, l[i]);
  }

  /** The first `n` keys are those with fewer than `n` before them. */
  lemma TakeByRank(s: set<Key>, n: nat, k: Key)
    ensures k in Take(Sorted(s), n) <==> k in s && |Below(s, k)| < n
  {
    hide Sorted, KeyLess;
    var l := Sorted(s);
    SortedContents(s);
    if k in s {
      assert k in l;
      var i :| 0 <= i < |l| && l[i] == k;
      PlaceIsRank(s, i);
      if i < n {
        assert Take(l, n)[i] == k;
      } else if k in Take(l, n) {
        var j :| 0 <= j < |Take(l, n)| && Take(l, n)[j] == k;
        PlaceIsRank(s, j);
      }
    }
  }
}
