/** Paging: `peek_keys` over the ready and timer indexes and `list_audit` over the audit
    log, and what a caller who follows the cursor gets to see. */
module Cursor {
  import opened Bytes
  import opened Keys
  import opened Listing
  import opened Machine
  import opened Tables

  const PeekLimitMax: nat := 100
  const PeekExamineCap: nat := 10_000
  const AuditScanCap: nat := 1_000

  datatype Page = Page(keys: seq<Key>, next: Option<Key>, truncated: bool)

  function Clamp(limit: nat): (r: nat)
    ensures r == if limit < 1 then 1 else if limit > 100 then 100 else limit
  {
    Max(1, Min(limit, PeekLimitMax))
  }

  /** The keys past a cursor: where a range that excludes it starts. */
  function Past(ks: set<Key>, cursor: Option<Key>): set<Key> {
    if cursor.None? then ks else set k | k in ks && KeyLess(cursor.value, k)
  }

  lemma PastNothing(ks: set<Key>)
    ensures Past(ks, None) == ks
  {
  }

  /** Moving the cursor to a listed key leaves the listing's tail. */
  lemma PastListed(ks: set<Key>, cursor: Option<Key>, n: nat)
    requires var l := Sorted(Past(ks, cursor)); 0 < n <= |l|
    ensures var l := Sorted(Past(ks, cursor)); Sorted(Past(ks, Some(l[n - 1]))) == l[n..]
  {
    var s := Past(ks, cursor);
    var l := Sorted(s);
    var c := l[n - 1];
    SortedAscends(s);
    SortedContents(s);
    assert l[n - 1] in l;
    forall k ensures k in l[n..] <==> k in Past(ks, Some(c)) {
      if k in l[n..] {
        var i :| n <= i < |l| && l[i] == k;
        assert l[i] in l;
      } else if k in Past(ks, Some(c)) {
        if cursor.Some? { KeyOrder(cursor.value, c, k); }
        assert k in l;
        var i :| 0 <= i < |l| && l[i] == k;
        KeyOrder(c, k, c);
      }
    }
    SortedUnique(l[n..], Past(ks, Some(c)));
  }

  // ---- Timer indexes ----------------------------------------------------------------------

  /** The keys of a listing filed under the queue. */
  function Mine(l: seq<Key>, owners: map<Key, Queue>, q: Queue): seq<Key> {
    if l == [] then []
    else Mine(l[..|l| - 1], owners, q)
         + if l[|l| - 1] in owners && owners[l[|l| - 1]] == q then [l[|l| - 1]] else []
  }

  lemma NoneMine(owners: map<Key, Queue>, q: Queue)
    ensures Mine([], owners, q) == []
  {
  }

  lemma {:induction false} MineConcat(a: seq<Key>, b: seq<Key>, owners: map<Key, Queue>, q: Queue)
    ensures Mine(a + b, owners, q) == Mine(a, owners, q) + Mine(b, owners, q)
  {
    if b == [] {
      assert a + b == a;
    } else {
      MineConcat(a, b[..|b| - 1], owners, q);
      assert (a + b)[..|a + b| - 1] == a + b[..|b| - 1];
    }
  }

  lemma {:induction false} MineMembers(l: seq<Key>, owners: map<Key, Queue>, q: Queue, k: Key)
    ensures k in Mine(l, owners, q) <==> k in l && k in owners && owners[k] == q
  {
    if l != [] {
      MineMembers(l[..|l| - 1], owners, q, k);
      assert l == l[..|l| - 1] + [l[|l| - 1]];
    }
  }

  lemma {:induction false} MineAscends(l: seq<Key>, owners: map<Key, Queue>, q: Queue)
    requires Ascending(l)
    ensures Ascending(Mine(l, owners, q))
  {
    if l != [] {
      var front := l[..|l| - 1];
      MineAscends(front, owners, q);
      var m := Mine(front, owners, q);
      forall i | 0 <= i < |m| ensures KeyLess(m[i], l[|l| - 1]) {
        MineMembers(front, owners, q, m[i]);
        assert m[i] in front;
      }
    }
  }

  /** Filtering the listing lists the queue's own keys. */
  lemma MineListed(owners: map<Key, Queue>, q: Queue)
    ensures Mine(Sorted(owners.Keys), owners, q) == Sorted(OwnedKeys(owners, q))
  {
    var l := Sorted(owners.Keys);
    SortedAscends(owners.Keys);
    SortedContents(owners.Keys);
    MineAscends(l, owners, q);
    forall k ensures k in Mine(l, owners, q) <==> k in OwnedKeys(owners, q) { MineMembers(l, owners, q, k); }
    SortedUnique(Mine(l, owners, q), OwnedKeys(owners, q));
  }

  /** The page that examines exactly the first `n` keys past the cursor. */
  ghost predicate Examines(page: Page, rest: seq<Key>, n: nat, owners: map<Key, Queue>, q: Queue, limit: nat)
    requires n <= |rest| && limit >= 1
  {
    && page.keys == Mine(rest[..n], owners, q) && n <= 10_000
    && (page.next.None? ==> n == |rest| && |page.keys| < limit && !page.truncated)
    && (page.next.Some? ==> 0 < n && page.next.value == rest[n - 1])
    && (page.next.Some? && !page.truncated ==> |page.keys| == limit && page.keys[limit - 1] == rest[n - 1])
    && (page.truncated ==> page.next.Some? && n == 10_000 < |rest| && |page.keys| < limit)
  }

  /** `peek_keys` for scheduled, inflight and dead-letter: the queue's keys among those
      examined, up to a full page or the examine cap. */
  method PeekTimers(owners: map<Key, Queue>, q: Queue, cursor: Option<Key>, limit: nat) returns (page: Page)
    ensures var rest := Sorted(Past(owners.Keys, cursor));
            exists n :: 0 <= n <= |rest| && Examines(page, rest, n, owners, q, Clamp(limit))
  {
    hide Sorted, KeyLess, Clamp;
    var lim := Clamp(limit);
    var rest := ListInOrder(Past(owners.Keys, cursor));
    SortedContents(Past(owners.Keys, cursor));
    var keys, i := [], 0;
    while i < |rest|
      invariant i <= |rest| && i <= PeekExamineCap && |keys| < lim
      invariant keys == Mine(rest[..i], owners, q)
    {
      if i == PeekExamineCap {
        page := Page(keys, Some(rest[i - 1]), true);
        assert Examines(page, rest, i, owners, q, lim);
        return;
      }
      assert rest[..i + 1][..i] == rest[..i];
      assert rest[i] in rest;
      if owners[rest[i]] == q {
        keys := keys + [rest[i]];
        if |keys| == lim {
          page := Page(keys, Some(rest[i]), false);
          assert Examines(page, rest, i + 1, owners, q, lim);
          return;
        }
      }
      i := i + 1;
    }
    assert rest[..i] == rest;
    page := Page(keys, None, false);
    assert Examines(page, rest, i, owners, q, lim);
  }

  /** Follow the cursor from the start over an unchanging index: it ends, and every key of the
      queue came up once, in order. */
  method WalkTimers(owners: map<Key, Queue>, q: Queue, limit: nat) returns (all: seq<Key>)
    ensures all == Sorted(OwnedKeys(owners, q))
  {
    hide Sorted, KeyLess, Clamp, Mine;
    all := [];
    var cursor, more := None, true;
    NoneMine(owners, q);
    MineListed(owners, q);
    assert Past(owners.Keys, None) == owners.Keys;
    while more
      invariant more ==> all + Mine(Sorted(Past(owners.Keys, cursor)), owners, q) == Sorted(OwnedKeys(owners, q))
      invariant !more ==> all == Sorted(OwnedKeys(owners, q))
      decreases more, |Sorted(Past(owners.Keys, cursor))|
    {
      ghost var rest := Sorted(Past(owners.Keys, cursor));
      var page := PeekTimers(owners, q, cursor, limit);
      ghost var n :| 0 <= n <= |rest| && Examines(page, rest, n, owners, q, Clamp(limit));
      MineConcat(rest[..n], rest[n..], owners, q);
      assert rest[..n] + rest[n..] == rest;
      all := all + page.keys;
      if page.next.None? {
        assert rest[n..] == [];
        more := false;
      } else {
        PastListed(owners.Keys, cursor, n);
        cursor := page.next;
      }
    }
  }

  // ---- The ready index ------------------------------------------------------------------------

  function RankPrefix(q: Queue): seq<int> {
    [0, |q|] + q
  }

  /** Where the ready range starts: past the cursor, or at the queue's prefix. */
  function ReadyFrom(ks: set<Key>, q: Queue, cursor: Option<Key>): set<Key> {
    set k | k in ks && if cursor.Some? then KeyLess(cursor.value, k) else !Lex(Rank(k), RankPrefix(q))
  }

  /** The leading keys that carry the queue's prefix. */
  function Leading(l: seq<Key>, q: Queue): seq<Key>
    requires forall i :: 0 <= i < |l| ==> l[i].ReadyKey?
  {
    if l != [] && l[0].queue == q then [l[0]] + Leading(l[1..], q) else []
  }

  /** The queue's own ready keys. */
  function OfQueue(ks: set<Key>, q: Queue): set<Key> {
    set k | k in ks && k.ReadyKey? && k.queue == q
  }

  lemma PrefixNamesQueue(k: Key, q: Queue)
    requires k.ReadyKey? && StartsWith(Rank(k), RankPrefix(q))
    ensures k.queue == q
  {
    var p := RankPrefix(q);
    assert Rank(k)[1] == Rank(k)[..|p|][1] == p[1];
    assert Rank(k)[2..2 + |q|] == k.queue;
    assert Rank(k)[..|p|][2..] == p[2..] == q;
  }

  lemma PrefixedRank(k: Key, q: Queue)
    requires k.ReadyKey? && k.queue == q
    ensures !Lex(Rank(k), RankPrefix(q))
  {
    var x: seq<int> := [9 - k.priority, k.enqueuedAt] + k.jobId;
    assert Rank(k) == RankPrefix(q) + x;
    PrefixFirst(RankPrefix(q), x);
  }

  /** Between the prefix and a key of the queue there are only keys of the queue. */
  lemma QueueIsContiguous(a: Key, b: Key, q: Queue)
    requires a.ReadyKey? && b.ReadyKey? && b.queue == q && KeyLess(a, b) && !Lex(Rank(a), RankPrefix(q))
    ensures a.queue == q
  {
    var p := RankPrefix(q);
    var x: seq<int> := [9 - b.priority, b.enqueuedAt] + b.jobId;
    assert Rank(b) == p + x;
    PrefixConvex(Rank(a), p, x);
    PrefixNamesQueue(a, q);
  }

  lemma {:induction false} LeadingIsPrefix(l: seq<Key>, q: Queue)
    requires forall i :: 0 <= i < |l| ==> l[i].ReadyKey?
    ensures Leading(l, q) <= l
    ensures |Leading(l, q)| < |l| ==> l[|Leading(l, q)|].queue != q
    ensures forall i :: 0 <= i < |Leading(l, q)| ==> l[i].queue == q
  {
    if l != [] && l[0].queue == q { LeadingIsPrefix(l[1..], q); }
  }

  /** From the queue's prefix, or from one of its own keys, the leading keys are all its keys. */
  lemma LeadingIsMine(ks: set<Key>, q: Queue, cursor: Option<Key>)
    requires (forall k :: k in ks ==> k.ReadyKey?)
    requires (cursor.Some? ==> cursor.value.ReadyKey? && cursor.value.queue == q)
    ensures forall k :: k in Sorted(ReadyFrom(ks, q, cursor)) ==> k.ReadyKey?
    ensures Leading(Sorted(ReadyFrom(ks, q, cursor)), q) == Sorted(Past(OfQueue(ks, q), cursor))
  {
    hide Sorted, Rank, Lex, Leading;
    var from := ReadyFrom(ks, q, cursor);
    var l := Sorted(from);
    SortedAscends(from);
    SortedContents(from);
    assert forall i :: 0 <= i < |l| ==> l[i] in l;
    var lead := Leading(l, q);
    LeadingIsPrefix(l, q);
    forall k | k in lead ensures k in Past(OfQueue(ks, q), cursor) {
      var i :| 0 <= i < |lead| && lead[i] == k;
      assert l[i] in from;
    }
    forall k | k in Past(OfQueue(ks, q), cursor) ensures k in lead {
      PrefixedRank(k, q);
      assert k in l;
      var j :| 0 <= j < |l| && l[j] == k;
      if |lead| < j {
        FromIsPastPrefix(l[|lead|], ks, q, cursor);
        QueueIsContiguous(l[|lead|], k, q);
      }
      assert lead[j] == k;
    }
    SortedUnique(lead, Past(OfQueue(ks, q), cursor));
  }

  lemma FromIsPastPrefix(k: Key, ks: set<Key>, q: Queue, cursor: Option<Key>)
    requires k in ReadyFrom(ks, q, cursor) && (cursor.Some? ==> cursor.value.ReadyKey? && cursor.value.queue == q)
    ensures !Lex(Rank(k), RankPrefix(q))
  {
    if cursor.Some? {
      var c := cursor.value;
      PrefixedRank(c, q);
      if Lex(Rank(k), RankPrefix(q)) {
        LexTotal(Rank(c), RankPrefix(q));
        if Rank(c) != RankPrefix(q) { LexTransitive(Rank(k), RankPrefix(q), Rank(c)); }
        KeyOrder(c, k, c);
      }
    }
  }

  /** `peek_keys` for ready: a page of the leading keys, with a cursor only if more follow. */
  method PeekReady(ks: set<Key>, q: Queue, cursor: Option<Key>, limit: nat) returns (page: Page)
    requires forall k :: k in ks ==> k.ReadyKey?
    ensures forall k :: k in Sorted(ReadyFrom(ks, q, cursor)) ==> k.ReadyKey?
    ensures var lead := Leading(Sorted(ReadyFrom(ks, q, cursor)), q);
            page == Page(Take(lead, Clamp(limit)),
                         if |lead| > Clamp(limit) then Some(lead[Clamp(limit) - 1]) else None, false)
  {
    hide Sorted, Rank, Lex, Clamp, Leading;
    var lim := Clamp(limit);
    var l := ListInOrder(ReadyFrom(ks, q, cursor));
    SortedContents(ReadyFrom(ks, q, cursor));
    assert forall i :: 0 <= i < |l| ==> l[i] in l;
    LeadingIsPrefix(l, q);
    var i := 0;
    while i < |l| && i < lim && l[i].queue == q
      invariant i <= |l| && i <= lim && i <= |Leading(l, q)|
    {
      i := i + 1;
    }
    var more := i == lim && i < |l| && l[i].queue == q;
    page := Page(l[..i], if more then Some(l[i - 1]) else None, false);
  }

  /** A full page moves the cursor to its last key, and the rest of the queue is past it. */
  lemma PageAdvances(ks: set<Key>, q: Queue, cursor: Option<Key>, n: nat)
    requires n >= 1
    ensures var rest := Sorted(Past(OfQueue(ks, q), cursor));
            |rest| > n ==> Sorted(Past(OfQueue(ks, q), Some(rest[n - 1]))) == rest[n..] && rest[n - 1] in OfQueue(ks, q)
  {
    hide Sorted;
    var rest := Sorted(Past(OfQueue(ks, q), cursor));
    if |rest| > n {
      PastListed(OfQueue(ks, q), cursor, n);
      SortedContents(Past(OfQueue(ks, q), cursor));
      assert rest[n - 1] in rest;
    }
  }

  /** From the start, or from a key of the queue: the next page of its own keys, and the rest
      of them past the cursor. */
  method PeekOwn(ks: set<Key>, q: Queue, cursor: Option<Key>, limit: nat) returns (page: Page, ghost n: nat)
    requires (forall k :: k in ks ==> k.ReadyKey?) && (cursor.Some? ==> cursor.value in OfQueue(ks, q))
    ensures var rest := Sorted(Past(OfQueue(ks, q), cursor));
            && n <= |rest| && page.keys == rest[..n]
            && (page.next.None? ==> n == |rest|)
            && (page.next.Some? ==> 0 < n && page.next.value in OfQueue(ks, q))
            && (page.next.Some? ==> Sorted(Past(OfQueue(ks, q), page.next)) == rest[n..])
  {
    hide Sorted, KeyLess, Clamp, Leading, ReadyFrom, Past;
    page := PeekReady(ks, q, cursor, limit);
    LeadingIsMine(ks, q, cursor);
    PageAdvances(ks, q, cursor, Clamp(limit));
    n := |page.keys|;
  }

  /** Following the cursor lists the queue's ready keys, each once and in order. */
  method WalkReady(ks: set<Key>, q: Queue, limit: nat) returns (all: seq<Key>)
    requires forall k :: k in ks ==> k.ReadyKey?
    ensures all == Sorted(OfQueue(ks, q))
  {
    hide Sorted, OfQueue, Past;
    all := [];
    var cursor, more := None, true;
    PastNothing(OfQueue(ks, q));
    while more
      invariant more ==> all + Sorted(Past(OfQueue(ks, q), cursor)) == Sorted(OfQueue(ks, q))
      invariant !more ==> all == Sorted(OfQueue(ks, q))
      invariant cursor.Some? ==> cursor.value in OfQueue(ks, q)
      decreases more, |Sorted(Past(OfQueue(ks, q), cursor))|
    {
      ghost var rest := Sorted(Past(OfQueue(ks, q), cursor));
      var page, n := PeekOwn(ks, q, cursor, limit);
      assert rest == rest[..n] + rest[n..];
      all := all + page.keys;
      if page.next.None? { more := false; } else { cursor := page.next; }
    }
  }

  // ---- The audit log --------------------------------------------------------------------------

  datatype AuditPage = AuditPage(entries: seq<(nat, AuditEntry)>, nextBefore: Option<nat>)

  /** The matching entries numbered above `lo` and up to `hi`, newest first. */
  function Found(log: seq<AuditEntry>, hi: nat, lo: nat, wanted: AuditEntry -> bool): seq<(nat, AuditEntry)>
    requires hi <= |log|
    decreases if lo < hi then hi - lo else 0
  {
    if hi <= lo then []
    else Found(log, hi, lo + 1, wanted) + if wanted(log[lo]) then [(lo + 1, log[lo])] else []
  }

  lemma {:induction false} FoundSplit(log: seq<AuditEntry>, hi: nat, mid: nat, lo: nat, wanted: AuditEntry -> bool)
    requires lo <= mid <= hi <= |log|
    ensures Found(log, hi, lo, wanted) == Found(log, hi, mid, wanted) + Found(log, mid, lo, wanted)
    decreases mid - lo
  {
    if lo < mid { FoundSplit(log, hi, mid, lo + 1, wanted); }
  }

  /** The newest entry before a cursor. */
  function Top(log: seq<AuditEntry>, before: Option<nat>): (r: nat)
    ensures r <= |log|
  {
    if before.None? then |log| else Min(|log|, if before.value == 0 then 0 else before.value - 1)
  }

  /** `list_audit` over entries numbered 1 to n: the wanted ones among those scanned. */
  method ListAudit(log: seq<AuditEntry>, before: Option<nat>, limit: nat,
                   wanted: AuditEntry -> bool) returns (page: AuditPage)
    ensures limit >= 1 && page.nextBefore.None? ==> page.entries == Found(log, Top(log, before), 0, wanted)
    ensures limit >= 1 && page.nextBefore.Some? ==>
              2 <= page.nextBefore.value <= Top(log, before) && page.entries == Found(log, Top(log, before),
                                                                                      page.nextBefore.value - 1, wanted)
    ensures |page.entries| <= limit
    ensures limit >= 1 && page.nextBefore.Some? ==>
              |page.entries| == limit || Top(log, before) - page.nextBefore.value + 1 == 1_000
    ensures limit == 0 ==> page == AuditPage([], if Top(log, before) > 0 then Some(0) else None)
  {
    var entries, last := [], 0;
    var scanned := 0;
    var top := Top(log, before);
    while scanned < top
      invariant scanned <= top && last == (if scanned == 0 then 0 else top - scanned + 1)
      invariant entries == Found(log, top, top - scanned, wanted)
      invariant |entries| <= limit && scanned <= AuditScanCap && (limit == 0 ==> scanned == 0)
    {
      if |entries| >= limit || scanned >= AuditScanCap { return AuditPage(entries, Some(last)); }
      last := top - scanned;
      if wanted(log[last - 1]) { entries := entries + [(last, log[last - 1])]; }
      scanned := scanned + 1;
    }
    page := AuditPage(entries, None);
  }

  /** Following `next_before` shows every wanted entry once, newest first, exactly when the
      page limit is positive (or there was nothing to show). */
  method WalkAudit(log: seq<AuditEntry>, limit: nat, wanted: AuditEntry -> bool) returns (all: seq<(nat, AuditEntry)>)
    ensures all == Found(log, |log|, 0, wanted) <==> limit >= 1 || Found(log, |log|, 0, wanted) == []
  {
    hide Found;
    all := [];
    var before, more := None, true;
    while more
      invariant limit >= 1 && more ==> all + Found(log, Top(log, before), 0, wanted) == Found(log, |log|, 0, wanted)
      invariant limit >= 1 && !more ==> all == Found(log, |log|, 0, wanted)
      invariant limit == 0 ==> all == []
      decreases more, Top(log, before), before.None?
    {
      var page := ListAudit(log, before, limit, wanted);
      all := all + page.entries;
      if page.nextBefore.None? {
        more := false;
      } else {
        FoundSplit(log, Top(log, before), Top(log, page.nextBefore), 0, wanted);
        before := page.nextBefore;
      }
    }
  }
}
