/** The ordered maps as they are stored, keyed by encoded bytes, and that they find exactly the
    keys the machine picks. */
module ByteIndex {
  import opened Bytes
  import opened Keys
  import opened Listing
  import opened Machine
  import opened Ops
  import opened Tables
  import opened Scheduling
  import opened Lockstep
  import opened Cursor
  import opened Encoding

  // ---- Byte strings in order -------------------------------------------------------------------

  lemma ByteOrder(a: Bytes, b: Bytes, c: Bytes)
    ensures !Lex(a, a)
    ensures Lex(a, b) || a == b || Lex(b, a)
    ensures Lex(a, b) && Lex(b, c) ==> Lex(a, c)
    ensures Lex(a, b) ==> !Lex(b, a)
  {
    LexIrreflexive(a);
    LexTotal(a, b);
    if Lex(a, b) && Lex(b, c) { LexTransitive(a, b, c); }
    LexAsymmetric(b, a);
  }

  predicate IsFirst(b: Bytes, bs: set<Bytes>) {
    b in bs && forall c :: c in bs && c != b ==> Lex(b, c)
  }

  lemma FirstIsUnique(a: Bytes, b: Bytes, bs: set<Bytes>)
    requires IsFirst(a, bs) && IsFirst(b, bs)
    ensures a == b
  {
    hide Lex;
    ByteOrder(a, b, a);
  }

  /** The first of a set of byte strings, found by looking at each once. */
  method FindFirst(bs: set<Bytes>) returns (first: Bytes)
    requires bs != {}
    ensures IsFirst(first, bs)
  {
    hide Lex;
    first :| first in bs;
    var todo := bs - {first};
    while todo != {}
      invariant todo <= bs && first in bs && first !in todo
      invariant forall x :: x in bs && x !in todo && x != first ==> Lex(first, x)
      decreases todo
    {
      var b :| b in todo;
      todo := todo - {b};
      ByteOrder(first, b, first);
      if Lex(b, first) {
        forall x | x in bs && x !in todo && x != b && x != first ensures Lex(b, x) { ByteOrder(b, first, x); }
        first := b;
      }
    }
  }

  // ---- Encoded keys -----------------------------------------------------------------------------

  /** Keys of one keyspace, all encodable: what an ordered map holds. */
  ghost predicate Ordered(ks: set<Key>) {
    (forall k :: k in ks ==> Encodable(k)) && forall a, b :: a in ks && b in ks ==> SameKeyspace(a, b)
  }

  function Encoded(ks: set<Key>): set<Bytes> {
    set k | k in ks :: Encode(k)
  }

  lemma EncodeInjective(ks: set<Key>, a: Key, b: Key)
    requires Ordered(ks) && a in ks && b in ks
    ensures Encode(a) == Encode(b) ==> a == b
    ensures Lex(Encode(a), Encode(b)) == KeyLess(a, b)
  {
    hide Lex, Encode, Encodable;
    EncodeOrder(a, b);
    EncodeOrder(b, a);
    KeyOrder(a, b, a);
    ByteOrder(Encode(a), Encode(a), Encode(a));
  }

  /** The first encoded key is the encoding of the least key. */
  lemma FirstIsLeast(ks: set<Key>, b: Bytes)
    requires Ordered(ks) && ks != {} && IsFirst(b, Encoded(ks))
    ensures b == Encode(Least(ks))
  {
    hide Lex, Encode, KeyLess, Encodable;
    var least := Encode(Least(ks));
    forall c | c in Encoded(ks) && c != least ensures Lex(least, c) {
      var k :| k in ks && Encode(k) == c;
      EncodeInjective(ks, Least(ks), k);
    }
    FirstIsUnique(b, least, Encoded(ks));
  }

  function EncodeAll(l: seq<Key>): seq<Bytes> {
    seq(|l|, i requires 0 <= i < |l| => Encode(l[i]))
  }

  ghost predicate BytesAscend(l: seq<Bytes>) {
    forall i, j :: 0 <= i < j < |l| ==> Lex(l[i], l[j])
  }

  /** Any ascending enumeration of the encoded keys, as iterating the map yields one, is the
      encoding of the keys in key order. */
  lemma {:induction false} BytesListKeysInOrder(l: seq<Bytes>, ks: set<Key>)
    requires Ordered(ks) && BytesAscend(l) && forall b :: b in l <==> b in Encoded(ks)
    ensures l == EncodeAll(Sorted(ks))
    decreases |l|
  {
    hide Lex, Encode, KeyLess, Sorted;
    SortedEnds(ks);
    if l == [] {
      NoKeys(l, ks);
    } else {
      var (h, t) := (l[0], l[1..]);
      assert l == [h] + t && h in l;
      HeadIsFirst(l, Encoded(ks));
      assert ks != {} by { var k :| k in ks && Encode(k) == h; }
      FirstIsLeast(ks, h);
      TailEncodes(l, ks);
      BytesListKeysInOrder(t, ks - {Least(ks)});
      assert EncodeAll(Sorted(ks)) == [h] + EncodeAll(Sorted(ks - {Least(ks)}));
    }
  }

  lemma NoKeys(l: seq<Bytes>, ks: set<Key>)
    requires forall b :: b in l <==> b in Encoded(ks)
    ensures ks != {} ==> l != []
  {
    hide Encode;
    if k :| k in ks { assert Encode(k) in l; }
  }

  lemma HeadIsFirst(l: seq<Bytes>, bs: set<Bytes>)
    requires l != [] && BytesAscend(l) && forall b :: b in l <==> b in bs
    ensures IsFirst(l[0], bs)
  {
    hide Lex;
    forall c | c in bs && c != l[0] ensures Lex(l[0], c) {
      assert c in l;
      var i :| 0 <= i < |l| && l[i] == c;
    }
  }

  lemma TailEncodes(l: seq<Bytes>, ks: set<Key>)
    requires Ordered(ks) && ks != {} && l != [] && BytesAscend(l) && l[0] == Encode(Least(ks))
    requires forall b :: b in l <==> b in Encoded(ks)
    ensures BytesAscend(l[1..]) && forall b :: b in l[1..] <==> b in Encoded(ks - {Least(ks)})
  {
    hide Lex, Encode, KeyLess, Encodable;
    var t := l[1..];
    assert l == [l[0]] + t;
    forall b | b in t ensures b in Encoded(ks - {Least(ks)}) {
      var i :| 0 <= i < |t| && t[i] == b;
      assert Lex(l[0], l[i + 1]) && b in l;
      ByteOrder(l[0], l[0], l[0]);
      var k :| k in ks && Encode(k) == b;
    }
    forall b | b in Encoded(ks - {Least(ks)}) ensures b in t {
      var k :| k in ks - {Least(ks)} && Encode(k) == b;
      EncodeInjective(ks, k, Least(ks));
      assert b in Encoded(ks) && b in l;
    }
  }

  // ---- ReadyIndex::pop_front over bytes -------------------------------------------------------------

  /** The byte strings at or after the prefix: `range(prefix..)`. */
  function RangeFrom(bs: set<Bytes>, prefix: Bytes): set<Bytes> {
    set b | b in bs && !Lex(b, prefix)
  }

  /** A ready key's range starts where its logical order says it does. */
  lemma RangeStartAgrees(k: Key, q: Queue)
    requires k.ReadyKey? && Encodable(k) && IsName(q)
    ensures Lex(Encode(k), QueuePrefix(q)) == Lex(Rank(k), RankPrefix(q))
  {
    hide Lex, BigEndian;
    var x: seq<int> := [9 - Min(k.priority, 9)] + (BigEndian(8, k.enqueuedAt) + k.jobId);
    var y: seq<int> := [9 - k.priority, k.enqueuedAt] + k.jobId;
    PrefixBeforeTail(k.queue, q, x, y);
    assert Encode(k) == QueuePrefix(k.queue) + x;
    assert Rank(k) == [0] + ([|k.queue|] + (k.queue + y));
    assert RankPrefix(q) == [0] + ([|q|] + q);
    LexHead(0, [|k.queue|] + (k.queue + y), 0, [|q|] + q);
  }

  lemma PrefixBeforeTail(p: Queue, q: Queue, x: seq<int>, y: seq<int>)
    requires IsName(p) && IsName(q)
    ensures Lex(QueuePrefix(p) + x, QueuePrefix(q)) == Lex([|p|] + (p + y), [|q|] + q)
  {
    assert !Lex(x, []) && !Lex(y, []);
    hide Lex, QueuePrefix;
    PrefixedOrder(p, q, x, [], y, []);
    assert QueuePrefix(q) + [] == QueuePrefix(q) && q + [] == q;
  }

  /** Where a peek without a cursor starts among the encoded keys is where the logical walk does. */
  lemma PeekStartsOnDisk(ks: set<Key>, q: Queue)
    requires (forall k :: k in ks ==> k.ReadyKey? && Encodable(k)) && IsName(q)
    ensures RangeFrom(Encoded(ks), QueuePrefix(q)) == Encoded(ReadyFrom(ks, q, None))
  {
    hide Lex, Encode, Encodable, QueuePrefix, Rank, RankPrefix;
    forall k | k in ks ensures Lex(Encode(k), QueuePrefix(q)) == Lex(Rank(k), RankPrefix(q)) { RangeStartAgrees(k, q); }
  }

  /** What `pop_front` finds: the first byte string at or after the queue's prefix, if it has the
      prefix, is the encoding of the queue's least key; otherwise the queue has no key. */
  lemma RangeHeadIsLeast(ks: set<Key>, q: Queue, b: Bytes)
    requires Ordered(ks) && (forall k :: k in ks ==> k.ReadyKey?) && IsName(q)
    requires IsFirst(b, RangeFrom(Encoded(ks), QueuePrefix(q)))
    ensures var mine := set k | k in ks && k.queue == q;
            if StartsWith(b, QueuePrefix(q)) then mine != {} && b == Encode(Least(mine)) else mine == {}
  {
    hide Lex, Encode, QueuePrefix, KeyLess, StartsWith;
    var mine := set k | k in ks && k.queue == q;
    var head :| head in ks && Encode(head) == b;
    forall k | k in ks && !Lex(Encode(k), QueuePrefix(q)) && k != head ensures Lex(Encode(head), Encode(k)) {
      EncodeInjective(ks, head, k);
      assert Encode(k) in RangeFrom(Encoded(ks), QueuePrefix(q));
    }
    RangeFindsQueueHead(ks, q, head);
    if StartsWith(b, QueuePrefix(q)) { LeastIs(mine, head); }
  }

  lemma EmptyRangeOwnsNothing(ks: set<Key>, q: Queue)
    requires (forall k :: k in ks ==> k.ReadyKey? && Encodable(k)) && IsName(q)
    requires RangeFrom(Encoded(ks), QueuePrefix(q)) == {}
    ensures forall k :: k in ks ==> k.queue != q
  {
    hide Lex, Encode, QueuePrefix;
    forall k | k in ks ensures k.queue != q {
      assert Encode(k) !in RangeFrom(Encoded(ks), QueuePrefix(q)) && Encode(k) in Encoded(ks);
      if k.queue == q { OwnKeyInRange(k); }
    }
  }

  lemma OwnKeyInRange(k: Key)
    requires k.ReadyKey? && Encodable(k)
    ensures !Lex(Encode(k), QueuePrefix(k.queue))
  {
    PrefixFirst(QueuePrefix(k.queue), [9 - Min(k.priority, 9)] + (BigEndian(8, k.enqueuedAt) + k.jobId));
  }

  /** Rows under their encoded keys. */
  ghost predicate Holds<V>(keys: map<Bytes, V>, rows: map<Key, V>) {
    keys.Keys == Encoded(rows.Keys) && forall k :: k in rows ==> keys[Encode(k)] == rows[k]
  }

  lemma HoldsWithout<V>(keys: map<Bytes, V>, rows: map<Key, V>, k: Key)
    requires Holds(keys, rows) && Ordered(rows.Keys) && k in rows
    ensures Holds(keys - {Encode(k)}, rows - {k})
  {
    hide Lex, Encode, KeyLess, Encodable;
    var (keys', rows') := (keys - {Encode(k)}, rows - {k});
    forall x | x in rows' ensures Encode(x) in keys' && keys'[Encode(x)] == rows'[x] {
      EncodeInjective(rows.Keys, x, k);
      assert Encode(x) in Encoded(rows.Keys);
    }
    forall b | b in keys' ensures b in Encoded(rows'.Keys) {
      var x :| x in rows.Keys && Encode(x) == b;
    }
  }

  class ByteReady {
    var keys: map<Bytes, nat>

    constructor (rows: map<Bytes, nat>)
      ensures keys == rows
    {
      keys := rows;
    }

    /** `pop_front`: the first key of the range that starts at the queue's prefix, taken out if it
        has the prefix. It is the queue's least key, and there is none only if the queue has none. */
    method PopFront(q: Queue, ghost rows: map<Key, nat>) returns (r: Option<(Bytes, nat)>)
      requires Holds(keys, rows) && Ordered(rows.Keys) && (forall k :: k in rows ==> k.ReadyKey?) && IsName(q)
      modifies this
      ensures var mine := set k | k in rows && k.queue == q;
              if mine == {} then r == None && keys == old(keys)
              else var k := Least(mine);
                   r == Some((Encode(k), rows[k])) && Holds(keys, rows - {k})
    {
      hide Lex, Encode, QueuePrefix, KeyLess, Encodable, StartsWith;
      var prefix := QueuePrefix(q);
      var range := RangeFrom(keys.Keys, prefix);
      if range == {} {
        EmptyRangeOwnsNothing(rows.Keys, q);
        return None;
      }
      var b := FindFirst(range);
      RangeHeadIsLeast(rows.Keys, q, b);
      if !StartsWith(b, prefix) { return None; }
      ghost var k := Least(set k | k in rows && k.queue == q);
      HoldsWithout(keys, rows, k);
      r := Some((b, keys[b]));
      keys := keys - {b};
    }
  }

  // ---- TimerIndex::pop_due over bytes -------------------------------------------------------------

  /** `deadline_of`: the first eight bytes as a signed integer, 0 when there are fewer. */
  function DeadlineIn(b: Bytes): int {
    if |b| < 8 then 0 else AsI64(FromBigEndian(b[..8]))
  }

  lemma DeadlineReadsBack(k: Key)
    requires Encodable(k) && !k.ReadyKey?
    ensures DeadlineIn(Encode(k)) == DeadlineOf(k)
  {
    hide FromBigEndian, AsI64;
    I64RoundTrip(DeadlineOf(k));
    assert Encode(k)[..8] == BigEndian(8, DeadlineOf(k));
  }

  class ByteTimers {
    var keys: map<Bytes, Queue>

    constructor (rows: map<Bytes, Queue>)
      ensures keys == rows
    {
      keys := rows;
    }

    /** `earliest`: the deadline in the first key. */
    method Earliest(ghost rows: map<Key, Queue>) returns (d: Option<int>)
      requires Holds(keys, rows) && Ordered(rows.Keys) && forall k :: k in rows ==> !k.ReadyKey?
      ensures d == if rows.Keys == {} then None else Some(DeadlineOf(Least(rows.Keys)))
    {
      hide Lex, Encode, KeyLess, Encodable, DeadlineIn;
      if keys.Keys == {} {
        assert forall k :: k in rows.Keys ==> Encode(k) in keys;
        return None;
      }
      var b := FindFirst(keys.Keys);
      ghost var k :| k in rows.Keys && Encode(k) == b;
      FirstIsLeast(rows.Keys, b);
      DeadlineReadsBack(Least(rows.Keys));
      d := Some(DeadlineIn(b));
    }

    /** `pop_due`: the first key, taken out if the deadline in it is due. */
    method PopDue(now: int, ghost rows: map<Key, Queue>) returns (r: Option<(Bytes, Queue)>)
      requires Holds(keys, rows) && Ordered(rows.Keys) && forall k :: k in rows ==> !k.ReadyKey?
      modifies this
      ensures if rows.Keys == {} || DeadlineOf(Least(rows.Keys)) > now then r == None && keys == old(keys)
              else var k := Least(rows.Keys);
                   r == Some((Encode(k), rows[k])) && Holds(keys, rows - {k})
      ensures r.None? ==> forall k :: k in rows ==> DeadlineOf(k) > now
    {
      hide Lex, Encode, KeyLess, Encodable;
      var d := Earliest(rows);
      if d.None? || d.value > now {
        forall k | k in rows ensures DeadlineOf(k) > now {
          if k != Least(rows.Keys) { TimerOrder(Least(rows.Keys), k); }
        }
        return None;
      }
      assert Encode(Least(rows.Keys)) in keys;
      var b := FindFirst(keys.Keys);
      FirstIsLeast(rows.Keys, b);
      HoldsWithout(keys, rows, Least(rows.Keys));
      r := Some((b, keys[b]));
      keys := keys - {b};
    }

    /** A sweep phase's pops: the first `budget` due keys, in order. */
    method PopAllDue(now: int, budget: nat, ghost rows: map<Key, Queue>) returns (popped: seq<Bytes>)
      requires Holds(keys, rows) && Ordered(rows.Keys) && forall k :: k in rows ==> !k.ReadyKey?
      modifies this
      ensures popped == EncodeAll(DueHead(rows.Keys, now, budget))
    {
      hide Holds, Encode, EncodeAll, KeyLess, Encodable, DueHead;
      popped := [];
      ghost var left := rows;
      DueStart(rows.Keys, now, budget);
      while |popped| < budget
        invariant Holds(keys, left) && left.Keys <= rows.Keys && |popped| <= budget
        invariant popped + EncodeAll(DueHead(left.Keys, now, budget - |popped|))
                  == EncodeAll(DueHead(rows.Keys, now, budget))
      {
        var r := PopDue(now, left);
        if r.None? {
          DueNone(left.Keys, now, budget - |popped|);
          break;
        }
        ghost var k := Least(left.Keys);
        DuePop(left.Keys, now, budget - |popped|);
        EncodeAllHead(k, DueHead(left.Keys - {k}, now, budget - |popped| - 1));
        left := left - {k};
        popped := popped + [r.value.0];
      }
      DueStart(left.Keys, now, 0);
    }
  }

  lemma DueStart(ks: set<Key>, now: int, n: nat)
    requires forall k :: k in ks ==> !k.ReadyKey?
    ensures [] + EncodeAll(DueHead(ks, now, n)) == EncodeAll(DueHead(ks, now, n))
    ensures DueHead(ks, now, 0) == [] && EncodeAll([]) == []
  {
  }

  lemma EncodeAllHead(k: Key, l: seq<Key>)
    ensures EncodeAll([k] + l) == [Encode(k)] + EncodeAll(l)
  {
    hide Encode;
  }

  // ---- The machine on bytes ----------------------------------------------------------------------------

  /** In a state that fits, each ordered keyspace is one the byte maps order correctly. */
  lemma KeyspacesOrdered(s: State)
    requires Fits(s)
    ensures Ordered(ReadyKeys(s)) && Ordered(ScheduledKeys(s)) && Ordered(LeaseKeys(s))
    ensures Ordered(DedupTimerKeys(s)) && Ordered(DeadKeys(s))
  {
    hide ReadyKeys, ScheduledKeys, LeaseKeys, DedupTimerKeys, DeadKeys, Encodable;
    forall k | Stored(s, k) ensures Encodable(k) { StoredEncodable(s, k); }
  }

  /** The queue's first key on disk, if the range from its prefix finds one. */
  ghost predicate FoundOnDisk(s: State, q: Queue, b: Bytes) {
    IsFirst(b, RangeFrom(Encoded(ReadyKeys(s)), QueuePrefix(q))) && StartsWith(b, QueuePrefix(q))
  }

  /** The range over encoded ready keys finds the machine's next job, and nothing exactly when the
      queue has no ready job. */
  lemma NextKeyOnDisk(s: State, q: Queue, b: Bytes)
    requires Fits(s) && IsName(q)
    ensures FoundOnDisk(s, q, b) <==> OwnedBy(s, ReadyKeys(s), q) != {} && b == Encode(NextKey(s, q))
    ensures FoundOnDisk(s, q, b) ==> DecodeReady(b) == Some(NextKey(s, q))
  {
    hide Lex, Encode, QueuePrefix, KeyLess, StartsWith, ReadyKeys, Fits, Encodable, DecodeReady;
    KeyspacesOrdered(s);
    var ks := ReadyKeys(s);
    var mine := set k | k in ks && k.queue == q;
    assert mine == OwnedBy(s, ks, q);
    if FoundOnDisk(s, q, b) { RangeHeadIsLeast(ks, q, b); }
    if mine != {} {
      NextIsFound(ks, q);
      ReadsBack(NextKey(s, q));
    }
  }

  lemma ReadsBack(k: Key)
    requires k.ReadyKey? && Encodable(k)
    ensures DecodeReady(Encode(k)) == Some(k)
  {
    hide DecodeReady, Encode;
    RoundTrip(k);
  }

  lemma NextIsFound(ks: set<Key>, q: Queue)
    requires Ordered(ks) && (forall k :: k in ks ==> k.ReadyKey?) && IsName(q)
    requires (set k | k in ks && k.queue == q) != {}
    ensures var b := Encode(Least(set k | k in ks && k.queue == q));
            IsFirst(b, RangeFrom(Encoded(ks), QueuePrefix(q))) && StartsWith(b, QueuePrefix(q))
  {
    hide Lex, Encode, QueuePrefix, KeyLess, StartsWith, Encodable;
    var mine := set k | k in ks && k.queue == q;
    var range := RangeFrom(Encoded(ks), QueuePrefix(q));
    OwnKeyInRange(Least(mine));
    assert Encode(Least(mine)) in range;
    var b := SomeFirst(range);
    RangeHeadIsLeast(ks, q, b);
  }

  lemma {:induction false} SomeFirst(bs: set<Bytes>) returns (first: Bytes)
    requires bs != {}
    ensures IsFirst(first, bs)
  {
    hide Lex;
    var b :| b in bs;
    first := b;
    if bs != {b} {
      var c := SomeFirst(bs - {b});
      ByteOrder(b, c, b);
      if Lex(b, c) {
        forall x | x in bs && x != b ensures Lex(b, x) { if x != c { ByteOrder(b, c, x); } }
      } else {
        first := c;
      }
    }
  }

  /** `apply_reserve` as it reads the disk: queue by queue, the job decoded from the first encoded
      key at or after the queue's prefix. */
  ghost function ReserveOnDisk(s: State, queues: seq<Queue>, expiry: int, n: nat): (r: (seq<Move>, seq<Delivery>))
    decreases |queues|, n
  {
    if queues == [] || n == 0 then ([], [])
    else if !exists b :: FoundOnDisk(s, queues[0], b) then ReserveOnDisk(s, queues[1..], expiry, n)
    else
      var b :| FoundOnDisk(s, queues[0], b);
      var k := DecodeReady(b);
      var id := if k.Some? then JobIdOf(k.value) else [];
      var (ms, ds) := ReserveOnDisk(Step(s, Lease(id, expiry)), queues, expiry, n - 1);
      ([Lease(id, expiry)] + ms, [DeliveryOf(s, id, expiry)] + ds)
  }

  /** Reading bytes makes the plan of the logical order. */
  lemma {:induction false} ReserveReadsDisk(s: State, queues: seq<Queue>, expiry: int, n: nat)
    requires Fits(s) && IsTime(expiry) && forall i :: 0 <= i < |queues| ==> IsName(queues[i])
    ensures ReserveOnDisk(s, queues, expiry, n) == ReservePlan(s, queues, expiry, n)
    decreases |queues|, n
  {
    hide Fits, Step, FoundOnDisk, DecodeReady, OwnedBy, ReadyKeys, NextKey, DeliveryOf, Encode;
    if queues != [] && n > 0 {
      forall b
        ensures FoundOnDisk(s, queues[0], b) <==>
                  OwnedBy(s, ReadyKeys(s), queues[0]) != {} && b == Encode(NextKey(s, queues[0]))
        ensures FoundOnDisk(s, queues[0], b) ==> DecodeReady(b) == Some(NextKey(s, queues[0]))
      {
        NextKeyOnDisk(s, queues[0], b);
      }
      if OwnedBy(s, ReadyKeys(s), queues[0]) == {} {
        ReserveReadsDisk(s, queues[1..], expiry, n);
      } else {
        assert FoundOnDisk(s, queues[0], Encode(NextKey(s, queues[0])));
        var m := Lease(JobIdOf(NextKey(s, queues[0])), expiry);
        StepFits(s, m);
        ReserveReadsDisk(Step(s, m), queues, expiry, n - 1);
      }
    }
  }

  /** So after any run of operations on a new database a reserve that reads byte keys returns
      exactly the first min(max_jobs, available) jobs: queues in the order listed, within a queue by
      priority descending, then oldest, then id. */
  lemma ReserveFromDiskExact(ops: seq<Op>, queues: seq<Queue>, leaseMs: nat, n: nat, now: int)
    requires forall i :: 0 <= i < |ops| ==> OpFits(ops[i])
    requires OpFits(ReserveOp(queues, leaseMs, n, now))
    ensures var s := ApplyAll(Empty, ops);
            Serves(s, queues, After(now, leaseMs), n, ReserveOnDisk(s, queues, After(now, leaseMs), n).1)
  {
    hide Fits, ApplyAll, Serves;
    var s := ApplyAll(Empty, ops);
    EmptyFits();
    RunsFit(Empty, ops);
    ReserveReadsDisk(s, queues, After(now, leaseMs), n);
    ReserveExact(s, queues, After(now, leaseMs), n);
  }

  lemma EmptyFits()
    ensures Fits(Empty)
  {
  }

  /** The earliest timer of a keyspace on disk is the machine's, deadline and all. */
  lemma EarliestOnDisk(s: State, ks: set<Key>, b: Bytes)
    requires Fits(s) && ks in {ScheduledKeys(s), LeaseKeys(s), DedupTimerKeys(s), DeadKeys(s)} && ks != {}
    requires IsFirst(b, Encoded(ks))
    ensures b == Encode(Least(ks)) && DeadlineIn(b) == DeadlineOf(Least(ks))
  {
    hide Lex, Encode, KeyLess, Encodable, DeadlineIn;
    KeyspacesOrdered(s);
    FirstIsLeast(ks, b);
    DeadlineReadsBack(Least(ks));
  }
}
