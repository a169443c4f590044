/** Keyspace keys (src/keys.rs): what they mean, how they are written as bytes,
    and why the byte order of a BTreeMap is the scheduling order. */
module Keys {
  import opened Bytes

  type Id = Bytes
  type Queue = Bytes

  /** The ordered keys. `TimerKey` serves the scheduled and the leases keyspaces. */
  datatype Key =
    | ReadyKey(queue: Queue, priority: nat, enqueuedAt: int, jobId: Id)
    | TimerKey(deadline: int, jobId: Id)
    | DedupTimerKey(deadline: int, queue: Queue, idempotencyKey: Bytes)
    | DeadLetterKey(failedAt: int, queue: Queue, jobId: Id)

  /** What the encoding relies on: names fit the u16 length prefix
      (limits.max_queue_name_bytes <= 65535) and clocks are not negative. */
  predicate Encodable(k: Key) {
    match k
    case ReadyKey(q, p, t, _) => |q| < U16 && p <= 9 && 0 <= t <= I64_MAX
    case TimerKey(d, _) => 0 <= d <= I64_MAX
    case DedupTimerKey(d, q, _) => |q| < U16 && 0 <= d <= I64_MAX
    case DeadLetterKey(t, q, _) => |q| < U16 && 0 <= t <= I64_MAX
  }

  predicate SameKeyspace(a: Key, b: Key) {
    (a.ReadyKey? <==> b.ReadyKey?) && (a.TimerKey? <==> b.TimerKey?)
    && (a.DedupTimerKey? <==> b.DedupTimerKey?)
  }

  /** `deadline_of`: the time a timer-like key sorts by. */
  function DeadlineOf(k: Key): int
    requires !k.ReadyKey?
  {
    match k
    case TimerKey(d, _) => d
    case DedupTimerKey(d, _, _) => d
    case DeadLetterKey(t, _, _) => t
  }

  // ---- The logical order -------------------------------------------------

  /** Sort key: queue, then most urgent priority, then oldest, then id; for a
      timer the deadline comes first. The leading number keeps keyspaces apart. */
  function Rank(k: Key): seq<int> {
    match k
    case ReadyKey(q, p, t, id) => [0, |q|] + q + [9 - p, t] + id
    case TimerKey(d, id) => [1, d] + id
    case DedupTimerKey(d, q, x) => [2, d, |q|] + q + x
    case DeadLetterKey(t, q, id) => [3, t, |q|] + q + id
  }

  predicate KeyLess(a: Key, b: Key) {
    Lex(Rank(a), Rank(b))
  }

  lemma RankInjective(a: Key, b: Key)
    requires Rank(a) == Rank(b)
    ensures a == b
  {
    var r := Rank(a);
    assert r[0] == Rank(b)[0];
    match a {
      case ReadyKey(q, p, t, id) =>
        var n := 2 + |q|;
        assert r[1] == |q| && |b.queue| == |q|;
        assert r[2..n] == q && Rank(b)[2..n] == b.queue;
        assert r[n] == 9 - p && Rank(b)[n] == 9 - b.priority;
        assert r[n + 1] == t && Rank(b)[n + 1] == b.enqueuedAt;
        assert r[n + 2..] == id && Rank(b)[n + 2..] == b.jobId;
      case TimerKey(d, id) =>
        assert r[1] == d && r[2..] == id && Rank(b)[2..] == b.jobId;
      case DedupTimerKey(d, q, x) =>
        assert r[1] == d && r[2] == |q| && |b.queue| == |q|;
        assert r[3..3 + |q|] == q && Rank(b)[3..3 + |q|] == b.queue;
        assert r[3 + |q|..] == x && Rank(b)[3 + |q|..] == b.idempotencyKey;
      case DeadLetterKey(t, q, id) =>
        assert r[1] == t && r[2] == |q| && |b.queue| == |q|;
        assert r[3..3 + |q|] == q && Rank(b)[3..3 + |q|] == b.queue;
        assert r[3 + |q|..] == id && Rank(b)[3 + |q|..] == b.jobId;
    }
  }

  /** `KeyLess` is a strict total order. */
  lemma KeyOrder(a: Key, b: Key, c: Key)
    ensures !KeyLess(a, a)
    ensures KeyLess(a, b) || a == b || KeyLess(b, a)
    ensures KeyLess(a, b) && KeyLess(b, c) ==> KeyLess(a, c)
    ensures KeyLess(a, b) ==> !KeyLess(b, a)
  {
    LexIrreflexive(Rank(a));
    LexTotal(Rank(a), Rank(b));
    if Rank(a) == Rank(b) { RankInjective(a, b); }
    if KeyLess(a, b) && KeyLess(b, c) { LexTransitive(Rank(a), Rank(b), Rank(c)); }
    if KeyLess(a, b) && KeyLess(b, a) { LexTransitive(Rank(a), Rank(b), Rank(a)); }
  }

  /** Within one queue, ready jobs go most urgent first, then first in first out. */
  lemma ReadyOrder(a: Key, b: Key)
    requires a.ReadyKey? && b.ReadyKey? && a.queue == b.queue
    ensures KeyLess(a, b) <==>
            a.priority > b.priority
            || (a.priority == b.priority && (a.enqueuedAt < b.enqueuedAt
                || (a.enqueuedAt == b.enqueuedAt && Lex(a.jobId, b.jobId))))
  {
    var p: seq<int> := [0, |a.queue|] + a.queue;
    assert Rank(a) == p + ([9 - a.priority, a.enqueuedAt] + a.jobId);
    assert Rank(b) == p + ([9 - b.priority, b.enqueuedAt] + b.jobId);
    LexSharedPrefix(p, [9 - a.priority, a.enqueuedAt] + a.jobId, [9 - b.priority, b.enqueuedAt] + b.jobId);
    LexPair(9 - a.priority, a.enqueuedAt, a.jobId, 9 - b.priority, b.enqueuedAt, b.jobId);
  }

  lemma LexPair(x: int, y: int, s: seq<int>, x': int, y': int, s': seq<int>)
    ensures Lex([x, y] + s, [x', y'] + s') <==>
            x < x' || (x == x' && (y < y' || (y == y' && Lex(s, s'))))
  {
    assert ([x, y] + s)[1..] == [y] + s && ([x', y'] + s')[1..] == [y'] + s';
    assert ([y] + s)[1..] == s && ([y'] + s')[1..] == s';
  }

  /** Timers go earliest deadline first. */
  lemma TimerOrder(a: Key, b: Key)
    requires !a.ReadyKey? && SameKeyspace(a, b)
    ensures DeadlineOf(a) < DeadlineOf(b) ==> KeyLess(a, b)
    ensures KeyLess(a, b) ==> DeadlineOf(a) <= DeadlineOf(b)
  {
    var ra, rb := Rank(a)[1..], Rank(b)[1..];
    assert Rank(a)[0] == Rank(b)[0];
    assert ra[0] == DeadlineOf(a) && rb[0] == DeadlineOf(b);
    assert KeyLess(a, b) == Lex(ra, rb);
  }

  // ---- Bytes -------------------------------------------------------------

  function QueuePrefix(q: Queue): Bytes {
    BigEndian(2, |q|) + q
  }

  function Encode(k: Key): Bytes {
    match k
    case ReadyKey(q, p, t, id) => QueuePrefix(q) + ([9 - Min(p, 9)] + (BigEndian(8, t) + id))
    case TimerKey(d, id) => BigEndian(8, d) + id
    case DedupTimerKey(d, q, x) => BigEndian(8, d) + (QueuePrefix(q) + x)
    case DeadLetterKey(t, q, id) => BigEndian(8, t) + (QueuePrefix(q) + id)
  }

  lemma Widths()
    ensures Pow256(1) == 256 && Pow256(2) == U16 && Pow256(4) == U32 && Pow256(8) == U64_MAX + 1
  {
    assert Pow256(4) == 256 * Pow256(3) && Pow256(3) == 256 * Pow256(2);
    assert Pow256(8) == 256 * Pow256(7) && Pow256(7) == 256 * Pow256(6) && Pow256(6) == 256 * Pow256(5);
    assert Pow256(5) == 256 * Pow256(4);
  }

  lemma HeadOrder(x: int, y: int, a: seq<int>, a': seq<int>, b: seq<int>, b': seq<int>)
    requires x != y || Lex(a, a') == Lex(b, b')
    ensures Lex([x] + a, [y] + a') == Lex([x] + b, [y] + b')
  {
    assert ([x] + a)[1..] == a && ([y] + a')[1..] == a';
    assert ([x] + b)[1..] == b && ([y] + b')[1..] == b';
  }

  lemma EqualWidthOrder(q: Queue, q': Queue, a: seq<int>, a': seq<int>, b: seq<int>, b': seq<int>)
    requires |q| == |q'| && Lex(a, a') == Lex(b, b')
    ensures Lex(q + a, q' + a') == Lex(q + b, q' + b')
  {
    if q == q' {
      LexSharedPrefix(q, a, a');
      LexSharedPrefix(q, b, b');
    } else {
      LexFixedWidth(q, q', a, a');
      LexFixedWidth(q, q', b, b');
    }
  }

  lemma LengthOrder(q: Queue, q': Queue, a: seq<int>, a': seq<int>)
    requires |q| < U16 && |q'| < U16
    ensures Lex(QueuePrefix(q) + a, QueuePrefix(q') + a') == Lex([|q|] + (q + a), [|q'|] + (q' + a'))
  {
    Widths();
    hide BigEndian, Pow256, Lex;
    FieldOrder(2, |q|, |q'|, q + a, q' + a');
    assert BigEndian(2, |q|) + (q + a) == QueuePrefix(q) + a;
    assert BigEndian(2, |q'|) + (q' + a') == QueuePrefix(q') + a';
  }

  /** A length-prefixed name orders by length, then by its bytes, then by what follows. */
  lemma PrefixedOrder(q: Queue, q': Queue, a: seq<int>, a': seq<int>, b: seq<int>, b': seq<int>)
    requires |q| < U16 && |q'| < U16 && Lex(a, a') == Lex(b, b')
    ensures Lex(QueuePrefix(q) + a, QueuePrefix(q') + a') == Lex([|q|] + (q + b), [|q'|] + (q' + b'))
  {
    hide Lex, QueuePrefix;
    LengthOrder(q, q', a, a');
    if |q| == |q'| { EqualWidthOrder(q, q', a, a', b, b'); }
    HeadOrder(|q|, |q'|, q + a, q' + a', q + b, q' + b');
  }

  /** Time-first keys: the eight deadline bytes decide before the rest. */
  lemma TimeFirstOrder(d: int, d': int, a: seq<int>, a': seq<int>, b: seq<int>, b': seq<int>)
    requires 0 <= d <= I64_MAX && 0 <= d' <= I64_MAX && Lex(a, a') == Lex(b, b')
    ensures Lex(BigEndian(8, d) + a, BigEndian(8, d') + a') == Lex([d] + b, [d'] + b')
  {
    Widths();
    hide BigEndian, Pow256, Lex;
    FieldOrder(8, d, d', a, a');
    HeadOrder(d, d', a, a', b, b');
  }

  /** Time, then a length-prefixed name, then the rest: dedup timers and dead letters. */
  lemma NamedTimerOrder(d: int, q: Queue, x: Bytes, d': int, q': Queue, x': Bytes)
    requires |q| < U16 && |q'| < U16 && 0 <= d <= I64_MAX && 0 <= d' <= I64_MAX
    ensures Lex(BigEndian(8, d) + (QueuePrefix(q) + x), BigEndian(8, d') + (QueuePrefix(q') + x'))
         == Lex([d] + ([|q|] + (q + x)), [d'] + ([|q'|] + (q' + x')))
  {
    PrefixedOrder(q, q', x, x', x, x');
    TimeFirstOrder(d, d', QueuePrefix(q) + x, QueuePrefix(q') + x', [|q|] + (q + x), [|q'|] + (q' + x'));
  }

  lemma ReadyKeyOrder(a: Key, b: Key)
    requires Encodable(a) && Encodable(b) && a.ReadyKey? && b.ReadyKey?
    ensures Lex(Encode(a), Encode(b)) == Lex(Rank(a)[1..], Rank(b)[1..])
  {
    ReadyTail(a.priority, a.enqueuedAt, a.jobId, b.priority, b.enqueuedAt, b.jobId);
    var ta, tb := [9 - a.priority, a.enqueuedAt] + a.jobId, [9 - b.priority, b.enqueuedAt] + b.jobId;
    assert Rank(a)[1..] == [|a.queue|] + (a.queue + ta);
    assert Rank(b)[1..] == [|b.queue|] + (b.queue + tb);
    PrefixedOrder(a.queue, b.queue,
                  [9 - a.priority] + (BigEndian(8, a.enqueuedAt) + a.jobId),
                  [9 - b.priority] + (BigEndian(8, b.enqueuedAt) + b.jobId), ta, tb);
  }

  lemma RankTails(d: int, q: Queue, x: Bytes)
    ensures Rank(TimerKey(d, x))[1..] == [d] + x
    ensures Rank(DedupTimerKey(d, q, x))[1..] == [d] + ([|q|] + (q + x))
    ensures Rank(DeadLetterKey(d, q, x))[1..] == [d] + ([|q|] + (q + x))
  {
    var named: seq<int> := [d] + ([|q|] + (q + x));
    assert Rank(TimerKey(d, x)) == [1] + ([d] + x);
    assert Rank(DedupTimerKey(d, q, x)) == [2] + named;
    assert Rank(DeadLetterKey(d, q, x)) == [3] + named;
  }

  lemma TimerKeyOrder(a: Key, b: Key)
    requires Encodable(a) && Encodable(b) && SameKeyspace(a, b) && !a.ReadyKey?
    ensures |Rank(a)| > 0 && |Rank(b)| > 0
    ensures Lex(Encode(a), Encode(b)) == Lex(Rank(a)[1..], Rank(b)[1..])
  {
    assert |Rank(a)| > 0 && |Rank(b)| > 0;
    hide BigEndian, Lex, QueuePrefix, Rank;
    match a {
      case TimerKey(d, id) =>
        RankTails(d, [], id);
        RankTails(b.deadline, [], b.jobId);
        TimeFirstOrder(d, b.deadline, id, b.jobId, id, b.jobId);
      case DedupTimerKey(d, q, x) =>
        RankTails(d, q, x);
        RankTails(b.deadline, b.queue, b.idempotencyKey);
        NamedTimerOrder(d, q, x, b.deadline, b.queue, b.idempotencyKey);
      case DeadLetterKey(t, q, id) =>
        RankTails(t, q, id);
        RankTails(b.failedAt, b.queue, b.jobId);
        NamedTimerOrder(t, q, id, b.failedAt, b.queue, b.jobId);
    }
  }

  /** Byte keys refine the logical order: comparing encodings compares meanings. */
  lemma EncodeOrder(a: Key, b: Key)
    requires Encodable(a) && Encodable(b) && SameKeyspace(a, b)
    ensures Lex(Encode(a), Encode(b)) == KeyLess(a, b)
  {
    if a.ReadyKey? { ReadyKeyOrder(a, b); } else { TimerKeyOrder(a, b); }
    assert Rank(a)[0] == Rank(b)[0];
  }

  lemma ReadyTail(p: nat, t: int, id: Id, p': nat, t': int, id': Id)
    requires p <= 9 && p' <= 9 && 0 <= t <= I64_MAX && 0 <= t' <= I64_MAX
    ensures Lex([9 - p] + (BigEndian(8, t) + id), [9 - p'] + (BigEndian(8, t') + id'))
         == Lex([9 - p, t] + id, [9 - p', t'] + id')
  {
    TimeFirstOrder(t, t', id, id', id, id');
    var u, u' := BigEndian(8, t) + id, BigEndian(8, t') + id';
    assert ([9 - p] + u)[1..] == u && ([9 - p'] + u')[1..] == u';
    LexPair(9 - p, t, id, 9 - p', t', id');
    LexPair(0, t, id, 0, t', id');
    assert ([0, t] + id)[1..] == [t] + id && ([0, t'] + id')[1..] == [t'] + id';
  }

  /** Two's-complement bytes put every negative time after every other one. */
  lemma NegativeTimesSortLast(d: int, id: Id, d': int, id': Id)
    requires -I64_MAX - 1 <= d < 0 <= d' <= I64_MAX
    ensures Lex(Encode(TimerKey(d', id')), Encode(TimerKey(d, id)))
    ensures KeyLess(TimerKey(d, id), TimerKey(d', id'))
  {
    Widths();
    ModUnique(d, U64_MAX + 1, -1, d + U64_MAX + 1);
    SmallMod(d', U64_MAX + 1);
    BigEndianOrder(8, d', d);
    if BigEndian(8, d') == BigEndian(8, d) { LexIrreflexive(BigEndian(8, d)); }
    LexFixedWidth(BigEndian(8, d'), BigEndian(8, d), id', id);
    TimerOrder(TimerKey(d, id), TimerKey(d', id'));
  }

  /** For any two i64 deadlines the byte order is the logical order exactly when their signs agree. */
  lemma TimerOrderExact(d: int, id: Id, d': int, id': Id)
    requires -I64_MAX - 1 <= d <= I64_MAX && -I64_MAX - 1 <= d' <= I64_MAX
    ensures (Lex(Encode(TimerKey(d, id)), Encode(TimerKey(d', id'))) == KeyLess(TimerKey(d, id), TimerKey(d', id')))
            <==> (d < 0 <==> d' < 0)
  {
    var (a, b) := (TimerKey(d, id), TimerKey(d', id'));
    if d >= 0 && d' >= 0 {
      EncodeOrder(a, b);
    } else if d < 0 && d' < 0 {
      NegativesKeepOrder(d, id, d', id');
    } else if d < 0 {
      NegativeTimesSortLast(d, id, d', id');
      LexAsymmetric(Encode(a), Encode(b));
    } else {
      NegativeTimesSortLast(d', id', d, id);
      LexAsymmetric(Rank(a), Rank(b));
    }
  }

  /** A negative time is written as its two's complement. */
  lemma WrittenAsComplement(d: int)
    requires -I64_MAX - 1 <= d < 0
    ensures BigEndian(8, d) == BigEndian(8, d + U64_MAX + 1) && Pow256(8) == U64_MAX + 1
  {
    Widths();
    ModUnique(d, U64_MAX + 1, -1, d + U64_MAX + 1);
    SmallMod(d + U64_MAX + 1, U64_MAX + 1);
    BigEndianSame(8, d, d + U64_MAX + 1);
  }

  lemma NegativesKeepOrder(d: int, id: Id, d': int, id': Id)
    requires -I64_MAX - 1 <= d < 0 && -I64_MAX - 1 <= d' < 0
    ensures Lex(Encode(TimerKey(d, id)), Encode(TimerKey(d', id'))) == KeyLess(TimerKey(d, id), TimerKey(d', id'))
  {
    hide BigEndian, Pow256, Lex, Rank;
    var (u, u') := (d + U64_MAX + 1, d' + U64_MAX + 1);
    WrittenAsComplement(d);
    WrittenAsComplement(d');
    FieldOrder(8, u, u', id, id');
    LexHead(u, id, u', id');
    LexHead(d, id, d', id');
    TimerRank(d, id, d', id');
  }

  lemma LexHead(x: int, a: seq<int>, y: int, b: seq<int>)
    ensures Lex([x] + a, [y] + b) <==> x < y || (x == y && Lex(a, b))
  {
    assert ([x] + a)[1..] == a && ([y] + b)[1..] == b;
  }

  lemma TimerRank(d: int, id: Id, d': int, id': Id)
    ensures KeyLess(TimerKey(d, id), TimerKey(d', id')) == Lex([d] + id, [d'] + id')
  {
    assert Rank(TimerKey(d, id)) == [1] + ([d] + id) && Rank(TimerKey(d', id')) == [1] + ([d'] + id');
    LexHead(1, [d] + id, 1, [d'] + id');
  }

  lemma LexAsymmetric(a: seq<int>, b: seq<int>)
    ensures Lex(b, a) ==> !Lex(a, b)
  {
    LexIrreflexive(a);
    if Lex(b, a) && Lex(a, b) { LexTransitive(a, b, a); }
  }

  // ---- Decoding ----------------------------------------------------------

  function AsI64(v: int): int {
    if v > I64_MAX then v - U64_MAX - 1 else v
  }

  /** The priority behind an inverted priority byte; a byte above 9 reads as 0. */
  function PriorityOf(inverted: int): nat {
    Max(9 - inverted, 0)
  }

  /** `read_queue`: the length-prefixed name at the front, if the bytes hold one. */
  function ReadQueue(b: Bytes): Option<Queue> {
    if |b| < 2 then None
    else
      var n := FromBigEndian(b[..2]);
      if |b| < 2 + n then None else Some(b[2..2 + n])
  }

  function DecodeReady(b: Bytes): Option<Key> {
    match ReadQueue(b)
    case None => None
    case Some(q) =>
      var r := b[2 + |q|..];
      if |r| < 9 then None
      else Some(ReadyKey(q, PriorityOf(r[0]), AsI64(FromBigEndian(r[1..9])), r[9..]))
  }

  function DecodeTimer(b: Bytes): Option<Key> {
    if |b| < 8 then None else Some(TimerKey(AsI64(FromBigEndian(b[..8])), b[8..]))
  }

  function DecodeDedupTimer(b: Bytes): Option<Key> {
    if |b| < 8 then None
    else match ReadQueue(b[8..])
         case None => None
         case Some(q) => Some(DedupTimerKey(AsI64(FromBigEndian(b[..8])), q, b[10 + |q|..]))
  }

  function DecodeDeadLetter(b: Bytes): Option<Key> {
    match DecodeDedupTimer(b)
    case None => None
    case Some(k) => Some(DeadLetterKey(k.deadline, k.queue, k.idempotencyKey))
  }

  lemma ReadQueueOfPrefix(q: Queue, rest: Bytes)
    requires |q| < U16
    ensures ReadQueue(QueuePrefix(q) + rest) == Some(q)
    ensures (QueuePrefix(q) + rest)[2 + |q|..] == rest
  {
    Widths();
    SmallMod(|q|, U16);
    BigEndianValue(2, |q|);
    var b := QueuePrefix(q) + rest;
    assert b[..2] == BigEndian(2, |q|) && b[2..2 + |q|] == q;
  }

  lemma I64RoundTrip(t: int)
    requires -I64_MAX - 1 <= t <= I64_MAX
    ensures AsI64(FromBigEndian(BigEndian(8, t))) == t
  {
    Widths();
    BigEndianValue(8, t);
    if t < 0 { ModUnique(t, U64_MAX + 1, -1, t + U64_MAX + 1); } else { SmallMod(t, U64_MAX + 1); }
  }

  /** Every key decodes to what was encoded, negative times included; a priority
      above 9 comes back clamped. */
  lemma RoundTrip(k: Key)
    requires k.ReadyKey? || k.DedupTimerKey? || k.DeadLetterKey? ==> |k.queue| < U16
    requires -I64_MAX - 1 <= (if k.ReadyKey? then k.enqueuedAt else DeadlineOf(k)) <= I64_MAX
    ensures match k
            case ReadyKey(q, p, t, id) => DecodeReady(Encode(k)) == Some(ReadyKey(q, Min(p, 9), t, id))
            case TimerKey(_, _) => DecodeTimer(Encode(k)) == Some(k)
            case DedupTimerKey(_, _, _) => DecodeDedupTimer(Encode(k)) == Some(k)
            case DeadLetterKey(_, _, _) => DecodeDeadLetter(Encode(k)) == Some(k)
  {
    hide BigEndian, FromBigEndian, ReadQueue, AsI64;
    var b := Encode(k);
    match k {
      case ReadyKey(q, p, t, id) =>
        I64RoundTrip(t);
        var rest: Bytes := [9 - Min(p, 9)] + (BigEndian(8, t) + id);
        ReadQueueOfPrefix(q, rest);
        assert rest[1..9] == BigEndian(8, t) && rest[9..] == id;
      case TimerKey(d, id) =>
        I64RoundTrip(d);
        assert b[..8] == BigEndian(8, d) && b[8..] == id;
      case DedupTimerKey(d, q, x) =>
        I64RoundTrip(d);
        ReadQueueOfPrefix(q, x);
        assert b[..8] == BigEndian(8, d) && b[8..] == QueuePrefix(q) + x;
        assert b[10 + |q|..] == b[8..][2 + |q|..];
      case DeadLetterKey(d, q, x) =>
        I64RoundTrip(d);
        ReadQueueOfPrefix(q, x);
        assert b[..8] == BigEndian(8, d) && b[8..] == QueuePrefix(q) + x;
        assert b[10 + |q|..] == b[8..][2 + |q|..];
    }
  }

  // ---- Prefix scans ------------------------------------------------------

  /** A ready key starts with a queue's prefix exactly when it belongs to it. */
  lemma PrefixIsolation(k: Key, q: Queue)
    requires k.ReadyKey? && |k.queue| < U16 && |q| < U16
    ensures StartsWith(Encode(k), QueuePrefix(q)) <==> k.queue == q
  {
    var b := Encode(k);
    var rest := b[2 + |k.queue|..];
    assert b == QueuePrefix(k.queue) + rest;
    ReadQueueOfPrefix(k.queue, rest);
    if StartsWith(b, QueuePrefix(q)) {
      assert b == QueuePrefix(q) + b[2 + |q|..];
      ReadQueueOfPrefix(q, b[2 + |q|..]);
    }
  }

  /** Nothing that lacks the prefix sorts between the prefix and a string that has it. */
  lemma {:induction false} PrefixConvex(h: seq<int>, p: seq<int>, x: seq<int>)
    requires !Lex(h, p) && Lex(h, p + x)
    ensures StartsWith(h, p)
  {
    if p != [] {
      assert (p + x)[1..] == p[1..] + x;
      PrefixConvex(h[1..], p[1..], x);
      assert h == [h[0]] + h[1..] && p == [p[0]] + p[1..];
      assert h[..|p|] == [h[0]] + h[1..][..|p| - 1];
    }
  }

  lemma {:induction false} PrefixFirst(p: seq<int>, x: seq<int>)
    ensures !Lex(p + x, p)
  {
    if p != [] {
      assert (p + x)[1..] == p[1..] + x;
      PrefixFirst(p[1..], x);
    }
  }

  /** `range(prefix..).next()`: the least byte key at or after a queue's prefix is
      the queue's next job, and if it lacks the prefix the queue has no ready job. */
  lemma RangeFindsQueueHead(keys: set<Key>, q: Queue, head: Key)
    requires |q| < U16
    requires forall k :: k in keys ==> k.ReadyKey? && Encodable(k)
    requires head in keys && !Lex(Encode(head), QueuePrefix(q))
    requires forall k :: k in keys && !Lex(Encode(k), QueuePrefix(q)) && k != head ==> Lex(Encode(head), Encode(k))
    ensures StartsWith(Encode(head), QueuePrefix(q)) <==> exists k :: k in keys && k.queue == q
    ensures StartsWith(Encode(head), QueuePrefix(q)) ==>
              head.queue == q && forall k :: k in keys && k.queue == q && k != head ==> KeyLess(head, k)
  {
    var p := QueuePrefix(q);
    PrefixIsolation(head, q);
    forall k | k in keys && k.queue == q && k != head
      ensures StartsWith(Encode(head), p) && KeyLess(head, k)
    {
      PrefixIsolation(k, q);
      var x := Encode(k)[|p|..];
      assert Encode(k) == p + x;
      PrefixFirst(p, x);
      PrefixConvex(Encode(head), p, x);
      EncodeOrder(head, k);
    }
  }

  // ---- KeyWriter and KeyReader -------------------------------------------

  class KeyWriter {
    var buf: Bytes

    constructor ()
      ensures buf == []
    {
      buf := [];
    }

    method U8(v: byte)
      modifies this
      ensures buf == old(buf) + [v]
    {
      buf := buf + [v];
    }

    method I64(v: int)
      modifies this
      ensures buf == old(buf) + BigEndian(8, v)
    {
      buf := buf + BigEndian(8, v);
    }

    method Prefixed(bytes: Bytes)
      modifies this
      ensures buf == old(buf) + QueuePrefix(bytes)
    {
      buf := buf + BigEndian(2, |bytes|);
      buf := buf + bytes;
    }

    method Tail(bytes: Bytes)
      modifies this
      ensures buf == old(buf) + bytes
    {
      buf := buf + bytes;
    }
  }

  class KeyReader {
    const bytes: Bytes
    var pos: nat

    ghost predicate Valid()
      reads this
    {
      pos <= |bytes|
    }

    constructor (bytes: Bytes)
      ensures this.bytes == bytes && pos == 0 && Valid()
    {
      this.bytes, pos := bytes, 0;
    }

    method TakeBytes(n: nat) returns (r: Option<Bytes>)
      requires Valid()
      modifies this
      ensures Valid()
      ensures old(pos) + n <= |bytes| ==> r == Some(bytes[old(pos)..old(pos) + n]) && pos == old(pos) + n
      ensures old(pos) + n > |bytes| ==> r == None && pos == old(pos)
    {
      if pos + n <= |bytes| {
        r := Some(bytes[pos..pos + n]);
        pos := pos + n;
      } else {
        r := None;
      }
    }

    method Prefixed() returns (r: Option<Bytes>)
      requires Valid()
      modifies this
      ensures Valid()
      ensures r == ReadQueue(bytes[old(pos)..])
      ensures r.Some? ==> pos == old(pos) + 2 + |r.value|
    {
      var rest := bytes[pos..];
      var len := TakeBytes(2);
      if len == None { return None; }
      assert len.value == rest[..2];
      var n := FromBigEndian(len.value);
      assert pos + n <= |bytes| ==> bytes[pos..pos + n] == rest[2..2 + n];
      r := TakeBytes(n);
    }

    method I64() returns (r: Option<int>)
      requires Valid()
      modifies this
      ensures Valid()
      ensures |bytes| - old(pos) >= 8 ==> pos == old(pos) + 8
      ensures |bytes| - old(pos) >= 8 ==> r == Some(AsI64(FromBigEndian(bytes[old(pos)..old(pos) + 8])))
      ensures |bytes| - old(pos) < 8 ==> r == None
    {
      var b := TakeBytes(8);
      if b == None { return None; }
      r := Some(AsI64(FromBigEndian(b.value)));
    }
  }

  method EncodeReadyKey(k: Key) returns (b: Bytes)
    requires k.ReadyKey?
    ensures b == Encode(k)
  {
    var w := new KeyWriter();
    w.Prefixed(k.queue);
    w.U8(9 - Min(k.priority, 9));
    w.I64(k.enqueuedAt);
    w.Tail(k.jobId);
    b := w.buf;
    ghost var p, t := [9 - Min(k.priority, 9)], BigEndian(8, k.enqueuedAt);
    assert b == QueuePrefix(k.queue) + p + t + k.jobId;
  }

  method EncodeTimerKey(k: Key) returns (b: Bytes)
    requires !k.ReadyKey?
    ensures b == Encode(k)
  {
    var w := new KeyWriter();
    w.I64(DeadlineOf(k));
    if !k.TimerKey? {
      w.Prefixed(k.queue);
    }
    w.Tail(if k.DedupTimerKey? then k.idempotencyKey else k.jobId);
    b := w.buf;
  }

  method DecodeReadyKey(b: Bytes) returns (r: Option<Key>)
    ensures r == DecodeReady(b)
  {
    var rd := new KeyReader(b);
    assert b[0..] == b;
    var q := rd.Prefixed();
    if q == None { return None; }
    ghost var rest := b[2 + |q.value|..];
    var p := rd.TakeBytes(1);
    if p == None { return None; }
    var t := rd.I64();
    if t == None { return None; }
    assert rest[1..9] == b[3 + |q.value|..11 + |q.value|] && rest[9..] == b[rd.pos..];
    r := Some(ReadyKey(q.value, PriorityOf(p.value[0]), t.value, b[rd.pos..]));
  }
}
