/** Byte strings, lexicographic order and fixed-width big-endian integers: the
    vocabulary every keyspace key is written in. */
module Bytes {
  datatype Option<+T> = None | Some(value: T)

  type byte = x: int | 0 <= x < 256
  type Bytes = seq<byte>

  const U16: int := 0x1_0000
  const U32: int := 0x1_0000_0000
  const I64_MAX: int := 0x7FFF_FFFF_FFFF_FFFF
  const U64_MAX: int := 0xFFFF_FFFF_FFFF_FFFF

  function Min(a: int, b: int): int {
    if a <= b then a else b
  }

  function Max(a: int, b: int): int {
    if a <= b then b else a
  }

  /** The first `n` elements, or all of them: an iterator's `take(n)`. */
  function Take<T>(s: seq<T>, n: nat): seq<T> {
    if n <= |s| then s[..n] else s
  }

  /** Dictionary order, the order of a BTreeMap over byte vectors. */
  predicate Lex(a: seq<int>, b: seq<int>) {
    b != [] && (a == [] || a[0] < b[0] || (a[0] == b[0] && Lex(a[1..], b[1..])))
  }

  predicate StartsWith(s: seq<int>, prefix: seq<int>) {
    |prefix| <= |s| && s[..|prefix|] == prefix
  }

  lemma {:induction false} LexIrreflexive(a: seq<int>)
    ensures !Lex(a, a)
  {
    if a != [] {
      LexIrreflexive(a[1..]);
    }
  }

  lemma {:induction false} LexTransitive(a: seq<int>, b: seq<int>, c: seq<int>)
    requires Lex(a, b) && Lex(b, c)
    ensures Lex(a, c)
  {
    if a != [] && a[0] == b[0] && b[0] == c[0] {
      LexTransitive(a[1..], b[1..], c[1..]);
    }
  }

  lemma {:induction false} LexTotal(a: seq<int>, b: seq<int>)
    ensures Lex(a, b) || a == b || Lex(b, a)
  {
    if a != [] && b != [] && a[0] == b[0] {
      LexTotal(a[1..], b[1..]);
      assert a == [a[0]] + a[1..] && b == [b[0]] + b[1..];
    }
  }

  /** A shared prefix never decides the comparison. */
  lemma {:induction false} LexSharedPrefix(p: seq<int>, a: seq<int>, b: seq<int>)
    ensures Lex(p + a, p + b) == Lex(a, b)
  {
    if p == [] {
      assert p + a == a && p + b == b;
    } else {
      assert (p + a)[1..] == p[1..] + a && (p + b)[1..] == p[1..] + b;
      LexSharedPrefix(p[1..], a, b);
    }
  }

  /** Two different fields of the same width decide the comparison by themselves. */
  lemma {:induction false} LexFixedWidth(x: seq<int>, y: seq<int>, a: seq<int>, b: seq<int>)
    requires |x| == |y| && x != y
    ensures Lex(x + a, y + b) == Lex(x, y)
  {
    if x[0] == y[0] {
      assert (x + a)[1..] == x[1..] + a && (y + b)[1..] == y[1..] + b;
      assert x == [x[0]] + x[1..] && y == [y[0]] + y[1..];
      LexFixedWidth(x[1..], y[1..], a, b);
    }
  }

  function Pow256(w: nat): (p: int)
    ensures p >= 1
  {
    if w == 0 then 1 else 256 * Pow256(w - 1)
  }

  /** The low `w` bytes of `v`, most significant first. Euclidean division makes
      this two's complement for a negative `v`, as `to_be_bytes` is, and makes an
      over-long value wrap, as an `as u16` cast does. */
  function BigEndian(w: nat, v: int): (b: Bytes)
    ensures |b| == w
    decreases w, v
  {
    if w == 0 then [] else BigEndian(w - 1, v / 256) + [v % 256]
  }

  function FromBigEndian(b: Bytes): (v: int)
    ensures v >= 0
  {
    if b == [] then 0 else 256 * FromBigEndian(b[..|b| - 1]) + b[|b| - 1]
  }

  lemma DivModStep(v: int, p: int)
    requires p >= 1
    ensures v % (256 * p) == 256 * ((v / 256) % p) + v % 256
  {
    var q, r := v / 256, v % 256;
    var q', r' := q / p, q % p;
    assert v == 256 * q + r && q == p * q' + r';
    assert v == (256 * p) * q' + (256 * r' + r) by {
      assert 256 * (p * q') == (256 * p) * q';
    }
    assert 0 <= 256 * r' + r < 256 * p;
    ModUnique(v, 256 * p, q', 256 * r' + r);
  }

  lemma ModUnique(v: int, m: int, q: int, r: int)
    requires m > 0 && v == m * q + r && 0 <= r < m
    ensures v % m == r
  {
    var q', r' := v / m, v % m;
    assert m * (q - q') == r' - r;
    if q > q' {
      MulAtLeast(m, q - q');
    } else if q < q' {
      MulAtLeast(m, q' - q);
    }
  }

  lemma MulAtLeast(m: int, k: int)
    requires m > 0 && k >= 1
    ensures m * k >= m
  {
  }

  lemma {:induction false} BigEndianValue(w: nat, v: int)
    ensures FromBigEndian(BigEndian(w, v)) == v % Pow256(w)
  {
    if w > 0 {
      BigEndianValue(w - 1, v / 256);
      var b := BigEndian(w, v);
      assert b[..w - 1] == BigEndian(w - 1, v / 256);
      DivModStep(v, Pow256(w - 1));
    }
  }

  lemma BigEndianInjective(w: nat, x: int, y: int)
    requires BigEndian(w, x) == BigEndian(w, y)
    ensures x % Pow256(w) == y % Pow256(w)
  {
    BigEndianValue(w, x);
    BigEndianValue(w, y);
  }

  /** Byte order of two fields of equal width is the order of the unsigned values. */
  lemma {:induction false} BigEndianOrder(w: nat, x: int, y: int)
    ensures Lex(BigEndian(w, x), BigEndian(w, y)) == (x % Pow256(w) < y % Pow256(w))
  {
    if w > 0 {
      var p := Pow256(w - 1);
      var hx, hy := BigEndian(w - 1, x / 256), BigEndian(w - 1, y / 256);
      BigEndianOrder(w - 1, x / 256, y / 256);
      DivModStep(x, p);
      DivModStep(y, p);
      if hx == hy {
        BigEndianInjective(w - 1, x / 256, y / 256);
        LexSharedPrefix(hx, [x % 256], [y % 256]);
      } else {
        LexFixedWidth(hx, hy, [x % 256], [y % 256]);
        BigEndianValue(w - 1, x / 256);
        BigEndianValue(w - 1, y / 256);
        if (x / 256) % p == (y / 256) % p {
          BigEndianSame(w - 1, x / 256, y / 256);
        }
      }
    }
  }

  lemma {:induction false} BigEndianSame(w: nat, x: int, y: int)
    requires x % Pow256(w) == y % Pow256(w)
    ensures BigEndian(w, x) == BigEndian(w, y)
  {
    if w > 0 {
      DivModStep(x, Pow256(w - 1));
      DivModStep(y, Pow256(w - 1));
      BigEndianSame(w - 1, x / 256, y / 256);
    }
  }

  /** One field of a composite key: the numbers decide first, the tails break ties. */
  lemma FieldOrder(w: nat, x: int, y: int, a: seq<int>, b: seq<int>)
    requires 0 <= x < Pow256(w) && 0 <= y < Pow256(w)
    ensures Lex(BigEndian(w, x) + a, BigEndian(w, y) + b) == Lex([x] + a, [y] + b)
  {
    assert ([x] + a)[1..] == a && ([y] + b)[1..] == b;
    SmallMod(x, Pow256(w));
    SmallMod(y, Pow256(w));
    var ex, ey := BigEndian(w, x), BigEndian(w, y);
    BigEndianOrder(w, x, y);
    if x == y {
      LexSharedPrefix(ex, a, b);
    } else if ex == ey {
      BigEndianInjective(w, x, y);
    } else {
      LexFixedWidth(ex, ey, a, b);
    }
  }

  lemma SmallMod(x: int, m: int)
    requires 0 <= x < m
    ensures x % m == x
  {
  }
}
