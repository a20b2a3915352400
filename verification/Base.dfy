/** Bytes, little-endian integers, byte-lexicographic order and the result types that the
    other modules share. */
module Base {

  datatype Option<+T> = None | Some(value: T)

  datatype Result<+T, +E> = Ok(value: T) | Err(error: E) {
    predicate IsFailure() { Err? }

    function PropagateFailure<U>(): Result<U, E>
      requires Err?
    {
      Err(error)
    }

    function Extract(): T
      requires Ok?
    {
      value
    }
  }

  type Byte = x: int | 0 <= x < 256
  type Bytes = seq<Byte>

  const U16 := 65536
  const U32 := 4294967296
  const U64 := 18446744073709551616

  type Word16 = n: int | 0 <= n < U16
  type Word32 = n: int | 0 <= n < U32

  /** Bitwise and. */
  function And(a: nat, b: nat): (r: nat)
    ensures r <= a && r <= b
  {
    if a == 0 || b == 0 then 0 else (if a % 2 == 1 && b % 2 == 1 then 1 else 0) + 2 * And(a / 2, b / 2)
  }

  predicate Bit(n: nat, i: nat)
    decreases i
  {
    if i == 0 then n % 2 == 1 else Bit(n / 2, i - 1)
  }

  /** A bit is in the conjunction exactly when it is in both. */
  lemma {:induction false} AndBits(a: nat, b: nat, i: nat)
    ensures Bit(And(a, b), i) <==> Bit(a, i) && Bit(b, i)
    decreases i
  {
    if a == 0 { NoBits(i); }
    if b == 0 { NoBits(i); }
    if i > 0 && a > 0 && b > 0 { AndBits(a / 2, b / 2, i - 1); }
  }

  lemma {:induction false} NoBits(i: nat)
    ensures !Bit(0, i)
    decreases i
  {
    if i > 0 { NoBits(i - 1); }
  }

  function Pow256(width: nat): (r: nat)
    ensures r > 0
  {
    if width == 0 then 1 else 256 * Pow256(width - 1)
  }

  lemma Pow256Values()
    ensures Pow256(1) == 256 && Pow256(2) == U16 && Pow256(4) == U32 && Pow256(8) == U64
  {
    assert Pow256(2) == 256 * Pow256(1);
    assert Pow256(4) == 256 * 256 * Pow256(2);
    assert Pow256(6) == 256 * 256 * Pow256(4);
    assert Pow256(8) == 256 * 256 * Pow256(6);
  }

  /** The low `width` bytes of `n`, least significant first: `to_le_bytes` after an `as` cast,
      which drops the high bytes of a number that is too large. */
  function ToLE(n: nat, width: nat): (b: Bytes)
    ensures |b| == width
  {
    if width == 0 then [] else [n % 256] + ToLE(n / 256, width - 1)
  }

  function FromLE(b: Bytes): (n: nat)
    ensures n < Pow256(|b|)
  {
    if b == [] then 0 else b[0] + 256 * FromLE(b[1..])
  }

  lemma {:induction false} FromToLE(n: nat, width: nat)
    requires n < Pow256(width)
    ensures FromLE(ToLE(n, width)) == n
  {
    if width > 0 {
      FromToLE(n / 256, width - 1);
      assert ToLE(n, width)[1..] == ToLE(n / 256, width - 1);
    }
  }

  lemma {:induction false} ToFromLE(b: Bytes)
    ensures ToLE(FromLE(b), |b|) == b
  {
    if b != [] {
      ToFromLE(b[1..]);
      assert FromLE(b) % 256 == b[0] && FromLE(b) / 256 == FromLE(b[1..]);
      assert [b[0]] + b[1..] == b;
    }
  }

  lemma ModUnique(a: nat, b: nat, q: nat, r: nat)
    requires a == b * q + r && r < b
    ensures a % b == r
  {
    var d := q - a / b;
    assert b * d == a % b - r;
    assert d > 0 ==> b * d >= b;
    assert d < 0 ==> b * d <= 0 - b;
  }

  /** Byte-lexicographic order, the order of a `BTreeMap` keyed by strings. */
  predicate Less(a: Bytes, b: Bytes)
  {
    b != [] && (a == [] || a[0] < b[0] || (a[0] == b[0] && Less(a[1..], b[1..])))
  }

  lemma {:induction false} LessIrreflexive(a: Bytes)
    ensures !Less(a, a)
  {
    if a != [] { LessIrreflexive(a[1..]); }
  }

  lemma {:induction false} LessTransitive(a: Bytes, b: Bytes, c: Bytes)
    requires Less(a, b) && Less(b, c)
    ensures Less(a, c)
  {
    if a != [] && a[0] == b[0] == c[0] { LessTransitive(a[1..], b[1..], c[1..]); }
  }

  lemma {:induction false} LessTotal(a: Bytes, b: Bytes)
    ensures a == b || Less(a, b) || Less(b, a)
  {
    if a != [] && b != [] && a[0] == b[0] {
      LessTotal(a[1..], b[1..]);
      assert a == [a[0]] + a[1..] && b == [b[0]] + b[1..];
    }
  }

  // ------------------------------------------------------------------ bytes in a map

  ghost function SumLengths<K(!new)>(m: map<K, Bytes>): nat
  {
    if m == map[] then 0 else var k :| k in m; |m[k]| + SumLengths(m - {k})
  }

  lemma {:induction false} SumRemove<K(!new)>(m: map<K, Bytes>, k: K)
    requires k in m
    ensures SumLengths(m) == |m[k]| + SumLengths(m - {k})
    decreases |m|
  {
    var x :| x in m && SumLengths(m) == |m[x]| + SumLengths(m - {x});
    if x != k {
      assert |m - {x}| < |m| by { assert (m - {x}).Keys == m.Keys - {x}; }
      SumRemove(m - {x}, k);
      assert |m - {k}| < |m| by { assert (m - {k}).Keys == m.Keys - {k}; }
      SumRemove(m - {k}, x);
      assert m - {x} - {k} == m - {k} - {x};
    }
  }

  lemma MergeLess<K>(a: map<K, Bytes>, b: map<K, Bytes>, k: K)
    requires a.Keys !! b.Keys && k in b
    ensures k in a + b && (a + b)[k] == b[k] && a + b - {k} == a + (b - {k})
    ensures (b - {k}).Keys == b.Keys - {k} && |b - {k}| < |b|
  {
    assert (b - {k}).Keys == b.Keys - {k};
    assert |b - {k}| == |(b - {k}).Keys| && |b| == |b.Keys|;
  }

  lemma {:induction false} SumMerge<K(!new)>(a: map<K, Bytes>, b: map<K, Bytes>)
    requires a.Keys !! b.Keys
    ensures SumLengths(a + b) == SumLengths(a) + SumLengths(b)
    decreases |b|
  {
    if b == map[] {
      assert a + b == a;
    } else {
      var k :| k in b;
      MergeLess(a, b, k);
      SumMerge(a, b - {k});
      SumRemove(b, k);
      SumRemove(a + b, k);
      hide SumLengths;
    }
  }
}
