/** Digests as file names and as shard keys. */
module Digests {
  import opened Base
  import opened Manifest

  // ------------------------------------------------------------------ hexadecimal names

  const HEX := "0123456789abcdef"
  const PREFIX := "b3:"

  function HexDigit(i: nat): char
    requires i < 16
  {
    HEX[i]
  }

  function HexOf(b: Byte): string { [HexDigit(b / 16), HexDigit(b % 16)] }

  /** `to_hex`: the file name of an object. */
  function ToHex(d: Bytes): (s: string)
    ensures |s| == 2 * |d|
    decreases |d|
  {
    if d == [] then "" else HexOf(d[0]) + ToHex(d[1..])
  }

  /** A hexadecimal digit of either case. */
  function Nibble(c: char): Option<nat>
  {
    if '0' <= c <= '9' then Some((c - '0') as nat)
    else if 'a' <= c <= 'f' then Some((c - 'a') as nat + 10)
    else if 'A' <= c <= 'F' then Some((c - 'A') as nat + 10)
    else None
  }

  function FromHex(s: string): Option<Bytes>
    requires |s| % 2 == 0
    decreases |s|
  {
    if s == "" then Some([])
    else match (Nibble(s[0]), Nibble(s[1]), FromHex(s[2..]))
      case (Some(hi), Some(lo), Some(rest)) => (if 16 * hi + lo < 256 then Some([16 * hi + lo] + rest) else None)
      case _ => None
  }

  datatype ParseError = BadLength | NotHex

  /** `Digest::parse`: with or without the prefix. */
  function Parse(s: string): Result<Digest, ParseError>
  {
    var h := if PREFIX <= s then s[|PREFIX|..] else s;
    if |h| != 2 * DIGEST_LEN then Err(BadLength)
    else match FromHex(h)
      case None => Err(NotHex)
      case Some(b) => if |b| == DIGEST_LEN then Ok(b) else Err(NotHex)
  }

  lemma NibbleOfHex(i: nat)
    requires i < 16
    ensures Nibble(HexDigit(i)) == Some(i)
  {
    assert HEX[0] == '0' && HEX[9] == '9' && HEX[10] == 'a' && HEX[15] == 'f';
  }

  lemma FromHexStep(c: char, d: char, hi: nat, lo: nat, s: string, rest: Bytes)
    requires |s| % 2 == 0 && hi < 16 && lo < 16
    requires Nibble(c) == Some(hi) && Nibble(d) == Some(lo) && FromHex(s) == Some(rest)
    ensures FromHex([c, d] + s) == Some([16 * hi + lo] + rest)
  {
    hide Nibble;
    assert ([c, d] + s)[2..] == s;
  }

  lemma FromHexPair(b: Byte, s: string, rest: Bytes)
    requires |s| % 2 == 0 && FromHex(s) == Some(rest)
    ensures FromHex(HexOf(b) + s) == Some([b] + rest)
  {
    hide FromHex;
    NibbleOfHex(b / 16);
    NibbleOfHex(b % 16);
    hide Nibble, HexDigit;
    FromHexStep(HexDigit(b / 16), HexDigit(b % 16), b / 16, b % 16, s, rest);
  }

  lemma {:induction false} FromToHex(d: Bytes)
    ensures FromHex(ToHex(d)) == Some(d)
    decreases |d|
  {
    hide FromHex, HexOf;
    if d == [] {
      assert FromHex("") == Some([]) by { FromHexEmpty(); }
    } else {
      FromToHex(d[1..]);
      FromHexPair(d[0], ToHex(d[1..]), d[1..]);
      assert [d[0]] + d[1..] == d;
    }
  }

  lemma FromHexEmpty()
    ensures FromHex("") == Some([])
  {
  }

  predicate IsHex(c: char) { '0' <= c <= '9' || 'a' <= c <= 'f' || 'A' <= c <= 'F' }

  lemma {:induction false} FromHexIsExact(s: string)
    requires |s| % 2 == 0
    ensures FromHex(s).Some? <==> forall i :: 0 <= i < |s| ==> IsHex(s[i])
    ensures FromHex(s).Some? ==> 2 * |FromHex(s).value| == |s|
    decreases |s|
  {
    if s != "" {
      FromHexIsExact(s[2..]);
      assert forall i :: 2 <= i < |s| ==> s[2..][i - 2] == s[i];
      NibbleMeans(s[0]);
      NibbleMeans(s[1]);
      hide Nibble, IsHex;
      if forall i :: 0 <= i < |s| ==> IsHex(s[i]) {
        assert forall i :: 0 <= i < |s[2..]| ==> s[2..][i] == s[i + 2];
      }
    }
  }

  lemma NibbleMeans(c: char)
    ensures Nibble(c).Some? <==> IsHex(c)
    ensures Nibble(c).Some? ==> Nibble(c).value < 16
  {
  }

  /** The names that parse: 64 hexadecimal digits of either case, with or without the prefix. */
  lemma ParseIsExact(s: string)
    ensures var h := if "b3:" <= s then s[3..] else s;
            && (Parse(s) == Err(BadLength) <==> |h| != 64)
            && (Parse(s).Ok? <==> |h| == 64 && forall i :: 0 <= i < |h| ==> IsHex(h[i]))
  {
    var h := if "b3:" <= s then s[3..] else s;
    if |h| == 64 { FromHexIsExact(h); }
    hide FromHex, IsHex;
  }

  /** An object's file name names its digest, so the sweep never misreads one, and no two digests
      share an object path. */
  lemma NamesRoundTrip(d: Digest)
    ensures Parse(ToHex(d)) == Ok(d) && Parse(PREFIX + ToHex(d)) == Ok(d)
  {
    FromToHex(d);
    NibbleOfHex(d[1] / 16);
    assert ToHex(d)[2..] == ToHex(d[1..]) && ToHex(d[1..])[0] == HEX[d[1] / 16];
    assert ToHex(d)[2] != ':';
    assert !(PREFIX <= ToHex(d));
    assert (PREFIX + ToHex(d))[|PREFIX|..] == ToHex(d);
  }

  /** `objects/<first byte>/<all bytes>`. */
  function ObjectPath(d: Digest): (string, string) { (HexOf(d[0]), ToHex(d)) }

  lemma ObjectPathsDiffer(a: Digest, b: Digest)
    requires ObjectPath(a) == ObjectPath(b)
    ensures a == b
  {
    NamesRoundTrip(a);
    NamesRoundTrip(b);
  }

  // ------------------------------------------------------------------ shards

  predicate PowerOfTwo(n: nat) { n == 1 || (n > 0 && n % 2 == 0 && PowerOfTwo(n / 2)) }

  function Shard(d: Digest, n: nat): nat
    requires n > 0
  {
    var head := FromLE(d[..8]);
    if PowerOfTwo(n) then And(head, n - 1) else head % n
  }

  lemma ModDouble(h: nat, m: nat)
    requires m > 0
    ensures h % (2 * m) == h % 2 + 2 * (h / 2 % m)
  {
    var k := h / 2;
    assert 2 * m * (k / m) == 2 * (m * (k / m));
    ModUnique(h, 2 * m, k / m, h % 2 + 2 * (k % m));
  }

  lemma {:induction false} MaskIsMod(h: nat, n: nat)
    requires PowerOfTwo(n)
    ensures And(h, n - 1) == h % n
    decreases n
  {
    if n > 1 {
      var m := n / 2;
      MaskIsMod(h / 2, m);
      ModDouble(h, m);
      assert n - 1 == 2 * (m - 1) + 1;
      if h > 0 { assert (n - 1) / 2 == m - 1; }
    }
  }

  /** The mask for a power of two and the remainder otherwise are the same routing, and every
      digest has its one shard. */
  lemma ShardIsRemainder(d: Digest, n: nat)
    requires n > 0
    ensures Shard(d, n) == FromLE(d[..8]) % n < n
  {
    if PowerOfTwo(n) { MaskIsMod(FromLE(d[..8]), n); }
  }
}
