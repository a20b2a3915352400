/** Directory manifests: the canonical encoding of a tree, its decoder, and the proof that the
    two are inverse exactly on the trees that the format can hold. */
module Manifest {
  import opened Base

  const DIGEST_LEN := 32
  const TREE_FORMAT_VERSION := 1
  const NAME_MAX := 255
  const TAG_FILE: Byte := 1
  const TAG_DIR: Byte := 2
  const TAG_SYMLINK: Byte := 3
  const SLASH: Byte := 47
  const DOT: Byte := 46
  const NUL: Byte := 0

  type Digest = b: Bytes | |b| == DIGEST_LEN witness seq(DIGEST_LEN, _ => 0)

  datatype Node =
    | File(digest: Digest, size: nat, executable: bool)
    | Dir(digest: Digest)
    | Symlink(target: Bytes)

  datatype Entry = Entry(name: Bytes, node: Node)

  /** A `BTreeMap<EntryName, Node>`, given by its entries in iteration order. */
  type Tree = seq<Entry>

  datatype TreeError =
    | EmptyName | NameTooLong | DotName | NameHasSeparator | NameHasNul | NameNotUtf8
    | DuplicateName(name: Bytes) | EmptySymlinkTarget | UnsupportedVersion(version: nat)
    | UnknownTag(tag: Byte) | Truncated | TrailingBytes(count: nat)

  // ------------------------------------------------------------------ names and the sorted map

  /** `EntryName::new`: the first rule that a name breaks, if any. */
  function CheckName(name: Bytes): Option<TreeError>
  {
    if name == [] then Some(EmptyName)
    else if |name| > NAME_MAX then Some(NameTooLong)
    else if name == [DOT] || name == [DOT, DOT] then Some(DotName)
    else if SLASH in name then Some(NameHasSeparator)
    else if NUL in name then Some(NameHasNul)
    else None
  }

  /** What holding an `EntryName` promises. */
  predicate ValidName(utf8: Bytes -> bool, name: Bytes)
  {
    && 0 < |name| <= NAME_MAX
    && name != [DOT] && name != [DOT, DOT]
    && SLASH !in name && NUL !in name
    && utf8(name)
  }

  /** The check accepts exactly the names that cannot leave their directory. */
  lemma NameCheckIsExact(utf8: Bytes -> bool, name: Bytes)
    ensures CheckName(name).None? && utf8(name) <==> ValidName(utf8, name)
  {
  }

  /** The error is that of the first rule that the name breaks. */
  lemma NameErrors(name: Bytes)
    ensures CheckName(name) == Some(EmptyName) <==> |name| == 0
    ensures CheckName(name) == Some(NameTooLong) <==> |name| > 255
    ensures CheckName(name) == Some(DotName) <==> name == [46] || name == [46, 46]
    ensures CheckName(name) == Some(NameHasSeparator) <==> |name| <= 255 && 47 in name
    ensures CheckName(name) == Some(NameHasNul) <==> |name| <= 255 && 47 !in name && 0 in name
  {
    if name == [46] || name == [46, 46] { assert 47 !in name && 0 !in name; }
  }

  ghost predicate Sorted(t: Tree)
  {
    forall i, j :: 0 <= i < j < |t| ==> Less(t[i].name, t[j].name)
  }

  function Lookup(t: Tree, name: Bytes): Option<Node>
  {
    if t == [] then None
    else if t[0].name == name then Some(t[0].node)
    else Lookup(t[1..], name)
  }

  /** `BTreeMap::insert`: replaces an entry of the same name. */
  function Insert(t: Tree, e: Entry): Tree
  {
    if t == [] then [e]
    else if t[0].name == e.name then [e] + t[1..]
    else if Less(e.name, t[0].name) then [e] + t
    else [t[0]] + Insert(t[1..], e)
  }

  lemma {:induction false} InsertMembers(t: Tree, e: Entry, x: Entry)
    ensures x in Insert(t, e) ==> x == e || x in t
    ensures e in Insert(t, e)
  {
    if t != [] && t[0].name != e.name && !Less(e.name, t[0].name) {
      InsertMembers(t[1..], e, x);
    }
  }

  lemma {:induction false} InsertSorted(t: Tree, e: Entry)
    requires Sorted(t)
    ensures Sorted(Insert(t, e))
  {
    if t == [] || t[0].name == e.name {
    } else if Less(e.name, t[0].name) {
      forall j | 0 < j < |t| ensures Less(e.name, t[j].name) {
        LessTransitive(e.name, t[0].name, t[j].name);
      }
    } else {
      InsertSorted(t[1..], e);
      LessTotal(e.name, t[0].name);
      var rest := Insert(t[1..], e);
      forall j | 0 <= j < |rest| ensures Less(t[0].name, rest[j].name) {
        InsertMembers(t[1..], e, rest[j]);
      }
    }
  }

  lemma {:induction false} LookupInsert(t: Tree, e: Entry, n: Bytes)
    ensures Lookup(Insert(t, e), n) == if n == e.name then Some(e.node) else Lookup(t, n)
  {
    if t != [] && t[0].name != e.name && !Less(e.name, t[0].name) {
      LookupInsert(t[1..], e, n);
    }
  }

  lemma {:induction false} LookupMember(t: Tree, n: Bytes)
    ensures Lookup(t, n).Some? <==> exists e :: e in t && e.name == n
    ensures Lookup(t, n).Some? ==> Entry(n, Lookup(t, n).value) in t
  {
    if t != [] { LookupMember(t[1..], n); }
  }

  lemma SortedHeadAbsent(t: Tree)
    requires t != [] && Sorted(t)
    ensures Lookup(t[1..], t[0].name) == None
  {
    LookupMember(t[1..], t[0].name);
    if e :| e in t[1..] && e.name == t[0].name { LessIrreflexive(e.name); }
  }

  /** A sorted list is determined by the map that it stands for. */
  lemma {:induction false} SortedCanonical(a: Tree, b: Tree)
    requires Sorted(a) && Sorted(b)
    requires forall n :: Lookup(a, n) == Lookup(b, n)
    ensures a == b
  {
    if a == [] {
      assert b == [] || Lookup(a, b[0].name) == Lookup(b, b[0].name);
    } else {
      assert Lookup(b, a[0].name) == Some(a[0].node);
      assert Lookup(a, b[0].name) == Some(b[0].node);
      LookupMember(b, a[0].name);
      LookupMember(a, b[0].name);
      if a[0].name != b[0].name {
        LessTransitive(a[0].name, b[0].name, a[0].name);
        LessIrreflexive(a[0].name);
      }
      SortedHeadAbsent(a);
      SortedHeadAbsent(b);
      forall n ensures Lookup(a[1..], n) == Lookup(b[1..], n) {
        assert Lookup(a, n) == Lookup(b, n);
      }
      SortedCanonical(a[1..], b[1..]);
      assert a == [a[0]] + a[1..] && b == [b[0]] + b[1..];
    }
  }

  function InsertAll(t: Tree, es: seq<Entry>): Tree
    decreases |es|
  {
    if es == [] then t else InsertAll(Insert(t, es[0]), es[1..])
  }

  /** The node that the last insertion under a name left there. */
  function LastBinding(start: Option<Node>, es: seq<Entry>, n: Bytes): Option<Node>
    decreases |es|
  {
    if es == [] then start
    else LastBinding(if es[0].name == n then Some(es[0].node) else start, es[1..], n)
  }

  lemma {:induction false} InsertAllBinds(t: Tree, es: seq<Entry>, n: Bytes)
    requires Sorted(t)
    ensures Sorted(InsertAll(t, es))
    ensures Lookup(InsertAll(t, es), n) == LastBinding(Lookup(t, n), es, n)
    decreases |es|
  {
    if es != [] {
      InsertSorted(t, es[0]);
      LookupInsert(t, es[0], n);
      InsertAllBinds(Insert(t, es[0]), es[1..], n);
    }
  }

  /** Insertion order never shows: two ways of filling a directory that leave the same bindings
      give the same manifest bytes. */
  lemma EncodingIgnoresInsertionOrder(es: seq<Entry>, fs: seq<Entry>)
    requires forall n :: LastBinding(None, es, n) == LastBinding(None, fs, n)
    ensures EncodeTree(InsertAll([], es)) == EncodeTree(InsertAll([], fs))
  {
    forall n
      ensures Lookup(InsertAll([], es), n) == Lookup(InsertAll([], fs), n)
      ensures Sorted(InsertAll([], es)) && Sorted(InsertAll([], fs))
    {
      InsertAllBinds([], es, n);
      InsertAllBinds([], fs, n);
      assert LastBinding(None, es, n) == LastBinding(None, fs, n);
    }
    InsertAllBinds([], es, []);
    InsertAllBinds([], fs, []);
    SortedCanonical(InsertAll([], es), InsertAll([], fs));
  }

  // ------------------------------------------------------------------ encoding

  function Payload(n: Node): Bytes
  {
    match n
    case File(d, size, x) => d + ToLE(size, 8) + [if x then 1 else 0]
    case Dir(d) => d
    case Symlink(target) => ToLE(|target|, 2) + target
  }

  function Tag(n: Node): Byte
  {
    match n
    case File(_, _, _) => TAG_FILE
    case Dir(_) => TAG_DIR
    case Symlink(_) => TAG_SYMLINK
  }

  function EncodeEntry(e: Entry): (b: Bytes)
    ensures |b| >= 3
  {
    [Tag(e.node)] + ToLE(|e.name|, 2) + e.name + Payload(e.node)
  }

  function EncodeEntries(t: Tree): (b: Bytes)
    ensures t == [] ==> b == []
  {
    if t == [] then [] else EncodeEntry(t[0]) + EncodeEntries(t[1..])
  }

  function EncodeTree(t: Tree): Bytes
  {
    ToLE(TREE_FORMAT_VERSION, 2) + ToLE(|t|, 4) + EncodeEntries(t)
  }

  // ------------------------------------------------------------------ decoding

  /** `Reader::take`, on the bytes that are still unread. */
  function Take(b: Bytes, n: nat): (r: Result<(Bytes, Bytes), TreeError>)
    ensures r.Ok? ==> |r.value.0| == n
  {
    if n <= |b| then Ok((b[..n], b[n..])) else Err(Truncated)
  }

  function DecodeNode(utf8: Bytes -> bool, tag: Byte, b: Bytes): Result<(Node, Bytes), TreeError>
  {
    if tag == TAG_FILE then
      var (d, b1) :- Take(b, DIGEST_LEN);
      var (size, b2) :- Take(b1, 8);
      var (flags, b3) :- Take(b2, 1);
      Ok((File(d, FromLE(size), flags[0] % 2 == 1), b3))
    else if tag == TAG_DIR then
      var (d, b1) :- Take(b, DIGEST_LEN);
      Ok((Dir(d), b1))
    else if tag == TAG_SYMLINK then
      var (len, b1) :- Take(b, 2);
      var (target, b2) :- Take(b1, FromLE(len));
      if !utf8(target) then Err(NameNotUtf8)
      else if target == [] then Err(EmptySymlinkTarget)
      else Ok((Symlink(target), b2))
    else Err(UnknownTag(tag))
  }

  function DecodeEntry(utf8: Bytes -> bool, b: Bytes): Result<(Entry, Bytes), TreeError>
  {
    var (tag, b1) :- Take(b, 1);
    var (len, b2) :- Take(b1, 2);
    var (name, b3) :- Take(b2, FromLE(len));
    if !utf8(name) then Err(NameNotUtf8)
    else if CheckName(name).Some? then Err(CheckName(name).value)
    else
      var (node, b4) :- DecodeNode(utf8, tag[0], b3);
      Ok((Entry(name, node), b4))
  }

  function DecodeEntries(utf8: Bytes -> bool, b: Bytes, count: nat, acc: Tree)
    : Result<(Tree, Bytes), TreeError>
    decreases count
  {
    if count == 0 then Ok((acc, b))
    else
      var (e, rest) :- DecodeEntry(utf8, b);
      if Lookup(acc, e.name).Some? then Err(DuplicateName(e.name))
      else DecodeEntries(utf8, rest, count - 1, Insert(acc, e))
  }

  function DecodeTree(utf8: Bytes -> bool, b: Bytes): Result<Tree, TreeError>
  {
    var (v, b1) :- Take(b, 2);
    if FromLE(v) != TREE_FORMAT_VERSION then Err(UnsupportedVersion(FromLE(v)))
    else
      var (c, b2) :- Take(b1, 4);
      if FromLE(c) > |b2| then Err(Truncated)
      else
        var (t, rest) :- DecodeEntries(utf8, b2, FromLE(c), []);
        if rest != [] then Err(TrailingBytes(|rest|)) else Ok(t)
  }

  // ------------------------------------------------------------------ what a tree may hold

  /** What the types of the program promise about an entry: a validated name, a `String` target,
      a `u64` size. */
  predicate WellTypedEntry(utf8: Bytes -> bool, e: Entry)
  {
    && ValidName(utf8, e.name)
    && (e.node.File? ==> e.node.size < U64)
    && (e.node.Symlink? ==> utf8(e.node.target))
  }

  ghost predicate WellTyped(utf8: Bytes -> bool, t: Tree)
  {
    Sorted(t) && forall e :: e in t ==> WellTypedEntry(utf8, e)
  }

  predicate EntryFits(e: Entry)
  {
    e.node.Symlink? ==> 0 < |e.node.target| < U16
  }

  /** The trees that survive the 16-bit target length and the 32-bit entry count. */
  ghost predicate Fits(t: Tree)
  {
    |t| < U32 && forall e :: e in t ==> EntryFits(e)
  }

  // ------------------------------------------------------------------ decode after encode

  lemma TakeExact(a: Bytes, rest: Bytes)
    ensures Take(a + rest, |a|) == Ok((a, rest))
  {
    assert (a + rest)[..|a|] == a && (a + rest)[|a|..] == rest;
  }

  lemma FileRoundTrip(utf8: Bytes -> bool, n: Node, rest: Bytes)
    requires n.File? && n.size < U64
    ensures DecodeNode(utf8, Tag(n), Payload(n) + rest) == Ok((n, rest))
  {
    Pow256Values();
    var flag: Bytes := [if n.executable then 1 else 0];
    assert Payload(n) + rest == n.digest + (ToLE(n.size, 8) + (flag + rest));
    TakeExact(n.digest, ToLE(n.size, 8) + (flag + rest));
    TakeExact(ToLE(n.size, 8), flag + rest);
    TakeExact(flag, rest);
    FromToLE(n.size, 8);
  }

  lemma LinkRoundTrip(utf8: Bytes -> bool, n: Node, rest: Bytes)
    requires n.Symlink? && utf8(n.target) && 0 < |n.target| < U16
    ensures DecodeNode(utf8, Tag(n), Payload(n) + rest) == Ok((n, rest))
  {
    Pow256Values();
    assert Payload(n) + rest == ToLE(|n.target|, 2) + (n.target + rest);
    TakeExact(ToLE(|n.target|, 2), n.target + rest);
    FromToLE(|n.target|, 2);
    TakeExact(n.target, rest);
  }

  lemma NodeRoundTrip(utf8: Bytes -> bool, n: Node, rest: Bytes)
    requires n.File? ==> n.size < U64
    requires n.Symlink? ==> utf8(n.target) && 0 < |n.target| < U16
    ensures DecodeNode(utf8, Tag(n), Payload(n) + rest) == Ok((n, rest))
  {
    match n
    case File(_, _, _) => FileRoundTrip(utf8, n, rest);
    case Dir(d) => TakeExact(d, rest);
    case Symlink(_) => LinkRoundTrip(utf8, n, rest);
  }

  lemma EntryRoundTrip(utf8: Bytes -> bool, e: Entry, rest: Bytes)
    requires WellTypedEntry(utf8, e) && EntryFits(e)
    ensures DecodeEntry(utf8, EncodeEntry(e) + rest) == Ok((e, rest))
  {
    Pow256Values();
    var tail := Payload(e.node) + rest;
    assert EncodeEntry(e) + rest == [Tag(e.node)] + (ToLE(|e.name|, 2) + (e.name + tail));
    TakeExact([Tag(e.node)], ToLE(|e.name|, 2) + (e.name + tail));
    TakeExact(ToLE(|e.name|, 2), e.name + tail);
    FromToLE(|e.name|, 2);
    TakeExact(e.name, tail);
    NodeRoundTrip(utf8, e.node, rest);
  }

  lemma {:induction false} InsertLast(t: Tree, e: Entry)
    requires forall x :: x in t ==> Less(x.name, e.name)
    ensures Insert(t, e) == t + [e] && Lookup(t, e.name) == None
  {
    if t != [] {
      LessIrreflexive(e.name);
      if Less(e.name, t[0].name) { LessTransitive(e.name, t[0].name, e.name); }
      InsertLast(t[1..], e);
      assert [t[0]] + (t[1..] + [e]) == t + [e];
    }
  }

  lemma {:induction false} EntriesRoundTrip(utf8: Bytes -> bool, acc: Tree, t: Tree, rest: Bytes)
    requires Sorted(acc + t)
    requires forall e :: e in t ==> WellTypedEntry(utf8, e) && EntryFits(e)
    ensures DecodeEntries(utf8, EncodeEntries(t) + rest, |t|, acc) == Ok((acc + t, rest))
    ensures |EncodeEntries(t)| >= |t|
    decreases |t|
  {
    hide DecodeEntry, EncodeEntry, WellTypedEntry, Insert, Lookup;
    if t == [] {
      assert acc + t == acc && EncodeEntries(t) + rest == rest;
    } else {
      assert EncodeEntries(t) + rest == EncodeEntry(t[0]) + (EncodeEntries(t[1..]) + rest);
      EntryRoundTrip(utf8, t[0], EncodeEntries(t[1..]) + rest);
      forall x | x in acc ensures Less(x.name, t[0].name) {
        var i :| 0 <= i < |acc| && acc[i] == x;
        assert (acc + t)[i] == x && (acc + t)[|acc|] == t[0];
      }
      InsertLast(acc, t[0]);
      assert acc + [t[0]] + t[1..] == acc + t;
      EntriesRoundTrip(utf8, acc + [t[0]], t[1..], rest);
    }
  }

  lemma DecodeInvertsEncode(utf8: Bytes -> bool, t: Tree)
    requires WellTyped(utf8, t) && Fits(t)
    ensures DecodeTree(utf8, EncodeTree(t)) == Ok(t)
  {
    Pow256Values();
    var body := EncodeEntries(t);
    assert EncodeTree(t) == ToLE(1, 2) + (ToLE(|t|, 4) + body);
    TakeExact(ToLE(1, 2), ToLE(|t|, 4) + body);
    FromToLE(1, 2);
    TakeExact(ToLE(|t|, 4), body);
    FromToLE(|t|, 4);
    assert [] + t == t && body + [] == body;
    EntriesRoundTrip(utf8, [], t, []);
  }

  // ------------------------------------------------------------------ what decoding guarantees

  lemma DecodedEntry(utf8: Bytes -> bool, b: Bytes)
    requires DecodeEntry(utf8, b).Ok?
    ensures var (e, _) := DecodeEntry(utf8, b).value; WellTypedEntry(utf8, e) && EntryFits(e)
  {
    Pow256Values();
  }

  lemma {:induction false} DecodedEntries(utf8: Bytes -> bool, b: Bytes, count: nat, acc: Tree)
    requires DecodeEntries(utf8, b, count, acc).Ok?
    requires WellTyped(utf8, acc) && forall e :: e in acc ==> EntryFits(e)
    ensures var (t, _) := DecodeEntries(utf8, b, count, acc).value;
            WellTyped(utf8, t) && |t| == |acc| + count && forall e :: e in t ==> EntryFits(e)
    decreases count
  {
    hide DecodeEntry, WellTypedEntry;
    if count > 0 {
      DecodedEntry(utf8, b);
      var (e, rest) := DecodeEntry(utf8, b).value;
      InsertSorted(acc, e);
      InsertNewLength(acc, e);
      forall x | x in Insert(acc, e) ensures WellTypedEntry(utf8, x) && EntryFits(x) {
        InsertMembers(acc, e, x);
      }
      DecodedEntries(utf8, rest, count - 1, Insert(acc, e));
    }
  }

  lemma {:induction false} InsertNewLength(t: Tree, e: Entry)
    requires Lookup(t, e.name) == None
    ensures |Insert(t, e)| == |t| + 1
  {
    if t != [] && !Less(e.name, t[0].name) { InsertNewLength(t[1..], e); }
  }

  /** Whatever the bytes, a decoded tree has valid, distinct, sorted names and fits the format. */
  lemma DecodedIsWellFormed(utf8: Bytes -> bool, b: Bytes)
    requires DecodeTree(utf8, b).Ok?
    ensures WellTyped(utf8, DecodeTree(utf8, b).value) && Fits(DecodeTree(utf8, b).value)
  {
    Pow256Values();
    var b2 := b[2..][4..];
    DecodedEntries(utf8, b2, FromLE(b[2..][..4]), []);
  }

  /** The round trip holds exactly for the trees that fit; a longer target or a larger entry
      count is silently truncated by the encoder. */
  lemma RoundTripExactlyWhenFits(utf8: Bytes -> bool, t: Tree)
    requires WellTyped(utf8, t)
    ensures DecodeTree(utf8, EncodeTree(t)) == Ok(t) <==> Fits(t)
  {
    if Fits(t) { DecodeInvertsEncode(utf8, t); }
    if DecodeTree(utf8, EncodeTree(t)) == Ok(t) { DecodedIsWellFormed(utf8, EncodeTree(t)); }
  }

  lemma EncodeInjective(utf8: Bytes -> bool, s: Tree, t: Tree)
    requires WellTyped(utf8, s) && Fits(s) && WellTyped(utf8, t) && Fits(t)
    requires EncodeTree(s) == EncodeTree(t)
    ensures s == t
  {
    DecodeInvertsEncode(utf8, s);
    DecodeInvertsEncode(utf8, t);
  }

  // ------------------------------------------------------------------ prefixes and extensions

  lemma TakeExtends(b: Bytes, n: nat, q: Bytes)
    requires n <= |b|
    ensures Take(b + q, n) == Ok((b[..n], b[n..] + q))
  {
    assert (b + q)[..n] == b[..n] && (b + q)[n..] == b[n..] + q;
  }

  lemma NodeExtends(utf8: Bytes -> bool, tag: Byte, b: Bytes, q: Bytes)
    requires DecodeNode(utf8, tag, b).Ok?
    ensures var (n, rest) := DecodeNode(utf8, tag, b).value;
            DecodeNode(utf8, tag, b + q) == Ok((n, rest + q))
  {
    if tag == TAG_FILE {
      TakeExtends(b, DIGEST_LEN, q);
      var b1 := b[DIGEST_LEN..];
      TakeExtends(b1, 8, q);
      TakeExtends(b1[8..], 1, q);
    } else if tag == TAG_DIR {
      TakeExtends(b, DIGEST_LEN, q);
    } else {
      TakeExtends(b, 2, q);
      TakeExtends(b[2..], FromLE(b[..2]), q);
    }
  }

  lemma EntryExtends(utf8: Bytes -> bool, b: Bytes, q: Bytes)
    requires DecodeEntry(utf8, b).Ok?
    ensures var (e, rest) := DecodeEntry(utf8, b).value;
            DecodeEntry(utf8, b + q) == Ok((e, rest + q))
  {
    TakeExtends(b, 1, q);
    TakeExtends(b[1..], 2, q);
    var b2 := b[1..][2..];
    var len := FromLE(b[1..][..2]);
    TakeExtends(b2, len, q);
    NodeExtends(utf8, b[0], b2[len..], q);
  }

  lemma {:induction false} EntriesExtend(utf8: Bytes -> bool, b: Bytes, count: nat, acc: Tree, q: Bytes)
    requires DecodeEntries(utf8, b, count, acc).Ok?
    ensures var (t, rest) := DecodeEntries(utf8, b, count, acc).value;
            DecodeEntries(utf8, b + q, count, acc) == Ok((t, rest + q))
    decreases count
  {
    hide DecodeEntry;
    if count > 0 {
      EntryExtends(utf8, b, q);
      var (e, rest) := DecodeEntry(utf8, b).value;
      EntriesExtend(utf8, rest, count - 1, Insert(acc, e), q);
    }
  }

  /** A decodable manifest is neither a proper prefix nor a proper extension of another one. */
  lemma DecodableIsPrefixFree(utf8: Bytes -> bool, p: Bytes, q: Bytes)
    requires DecodeTree(utf8, p).Ok? && q != []
    ensures DecodeTree(utf8, p + q) == Err(TrailingBytes(|q|))
  {
    TakeExtends(p, 2, q);
    TakeExtends(p[2..], 4, q);
    var body := p[2..][4..];
    EntriesExtend(utf8, body, FromLE(p[2..][..4]), [], q);
    assert [] + q == q;
  }

  // ------------------------------------------------------------------ exactly what decodes

  /** An entry as it may stand on the wire: only the lowest bit of a file's flags is looked at. */
  datatype Raw = Raw(entry: Entry, flags: Byte)

  predicate RawOk(utf8: Bytes -> bool, r: Raw)
  {
    && WellTypedEntry(utf8, r.entry) && EntryFits(r.entry)
    && (r.entry.node.File? ==> (r.entry.node.executable <==> r.flags % 2 == 1))
  }

  function RawNode(n: Node, flags: Byte): Bytes
  {
    match n
    case File(d, size, _) => d + ToLE(size, 8) + [flags]
    case Dir(d) => d
    case Symlink(target) => ToLE(|target|, 2) + target
  }

  function RawTag(n: Node): Byte { if n.File? then 1 else if n.Dir? then 2 else 3 }

  function RawEntry(r: Raw): Bytes
  {
    [RawTag(r.entry.node)] + ToLE(|r.entry.name|, 2) + r.entry.name + RawNode(r.entry.node, r.flags)
  }

  function RawEntries(rs: seq<Raw>): Bytes
  {
    if rs == [] then [] else RawEntry(rs[0]) + RawEntries(rs[1..])
  }

  function EntriesOf(rs: seq<Raw>): (es: seq<Entry>)
    ensures |es| == |rs|
  {
    if rs == [] then [] else [rs[0].entry] + EntriesOf(rs[1..])
  }

  /** Well-formed entries whose names are new, each once. */
  ghost predicate RawsOk(utf8: Bytes -> bool, acc: Tree, rs: seq<Raw>)
    decreases |rs|
  {
    rs != [] ==> RawOk(utf8, rs[0]) && Lookup(acc, rs[0].entry.name) == None && RawsOk(utf8, Insert(acc, rs[0].entry), rs[1..])
  }

  lemma RawNodeDecodes(utf8: Bytes -> bool, n: Node, flags: Byte, rest: Bytes)
    requires n.File? ==> n.size < U64 && (n.executable <==> flags % 2 == 1)
    requires n.Symlink? ==> utf8(n.target) && 0 < |n.target| < U16
    ensures DecodeNode(utf8, RawTag(n), RawNode(n, flags) + rest) == Ok((n, rest))
  {
    Pow256Values();
    match n
    case File(d, size, _) =>
      assert RawNode(n, flags) + rest == d + (ToLE(size, 8) + ([flags] + rest));
      TakeExact(d, ToLE(size, 8) + ([flags] + rest));
      TakeExact(ToLE(size, 8), [flags] + rest);
      TakeExact([flags], rest);
      FromToLE(size, 8);
    case Dir(d) => TakeExact(d, rest);
    case Symlink(_) => LinkRoundTrip(utf8, n, rest);
  }

  lemma RawEntryDecodes(utf8: Bytes -> bool, r: Raw, rest: Bytes)
    requires RawOk(utf8, r)
    ensures DecodeEntry(utf8, RawEntry(r) + rest) == Ok((r.entry, rest))
  {
    Pow256Values();
    var e := r.entry;
    var tail := RawNode(e.node, r.flags) + rest;
    assert RawEntry(r) + rest == [RawTag(e.node)] + (ToLE(|e.name|, 2) + (e.name + tail));
    TakeExact([RawTag(e.node)], ToLE(|e.name|, 2) + (e.name + tail));
    TakeExact(ToLE(|e.name|, 2), e.name + tail);
    FromToLE(|e.name|, 2);
    TakeExact(e.name, tail);
    RawNodeDecodes(utf8, e.node, r.flags, rest);
    hide DecodeNode, RawNode;
  }

  lemma {:induction false} RawEntriesDecode(utf8: Bytes -> bool, acc: Tree, rs: seq<Raw>, rest: Bytes)
    requires RawsOk(utf8, acc, rs)
    ensures DecodeEntries(utf8, RawEntries(rs) + rest, |rs|, acc) == Ok((InsertAll(acc, EntriesOf(rs)), rest))
    ensures |RawEntries(rs)| >= |rs|
    decreases |rs|
  {
    hide DecodeEntry, RawOk, Insert, Lookup;
    if rs == [] {
      assert RawEntries(rs) + rest == rest;
    } else {
      assert RawEntries(rs) + rest == RawEntry(rs[0]) + (RawEntries(rs[1..]) + rest);
      RawEntryDecodes(utf8, rs[0], RawEntries(rs[1..]) + rest);
      RawEntriesDecode(utf8, Insert(acc, rs[0].entry), rs[1..], rest);
      assert EntriesOf(rs)[0] == rs[0].entry && EntriesOf(rs)[1..] == EntriesOf(rs[1..]);
    }
  }

  lemma TakeIs(b: Bytes, n: nat)
    ensures Take(b, n).Ok? ==> b == Take(b, n).value.0 + Take(b, n).value.1
  {
  }

  lemma DecodedRawNode(utf8: Bytes -> bool, tag: Byte, b: Bytes) returns (flags: Byte)
    requires DecodeNode(utf8, tag, b).Ok?
    ensures var (n, rest) := DecodeNode(utf8, tag, b).value;
            && tag == RawTag(n) && b == RawNode(n, flags) + rest
            && (n.File? ==> n.size < U64 && (n.executable <==> flags % 2 == 1))
            && (n.Symlink? ==> utf8(n.target) && 0 < |n.target| < U16)
  {
    Pow256Values();
    flags := 0;
    if tag == TAG_FILE {
      var (d, b1) := Take(b, DIGEST_LEN).value;
      var (size, b2) := Take(b1, 8).value;
      var (f, b3) := Take(b2, 1).value;
      ToFromLE(size);
      flags := f[0];
      assert f == [flags];
      assert b == d + (size + (f + b3)) == (d + size + f) + b3;
    } else if tag == TAG_SYMLINK {
      var (len, b1) := Take(b, 2).value;
      var (target, b2) := Take(b1, FromLE(len)).value;
      ToFromLE(len);
      assert b == len + (target + b2) == (len + target) + b2;
    }
  }

  lemma Regroup(a: Bytes, b: Bytes, c: Bytes, d: Bytes, e: Bytes)
    ensures a + (b + (c + (d + e))) == a + b + c + d + e
  {
  }

  lemma DecodedRaw(utf8: Bytes -> bool, b: Bytes) returns (r: Raw)
    requires DecodeEntry(utf8, b).Ok?
    ensures var (e, rest) := DecodeEntry(utf8, b).value; r.entry == e && RawOk(utf8, r) && b == RawEntry(r) + rest
  {
    DecodedEntry(utf8, b);
    var (tag, b1) := Take(b, 1).value;
    var (len, b2) := Take(b1, 2).value;
    var (name, b3) := Take(b2, FromLE(len)).value;
    TakeIs(b, 1);
    TakeIs(b1, 2);
    TakeIs(b2, FromLE(len));
    ToFromLE(len);
    var flags := DecodedRawNode(utf8, tag[0], b3);
    var (n, rest) := DecodeNode(utf8, tag[0], b3).value;
    hide DecodeNode, RawNode, Take, ToLE, FromLE, CheckName;
    r := Raw(Entry(name, n), flags);
    assert tag == [RawTag(n)];
    Regroup(tag, len, name, RawNode(n, flags), rest);
  }

  lemma {:induction false} DecodedRaws(utf8: Bytes -> bool, b: Bytes, count: nat, acc: Tree) returns (rs: seq<Raw>)
    requires DecodeEntries(utf8, b, count, acc).Ok?
    ensures var (t, rest) := DecodeEntries(utf8, b, count, acc).value;
            && |rs| == count && RawsOk(utf8, acc, rs) && b == RawEntries(rs) + rest && t == InsertAll(acc, EntriesOf(rs))
    decreases count
  {
    hide DecodeEntry, RawOk, Insert, Lookup, RawEntry;
    rs := [];
    if count == 0 {
      assert RawEntries([]) + b == b;
    } else {
      var (e, rest) := DecodeEntry(utf8, b).value;
      var r := DecodedRaw(utf8, b);
      var more := DecodedRaws(utf8, rest, count - 1, Insert(acc, e));
      rs := [r] + more;
      assert rs[0] == r && rs[1..] == more;
      assert EntriesOf(rs)[0] == e && EntriesOf(rs)[1..] == EntriesOf(more);
      var left := DecodeEntries(utf8, b, count, acc).value.1;
      assert RawEntry(r) + (RawEntries(more) + left) == RawEntry(r) + RawEntries(more) + left;
    }
  }

  /** The manifests that are accepted, byte for byte: version 1, the count, and that many entries
      with distinct valid names, in any order and with any value in the unused flag bits. What is
      read is the map that they fill. */
  lemma DecodesExactly(utf8: Bytes -> bool, b: Bytes, t: Tree)
    ensures DecodeTree(utf8, b) == Ok(t) <==>
      exists rs :: |rs| < U32 && RawsOk(utf8, [], rs) && b == [1, 0] + ToLE(|rs|, 4) + RawEntries(rs) && t == InsertAll([], EntriesOf(rs))
  {
    Pow256Values();
    if DecodeTree(utf8, b) == Ok(t) {
      var (v, b1) := Take(b, 2).value;
      var (c, b2) := Take(b1, 4).value;
      ToFromLE(v);
      ToFromLE(c);
      VersionBytes();
      var rs := DecodedRaws(utf8, b2, FromLE(c), []);
      assert RawEntries(rs) + [] == RawEntries(rs);
      assert b == [1, 0] + ToLE(|rs|, 4) + RawEntries(rs);
    }
    if rs :| |rs| < U32 && RawsOk(utf8, [], rs) && b == [1, 0] + ToLE(|rs|, 4) + RawEntries(rs) && t == InsertAll([], EntriesOf(rs)) {
      RawsDecode(utf8, b, rs);
    }
  }

  lemma VersionBytes()
    ensures ToLE(1, 2) == [1, 0] && FromLE([1, 0]) == 1
  {
    assert ToLE(0, 1) == [0] + ToLE(0, 0);
    assert FromLE([1, 0][1..]) == 0 + 256 * FromLE([1, 0][1..][1..]);
  }

  lemma DecodeAfterHeader(utf8: Bytes -> bool, version: Bytes, count: Bytes, body: Bytes)
    requires |version| == 2 && |count| == 4 && FromLE(version) == 1 && FromLE(count) <= |body|
    ensures DecodeTree(utf8, version + (count + body)) ==
      match DecodeEntries(utf8, body, FromLE(count), [])
      case Err(e) => Err(e)
      case Ok((t, rest)) => if rest != [] then Err(TrailingBytes(|rest|)) else Ok(t)
  {
    hide DecodeEntries, FromLE;
    TakeExact(version, count + body);
    TakeExact(count, body);
  }

  lemma RawsDecode(utf8: Bytes -> bool, b: Bytes, rs: seq<Raw>)
    requires |rs| < U32 && RawsOk(utf8, [], rs) && b == [1, 0] + ToLE(|rs|, 4) + RawEntries(rs)
    ensures DecodeTree(utf8, b) == Ok(InsertAll([], EntriesOf(rs)))
  {
    hide RawEntries, EntriesOf, FromLE, ToLE, DecodeEntries, DecodeTree, InsertAll;
    Pow256Values();
    VersionBytes();
    FromToLE(|rs|, 4);
    RawEntriesDecode(utf8, [], rs, []);
    hide RawsOk, Pow256;
    var body, version: Bytes, count := RawEntries(rs), [1, 0], ToLE(|rs|, 4);
    NothingAfter(body);
    DecodeAfterHeader(utf8, version, count, body);
    Associate(version, count, body);
  }

  /** The entries of a tree as they are written: flags are 1 for an executable file and 0 otherwise. */
  function Canonical(t: Tree): (rs: seq<Raw>)
    ensures |rs| == |t|
  {
    if t == [] then [] else [Raw(t[0], if t[0].node.File? && t[0].node.executable then 1 else 0)] + Canonical(t[1..])
  }

  lemma {:induction false} EncodeEntriesIs(t: Tree)
    ensures EncodeEntries(t) == RawEntries(Canonical(t))
  {
    if t != [] {
      EncodeEntriesIs(t[1..]);
      assert Canonical(t)[1..] == Canonical(t[1..]);
    }
  }

  /** Of all the byte strings that decode to a tree, the one that is written. */
  lemma EncodesExactly(t: Tree)
    ensures EncodeTree(t) == [1, 0] + ToLE(|t|, 4) + RawEntries(Canonical(t))
  {
    VersionBytes();
    EncodeEntriesIs(t);
    hide EncodeEntries, RawEntries, Canonical, ToLE;
  }

  lemma {:induction false} EntriesGoOn(utf8: Bytes -> bool, acc: Tree, rs: seq<Raw>, rest: Bytes, count: nat)
    requires RawsOk(utf8, acc, rs) && |rs| <= count
    ensures DecodeEntries(utf8, RawEntries(rs) + rest, count, acc) ==
            DecodeEntries(utf8, rest, count - |rs|, InsertAll(acc, EntriesOf(rs)))
    decreases |rs|
  {
    hide DecodeEntry, RawOk, Insert, Lookup;
    if rs == [] {
      assert RawEntries(rs) + rest == rest;
    } else {
      assert RawEntries(rs) + rest == RawEntry(rs[0]) + (RawEntries(rs[1..]) + rest);
      RawEntryDecodes(utf8, rs[0], RawEntries(rs[1..]) + rest);
      EntriesGoOn(utf8, Insert(acc, rs[0].entry), rs[1..], rest, count - 1);
      assert EntriesOf(rs)[0] == rs[0].entry && EntriesOf(rs)[1..] == EntriesOf(rs[1..]);
    }
  }

  /** A manifest is refused for the first thing that is wrong with it: its version, its count, or
      the first entry that cannot be read or repeats a name. */
  lemma RefusedForTheFirstFault(utf8: Bytes -> bool, version: Bytes, count: Bytes, rs: seq<Raw>, rest: Bytes)
    requires |version| == 2 && |count| == 4 && RawsOk(utf8, [], rs) && |rs| < FromLE(count)
    ensures var b := version + (count + (RawEntries(rs) + rest));
            && (FromLE(version) != 1 ==> DecodeTree(utf8, b) == Err(UnsupportedVersion(FromLE(version))))
            && (FromLE(version) == 1 && FromLE(count) > |RawEntries(rs) + rest| ==> DecodeTree(utf8, b) == Err(Truncated))
            && (FromLE(version) == 1 && FromLE(count) <= |RawEntries(rs) + rest| ==>
                  match DecodeEntry(utf8, rest)
                  case Err(e) => DecodeTree(utf8, b) == Err(e)
                  case Ok((e, _)) => e.name in NamesOf(rs) ==> DecodeTree(utf8, b) == Err(DuplicateName(e.name)))
  {
    hide RawEntries, FromLE, DecodeEntry, RawsOk;
    var body := RawEntries(rs) + rest;
    TakeExact(version, count + body);
    TakeExact(count, body);
    EntriesGoOn(utf8, [], rs, rest, FromLE(count));
    if DecodeEntry(utf8, rest).Ok? { NamesBound(utf8, [], rs, DecodeEntry(utf8, rest).value.0.name); }
  }

  function NamesOf(rs: seq<Raw>): set<Bytes>
  {
    set r | r in rs :: r.entry.name
  }

  lemma {:induction false} NamesBound(utf8: Bytes -> bool, acc: Tree, rs: seq<Raw>, n: Bytes)
    ensures n in NamesOf(rs) || Lookup(acc, n).Some? ==> Lookup(InsertAll(acc, EntriesOf(rs)), n).Some?
    decreases |rs|
  {
    if rs != [] {
      LookupInsert(acc, rs[0].entry, n);
      NamesBound(utf8, Insert(acc, rs[0].entry), rs[1..], n);
      assert EntriesOf(rs)[0] == rs[0].entry && EntriesOf(rs)[1..] == EntriesOf(rs[1..]);
      assert NamesOf(rs) == {rs[0].entry.name} + NamesOf(rs[1..]);
    }
  }

  /** What can be wrong with one entry, its name being readable. */
  lemma NodeErrors(utf8: Bytes -> bool, tag: Byte, b: Bytes)
    ensures DecodeNode(utf8, tag, b) == Err(UnknownTag(tag)) <==> tag !in {1, 2, 3}
    ensures tag == 1 ==> (DecodeNode(utf8, tag, b) == Err(Truncated) <==> |b| < 41) && (|b| >= 41 ==> DecodeNode(utf8, tag, b).Ok?)
    ensures tag == 2 ==> (DecodeNode(utf8, tag, b) == Err(Truncated) <==> |b| < 32) && (|b| >= 32 ==> DecodeNode(utf8, tag, b).Ok?)
    ensures tag == 3 && |b| >= 2 && |b| >= 2 + FromLE(b[..2]) ==>
      var target := b[2..2 + FromLE(b[..2])];
      && (DecodeNode(utf8, tag, b) == Err(NameNotUtf8) <==> !utf8(target))
      && (DecodeNode(utf8, tag, b) == Err(EmptySymlinkTarget) <==> utf8(target) && target == [])
      && (DecodeNode(utf8, tag, b).Ok? <==> utf8(target) && target != [])
  {
    hide FromLE;
    if tag == 3 && |b| >= 2 && |b| >= 2 + FromLE(b[..2]) {
      assert b[2..][..FromLE(b[..2])] == b[2..2 + FromLE(b[..2])];
    }
  }

  lemma NothingAfter(b: Bytes)
    ensures b + [] == b
  {
  }

  lemma Associate(a: Bytes, b: Bytes, c: Bytes)
    ensures a + (b + c) == a + b + c
  {
  }

  // ------------------------------------------------------------------ the loops of the program

  lemma EncodeEntriesStep(t: Tree, i: nat, out: Bytes)
    requires i < |t|
    ensures out + EncodeEntries(t[i..]) == out + EncodeEntry(t[i]) + EncodeEntries(t[i + 1..])
  {
    assert t[i..][0] == t[i] && t[i..][1..] == t[i + 1..];
  }

  method Encode(t: Tree) returns (out: Bytes)
    ensures out == EncodeTree(t)
  {
    hide ToLE, EncodeEntries;
    out := ToLE(TREE_FORMAT_VERSION, 2) + ToLE(|t|, 4);
    var i := 0;
    while i < |t|
      invariant 0 <= i <= |t|
      invariant out + EncodeEntries(t[i..]) == EncodeTree(t)
    {
      EncodeEntriesStep(t, i, out);
      ghost var before := out;
      out := out + [Tag(t[i].node)] + ToLE(|t[i].name|, 2) + t[i].name;
      out := out + Payload(t[i].node);
      assert out == before + EncodeEntry(t[i]);
      i := i + 1;
    }
  }

  method ReadEntries(utf8: Bytes -> bool, b: Bytes, count: nat)
    returns (r: Result<(Tree, Bytes), TreeError>)
    ensures r == DecodeEntries(utf8, b, count, [])
  {
    hide DecodeEntry, Insert, Lookup;
    var entries: Tree := [];
    var i, rest := 0, b;
    while i < count
      invariant 0 <= i <= count
      invariant DecodeEntries(utf8, rest, count - i, entries) == DecodeEntries(utf8, b, count, [])
    {
      var entry :- DecodeEntry(utf8, rest);
      var (e, next) := entry;
      if Lookup(entries, e.name).Some? { return Err(DuplicateName(e.name)); }
      entries, rest, i := Insert(entries, e), next, i + 1;
    }
    return Ok((entries, rest));
  }

  method Decode(utf8: Bytes -> bool, b: Bytes) returns (r: Result<Tree, TreeError>)
    ensures r == DecodeTree(utf8, b)
  {
    var header :- Take(b, 2);
    var (v, b1) := header;
    if FromLE(v) != TREE_FORMAT_VERSION { return Err(UnsupportedVersion(FromLE(v))); }
    var counted :- Take(b1, 4);
    var (c, b2) := counted;
    // A count larger than the bytes left cannot be honest and must not size an allocation.
    if FromLE(c) > |b2| { return Err(Truncated); }
    var body :- ReadEntries(utf8, b2, FromLE(c));
    var (t, rest) := body;
    if rest != [] { return Err(TrailingBytes(|rest|)); }
    return Ok(t);
  }
}
