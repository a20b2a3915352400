/** What the objects of a store mean: resolving a root digest into a directory skeleton, filling
    the skeleton with contents, and the laws that ingest and materialization rest on. */
module Objects {
  import opened Base
  import opened Manifest

  /** The parts of the environment that stay abstract: UTF-8 validity and the keyed hash in its
      blob context and in its tree context. */
  datatype World = World(utf8: Bytes -> bool, blob: Bytes -> Digest, tree: Bytes -> Digest)

  type Contents = map<Digest, Bytes>

  datatype CasError =
    | Missing(digest: Digest) | Corrupt(expected: Digest, actual: Digest) | BadTree(error: TreeError)
    | TreeTooDeep | DestinationExists | NotAFile | UnsupportedFileType | NonUtf8Name | Io

  /** Directories at depths 0 to 128 may be materialized. */
  const MAX_LEVELS := 129

  /** No two of the byte strings hashed in a run collide, and no blob digest is a tree digest. */
  ghost predicate CollisionFree(w: World, u: set<Bytes>)
  {
    forall a, b :: a in u && b in u ==>
      && (w.blob(a) == w.blob(b) ==> a == b)
      && (w.tree(a) == w.tree(b) ==> a == b)
      && w.blob(a) != w.tree(b)
  }

  /** `d` is the digest of `b`, as a blob or as a manifest. */
  predicate Names(w: World, d: Digest, b: Bytes)
  {
    w.blob(b) == d || w.tree(b) == d
  }

  ghost predicate Sound(w: World, u: set<Bytes>, objs: Contents)
  {
    forall d :: d in objs ==> objs[d] in u && Names(w, d, objs[d])
  }

  lemma NamesUnique(w: World, u: set<Bytes>, d: Digest, a: Bytes, b: Bytes)
    requires CollisionFree(w, u) && a in u && b in u && Names(w, d, a) && Names(w, d, b)
    ensures a == b
  {
  }

  // ------------------------------------------------------------------ reading trees

  function ParseTree(w: World, d: Digest, b: Bytes): Result<Tree, CasError>
  {
    match DecodeTree(w.utf8, b)
    case Err(e) => Err(BadTree(e))
    case Ok(t) =>
      var actual := w.tree(EncodeTree(t));
      if actual != d then Err(Corrupt(d, actual)) else Ok(t)
  }

  function GetTree(w: World, objs: Contents, d: Digest): Result<Tree, CasError>
  {
    if d !in objs then Err(Missing(d)) else ParseTree(w, d, objs[d])
  }

  /** What each outcome of reading a tree says about the store. */
  lemma GetTreeMeans(w: World, objs: Contents, d: Digest, t: Tree, e: TreeError, actual: Digest)
    ensures GetTree(w, objs, d) == Err(Missing(d)) <==> d !in objs
    ensures GetTree(w, objs, d) == Err(BadTree(e)) <==> d in objs && DecodeTree(w.utf8, objs[d]) == Err(e)
    ensures GetTree(w, objs, d) == Err(Corrupt(d, actual)) <==>
      d in objs && DecodeTree(w.utf8, objs[d]).Ok? && w.tree(EncodeTree(DecodeTree(w.utf8, objs[d]).value)) == actual != d
    ensures GetTree(w, objs, d) == Ok(t) <==>
      d in objs && DecodeTree(w.utf8, objs[d]) == Ok(t) && w.tree(EncodeTree(t)) == d
  {
    hide DecodeTree, EncodeTree;
  }

  function BlobDigests(t: Tree): set<Digest>
  {
    set e | e in t && e.node.File? :: e.node.digest
  }

  function SubtreeDigests(t: Tree): set<Digest>
  {
    set e | e in t && e.node.Dir? :: e.node.digest
  }

  /** A tree names a digest as a file or as a directory exactly where an entry does. */
  lemma NamedDigests(t: Tree, d: Digest)
    ensures d in BlobDigests(t) <==> exists i :: 0 <= i < |t| && t[i].node.File? && t[i].node.digest == d
    ensures d in SubtreeDigests(t) <==> exists i :: 0 <= i < |t| && t[i].node.Dir? && t[i].node.digest == d
  {
    if i :| 0 <= i < |t| && !t[i].node.Symlink? && t[i].node.digest == d { assert t[i] in t; }
    if i :| 0 <= i < |t| && t[i].node.File? && t[i].node.digest == d { assert t[i] in t; }
    if i :| 0 <= i < |t| && t[i].node.Dir? && t[i].node.digest == d { assert t[i] in t; }
  }

  // ------------------------------------------------------------------ skeletons

  datatype Skeleton =
    | FileAs(digest: Digest, size: nat, executable: bool)
    | DirOf(entries: seq<Part>)
    | LinkTo(target: Bytes)

  datatype Part = Part(name: Bytes, skeleton: Skeleton)

  /** The recursion of `materialize_into`: the directory that `d` stands for, or the first error.
      `levels` is how many more levels of directory are allowed. With `blobs`, every file must
      have its object, as when materializing. */
  function Walk(w: World, objs: Contents, d: Digest, levels: nat, blobs: bool)
    : Result<seq<Part>, CasError>
    decreases levels, 0
  {
    if levels == 0 then Err(TreeTooDeep)
    else
      var t :- GetTree(w, objs, d);
      WalkEntries(w, objs, t, levels - 1, blobs)
  }

  function WalkNode(w: World, objs: Contents, n: Node, levels: nat, blobs: bool)
    : Result<Skeleton, CasError>
    decreases levels, 1
  {
    match n
    case File(d, size, x) => if blobs && d !in objs then Err(Missing(d)) else Ok(FileAs(d, size, x))
    case Dir(d) => var parts :- Walk(w, objs, d, levels, blobs); Ok(DirOf(parts))
    case Symlink(target) => Ok(LinkTo(target))
  }

  function WalkEntries(w: World, objs: Contents, t: Tree, levels: nat, blobs: bool)
    : Result<seq<Part>, CasError>
    decreases levels, 2 + |t|
  {
    if t == [] then Ok([])
    else
      var s :- WalkNode(w, objs, t[0].node, levels, blobs);
      var rest :- WalkEntries(w, objs, t[1..], levels, blobs);
      Ok([Part(t[0].name, s)] + rest)
  }

  ghost predicate Pointwise(w: World, objs: Contents, t: Tree, levels: nat, blobs: bool, parts: seq<Part>)
  {
    |parts| == |t| &&
    forall i :: 0 <= i < |t| ==>
      parts[i].name == t[i].name && WalkNode(w, objs, t[i].node, levels, blobs) == Ok(parts[i].skeleton)
  }

  lemma {:induction false} WalkPointwise(w: World, objs: Contents, t: Tree, levels: nat, blobs: bool, parts: seq<Part>)
    ensures WalkEntries(w, objs, t, levels, blobs) == Ok(parts) <==> Pointwise(w, objs, t, levels, blobs, parts)
    decreases |t|
  {
    hide WalkNode;
    if t != [] {
      if Pointwise(w, objs, t, levels, blobs, parts) {
        WalkPointwise(w, objs, t[1..], levels, blobs, parts[1..]);
        assert parts == [Part(t[0].name, parts[0].skeleton)] + parts[1..];
      }
      if WalkEntries(w, objs, t, levels, blobs) == Ok(parts) {
        assert parts[1..] == WalkEntries(w, objs, t[1..], levels, blobs).value;
        WalkPointwise(w, objs, t[1..], levels, blobs, parts[1..]);
        forall i | 0 < i < |t|
          ensures parts[i].name == t[i].name
          ensures WalkNode(w, objs, t[i].node, levels, blobs) == Ok(parts[i].skeleton)
        {
          assert parts[i] == parts[1..][i - 1] && t[i] == t[1..][i - 1];
        }
      }
    }
  }

  // ------------------------------------------------------------------ a digest fixes the structure

  /** The canonical bytes of every manifest that a store holds, whatever bytes it holds them as. */
  ghost function Manifests(w: World, objs: Contents): set<Bytes>
  {
    set d | d in objs && DecodeTree(w.utf8, objs[d]).Ok? :: EncodeTree(DecodeTree(w.utf8, objs[d]).value)
  }

  ghost predicate TreesDiffer(w: World, ms: set<Bytes>)
  {
    forall a, b :: a in ms && b in ms && w.tree(a) == w.tree(b) ==> a == b
  }

  lemma SameTree(w: World, o1: Contents, o2: Contents, d: Digest)
    requires TreesDiffer(w, Manifests(w, o1) + Manifests(w, o2))
    requires GetTree(w, o1, d).Ok? && GetTree(w, o2, d).Ok?
    ensures GetTree(w, o1, d) == GetTree(w, o2, d)
  {
    hide DecodeTree, EncodeTree;
    var t1, t2 := GetTree(w, o1, d).value, GetTree(w, o2, d).value;
    assert EncodeTree(t1) in Manifests(w, o1) && EncodeTree(t2) in Manifests(w, o2);
    DecodedIsWellFormed(w.utf8, o1[d]);
    DecodedIsWellFormed(w.utf8, o2[d]);
    EncodeInjective(w.utf8, t1, t2);
  }

  /** Two stores, tampered with or not, that both resolve a root all the way down resolve it to
      the same names, kinds, blob digests, sizes, execute bits and link targets. */
  lemma {:induction false} DigestDeterminesStructure(
    w: World, o1: Contents, o2: Contents, d: Digest, n1: nat, n2: nat, b1: bool, b2: bool)
    requires TreesDiffer(w, Manifests(w, o1) + Manifests(w, o2))
    requires Walk(w, o1, d, n1, b1).Ok? && Walk(w, o2, d, n2, b2).Ok?
    ensures Walk(w, o1, d, n1, b1) == Walk(w, o2, d, n2, b2)
    decreases n1
  {
    hide GetTree, Manifests;
    SameTree(w, o1, o2, d);
    var t := GetTree(w, o1, d).value;
    var p1, p2 := Walk(w, o1, d, n1, b1).value, Walk(w, o2, d, n2, b2).value;
    WalkPointwise(w, o1, t, n1 - 1, b1, p1);
    WalkPointwise(w, o2, t, n2 - 1, b2, p2);
    forall i | 0 <= i < |t| ensures p1[i] == p2[i] {
      if t[i].node.Dir? {
        DigestDeterminesStructure(w, o1, o2, t[i].node.digest, n1 - 1, n2 - 1, b1, b2);
      }
    }
    assert p1 == p2;
  }

  // ------------------------------------------------------------------ what a walk depends on

  ghost predicate Closed(w: World, objs: Contents, dirs: set<Digest>)
  {
    forall d :: d in dirs && GetTree(w, objs, d).Ok? ==> SubtreeDigests(GetTree(w, objs, d).value) <= dirs
  }

  ghost function FilesOf(w: World, objs: Contents, dirs: set<Digest>): set<Digest>
  {
    set d, b | d in dirs && GetTree(w, objs, d).Ok? && b in BlobDigests(GetTree(w, objs, d).value) :: b
  }

  ghost predicate AgreeOn(a: Contents, b: Contents, ds: set<Digest>)
  {
    forall d :: d in ds ==> (d in a <==> d in b) && (d in a ==> a[d] == b[d])
  }

  /** A walk looks at nothing but the directories of a closed set and the files they name. */
  lemma {:induction false} WalkLocal(w: World, a: Contents, b: Contents, dirs: set<Digest>, d: Digest, levels: nat, blobs: bool)
    requires Closed(w, a, dirs) && d in dirs
    requires AgreeOn(a, b, dirs + FilesOf(w, a, dirs))
    ensures Walk(w, a, d, levels, blobs) == Walk(w, b, d, levels, blobs)
    decreases levels, 1, 0
  {
    hide ParseTree;
    assert GetTree(w, a, d) == GetTree(w, b, d);
    if levels > 0 && GetTree(w, a, d).Ok? {
      var t := GetTree(w, a, d).value;
      EntriesLocal(w, a, b, dirs, t, levels - 1, blobs);
    }
  }

  lemma {:induction false} EntriesLocal(w: World, a: Contents, b: Contents, dirs: set<Digest>, t: Tree, levels: nat, blobs: bool)
    requires Closed(w, a, dirs) && SubtreeDigests(t) <= dirs && BlobDigests(t) <= FilesOf(w, a, dirs)
    requires AgreeOn(a, b, dirs + FilesOf(w, a, dirs))
    ensures WalkEntries(w, a, t, levels, blobs) == WalkEntries(w, b, t, levels, blobs)
    decreases levels, 2, |t|
  {
    hide ParseTree, Walk, Closed, FilesOf;
    if t != [] {
      assert t[0] in t;
      match t[0].node {
        case File(d, _, _) => assert d in BlobDigests(t);
        case Dir(d) => assert d in SubtreeDigests(t); WalkLocal(w, a, b, dirs, d, levels, blobs);
        case Symlink(_) =>
      }
      assert WalkNode(w, a, t[0].node, levels, blobs) == WalkNode(w, b, t[0].node, levels, blobs);
      assert SubtreeDigests(t[1..]) <= SubtreeDigests(t) && BlobDigests(t[1..]) <= BlobDigests(t);
      EntriesLocal(w, a, b, dirs, t[1..], levels, blobs);
    }
  }

  /** An entry that fails is the error of the whole directory, if those before it do not. */
  lemma {:induction false} WalkFirstError(w: World, objs: Contents, t: Tree, i: nat, levels: nat, blobs: bool)
    requires i < |t| && WalkNode(w, objs, t[i].node, levels, blobs).Err?
    requires forall k :: 0 <= k < i ==> WalkNode(w, objs, t[k].node, levels, blobs).Ok?
    ensures WalkEntries(w, objs, t, levels, blobs) == Err(WalkNode(w, objs, t[i].node, levels, blobs).error)
    decreases i
  {
    hide WalkNode;
    if i > 0 {
      assert t[1..][i - 1] == t[i] && forall k :: 0 <= k < i - 1 ==> t[1..][k] == t[k + 1];
      WalkFirstError(w, objs, t[1..], i - 1, levels, blobs);
    }
  }

  // ------------------------------------------------------------------ directory trees

  datatype Item =
    | RegularFile(content: Bytes, executable: bool)
    | Folder(children: seq<Child>)
    | SoftLink(target: Bytes)
    | Device

  datatype Child = Child(name: Bytes, item: Item)

  /** A folder lists its children once each, in name order; a file length is a `u64`. */
  ghost predicate Shaped(item: Item)
  {
    match item
    case RegularFile(c, _) => |c| < U64
    case Folder(cs) =>
      && (forall i, j :: 0 <= i < j < |cs| ==> Less(cs[i].name, cs[j].name))
      && (forall i :: 0 <= i < |cs| ==> Shaped(cs[i].item))
    case _ => true
  }

  /** What ingest accepts: valid UTF-8 names and link targets, and no device nodes. */
  ghost predicate Ingestible(w: World, item: Item)
  {
    match item
    case RegularFile(_, _) => true
    case Folder(cs) => forall i :: 0 <= i < |cs| ==> ValidName(w.utf8, cs[i].name) && Ingestible(w, cs[i].item)
    case SoftLink(target) => w.utf8(target)
    case Device => false
  }

  /** Only names and targets that are not valid, and device nodes, keep a tree from being ingested. */
  lemma IngestibleMeans(w: World, item: Item)
    ensures item.RegularFile? ==> Ingestible(w, item)
    ensures item.SoftLink? ==> (Ingestible(w, item) <==> w.utf8(item.target))
    ensures item.Device? ==> !Ingestible(w, item)
    ensures item.Folder? ==>
      (Ingestible(w, item) <==>
        forall i :: 0 <= i < |item.children| ==>
          ValidName(w.utf8, item.children[i].name) && Ingestible(w, item.children[i].item))
  {
  }

  /** What the manifest format and the depth limit can carry. */
  ghost predicate Representable(item: Item, levels: nat)
    decreases item
  {
    match item
    case Folder(cs) =>
      levels > 0 && |cs| < U32 && forall i :: 0 <= i < |cs| ==> Representable(cs[i].item, levels - 1)
    case SoftLink(target) => 0 < |target| < U16
    case _ => true
  }

  /** The manifest node, and the manifest, that ingest computes. */
  ghost function NodeOf(w: World, item: Item): Node
    requires Ingestible(w, item)
    decreases item, 0
  {
    match item
    case RegularFile(c, x) => File(w.blob(c), |c|, x)
    case Folder(cs) => Dir(DigestOf(w, cs))
    case SoftLink(target) => Symlink(target)
  }

  ghost predicate AllIngestible(w: World, cs: seq<Child>)
  {
    forall i :: 0 <= i < |cs| ==> Ingestible(w, cs[i].item)
  }

  ghost function TreeOf(w: World, cs: seq<Child>): (t: Tree)
    requires AllIngestible(w, cs)
    ensures |t| == |cs|
    ensures forall i :: 0 <= i < |cs| ==> t[i] == Entry(cs[i].name, NodeOf(w, cs[i].item))
    decreases cs, 1
  {
    seq(|cs|, i requires 0 <= i < |cs| => Entry(cs[i].name, NodeOf(w, cs[i].item)))
  }

  ghost function DigestOf(w: World, cs: seq<Child>): Digest
    requires AllIngestible(w, cs)
    decreases cs, 2
  {
    w.tree(EncodeTree(TreeOf(w, cs)))
  }

  /** The store holds the manifest of every folder and the blob of every file. */
  ghost predicate Stored(w: World, objs: Contents, item: Item)
    requires Ingestible(w, item)
    decreases item
  {
    match item
    case RegularFile(c, _) => w.blob(c) in objs && objs[w.blob(c)] == c
    case Folder(cs) =>
      && DigestOf(w, cs) in objs && objs[DigestOf(w, cs)] == EncodeTree(TreeOf(w, cs))
      && forall i :: 0 <= i < |cs| ==> Stored(w, objs, cs[i].item)
    case SoftLink(_) => true
  }

  /** Every byte string that ingesting `item` hashes is in `u`. */
  ghost predicate Hashed(w: World, u: set<Bytes>, item: Item)
    decreases item
  {
    match item
    case RegularFile(c, _) => c in u
    case Folder(cs) =>
      && (forall i :: 0 <= i < |cs| ==> Hashed(w, u, cs[i].item))
      && (AllIngestible(w, cs) ==> EncodeTree(TreeOf(w, cs)) in u)
    case _ => true
  }

  /** The directory tree that a skeleton describes over the blobs of a store. */
  ghost function Fill(objs: Contents, s: Skeleton): Item
    decreases s
  {
    match s
    case FileAs(d, _, x) => RegularFile(if d in objs then objs[d] else [], x)
    case DirOf(parts) => Folder(FillAll(objs, parts))
    case LinkTo(target) => SoftLink(target)
  }

  ghost function FillAll(objs: Contents, parts: seq<Part>): (cs: seq<Child>)
    ensures |cs| == |parts|
    ensures forall i :: 0 <= i < |parts| ==> cs[i] == Child(parts[i].name, Fill(objs, parts[i].skeleton))
    decreases parts
  {
    seq(|parts|, i requires 0 <= i < |parts| => Child(parts[i].name, Fill(objs, parts[i].skeleton)))
  }

  /** Every file entry gives the length of the object that it names. */
  ghost predicate TrueSizes(objs: Contents, s: Skeleton)
    decreases s
  {
    match s
    case FileAs(d, size, _) => d in objs && size == |objs[d]|
    case DirOf(parts) => forall i :: 0 <= i < |parts| ==> TrueSizes(objs, parts[i].skeleton)
    case LinkTo(_) => true
  }

  ghost predicate TrueEntries(objs: Contents, t: Tree)
  {
    forall e :: e in t && e.node.File? ==> e.node.digest in objs && e.node.size == |objs[e.node.digest]|
  }

  /** The manifest that ingest computes gives the lengths of the files that it has put. */
  lemma IngestedSizes(w: World, objs: Contents, cs: seq<Child>)
    requires AllIngestible(w, cs) && forall i :: 0 <= i < |cs| ==> Stored(w, objs, cs[i].item)
    ensures TrueEntries(objs, TreeOf(w, cs))
  {
    var t := TreeOf(w, cs);
    forall e | e in t && e.node.File? ensures e.node.digest in objs && e.node.size == |objs[e.node.digest]| {
      var i :| 0 <= i < |t| && t[i] == e;
      assert Stored(w, objs, cs[i].item);
    }
  }

  /** What materializing `d` produces. */
  ghost function Unfold(w: World, objs: Contents, d: Digest): Result<Item, CasError>
  {
    match Walk(w, objs, d, MAX_LEVELS, true)
    case Ok(parts) => Ok(Folder(FillAll(objs, parts)))
    case Err(e) => Err(e)
  }

  ghost predicate Grows(a: Contents, b: Contents)
  {
    forall d :: d in a ==> d in b && a[d] == b[d]
  }

  lemma {:induction false} StoredGrows(w: World, a: Contents, b: Contents, item: Item)
    requires Ingestible(w, item) && Stored(w, a, item) && Grows(a, b)
    ensures Stored(w, b, item)
    decreases item
  {
    if item.Folder? {
      forall i | 0 <= i < |item.children| ensures Stored(w, b, item.children[i].item) {
        StoredGrows(w, a, b, item.children[i].item);
      }
    }
  }

  /** Stores that agree on a closed set of directories and on their files unfold alike. */
  lemma {:induction false} FillLocal(w: World, a: Contents, b: Contents, dirs: set<Digest>, d: Digest, levels: nat, blobs: bool)
    requires Closed(w, a, dirs) && d in dirs && AgreeOn(a, b, dirs + FilesOf(w, a, dirs))
    requires Walk(w, a, d, levels, blobs).Ok?
    ensures FillAll(a, Walk(w, a, d, levels, blobs).value) == FillAll(b, Walk(w, a, d, levels, blobs).value)
    decreases levels
  {
    hide ParseTree, WalkEntries;
    var t, parts := GetTree(w, a, d).value, Walk(w, a, d, levels, blobs).value;
    WalkPointwise(w, a, t, levels - 1, blobs, parts);
    forall i | 0 <= i < |parts| ensures Fill(a, parts[i].skeleton) == Fill(b, parts[i].skeleton) {
      assert t[i] in t;
      match t[i].node {
        case File(x, _, _) => assert x in BlobDigests(t) && x in FilesOf(w, a, dirs);
        case Dir(x) =>
          assert x in SubtreeDigests(t);
          FillLocal(w, a, b, dirs, x, levels - 1, blobs);
        case Symlink(_) =>
      }
    }
    assert FillAll(a, parts) == FillAll(b, parts);
  }

  lemma UnfoldLocal(w: World, a: Contents, b: Contents, dirs: set<Digest>, d: Digest)
    requires Closed(w, a, dirs) && d in dirs && AgreeOn(a, b, dirs + FilesOf(w, a, dirs))
    ensures Unfold(w, a, d) == Unfold(w, b, d)
  {
    hide Walk, Closed, AgreeOn, FilesOf;
    WalkLocal(w, a, b, dirs, d, MAX_LEVELS, true);
    if Walk(w, a, d, MAX_LEVELS, true).Ok? { FillLocal(w, a, b, dirs, d, MAX_LEVELS, true); }
  }

  // ------------------------------------------------------------------ the round trip

  lemma TreeOfWellTyped(w: World, cs: seq<Child>)
    requires Ingestible(w, Folder(cs)) && Shaped(Folder(cs))
    ensures WellTyped(w.utf8, TreeOf(w, cs))
    ensures (exists levels: nat :: Representable(Folder(cs), levels)) ==> Fits(TreeOf(w, cs))
  {
    var t := TreeOf(w, cs);
    forall e | e in t ensures WellTypedEntry(w.utf8, e) {
      var i :| 0 <= i < |t| && t[i] == e;
      assert Ingestible(w, cs[i].item) && Shaped(cs[i].item);
    }
    if levels: nat :| Representable(Folder(cs), levels) {
      forall e | e in t ensures EntryFits(e) {
        var i :| 0 <= i < |t| && t[i] == e;
        assert Representable(cs[i].item, levels - 1);
      }
    }
  }

  lemma {:induction false} FolderUnfolds(w: World, objs: Contents, cs: seq<Child>, levels: nat)
    returns (parts: seq<Part>)
    requires Ingestible(w, Folder(cs)) && Shaped(Folder(cs)) && Stored(w, objs, Folder(cs))
    requires Representable(Folder(cs), levels)
    ensures Walk(w, objs, DigestOf(w, cs), levels, true) == Ok(parts)
    ensures FillAll(objs, parts) == cs && TrueSizes(objs, DirOf(parts))
    decreases cs
  {
    hide EncodeTree, DecodeTree, Walk;
    var t := TreeOf(w, cs);
    TreeOfWellTyped(w, cs);
    DecodeInvertsEncode(w.utf8, t);
    assert GetTree(w, objs, DigestOf(w, cs)) == Ok(t);
    parts := [];
    while |parts| < |cs|
      invariant |parts| <= |cs|
      invariant forall i :: 0 <= i < |parts| ==>
        && parts[i].name == cs[i].name
        && WalkNode(w, objs, t[i].node, levels - 1, true) == Ok(parts[i].skeleton)
        && Fill(objs, parts[i].skeleton) == cs[i].item
        && TrueSizes(objs, parts[i].skeleton)
    {
      var i := |parts|;
      assert Ingestible(w, cs[i].item) && Shaped(cs[i].item) && Stored(w, objs, cs[i].item);
      assert Representable(cs[i].item, levels - 1);
      match cs[i].item {
        case RegularFile(c, x) => parts := parts + [Part(cs[i].name, FileAs(w.blob(c), |c|, x))];
        case Folder(sub) =>
          var below := FolderUnfolds(w, objs, sub, levels - 1);
          parts := parts + [Part(cs[i].name, DirOf(below))];
        case SoftLink(target) => parts := parts + [Part(cs[i].name, LinkTo(target))];
      }
    }
    WalkPointwise(w, objs, t, levels - 1, true, parts);
    WalkFrom(w, objs, DigestOf(w, cs), levels, true);
    assert FillAll(objs, parts) == cs;
  }

  lemma WalkStops(w: World, objs: Contents, d: Digest, levels: nat, blobs: bool)
    ensures levels == 0 ==> Walk(w, objs, d, levels, blobs) == Err(TreeTooDeep)
    ensures levels > 0 && GetTree(w, objs, d).Err? ==> Walk(w, objs, d, levels, blobs) == Err(GetTree(w, objs, d).error)
  {
  }

  lemma WalkFrom(w: World, objs: Contents, d: Digest, levels: nat, blobs: bool)
    requires levels > 0 && GetTree(w, objs, d).Ok?
    ensures Walk(w, objs, d, levels, blobs) ==
            WalkEntries(w, objs, GetTree(w, objs, d).value, levels - 1, blobs)
  {
  }

  lemma {:induction false} WalkedIsRepresentable(w: World, objs: Contents, d: Digest, levels: nat, blobs: bool)
    requires Walk(w, objs, d, levels, blobs).Ok?
    ensures Representable(Folder(FillAll(objs, Walk(w, objs, d, levels, blobs).value)), levels)
    decreases levels
  {
    hide DecodeTree, EncodeTree;
    var t, parts := GetTree(w, objs, d).value, Walk(w, objs, d, levels, blobs).value;
    DecodedIsWellFormed(w.utf8, objs[d]);
    WalkPointwise(w, objs, t, levels - 1, blobs, parts);
    forall i | 0 <= i < |parts| ensures Representable(Fill(objs, parts[i].skeleton), levels - 1) {
      assert t[i] in t && EntryFits(t[i]);
      if t[i].node.Dir? { WalkedIsRepresentable(w, objs, t[i].node.digest, levels - 1, blobs); }
    }
  }

  /** Once a directory tree has been ingested, materializing its digest gives back its names,
      contents, link targets and execute bits: exactly when no link target is empty or of 65536
      bytes or more, no directory has 2^32 entries, and nesting stays within the depth limit. */
  lemma RoundTripExactlyWhenRepresentable(w: World, objs: Contents, cs: seq<Child>)
    requires Ingestible(w, Folder(cs)) && Shaped(Folder(cs)) && Stored(w, objs, Folder(cs))
    ensures Unfold(w, objs, DigestOf(w, cs)) == Ok(Folder(cs)) <==> Representable(Folder(cs), 129)
  {
    hide Walk, Representable, Stored, Shaped;
    if Representable(Folder(cs), MAX_LEVELS) { var _ := FolderUnfolds(w, objs, cs, MAX_LEVELS); }
    if Unfold(w, objs, DigestOf(w, cs)) == Ok(Folder(cs)) {
      WalkedIsRepresentable(w, objs, DigestOf(w, cs), MAX_LEVELS, true);
    }
  }

  // ------------------------------------------------------------------ counting

  datatype Tally = Tally(files: nat, bytes: nat, dirs: nat, symlinks: nat)

  function Plus(a: Tally, b: Tally): Tally
  {
    Tally(a.files + b.files, a.bytes + b.bytes, a.dirs + b.dirs, a.symlinks + b.symlinks)
  }

  lemma PlusZero(t: Tally)
    ensures Plus(Tally(0, 0, 0, 0), t) == t
  {
    match t
    case Tally(_, _, _, _) =>
  }

  /** Files, manifest sizes, directories and links of an unfolded tree. */
  function Count(s: Skeleton): Tally
    decreases s
  {
    match s
    case FileAs(_, size, _) => Tally(1, size, 0, 0)
    case DirOf(parts) => Plus(Tally(0, 0, 1, 0), CountAll(parts))
    case LinkTo(_) => Tally(0, 0, 0, 1)
  }

  function CountAll(parts: seq<Part>): Tally
    decreases parts
  {
    if parts == [] then Tally(0, 0, 0, 0) else Plus(Count(parts[0].skeleton), CountAll(parts[1..]))
  }

  lemma {:induction false} CountSnoc(parts: seq<Part>, p: Part)
    ensures CountAll(parts + [p]) == Plus(CountAll(parts), Count(p.skeleton))
  {
    if parts == [] {
      assert [p][1..] == [];
    } else {
      assert (parts + [p])[1..] == parts[1..] + [p];
      CountSnoc(parts[1..], p);
    }
  }

  lemma CountDir(parts: seq<Part>)
    ensures Count(DirOf(parts)) == Plus(Tally(0, 0, 1, 0), CountAll(parts))
  {
  }

  lemma CountEmptyDir()
    ensures Count(DirOf([])) == Tally(0, 0, 1, 0)
  {
    CountDir([]);
  }

  lemma CountEntry(before: Tally, parts: seq<Part>, p: Part)
    ensures Plus(Plus(before, Count(DirOf(parts))), Count(p.skeleton)) == Plus(before, Count(DirOf(parts + [p])))
  {
    CountDir(parts);
    CountDir(parts + [p]);
    CountSnoc(parts, p);
    hide Count, CountAll;
  }
}
