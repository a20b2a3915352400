/** The filesystem that a store lives on: names that point at inodes, and the system calls that
    the store makes. */
module Filesystem {
  import opened Base
  import opened Manifest
  import opened Objects

  type Path = seq<Bytes>

  /** `objects/<ab>/<hex>`, `tmp/<hex>.staging`, or any path outside the store root. */
  datatype Place = Object(digest: Digest) | Staging(digest: Digest) | Outside(path: Path)

  datatype Target = FileAt(ino: nat) | DirAt | LinkAt(target: Bytes) | DeviceAt

  datatype Inode = Inode(content: Bytes, mode: nat, mtime: nat)

  const OBJECT_MODE := 292  // 0o444

  predicate OwnerExec(mode: nat) { mode / 64 % 2 == 1 }

  predicate OwnerWrite(mode: nat) { mode / 128 % 2 == 1 }

  datatype Fs = Fs(names: map<Place, Target>, inodes: map<nat, Inode>, next: nat) {

    predicate IsFile(q: Place)
    {
      q in names && names[q].FileAt? && names[q].ino in inodes
    }

    function At(q: Place): Inode
      requires IsFile(q)
    {
      inodes[names[q].ino]
    }

    /** Creating a name needs the name to be free and, outside the store, a parent directory. */
    predicate CanCreate(q: Place)
    {
      q !in names &&
      (q.Outside? ==> q.path != [] && Outside(q.path[..|q.path| - 1]) in names
                      && names[Outside(q.path[..|q.path| - 1])].DirAt?)
    }

    function Create(q: Place, node: Inode): Fs
    {
      Fs(names[q := FileAt(next)], inodes[next := node], next + 1)
    }

    function Name(q: Place, t: Target): Fs
    {
      Fs(names[q := t], inodes, next)
    }

    function Unlink(q: Place): Fs
    {
      Fs(names - {q}, inodes, next)
    }

    function HardLink(src: Place, dst: Place): Fs
      requires src in names
    {
      Fs(names[dst := names[src]], inodes, next)
    }

    function Rename(src: Place, dst: Place): Fs
      requires src in names
    {
      Fs((names - {src})[dst := names[src]], inodes, next)
    }

    function Chmod(q: Place, mode: nat): Fs
      requires IsFile(q)
    {
      Fs(names, inodes[names[q].ino := At(q).(mode := mode)], next)
    }

    /** Replace the content of an inode, as a write through an open file does. */
    function Write(ino: nat, content: Bytes, now: nat): Fs
      requires ino in inodes
    {
      Fs(names, inodes[ino := inodes[ino].(content := content, mtime := now)], next)
    }

    ghost predicate Ok()
    {
      && (forall q :: q in names && names[q].FileAt? ==> names[q].ino in inodes)
      && (forall i :: i in inodes ==> i < next)
      && (forall q :: q in names && !q.Outside? ==> names[q].FileAt?)
    }

    /** A path exists only inside an existing directory. */
    ghost predicate Rooted()
    {
      forall p: Path, n :: Outside(p + [n]) in names ==> Outside(p) in names && names[Outside(p)].DirAt?
    }
  }

  /** The objects that a reader of the store sees. */
  function ContentsOf(fs: Fs): Contents
  {
    map q | q in fs.names && q.Object? && fs.IsFile(q) :: q.digest := fs.At(q).content
  }

  lemma ContentsAt(fs: Fs, d: Digest)
    ensures d in ContentsOf(fs) <==> fs.IsFile(Object(d))
    ensures d in ContentsOf(fs) ==> ContentsOf(fs)[d] == fs.At(Object(d)).content
  {
    if fs.IsFile(Object(d)) { assert Object(d).digest in ContentsOf(fs); }
  }

  // ------------------------------------------------------------------ what stays the same

  predicate SameName(a: Fs, b: Fs, q: Place)
  {
    (q in a.names <==> q in b.names) && (q in a.names ==> a.names[q] == b.names[q])
  }

  ghost predicate InodesKept(a: Fs, b: Fs)
  {
    forall i :: i in a.inodes ==> i in b.inodes && a.inodes[i] == b.inodes[i]
  }

  ghost predicate OnlyNameChanged(a: Fs, b: Fs, q: Place)
  {
    forall x :: x != q ==> SameName(a, b, x)
  }

  /** Everything outside the store has kept its name, and every file its inode and content. */
  ghost predicate OutsideKept(a: Fs, b: Fs)
  {
    forall p: Path :: SamePath(a, b, p)
  }

  ghost predicate SamePath(a: Fs, b: Fs, p: Path)
  {
    && SameName(a, b, Outside(p))
    && (a.IsFile(Outside(p)) ==> b.IsFile(Outside(p)) && a.At(Outside(p)) == b.At(Outside(p)))
  }

  ghost predicate SameFile(a: Fs, b: Fs, q: Place)
  {
    (a.IsFile(q) <==> b.IsFile(q)) && (a.IsFile(q) ==> a.At(q) == b.At(q))
  }

  ghost predicate SameObjects(a: Fs, b: Fs)
  {
    forall d :: SameFile(a, b, Object(d))
  }

  lemma SameContents(a: Fs, b: Fs)
    requires SameObjects(a, b)
    ensures ContentsOf(a) == ContentsOf(b)
  {
    forall d ensures d in ContentsOf(a) <==> d in ContentsOf(b)
             ensures d in ContentsOf(a) ==> ContentsOf(a)[d] == ContentsOf(b)[d] {
      ContentsAt(a, d);
      ContentsAt(b, d);
      assert SameFile(a, b, Object(d));
    }
  }

  // ------------------------------------------------------------------ directory trees on disk

  ghost predicate HasChild(cs: seq<Child>, n: Bytes)
  {
    exists i :: 0 <= i < |cs| && cs[i].name == n
  }

  ghost function ChildIndex(cs: seq<Child>, n: Bytes): (i: nat)
    requires HasChild(cs, n)
    ensures i < |cs| && cs[i].name == n
  {
    var i :| 0 <= i < |cs| && cs[i].name == n;
    i
  }

  /** The path `p` holds exactly the directory tree `item`. */
  ghost predicate Holds(fs: Fs, p: Path, item: Item)
    decreases item
  {
    Outside(p) in fs.names &&
    var t := fs.names[Outside(p)];
    match item
    case RegularFile(c, x) =>
      fs.IsFile(Outside(p)) && fs.At(Outside(p)).content == c && OwnerExec(fs.At(Outside(p)).mode) == x
    case SoftLink(target) => t == LinkAt(target)
    case Device => t == DeviceAt
    case Folder(cs) =>
      && t == DirAt
      && (forall n :: Outside(p + [n]) in fs.names <==> HasChild(cs, n))
      && (forall i :: 0 <= i < |cs| ==> Holds(fs, p + [cs[i].name], cs[i].item))
  }

  ghost predicate SameUnder(a: Fs, b: Fs, p: Path)
  {
    forall q: Path :: p <= q ==> SamePath(a, b, q)
  }

  /** What a path holds depends only on the names below it and on the inodes of its files. */
  lemma {:induction false} HoldsLocal(a: Fs, b: Fs, p: Path, item: Item)
    requires Holds(a, p, item) && SameUnder(a, b, p)
    ensures Holds(b, p, item)
    decreases item
  {
    assert SamePath(a, b, p);
    if item.Folder? {
      var cs := item.children;
      forall n ensures Outside(p + [n]) in b.names <==> HasChild(cs, n) {
        assert SamePath(a, b, p + [n]);
      }
      forall i | 0 <= i < |cs| ensures Holds(b, p + [cs[i].name], cs[i].item) {
        var below := p + [cs[i].name];
        forall q: Path | below <= q ensures SamePath(a, b, q) { assert p <= q; }
        HoldsLocal(a, b, below, cs[i].item);
      }
    }
  }

  /** A child is still what it was when nothing outside the store has changed. */
  lemma ChildHolds(a: Fs, b: Fs, p: Path, cs: seq<Child>, i: nat)
    requires Holds(a, p, Folder(cs)) && i < |cs| && OutsideKept(a, b)
    ensures Holds(b, p + [cs[i].name], cs[i].item)
  {
    forall q: Path | p + [cs[i].name] <= q ensures SamePath(a, b, q) { }
    HoldsLocal(a, b, p + [cs[i].name], cs[i].item);
  }

  /** `read_dir`: the names in a directory. */
  function ReadDir(fs: Fs, p: Path): (names: set<Bytes>)
    ensures forall n :: n in names <==> Outside(p + [n]) in fs.names
  {
    var names := set q | q in fs.names && q.Outside? && |q.path| == |p| + 1 && q.path[..|p|] == p :: q.path[|p|];
    assert forall n :: Outside(p + [n]) in fs.names ==> n in names by {
      forall n | Outside(p + [n]) in fs.names ensures n in names {
        var q := Outside(p + [n]);
        assert q.path[..|p|] == p && q.path[|p|] == n;
      }
    }
    assert forall n :: n in names ==> Outside(p + [n]) in fs.names by {
      forall n | n in names ensures Outside(p + [n]) in fs.names {
        var q :| q in fs.names && q.Outside? && |q.path| == |p| + 1 && q.path[..|p|] == p && q.path[|p|] == n;
        assert q.path == p + [n];
      }
    }
    names
  }

  // ------------------------------------------------------------------ building below a path

  /** `b` differs from `a` only in names at or below `p`, and keeps every inode. */
  ghost predicate Built(a: Fs, b: Fs, p: Path)
  {
    && InodesKept(a, b)
    && (forall q: Place :: !(q.Outside? && p <= q.path) ==> SameName(a, b, q))
  }

  /** Nothing lies below a path that does not exist. */
  lemma {:induction false} NothingBelow(fs: Fs, p: Path, q: Path)
    requires fs.Rooted() && p <= q && (Outside(p) in fs.names ==> !fs.names[Outside(p)].DirAt?)
    requires p != q || Outside(p) !in fs.names
    ensures Outside(q) !in fs.names
    decreases |q|
  {
    if p != q {
      var up, n := q[..|q| - 1], q[|q| - 1];
      assert q == up + [n] && p <= up;
      if Outside(q) in fs.names && p != up { NothingBelow(fs, p, up); }
    }
  }

  lemma BuiltTransitive(a: Fs, b: Fs, c: Fs, p: Path, below: Path)
    requires Built(a, b, p) && Built(b, c, below) && p <= below
    ensures Built(a, c, p)
  {
    forall q: Place | !(q.Outside? && p <= q.path) ensures SameName(a, c, q) {
      assert SameName(a, b, q) && SameName(b, c, q);
    }
  }

  /** Building one child of a directory leaves what another child holds alone. */
  lemma SiblingHolds(a: Fs, b: Fs, dir: Path, m: Bytes, n: Bytes, item: Item)
    requires a.Ok() && Holds(a, dir + [m], item) && Built(a, b, dir + [n]) && m != n
    ensures Holds(b, dir + [m], item)
  {
    forall q: Path | dir + [m] <= q ensures SamePath(a, b, q) {
      assert q[|dir|] == m && (dir + [n])[|dir|] == n;
      assert !(dir + [n] <= q);
      assert SameName(a, b, Outside(q));
    }
    HoldsLocal(a, b, dir + [m], item);
  }

  // ------------------------------------------------------------------ counting what is on disk

  datatype Kind = Dirs | Files | Links | SharedFiles

  predicate OfKind(fs: Fs, q: Place, k: Kind)
    requires q in fs.names
  {
    match k
    case Dirs => fs.names[q] == DirAt
    case Files => fs.names[q].FileAt?
    case Links => fs.names[q].LinkAt?
    case SharedFiles => fs.names[q].FileAt? && exists o :: o in fs.names && o.Object? && fs.names[o] == fs.names[q]
  }

  /** The paths of one kind at or below `p`. Shared files are those on the inode of an object. */
  function Below(fs: Fs, p: Path, k: Kind): set<Path>
  {
    set q | q in fs.names && q.Outside? && p <= q.path && OfKind(fs, q, k) :: q.path
  }

  /** The files at or below `p`, with what is in them. */
  function ContentBelow(fs: Fs, p: Path): map<Path, Bytes>
  {
    map q | q in fs.names && q.Outside? && p <= q.path && fs.IsFile(q) :: q.path := fs.At(q).content
  }

  lemma BelowAt(fs: Fs, p: Path, k: Kind, x: Path)
    ensures x in Below(fs, p, k) <==> Outside(x) in fs.names && p <= x && OfKind(fs, Outside(x), k)
    ensures x in ContentBelow(fs, p) <==> p <= x && fs.IsFile(Outside(x))
    ensures x in ContentBelow(fs, p) ==> ContentBelow(fs, p)[x] == fs.At(Outside(x)).content
  {
    if Outside(x) in fs.names && p <= x && OfKind(fs, Outside(x), k) { assert Outside(x).path in Below(fs, p, k); }
    if p <= x && fs.IsFile(Outside(x)) { assert Outside(x).path in ContentBelow(fs, p); }
  }

  lemma SameKind(a: Fs, b: Fs, q: Place, k: Kind)
    requires q in a.names && SameName(a, b, q) && forall d :: SameName(a, b, Object(d))
    ensures OfKind(a, q, k) <==> OfKind(b, q, k)
  {
    if k == SharedFiles {
      if o :| o in a.names && o.Object? && a.names[o] == a.names[q] { assert SameName(a, b, Object(o.digest)); }
      if o :| o in b.names && o.Object? && b.names[o] == b.names[q] { assert SameName(a, b, Object(o.digest)); }
    }
  }

  /** `b` is `a` with something new built at `below`. */
  ghost predicate BuiltNew(a: Fs, b: Fs, p: Path, below: Path)
  {
    a.Ok() && Built(a, b, below) && p <= below && forall q: Path :: below <= q ==> Outside(q) !in a.names
  }

  lemma BelowOne(a: Fs, b: Fs, p: Path, below: Path, k: Kind, x: Path)
    requires BuiltNew(a, b, p, below)
    ensures x in Below(b, p, k) <==> x in Below(a, p, k) || x in Below(b, below, k)
    ensures !(x in Below(a, p, k) && x in Below(b, below, k))
  {
    hide Below;
    BelowAt(a, p, k, x);
    BelowAt(b, p, k, x);
    BelowAt(b, below, k, x);
    if !(below <= x) {
      assert SameName(a, b, Outside(x));
      if Outside(x) in a.names { SameKind(a, b, Outside(x), k); }
    }
  }

  /** Building something new at `below` adds to a count what is there, and nothing else. */
  lemma BelowGrows(a: Fs, b: Fs, p: Path, below: Path, k: Kind)
    requires BuiltNew(a, b, p, below)
    ensures |Below(b, p, k)| == |Below(a, p, k)| + |Below(b, below, k)|
  {
    hide Below, BuiltNew;
    forall x ensures x in Below(b, p, k) <==> x in Below(a, p, k) || x in Below(b, below, k)
             ensures !(x in Below(a, p, k) && x in Below(b, below, k)) {
      BelowOne(a, b, p, below, k, x);
    }
    assert Below(b, p, k) == Below(a, p, k) + Below(b, below, k);
    assert Below(a, p, k) !! Below(b, below, k);
  }

  lemma ContentOne(a: Fs, b: Fs, p: Path, below: Path, x: Path)
    requires BuiltNew(a, b, p, below)
    ensures x in ContentBelow(b, p) <==> x in ContentBelow(a, p) || x in ContentBelow(b, below)
    ensures x in ContentBelow(a, p) ==> x !in ContentBelow(b, below) && ContentBelow(b, p)[x] == ContentBelow(a, p)[x]
    ensures x in ContentBelow(b, below) ==> ContentBelow(b, p)[x] == ContentBelow(b, below)[x]
  {
    hide ContentBelow;
    BelowAt(a, p, Files, x);
    BelowAt(b, p, Files, x);
    BelowAt(b, below, Files, x);
    if !(below <= x) { assert SameName(a, b, Outside(x)); }
  }

  lemma ContentGrows(a: Fs, b: Fs, p: Path, below: Path)
    requires BuiltNew(a, b, p, below)
    ensures SumLengths(ContentBelow(b, p)) == SumLengths(ContentBelow(a, p)) + SumLengths(ContentBelow(b, below))
  {
    hide ContentBelow, BuiltNew, SumLengths;
    var x1, x2 := ContentBelow(a, p), ContentBelow(b, below);
    forall x ensures x in ContentBelow(b, p) <==> x in x1 + x2
             ensures x in x1 ==> x !in x2
             ensures x in x1 + x2 ==> ContentBelow(b, p)[x] == (x1 + x2)[x] {
      ContentOne(a, b, p, below, x);
    }
    assert ContentBelow(b, p) == x1 + x2;
    SumMerge(x1, x2);
  }

  // ------------------------------------------------------------------ how much a directory tree holds

  ghost function TotalLengths(item: Item): nat
    decreases item
  {
    match item
    case RegularFile(c, _) => |c|
    case Folder(cs) => TotalAll(cs)
    case _ => 0
  }

  ghost function TotalAll(cs: seq<Child>): nat
    decreases cs
  {
    if cs == [] then 0 else TotalAll(cs[..|cs| - 1]) + TotalLengths(cs[|cs| - 1].item)
  }

  ghost predicate UnderOne(p: Path, cs: seq<Child>, x: Path)
  {
    exists j :: 0 <= j < |cs| && p + [cs[j].name] <= x
  }

  /** The part of the files below `p` that lies below the children `cs`. */
  ghost function PartBelow(fs: Fs, p: Path, cs: seq<Child>): map<Path, Bytes>
  {
    map q | q in fs.names && q.Outside? && UnderOne(p, cs, q.path) && fs.IsFile(q) :: q.path := fs.At(q).content
  }

  lemma PartAt(fs: Fs, p: Path, cs: seq<Child>, x: Path)
    ensures x in PartBelow(fs, p, cs) <==> UnderOne(p, cs, x) && fs.IsFile(Outside(x))
    ensures x in PartBelow(fs, p, cs) ==> PartBelow(fs, p, cs)[x] == fs.At(Outside(x)).content
  {
    if UnderOne(p, cs, x) && fs.IsFile(Outside(x)) { assert Outside(x).path in PartBelow(fs, p, cs); }
  }

  lemma UnderOneMore(p: Path, cs: seq<Child>, c: Child, x: Path)
    requires forall j :: 0 <= j < |cs| ==> cs[j].name != c.name
    ensures UnderOne(p, cs + [c], x) <==> UnderOne(p, cs, x) || p + [c.name] <= x
    ensures !(UnderOne(p, cs, x) && p + [c.name] <= x)
  {
    if UnderOne(p, cs, x) {
      var j :| 0 <= j < |cs| && p + [cs[j].name] <= x;
      assert (cs + [c])[j] == cs[j];
      assert (p + [cs[j].name])[|p|] == cs[j].name && (p + [c.name])[|p|] == c.name;
    }
    if p + [c.name] <= x { assert (cs + [c])[|cs|] == c; }
  }

  lemma PartNext(fs: Fs, p: Path, cs: seq<Child>, c: Child)
    requires forall j :: 0 <= j < |cs| ==> cs[j].name != c.name
    ensures SumLengths(PartBelow(fs, p, cs + [c])) ==
            SumLengths(PartBelow(fs, p, cs)) + SumLengths(ContentBelow(fs, p + [c.name]))
  {
    hide PartBelow, ContentBelow, UnderOne, SumLengths;
    var all, x1, x2 := PartBelow(fs, p, cs + [c]), PartBelow(fs, p, cs), ContentBelow(fs, p + [c.name]);
    forall x ensures x in all <==> x in x1 + x2
             ensures x in x1 ==> x !in x2
             ensures x in x1 + x2 ==> all[x] == (x1 + x2)[x] {
      PartAt(fs, p, cs + [c], x);
      PartAt(fs, p, cs, x);
      BelowAt(fs, p + [c.name], Files, x);
      UnderOneMore(p, cs, c, x);
    }
    assert all == x1 + x2;
    SumMerge(x1, x2);
  }

  lemma BelowIsUnderOne(fs: Fs, p: Path, cs: seq<Child>, x: Path)
    requires fs.Rooted() && Outside(p) in fs.names && fs.names[Outside(p)] == DirAt
    requires forall n :: Outside(p + [n]) in fs.names <==> HasChild(cs, n)
    requires p <= x && fs.IsFile(Outside(x))
    ensures UnderOne(p, cs, x)
  {
    assert x != p && x[..|p|] == p;
    var top := p + [x[|p|]];
    assert top <= x;
    if Outside(top) !in fs.names { NothingBelow(fs, top, x); }
    assert HasChild(cs, x[|p|]);
  }

  lemma AllUnderOne(fs: Fs, p: Path, cs: seq<Child>)
    requires fs.Rooted() && Holds(fs, p, Folder(cs))
    ensures PartBelow(fs, p, cs) == ContentBelow(fs, p)
  {
    assert fs.names[Outside(p)] == DirAt && forall n :: Outside(p + [n]) in fs.names <==> HasChild(cs, n);
    hide PartBelow, ContentBelow, Holds, HasChild;
    forall x ensures x in PartBelow(fs, p, cs) <==> x in ContentBelow(fs, p)
             ensures x in ContentBelow(fs, p) ==> x in PartBelow(fs, p, cs) && PartBelow(fs, p, cs)[x] == ContentBelow(fs, p)[x] {
      PartAt(fs, p, cs, x);
      BelowAt(fs, p, Files, x);
      if x in ContentBelow(fs, p) { BelowIsUnderOne(fs, p, cs, x); }
    }
  }

  /** The files of a directory tree on disk are as long together as the tree says. */
  lemma {:induction false} HoldsWeighs(fs: Fs, p: Path, item: Item)
    requires fs.Ok() && fs.Rooted() && Shaped(item) && Holds(fs, p, item)
    ensures SumLengths(ContentBelow(fs, p)) == TotalLengths(item)
    decreases item, 0
  {
    hide SumLengths, PartBelow, ContentBelow;
    if item.Folder? {
      var cs := item.children;
      AllUnderOne(fs, p, cs);
      ChildrenWeigh(fs, p, cs, |cs|);
      assert cs[..|cs|] == cs;
    } else {
      LeafWeighs(fs, p);
    }
  }

  lemma {:induction false} ChildrenWeigh(fs: Fs, p: Path, cs: seq<Child>, k: nat)
    requires fs.Ok() && fs.Rooted() && Shaped(Folder(cs)) && k <= |cs|
    requires forall i :: 0 <= i < |cs| ==> Holds(fs, p + [cs[i].name], cs[i].item)
    ensures SumLengths(PartBelow(fs, p, cs[..k])) == TotalAll(cs[..k])
    decreases cs, k
  {
    if k == 0 {
      assert PartBelow(fs, p, cs[..0]) == map[];
    } else {
      hide SumLengths, PartBelow, ContentBelow, Holds;
      var c := cs[k - 1];
      var before := cs[..k - 1];
      assert cs[..k] == before + [c] && cs[..k][..k - 1] == before;
      forall j | 0 <= j < |before| ensures before[j].name != c.name { LessIrreflexive(c.name); }
      assert Shaped(c.item);
      ChildrenWeigh(fs, p, cs, k - 1);
      PartNext(fs, p, before, c);
      HoldsWeighs(fs, p + [c.name], c.item);
    }
  }

  lemma LeafWeighs(fs: Fs, p: Path)
    requires fs.Rooted() && Outside(p) in fs.names && !fs.names[Outside(p)].DirAt?
    ensures SumLengths(ContentBelow(fs, p)) == if fs.IsFile(Outside(p)) then |fs.At(Outside(p)).content| else 0
  {
    var m := ContentBelow(fs, p);
    forall x ensures x in m <==> x == p && fs.IsFile(Outside(p)) {
      BelowAt(fs, p, Files, x);
      if x in m && x != p { NothingBelow(fs, p, x); }
    }
    BelowAt(fs, p, Files, p);
    if fs.IsFile(Outside(p)) {
      SumRemove(m, p);
      assert m - {p} == map[];
    } else {
      assert m == map[];
    }
  }
}
