/** The object store: placing files, inserting objects, ingesting and materializing directory
    trees, and collecting garbage. Kernel outcomes and I/O errors are chosen arbitrarily. */
module ObjectStore {
  import opened Base
  import opened Manifest
  import opened Objects
  import opened Filesystem
  import opened Marking

  datatype Intent = OverlayLower | PrivateInode
  datatype LinkMode = Reflink | Hardlink | Copy
  datatype Capability = Unknown | Yes | No
  datatype Outcome = Done | Unsupported | Failed

  datatype Stats = Stats(reflinked: nat, hardlinked: nat, copied: nat, dirs: nat, symlinks: nat, bytes: nat) {
    function Files(): nat { reflinked + hardlinked + copied }

    function Record(mode: LinkMode, size: nat): Stats
    {
      var s := this.(bytes := bytes + size);
      match mode
      case Reflink => s.(reflinked := reflinked + 1)
      case Hardlink => s.(hardlinked := hardlinked + 1)
      case Copy => s.(copied := copied + 1)
    }

    function Tallied(): Tally { Tally(Files(), bytes, dirs, symlinks) }
  }

  /** The mode that a materialized file gets when it has an inode of its own. */
  function WantedMode(intent: Intent, executable: bool): (mode: nat)
    ensures OwnerExec(mode) == executable && OwnerWrite(mode) == (intent == PrivateInode)
    ensures mode < 512 && mode / 256 % 2 == mode / 32 % 2 == mode / 4 % 2 == 1
    ensures mode / 16 % 2 == mode / 2 % 2 == 0 && (mode / 128 % 2 == 1 <==> intent == PrivateInode)
    ensures mode / 64 % 2 == mode / 8 % 2 == mode % 2 == if executable then 1 else 0
  {
    match (intent, executable)
    case (PrivateInode, false) => 420  // 0o644
    case (PrivateInode, true) => 493   // 0o755
    case (OverlayLower, false) => 292  // 0o444
    case (OverlayLower, true) => 365   // 0o555
  }

  /** No other name reaches the inode of a staging file. */
  ghost predicate StagingPrivate(fs: Fs)
  {
    forall d, q :: Staging(d) in fs.names && q in fs.names && q != Staging(d) ==> fs.names[q] != fs.names[Staging(d)]
  }

  /** No put has left a staging file behind, except perhaps one of `d`. */
  ghost predicate TidyBut(fs: Fs, d: Digest)
  {
    forall x :: x != d ==> Staging(x) !in fs.names
  }

  ghost predicate Tidy(fs: Fs)
  {
    forall d :: Staging(d) !in fs.names
  }

  /** A staging file that a stopped put sealed and never renamed. */
  predicate Leftover(fs: Fs, d: Digest)
  {
    fs.IsFile(Staging(d)) && !OwnerWrite(fs.At(Staging(d)).mode)
  }

  ghost predicate ObjectsSealed(fs: Fs)
  {
    forall d :: fs.IsFile(Object(d)) ==> fs.At(Object(d)).mode == OBJECT_MODE
  }

  /** `b` is `a` with the contents of `src` placed at `dst`, by a link that `intent` allows. */
  ghost predicate Placed(a: Fs, b: Fs, src: Place, dst: Place, intent: Intent, mode: LinkMode)
  {
    && a.IsFile(src) && b.IsFile(dst)
    && b.At(dst).content == a.At(src).content
    && (if mode == Hardlink then intent == OverlayLower && b.names[dst] == a.names[src]
        else b.names[dst].ino !in a.inodes)
  }

  /** The shape of a store on disk, whatever its objects contain. */
  ghost predicate Structured(fs: Fs)
  {
    fs.Ok() && fs.Rooted() && StagingPrivate(fs) && ObjectsSealed(fs)
  }

  /** Every object is what its digest names, and nothing hashed in the run collides. */
  ghost predicate Trusted(w: World, u: set<Bytes>, objs: Objects.Contents)
  {
    CollisionFree(w, u) && Sound(w, u, objs)
  }

  /** The objects after a put: a digest that is already there is left alone. */
  function Added(objs: Objects.Contents, d: Digest, content: Bytes): Objects.Contents
  {
    if d in objs then objs else objs[d := content]
  }

  /** A put, in whose check for the object a fault counts as its absence. */
  ghost predicate PutLeaves(a: Objects.Contents, b: Objects.Contents, d: Digest, content: Bytes, faulty: bool)
  {
    b == Added(a, d, content) || (faulty && b == a[d := content])
  }

  /** On disk, an inserted object is new and read-only, and one that is found is not touched, its
      time included. */
  ghost predicate PutOnDisk(a: Fs, b: Fs, d: Digest, content: Bytes, now: nat, faulty: bool)
  {
    && b.IsFile(Object(d))
    && (!a.IsFile(Object(d)) ==> b.At(Object(d)) == Inode(content, 292, now))
    && (a.IsFile(Object(d)) && !faulty ==> b == a)
  }

  /** In a trusted store, finding the object is as good as inserting it. */
  lemma AddedIsStored(w: World, u: set<Bytes>, objs: Objects.Contents, d: Digest, content: Bytes)
    requires Trusted(w, u, objs) && content in u && Names(w, d, content)
    ensures Added(objs, d, content) == objs[d := content] && Trusted(w, u, objs[d := content]) && Grows(objs, objs[d := content])
  {
    if d in objs { NamesUnique(w, u, d, objs[d], content); }
  }

  /** A change that touches neither the objects nor anything outside the store. */
  ghost predicate OnlyStaging(a: Fs, b: Fs)
  {
    SameObjects(a, b) && OutsideKept(a, b)
  }

  lemma StagingStep(a: Fs, b: Fs)
    requires Structured(a) && OnlyStaging(a, b) && b.Ok() && StagingPrivate(b)
    ensures Structured(b) && ContentsOf(a) == ContentsOf(b)
  {
    SameContents(a, b);
    forall d | b.IsFile(Object(d)) ensures b.At(Object(d)).mode == OBJECT_MODE {
      assert SameFile(a, b, Object(d));
    }
    forall p: Path, n | Outside(p + [n]) in b.names
      ensures Outside(p) in b.names && b.names[Outside(p)].DirAt?
    {
      assert SamePath(a, b, p + [n]) && SamePath(a, b, p);
    }
  }

  lemma CreateStaging(fs: Fs, d: Digest, node: Inode)
    requires Structured(fs) && Staging(d) !in fs.names
    ensures var b := fs.Create(Staging(d), node);
            Structured(b) && OnlyStaging(fs, b) && ContentsOf(b) == ContentsOf(fs)
  {
    StagingStep(fs, fs.Create(Staging(d), node));
  }

  lemma UnlinkStaging(fs: Fs, d: Digest)
    requires Structured(fs)
    ensures var b := fs.Unlink(Staging(d));
            Structured(b) && OnlyStaging(fs, b) && ContentsOf(b) == ContentsOf(fs)
  {
    StagingStep(fs, fs.Unlink(Staging(d)));
  }

  lemma WriteStaging(fs: Fs, d: Digest, content: Bytes, now: nat)
    requires Structured(fs) && fs.IsFile(Staging(d))
    ensures var b := fs.Write(fs.names[Staging(d)].ino, content, now);
            Structured(b) && OnlyStaging(fs, b) && ContentsOf(b) == ContentsOf(fs)
  {
    StagingStep(fs, fs.Write(fs.names[Staging(d)].ino, content, now));
  }

  lemma ChmodStaging(fs: Fs, d: Digest, mode: nat)
    requires Structured(fs) && fs.IsFile(Staging(d))
    ensures var b := fs.Chmod(Staging(d), mode);
            Structured(b) && OnlyStaging(fs, b) && ContentsOf(b) == ContentsOf(fs)
  {
    StagingStep(fs, fs.Chmod(Staging(d), mode));
  }

  lemma CommitContents(fs: Fs, d: Digest)
    requires fs.Ok() && fs.IsFile(Staging(d))
    ensures ContentsOf(fs.Rename(Staging(d), Object(d))) == ContentsOf(fs)[d := fs.At(Staging(d)).content]
  {
    var b := fs.Rename(Staging(d), Object(d));
    var before, after := ContentsOf(fs)[d := fs.At(Staging(d)).content], ContentsOf(b);
    forall x ensures x in after <==> x in before
             ensures x in after ==> after[x] == before[x] {
      ContentsAt(fs, x);
      ContentsAt(b, x);
    }
    assert after == before;
  }

  lemma CommitStaging(fs: Fs, d: Digest)
    requires Structured(fs) && fs.IsFile(Staging(d))
    requires fs.At(Staging(d)).mode == OBJECT_MODE
    ensures var b := fs.Rename(Staging(d), Object(d));
            Structured(b) && OutsideKept(fs, b) && ContentsOf(b) == ContentsOf(fs)[d := fs.At(Staging(d)).content]
  {
    var b := fs.Rename(Staging(d), Object(d));
    CommitContents(fs, d);
    hide ContentsOf;
    forall p: Path, n | Outside(p + [n]) in b.names
      ensures Outside(p) in b.names && b.names[Outside(p)].DirAt?
    {
      assert Outside(p + [n]) in fs.names;
    }
  }

  lemma KeptTransitive(a: Fs, b: Fs, c: Fs)
    requires OutsideKept(a, b) && OutsideKept(b, c)
    ensures OutsideKept(a, c)
  {
    forall p: Path ensures SamePath(a, c, p) { assert SamePath(a, b, p) && SamePath(b, c, p); }
  }

  /** `b` differs from `a` at most in the name `dst`, and keeps every inode. */
  ghost predicate OneName(a: Fs, b: Fs, dst: Place)
  {
    b.Ok() && OnlyNameChanged(a, b, dst) && InodesKept(a, b)
  }

  lemma CreateAt(a: Fs, dst: Place, node: Inode)
    requires a.Ok()
    ensures var b := a.Unlink(dst).Create(dst, node);
            OneName(a, b, dst) && b.IsFile(dst) && b.At(dst) == node && b.names[dst].ino !in a.inodes
  {
  }

  lemma HardLinkAt(a: Fs, src: Place, dst: Place)
    requires a.Ok() && a.Unlink(dst).IsFile(src)
    ensures var b := a.Unlink(dst).HardLink(src, dst);
            OneName(a, b, dst) && b.IsFile(dst) && b.names[dst] == a.names[src] && b.At(dst) == a.At(src)
  {
  }

  lemma ChmodOwn(a: Fs, b: Fs, dst: Place, mode: nat)
    requires OneName(a, b, dst) && b.IsFile(dst) && b.names[dst].ino !in a.inodes
    ensures var c := b.Chmod(dst, mode);
            && OneName(a, c, dst) && c.names == b.names && c.IsFile(dst)
            && c.At(dst) == b.At(dst).(mode := mode)
  {
    var c := b.Chmod(dst, mode);
    forall x | x != dst ensures SameName(a, c, x) { assert SameName(a, b, x); }
  }

  lemma PlacedStaging(a: Fs, b: Fs, d: Digest)
    requires Structured(a) && OneName(a, b, Staging(d))
    requires Staging(d) in b.names ==>
      SameName(a, b, Staging(d)) || (b.IsFile(Staging(d)) && b.names[Staging(d)].ino !in a.inodes)
    ensures Structured(b) && OnlyStaging(a, b) && ContentsOf(a) == ContentsOf(b)
  {
    forall x ensures SameFile(a, b, Object(x)) { assert SameName(a, b, Object(x)); }
    forall p: Path ensures SamePath(a, b, p) { assert SameName(a, b, Outside(p)); }
    forall x, q | Staging(x) in b.names && q in b.names && q != Staging(x)
      ensures b.names[q] != b.names[Staging(x)]
    {
      assert q != Staging(d) ==> SameName(a, b, q);
      assert x != d ==> SameName(a, b, Staging(x));
    }
    StagingStep(a, b);
  }

  lemma TidyAround(a: Fs, b: Fs, d: Digest)
    requires Tidy(a) && OneName(a, b, Staging(d))
    ensures TidyBut(b, d)
  {
    forall x | x != d ensures Staging(x) !in b.names { assert SameName(a, b, Staging(x)); }
  }

  lemma TidyBelow(a: Fs, b: Fs, p: Path)
    requires Tidy(a) && Built(a, b, p)
    ensures Tidy(b)
  {
    forall x ensures Staging(x) !in b.names { assert SameName(a, b, Staging(x)); }
  }

  /** A new name outside the store, reaching a new inode or an object. */
  lemma PlacedOutside(a: Fs, b: Fs, p: Path)
    requires Structured(a) && a.CanCreate(Outside(p)) && OneName(a, b, Outside(p))
    requires Outside(p) in b.names && b.names[Outside(p)].FileAt? ==>
      b.names[Outside(p)].ino !in a.inodes || exists d :: a.IsFile(Object(d)) && a.names[Object(d)] == b.names[Outside(p)]
    ensures Structured(b) && Built(a, b, p) && ContentsOf(a) == ContentsOf(b)
  {
    forall x ensures SameFile(a, b, Object(x)) { assert SameName(a, b, Object(x)); }
    SameContents(a, b);
    forall x, q | Staging(x) in b.names && q in b.names && q != Staging(x)
      ensures b.names[q] != b.names[Staging(x)]
    {
      assert SameName(a, b, Staging(x));
      assert q != Outside(p) ==> SameName(a, b, q);
    }
    forall q: Path, n | Outside(q + [n]) in b.names
      ensures Outside(q) in b.names && b.names[Outside(q)].DirAt?
    {
      if q + [n] == p {
        assert p[..|p| - 1] == q && SameName(a, b, Outside(q));
      } else {
        assert SameName(a, b, Outside(q + [n])) && (q != p ==> SameName(a, b, Outside(q)));
      }
    }
    forall x | b.IsFile(Object(x)) ensures b.At(Object(x)).mode == OBJECT_MODE {
      assert SameFile(a, b, Object(x));
    }
  }

  /** The manifest under construction: `rest` are the names not read yet. */
  ghost predicate Assembled(w: World, objs: Objects.Contents, cs: seq<Child>, rest: set<Bytes>, t: Tree)
  {
    && Sorted(t)
    && (forall n :: Lookup(t, n).Some? ==> HasChild(cs, n) && n !in rest)
    && (forall i :: 0 <= i < |cs| && cs[i].name !in rest ==>
          && ValidName(w.utf8, cs[i].name) && Ingestible(w, cs[i].item) && Stored(w, objs, cs[i].item)
          && Lookup(t, cs[i].name) == Some(NodeOf(w, cs[i].item)))
  }

  lemma AssembledStart(w: World, fs: Fs, p: Path, cs: seq<Child>)
    requires Holds(fs, p, Folder(cs))
    ensures forall n :: n in ReadDir(fs, p) ==> HasChild(cs, n)
    ensures Assembled(w, ContentsOf(fs), cs, ReadDir(fs, p), [])
    ensures OutsideKept(fs, fs) && Grows(ContentsOf(fs), ContentsOf(fs))
  {
    forall i | 0 <= i < |cs| ensures cs[i].name in ReadDir(fs, p) { assert HasChild(cs, cs[i].name); }
  }

  lemma AssembledDone(w: World, objs: Objects.Contents, cs: seq<Child>, t: Tree)
    requires Shaped(Folder(cs)) && Assembled(w, objs, cs, {}, t)
    ensures Ingestible(w, Folder(cs)) && t == TreeOf(w, cs)
    ensures forall i :: 0 <= i < |cs| ==> Stored(w, objs, cs[i].item)
  {
    hide Stored, NodeOf;
    var full := TreeOf(w, cs);
    forall n ensures Lookup(t, n) == Lookup(full, n) {
      LookupMember(full, n);
      if Lookup(t, n).Some? {
        var i :| 0 <= i < |cs| && cs[i].name == n;
        assert full[i] in full && full[i].name == n;
      }
      if e :| e in full && e.name == n {
        var found := Entry(n, Lookup(full, n).value);
        var i :| 0 <= i < |full| && full[i] == found;
        assert Lookup(t, cs[i].name) == Some(NodeOf(w, cs[i].item));
      }
    }
    SortedCanonical(t, full);
  }

  lemma AssembledStep(w: World, a: Objects.Contents, b: Objects.Contents, cs: seq<Child>, rest: set<Bytes>, t: Tree, i: nat)
    requires Shaped(Folder(cs)) && Assembled(w, a, cs, rest, t) && Grows(a, b)
    requires i < |cs| && cs[i].name in rest && ValidName(w.utf8, cs[i].name)
    requires Ingestible(w, cs[i].item) && Stored(w, b, cs[i].item)
    ensures Assembled(w, b, cs, rest - {cs[i].name}, Insert(t, Entry(cs[i].name, NodeOf(w, cs[i].item))))
  {
    hide Stored, NodeOf;
    var e := Entry(cs[i].name, NodeOf(w, cs[i].item));
    InsertSorted(t, e);
    forall n ensures Lookup(Insert(t, e), n) == if n == e.name then Some(e.node) else Lookup(t, n) {
      LookupInsert(t, e, n);
    }
    forall k | 0 <= k < |cs| && cs[k].name !in rest - {cs[i].name}
      ensures ValidName(w.utf8, cs[k].name) && Ingestible(w, cs[k].item) && Stored(w, b, cs[k].item)
      ensures Lookup(Insert(t, e), cs[k].name) == Some(NodeOf(w, cs[k].item))
    {
      if cs[k].name == cs[i].name {
        LessIrreflexive(cs[i].name);
        assert k == i;
      } else {
        StoredGrows(w, a, b, cs[k].item);
      }
    }
  }

  lemma GrowsTransitive(a: Objects.Contents, b: Objects.Contents, c: Objects.Contents)
    requires Grows(a, b) && Grows(b, c)
    ensures Grows(a, c)
  {
  }

  lemma ChildrenGrow(w: World, a: Objects.Contents, b: Objects.Contents, cs: seq<Child>)
    requires AllIngestible(w, cs) && Grows(a, b)
    requires forall i :: 0 <= i < |cs| ==> Stored(w, a, cs[i].item)
    ensures forall i :: 0 <= i < |cs| ==> Stored(w, b, cs[i].item)
  {
    forall i | 0 <= i < |cs| ensures Stored(w, b, cs[i].item) { StoredGrows(w, a, b, cs[i].item); }
  }

  lemma AllChildrenIngestible(w: World, cs: seq<Child>)
    requires Ingestible(w, Folder(cs))
    ensures AllIngestible(w, cs)
  {
  }

  lemma ChildFacts(w: World, u: set<Bytes>, cs: seq<Child>, i: nat)
    requires i < |cs| && Shaped(Folder(cs)) && Hashed(w, u, Folder(cs))
    ensures Shaped(cs[i].item) && Hashed(w, u, cs[i].item)
    ensures !Ingestible(w, cs[i].item) ==> !Ingestible(w, Folder(cs))
  {
  }

  lemma BadNameStops(w: World, cs: seq<Child>, i: nat)
    requires i < |cs|
    ensures ValidName(w.utf8, cs[i].name) <==> w.utf8(cs[i].name) && CheckName(cs[i].name).None?
    ensures !ValidName(w.utf8, cs[i].name) ==> !Ingestible(w, Folder(cs))
  {
  }

  // ------------------------------------------------------------------ materializing

  lemma Unchanged(fs: Fs, p: Path)
    requires Structured(fs)
    ensures fs.Ok() && ObjectsSealed(fs) && Built(fs, fs, p)
  {
  }

  ghost predicate SharesInode(fs: Fs, p: Path, d: Digest)
  {
    fs.IsFile(Object(d)) && fs.IsFile(Outside(p)) && fs.names[Outside(p)] == fs.names[Object(d)]
  }

  lemma OwnFile(a: Fs, b: Fs, d: Digest, dest: Path, executable: bool)
    requires a.Ok() && OneName(a, b, Outside(dest)) && a.IsFile(Object(d)) && b.IsFile(Outside(dest))
    requires b.names[Outside(dest)].ino !in a.inodes
    requires b.At(Outside(dest)).content == a.At(Object(d)).content && OwnerExec(b.At(Outside(dest)).mode) == executable
    ensures d in ContentsOf(a) && Holds(b, dest, RegularFile(ContentsOf(a)[d], executable))
    ensures forall x :: !SharesInode(b, dest, x)
  {
    ContentsAt(a, d);
    assert SameName(a, b, Object(d));
    forall x ensures !SharesInode(b, dest, x) { assert SameName(a, b, Object(x)); }
  }

  lemma SharedFile(a: Fs, b: Fs, d: Digest, dest: Path)
    requires a.Ok() && ObjectsSealed(a) && OneName(a, b, Outside(dest)) && a.IsFile(Object(d))
    requires Outside(dest) in b.names && b.names[Outside(dest)] == a.names[Object(d)]
    ensures d in ContentsOf(a) && Holds(b, dest, RegularFile(ContentsOf(a)[d], false))
    ensures SharesInode(b, dest, d) && !OwnerWrite(b.At(Outside(dest)).mode)
  {
    ContentsAt(a, d);
    assert SameName(a, b, Object(d));
  }

  /** The counters have grown by what is on disk at and below `dest`. */
  ghost predicate Counted(fs: Fs, dest: Path, before: Stats, after: Stats)
  {
    && after.dirs == before.dirs + |Below(fs, dest, Dirs)|
    && after.symlinks == before.symlinks + |Below(fs, dest, Links)|
    && after.reflinked + after.hardlinked + after.copied ==
         before.reflinked + before.hardlinked + before.copied + |Below(fs, dest, Files)|
    && after.hardlinked == before.hardlinked + |Below(fs, dest, SharedFiles)|
  }

  /** And so have the bytes, if the manifests tell the lengths of their files. */
  ghost predicate Weighed(objs: Objects.Contents, s: Skeleton, fs: Fs, dest: Path, before: Stats, after: Stats)
  {
    TrueSizes(objs, s) ==> after.bytes == before.bytes + SumLengths(ContentBelow(fs, dest))
  }

  /** Only `p` exists at or below `p`. */
  lemma SingleBelow(fs: Fs, p: Path)
    requires Outside(p) in fs.names && forall q: Path :: p <= q && q != p ==> Outside(q) !in fs.names
    ensures forall k :: Below(fs, p, k) == if OfKind(fs, Outside(p), k) then {p} else {}
    ensures ContentBelow(fs, p) == if fs.IsFile(Outside(p)) then map[p := fs.At(Outside(p)).content] else map[]
  {
    hide OfKind;
    forall k ensures Below(fs, p, k) == if OfKind(fs, Outside(p), k) then {p} else {} {
      forall x ensures x in Below(fs, p, k) <==> x == p && OfKind(fs, Outside(p), k) { BelowAt(fs, p, k, x); }
    }
    forall x ensures x in ContentBelow(fs, p) <==> x == p && fs.IsFile(Outside(p)) { BelowAt(fs, p, Files, x); }
    BelowAt(fs, p, Files, p);
  }

  /** A file or a link has nothing below it. */
  lemma LeafAlone(fs: Fs, p: Path)
    requires fs.Rooted() && Outside(p) in fs.names && !fs.names[Outside(p)].DirAt?
    ensures forall q: Path :: p <= q && q != p ==> Outside(q) !in fs.names
  {
    forall q: Path | p <= q && q != p ensures Outside(q) !in fs.names { NothingBelow(fs, p, q); }
  }

  /** How a lone file counts. */
  lemma FileBelow(fs: Fs, p: Path, d: Digest)
    requires Structured(fs) && fs.IsFile(Outside(p))
    requires !SharesInode(fs, p, d) ==> forall x :: !SharesInode(fs, p, x)
    ensures |Below(fs, p, Dirs)| == |Below(fs, p, Links)| == 0 && |Below(fs, p, Files)| == 1
    ensures |Below(fs, p, SharedFiles)| == if SharesInode(fs, p, d) then 1 else 0
  {
    LeafAlone(fs, p);
    SingleBelow(fs, p);
    hide Below;
    assert OfKind(fs, Outside(p), SharedFiles) <==> SharesInode(fs, p, d) by {
      if o :| o in fs.names && o.Object? && fs.names[o] == fs.names[Outside(p)] { assert SharesInode(fs, p, o.digest); }
    }
  }

  lemma FileCounted(fs: Fs, dest: Path, d: Digest, before: Stats, after: Stats)
    requires Structured(fs) && fs.IsFile(Outside(dest))
    requires after.hardlinked == before.hardlinked + if SharesInode(fs, dest, d) then 1 else 0
    requires after.Files() == before.Files() + 1 && after.dirs == before.dirs && after.symlinks == before.symlinks
    requires !SharesInode(fs, dest, d) ==> forall x :: !SharesInode(fs, dest, x)
    ensures Counted(fs, dest, before, after) && SumLengths(ContentBelow(fs, dest)) == |fs.At(Outside(dest)).content|
  {
    FileBelow(fs, dest, d);
    LeafWeighs(fs, dest);
    hide ContentBelow, Below, SumLengths;
  }

  lemma LinkCounted(fs: Fs, dest: Path, before: Stats, after: Stats)
    requires Structured(fs) && Outside(dest) in fs.names && fs.names[Outside(dest)].LinkAt?
    requires after == before.(symlinks := before.symlinks + 1)
    ensures Counted(fs, dest, before, after) && SumLengths(ContentBelow(fs, dest)) == 0
  {
    LeafAlone(fs, dest);
    SingleBelow(fs, dest);
    hide ContentBelow, Below;
  }

  lemma DirCounted(fs: Fs, dest: Path, before: Stats, after: Stats)
    requires Outside(dest) in fs.names && fs.names[Outside(dest)] == DirAt
    requires forall q: Path :: dest <= q && q != dest ==> Outside(q) !in fs.names
    requires after == before.(dirs := before.dirs + 1)
    ensures Counted(fs, dest, before, after) && SumLengths(ContentBelow(fs, dest)) == 0
  {
    SingleBelow(fs, dest);
    hide ContentBelow, Below;
  }

  lemma CountedNext(a: Fs, b: Fs, dest: Path, child: Path, before: Stats, mid: Stats, after: Stats)
    requires BuiltNew(a, b, dest, child) && Counted(a, dest, before, mid) && Counted(b, child, mid, after)
    ensures Counted(b, dest, before, after)
  {
    hide Below, BuiltNew;
    forall k ensures |Below(b, dest, k)| == |Below(a, dest, k)| + |Below(b, child, k)| { BelowGrows(a, b, dest, child, k); }
  }

  lemma DirStarts(objs: Objects.Contents, a: Fs, dest: Path, before: Stats, after: Stats)
    requires Structured(a) && a.CanCreate(Outside(dest)) && after == before.(dirs := before.dirs + 1)
    ensures var b := a.Name(Outside(dest), DirAt);
            Counted(b, dest, before, after) && Weighed(objs, DirOf([]), b, dest, before, after)
  {
    var b := a.Name(Outside(dest), DirAt);
    forall q: Path | dest <= q && q != dest ensures Outside(q) !in b.names { NothingBelow(a, dest, q); }
    DirCounted(b, dest, before, after);
  }

  lemma ChildIsNew(a: Fs, b: Fs, dest: Path, name: Bytes)
    requires Structured(a) && Built(a, b, dest + [name]) && Outside(dest + [name]) !in a.names
    ensures BuiltNew(a, b, dest, dest + [name])
  {
    hide Built;
    forall q: Path | dest + [name] <= q ensures Outside(q) !in a.names { NothingBelow(a, dest + [name], q); }
  }

  lemma WeighedNext(objs: Objects.Contents, a: Fs, b: Fs, dest: Path, child: Path, parts: seq<Part>, p: Part,
                    before: Stats, mid: Stats, after: Stats)
    requires BuiltNew(a, b, dest, child)
    requires Weighed(objs, DirOf(parts), a, dest, before, mid) && Weighed(objs, p.skeleton, b, child, mid, after)
    ensures Weighed(objs, DirOf(parts + [p]), b, dest, before, after)
  {
    hide BuiltNew, ContentBelow, SumLengths;
    ContentGrows(a, b, dest, child);
    if TrueSizes(objs, DirOf(parts + [p])) {
      assert (parts + [p])[|parts|] == p && forall i :: 0 <= i < |parts| ==> (parts + [p])[i] == parts[i];
    }
  }

  /** Levels of directory that are still allowed at `depth`. */
  function Levels(depth: nat): nat
  {
    if depth >= MAX_LEVELS then 0 else MAX_LEVELS - depth
  }

  /** A directory under construction: the first `|parts|` entries of `t` have been written. */
  ghost predicate Writing(w: World, objs: Objects.Contents, fs: Fs, dest: Path, t: Tree, levels: nat, parts: seq<Part>)
  {
    && |parts| <= |t|
    && Outside(dest) in fs.names && fs.names[Outside(dest)] == DirAt
    && (forall n :: Outside(dest + [n]) in fs.names <==> Named(parts, n))
    && (forall i :: 0 <= i < |parts| ==>
          && parts[i].name == t[i].name
          && WalkNode(w, objs, t[i].node, levels, true) == Ok(parts[i].skeleton)
          && Holds(fs, dest + [parts[i].name], Fill(objs, parts[i].skeleton)))
  }

  ghost predicate Named(parts: seq<Part>, n: Bytes)
  {
    exists i :: 0 <= i < |parts| && parts[i].name == n
  }

  lemma WritingStart(w: World, objs: Objects.Contents, a: Fs, dest: Path, t: Tree, levels: nat)
    requires Structured(a) && a.CanCreate(Outside(dest))
    ensures var b := a.Name(Outside(dest), DirAt);
            Structured(b) && Built(a, b, dest) && ContentsOf(a) == ContentsOf(b)
            && Writing(w, objs, b, dest, t, levels, [])
  {
    var b := a.Name(Outside(dest), DirAt);
    NameAt(a, Outside(dest), DirAt);
    hide ContentsOf, StagingPrivate, OneName, Built, WalkNode, Sound;
    PlacedOutside(a, b, dest);
    forall n ensures Outside(dest + [n]) !in b.names {
      NothingBelow(a, dest, dest + [n]);
    }
  }

  lemma WritingNext(w: World, objs: Objects.Contents, a: Fs, b: Fs, dest: Path, t: Tree, levels: nat, parts: seq<Part>, s: Skeleton)
    requires a.Ok() && Sorted(t) && Writing(w, objs, a, dest, t, levels, parts) && |parts| < |t|
    requires Built(a, b, dest + [t[|parts|].name])
    requires WalkNode(w, objs, t[|parts|].node, levels, true) == Ok(s)
    requires Holds(b, dest + [t[|parts|].name], Fill(objs, s))
    ensures Writing(w, objs, b, dest, t, levels, parts + [Part(t[|parts|].name, s)])
  {
    hide WalkNode, Fill, Holds;
    var m := t[|parts|].name;
    var more := parts + [Part(m, s)];
    assert SameName(a, b, Outside(dest));
    assert Outside(dest + [m]) in b.names by { HeldExists(b, dest + [m], Fill(objs, s)); }
    forall n ensures Outside(dest + [n]) in b.names <==> Named(more, n) {
      if n != m {
        assert (dest + [n])[|dest|] == n && (dest + [m])[|dest|] == m;
        assert !(dest + [m] <= dest + [n]);
        assert SameName(a, b, Outside(dest + [n]));
        if i :| 0 <= i < |parts| && parts[i].name == n { assert more[i].name == n; }
      } else {
        assert more[|parts|].name == n;
      }
    }
    forall i | 0 <= i < |more|
      ensures more[i].name == t[i].name && WalkNode(w, objs, t[i].node, levels, true) == Ok(more[i].skeleton)
      ensures Holds(b, dest + [more[i].name], Fill(objs, more[i].skeleton))
    {
      if i < |parts| {
        assert more[i] == parts[i];
        LessIrreflexive(m);
        SiblingHolds(a, b, dest, parts[i].name, m, Fill(objs, parts[i].skeleton));
      }
    }
  }

  lemma HeldExists(fs: Fs, p: Path, item: Item)
    requires Holds(fs, p, item)
    ensures Outside(p) in fs.names
  {
  }

  lemma WritingDone(w: World, objs: Objects.Contents, fs: Fs, dest: Path, t: Tree, levels: nat, parts: seq<Part>)
    requires Writing(w, objs, fs, dest, t, levels, parts) && |parts| == |t|
    ensures WalkEntries(w, objs, t, levels, true) == Ok(parts)
    ensures Holds(fs, dest, Folder(FillAll(objs, parts)))
  {
    hide WalkNode, WalkEntries;
    WalkPointwise(w, objs, t, levels, true, parts);
    var cs := FillAll(objs, parts);
    forall n ensures Outside(dest + [n]) in fs.names <==> HasChild(cs, n) {
      if Named(parts, n) {
        var i :| 0 <= i < |parts| && parts[i].name == n;
        assert cs[i].name == n;
      }
    }
  }

  lemma WritingFacts(w: World, objs: Objects.Contents, fs: Fs, dest: Path, t: Tree, levels: nat, parts: seq<Part>)
    requires Structured(fs) && Writing(w, objs, fs, dest, t, levels, parts) && Sorted(t) && |parts| < |t|
    ensures fs.Ok() && fs.CanCreate(Outside(dest + [t[|parts|].name]))
    ensures forall k :: 0 <= k < |parts| ==> WalkNode(w, objs, t[k].node, levels, true).Ok?
  {
    hide WalkNode, Holds;
    if Named(parts, t[|parts|].name) {
      var i :| 0 <= i < |parts| && parts[i].name == t[|parts|].name;
      LessIrreflexive(t[i].name);
    }
  }

  lemma ReadSorted(w: World, objs: Objects.Contents, d: Digest)
    requires GetTree(w, objs, d).Ok?
    ensures Sorted(GetTree(w, objs, d).value)
  {
    hide DecodeTree, EncodeTree;
    DecodedIsWellFormed(w.utf8, objs[d]);
  }

  lemma LinkWritten(a: Fs, p: Path, target: Bytes)
    requires Structured(a) && a.CanCreate(Outside(p))
    ensures var b := a.Name(Outside(p), LinkAt(target));
            Structured(b) && Built(a, b, p) && ContentsOf(a) == ContentsOf(b) && Holds(b, p, SoftLink(target))
  {
    var b := a.Name(Outside(p), LinkAt(target));
    assert OneName(a, b, Outside(p)) by { NameAt(a, Outside(p), LinkAt(target)); }
    hide Structured, Built, ContentsOf, OneName;
    PlacedOutside(a, b, p);
  }

  lemma NameAt(a: Fs, q: Place, t: Target)
    requires Structured(a) && q.Outside? && !t.FileAt?
    ensures OneName(a, a.Name(q, t), q)
  {
    hide ContentsOf, StagingPrivate;
  }

  lemma StillHolds(a: Fs, b: Fs, p: Path, item: Item)
    requires Holds(a, p, item) && OutsideKept(a, b)
    ensures Holds(b, p, item)
  {
    HoldsLocal(a, b, p, item);
  }

  lemma Weighs(fs: Fs, p: Path, item: Item)
    requires Structured(fs) && Shaped(item) && Holds(fs, p, item)
    ensures SumLengths(ContentBelow(fs, p)) == TotalLengths(item)
  {
    hide Holds, Shaped;
    HoldsWeighs(fs, p, item);
  }

  lemma UnfoldIs(w: World, objs: Objects.Contents, d: Digest)
    ensures var walk := Walk(w, objs, d, Levels(0), true);
            Unfold(w, objs, d) == if walk.Ok? then Ok(Folder(FillAll(objs, walk.value))) else Err(walk.error)
  {
  }

  // ------------------------------------------------------------------ collecting garbage

  datatype GcStats = GcStats(live: nat, deleted: nat, bytesFreed: nat, sparedYoung: nat)

  /** A modification time in the future counts as age zero. */
  function Age(mtime: nat, now: nat): nat
  {
    if mtime <= now then now - mtime else 0
  }

  /** Less than `minAge` old, or of a later time than `now`. */
  ghost predicate Young(fs: Fs, d: Digest, minAge: nat, now: nat)
  {
    fs.IsFile(Object(d)) && minAge > 0 && now < fs.At(Object(d)).mtime + minAge
  }

  lemma UnlinkContents(fs: Fs, d: Digest)
    requires fs.Ok() && fs.IsFile(Object(d))
    ensures ContentsOf(fs.Unlink(Object(d))) == ContentsOf(fs) - {d}
  {
    var b := fs.Unlink(Object(d));
    forall x ensures x in ContentsOf(b) <==> x in ContentsOf(fs) - {d}
             ensures x in ContentsOf(b) ==> ContentsOf(b)[x] == ContentsOf(fs)[x] {
      ContentsAt(fs, x);
      ContentsAt(b, x);
    }
    assert ContentsOf(b) == ContentsOf(fs) - {d};
  }

  lemma UnlinkValid(fs: Fs, d: Digest)
    requires Structured(fs) && fs.IsFile(Object(d))
    ensures Structured(fs.Unlink(Object(d))) && OutsideKept(fs, fs.Unlink(Object(d)))
  {
    var b := fs.Unlink(Object(d));
    UnlinkContents(fs, d);
    hide ContentsOf;
    forall p: Path, n | Outside(p + [n]) in b.names
      ensures Outside(p) in b.names && b.names[Outside(p)].DirAt?
    {
      assert Outside(p + [n]) in fs.names;
    }
  }

  lemma UnlinkObject(fs: Fs, d: Digest)
    requires Structured(fs) && fs.IsFile(Object(d))
    ensures var b := fs.Unlink(Object(d));
            && Structured(b) && OutsideKept(fs, b)
            && SumLengths(ContentsOf(fs)) == |fs.At(Object(d)).content| + SumLengths(ContentsOf(b))
            && |ContentsOf(fs)| == 1 + |ContentsOf(b)|
  {
    UnlinkValid(fs, d);
    UnlinkContents(fs, d);
    ContentsAt(fs, d);
    hide Structured, ContentsOf, SumLengths;
    assert (ContentsOf(fs) - {d}).Keys == ContentsOf(fs).Keys - {d};
    SumRemove(ContentsOf(fs), d);
  }

  /** A sweep in progress: `rest` are the objects not looked at yet. */
  ghost predicate Sweeping(a: Fs, b: Fs, live: set<Digest>, minAge: nat, now: nat, rest: set<Digest>)
  {
    && (forall d :: b.IsFile(Object(d)) ==> a.IsFile(Object(d)) && a.At(Object(d)) == b.At(Object(d)))
    && (forall d :: a.IsFile(Object(d)) && (d in live || d in rest || Young(a, d, minAge, now)) ==> b.IsFile(Object(d)))
    && (forall d :: b.IsFile(Object(d)) ==> d in live || d in rest || Young(a, d, minAge, now))
  }

  /** Survivors that are not live: the ones spared for being young. */
  ghost function Spared(fs: Fs, live: set<Digest>, rest: set<Digest>): set<Digest>
  {
    set d | d in ContentsOf(fs) && d !in live && d !in rest
  }

  lemma SweepKeeps(w: World, a: Fs, b: Fs, live: set<Digest>, minAge: nat, now: nat, rest: set<Digest>, dirs: set<Digest>, d: Digest)
    requires Structured(a) && Structured(b) && Sweeping(a, b, live, minAge, now, rest)
    requires Closed(w, ContentsOf(a), dirs) && dirs + FilesOf(w, ContentsOf(a), dirs) <= live && d in dirs
    ensures Unfold(w, ContentsOf(b), d) == Unfold(w, ContentsOf(a), d)
  {
    hide Structured, Unfold, Closed, FilesOf, ContentsOf;
    forall x ensures x in live ==> (x in ContentsOf(a) <==> x in ContentsOf(b))
             ensures x in live && x in ContentsOf(a) ==> ContentsOf(a)[x] == ContentsOf(b)[x] {
      ContentsAt(a, x);
      ContentsAt(b, x);
    }
    UnfoldLocal(w, ContentsOf(a), ContentsOf(b), dirs, d);
  }

  lemma BlobsSnoc(t: Tree, i: nat)
    requires i < |t|
    ensures BlobDigests(t[..i + 1]) == BlobDigests(t[..i]) + if t[i].node.File? then {t[i].node.digest} else {}
  {
    assert t[..i + 1] == t[..i] + [t[i]];
  }

  method MarkFiles(t: Tree, marked: set<Digest>) returns (live: set<Digest>)
    ensures live == marked + BlobDigests(t)
  {
    live := marked;
    var i := 0;
    while i < |t|
      invariant 0 <= i <= |t| && live == marked + BlobDigests(t[..i])
    {
      BlobsSnoc(t, i);
      if t[i].node.File? { live := live + {t[i].node.digest}; }
      i := i + 1;
    }
    assert t[..|t|] == t;
  }

  method PushSubtrees(t: Tree, live: set<Digest>, rest: seq<Digest>) returns (queue: seq<Digest>)
    ensures queue == rest + Unmarked(t, live)
  {
    queue := rest;
    var i := 0;
    while i < |t|
      invariant 0 <= i <= |t| && queue + Unmarked(t[i..], live) == rest + Unmarked(t, live)
    {
      assert t[i..][0] == t[i] && t[i..][1..] == t[i + 1..];
      if t[i].node.Dir? && t[i].node.digest !in live { queue := queue + [t[i].node.digest]; }
      i := i + 1;
    }
  }

  /** The objects that listing the fan-out directories finds. */
  function Listed(fs: Fs): (ds: set<Digest>)
    ensures forall d :: d in ds <==> Object(d) in fs.names
  {
    var ds := set q | q in fs.names && q.Object? :: q.digest;
    assert forall d :: Object(d) in fs.names ==> Object(d).digest in ds;
    ds
  }

  lemma SweepStart(fs: Fs, live: set<Digest>, minAge: nat, now: nat, rest: set<Digest>)
    requires Structured(fs) && rest == Listed(fs)
    ensures Accounted(fs, fs, live, minAge, now, rest, GcStats(|live|, 0, 0, 0))
  {
    assert Spared(fs, live, rest) == {} by {
      forall d | d in ContentsOf(fs) ensures d in rest { ContentsAt(fs, d); }
    }
  }

  lemma SweepPast(a: Fs, b: Fs, live: set<Digest>, minAge: nat, now: nat, rest: set<Digest>, d: Digest)
    requires Sweeping(a, b, live, minAge, now, rest) && d in rest && b.IsFile(Object(d))
    requires d in live || Age(b.At(Object(d)).mtime, now) < minAge
    ensures Sweeping(a, b, live, minAge, now, rest - {d})
    ensures |Spared(b, live, rest - {d})| == |Spared(b, live, rest)| + if d in live then 0 else 1
  {
    ContentsAt(b, d);
    if d in live {
      assert Spared(b, live, rest - {d}) == Spared(b, live, rest);
    } else {
      assert Spared(b, live, rest - {d}) == Spared(b, live, rest) + {d};
    }
  }

  lemma SweepAway(a: Fs, b: Fs, live: set<Digest>, minAge: nat, now: nat, rest: set<Digest>, d: Digest)
    requires b.Ok() && Sweeping(a, b, live, minAge, now, rest) && d in rest && b.IsFile(Object(d))
    requires d !in live && Age(b.At(Object(d)).mtime, now) >= minAge
    ensures Sweeping(a, b.Unlink(Object(d)), live, minAge, now, rest - {d})
    ensures Spared(b.Unlink(Object(d)), live, rest - {d}) == Spared(b, live, rest)
  {
    UnlinkContents(b, d);
    var c := b.Unlink(Object(d));
    assert forall x :: x != d ==> (c.IsFile(Object(x)) <==> b.IsFile(Object(x)));
  }

  /** A sweep in progress whose counters are right and which has not touched `rest`. */
  ghost predicate Accounted(a: Fs, b: Fs, live: set<Digest>, minAge: nat, now: nat, rest: set<Digest>, stats: GcStats)
  {
    && Structured(b) && OutsideKept(a, b) && Sweeping(a, b, live, minAge, now, rest)
    && stats.live == |live| && |ContentsOf(a)| == |ContentsOf(b)| + stats.deleted
    && SumLengths(ContentsOf(a)) == SumLengths(ContentsOf(b)) + stats.bytesFreed
    && stats.sparedYoung == |Spared(b, live, rest)|
    && forall d :: d in rest ==> b.IsFile(Object(d))
  }

  lemma AccountPast(a: Fs, b: Fs, live: set<Digest>, minAge: nat, now: nat, rest: set<Digest>, stats: GcStats, d: Digest)
    requires Accounted(a, b, live, minAge, now, rest, stats) && d in rest
    requires d in live || Age(b.At(Object(d)).mtime, now) < minAge
    ensures var spared := if d in live then 0 else 1;
            Accounted(a, b, live, minAge, now, rest - {d}, stats.(sparedYoung := stats.sparedYoung + spared))
  {
    hide Structured, OutsideKept, Sweeping, ContentsOf, SumLengths, Spared;
    SweepPast(a, b, live, minAge, now, rest, d);
  }

  lemma AccountAway(a: Fs, b: Fs, live: set<Digest>, minAge: nat, now: nat, rest: set<Digest>, stats: GcStats, d: Digest)
    requires Accounted(a, b, live, minAge, now, rest, stats) && d in rest
    requires d !in live && Age(b.At(Object(d)).mtime, now) >= minAge
    ensures var size := |b.At(Object(d)).content|;
            Accounted(a, b.Unlink(Object(d)), live, minAge, now, rest - {d},
                      stats.(deleted := stats.deleted + 1, bytesFreed := stats.bytesFreed + size))
  {
    hide Structured, OutsideKept, Sweeping, ContentsOf, SumLengths, Spared;
    Unchanged(b, []);
    UnlinkObject(b, d);
    SweepAway(a, b, live, minAge, now, rest, d);
    KeptTransitive(a, b, b.Unlink(Object(d)));
  }

  lemma SweepStops(a: Fs, b: Fs, live: set<Digest>, minAge: nat, now: nat, rest: set<Digest>, stats: GcStats)
    requires Accounted(a, b, live, minAge, now, rest, stats)
    ensures Structured(b) && OutsideKept(a, b) && Sweeping(a, b, live, minAge, now, rest)
    ensures |ContentsOf(a)| == |ContentsOf(b)| + stats.deleted
    ensures SumLengths(ContentsOf(a)) == SumLengths(ContentsOf(b)) + stats.bytesFreed
    ensures stats.live == |live| && stats.sparedYoung == |Spared(b, live, rest)|
  {
  }

  lemma SweptIsTrusted(w: World, u: set<Bytes>, a: Fs, b: Fs, live: set<Digest>, minAge: nat, now: nat, rest: set<Digest>)
    requires Sweeping(a, b, live, minAge, now, rest) && Trusted(w, u, ContentsOf(a))
    ensures Trusted(w, u, ContentsOf(b))
  {
    hide ContentsOf;
    forall d | d in ContentsOf(b) ensures d in ContentsOf(a) && ContentsOf(b)[d] == ContentsOf(a)[d] {
      ContentsAt(a, d);
      ContentsAt(b, d);
    }
  }

  lemma RootsKept(w: World, a: Fs, b: Fs, m: Marks, minAge: nat, now: nat, rest: set<Digest>, roots: seq<Digest>,
                  dirs: set<Digest>, expanded: set<Digest>, unread: set<Digest>, safe: set<Digest>)
    requires Structured(a) && Structured(b) && Sweeping(a, b, m.live, minAge, now, rest)
    requires Traced(w, ContentsOf(a), roots, expanded, unread, m) && m.queue == []
    requires RolesDisjoint(w, ContentsOf(a), roots, dirs) && SafeFrom(w, ContentsOf(a), dirs, unread, safe)
    ensures forall d :: d in roots && d in safe ==> Unfold(w, ContentsOf(b), d) == Unfold(w, ContentsOf(a), d)
  {
    MarkedIsClosed(w, ContentsOf(a), roots, dirs, expanded, unread, m, safe);
    hide Structured, Closed, FilesOf, ContentsOf, Unfold, Traced, RolesDisjoint, Sweeping;
    forall d | d in roots && d in safe ensures Unfold(w, ContentsOf(b), d) == Unfold(w, ContentsOf(a), d) {
      SweepKeeps(w, a, b, m.live, minAge, now, rest, m.live * safe, d);
    }
  }

  class Store {
    const w: World
    ghost const universe: set<Bytes>
    const faulty: bool    // whether a system call may fail for reasons of the kernel's own
    const bypasses: bool  // whether the process may write to files whose mode forbids it
    var fs: Fs
    var reflink: Capability

    ghost predicate Valid()
      reads this
    {
      Structured(fs)
    }

    ghost function Contents(): Objects.Contents
      reads this
    {
      ContentsOf(fs)
    }

    /** Every object is what its digest names. Reading, materializing and collecting do not
        depend on it. */
    ghost predicate Honest()
      reads this
    {
      Trusted(w, universe, Contents())
    }

    /** No system call of an ingest can fail. */
    ghost predicate Smooth()
      reads this
    {
      !faulty && (bypasses || Tidy(fs))
    }

    /** A store opened on whatever is on disk. */
    constructor (w: World, ghost universe: set<Bytes>, faulty: bool, bypasses: bool, fs: Fs, probed: Capability)
      requires Structured(fs)
      ensures Valid() && this.fs == fs && reflink == probed
      ensures this.w == w && this.universe == universe && this.faulty == faulty && this.bypasses == bypasses
    {
      this.w, this.universe, this.faulty, this.bypasses := w, universe, faulty, bypasses;
      this.fs, this.reflink := fs, probed;
    }

    // ---------------------------------------------------------------- placing one file

    /** `link::materialize`: reflink, then hardlink where the intent allows it, then copy. */
    method PlaceFile(src: Place, dst: Place, intent: Intent, now: nat) returns (r: Result<LinkMode, CasError>)
      requires fs.Ok()
      modifies this`fs, this`reflink
      ensures OneName(old(fs), fs, dst)
      ensures r.Ok? ==> Placed(old(fs), fs, src, dst, intent, r.value)
      ensures r.Ok? && dst !in old(fs).names ==> old(fs).CanCreate(dst)
      ensures r.Err? ==> r.error == Io
      ensures r.Err? ==> faulty || !old(fs).IsFile(src) || src == dst || (dst.Outside? && !old(fs).CanCreate(dst))
      ensures r.Err? && dst in fs.names ==>
        SameName(old(fs), fs, dst) || (fs.IsFile(dst) && fs.names[dst].ino !in old(fs).inodes)
      ensures old(reflink) == No ==> reflink == No
      ensures r.Ok? ==> reflink == if r.value == Reflink then Yes else No
      ensures r.Ok? && r.value != Hardlink ==> fs.At(dst).mtime == now
      ensures r.Ok? && r.value == Copy ==> fs.At(dst).mode == old(fs).At(src).mode
    {
      ghost var a := fs;
      if dst in fs.names {
        var busy: bool := *;
        if (busy && faulty) || fs.names[dst].DirAt? { return Err(Io); }
      }
      assert dst !in fs.names ==> fs.Unlink(dst) == fs;
      fs := fs.Unlink(dst);
      if !fs.IsFile(src) || !fs.CanCreate(dst) { return Err(Io); }
      var content, mode := fs.At(src).content, fs.At(src).mode;
      var outcome: Outcome := *;
      if reflink != No {
        if outcome == Done {
          var umasked: nat := *;
          CreateAt(a, dst, Inode(content, umasked, now));
          fs := fs.Create(dst, Inode(content, umasked, now));
          reflink := Yes;
          return Ok(Reflink);
        } else if outcome == Failed && faulty {
          var uncleaned: bool, umasked: nat := *, *;
          CreateAt(a, dst, Inode([], umasked, now));
          if uncleaned { fs := fs.Create(dst, Inode([], umasked, now)); }
          return Err(Io);
        }
        reflink := No;
      }
      if intent == OverlayLower {
        outcome := *;
        if outcome == Done {
          HardLinkAt(a, src, dst);
          fs := fs.HardLink(src, dst);
          return Ok(Hardlink);
        } else if outcome == Failed && faulty {
          var uncleaned: bool, umasked: nat := *, *;
          CreateAt(a, dst, Inode([], umasked, now));
          if uncleaned { fs := fs.Create(dst, Inode([], umasked, now)); }
          return Err(Io);
        }
      }
      var short: bool := *;
      var copied: Bytes := *;
      if !(short && faulty) { copied := content; }
      CreateAt(a, dst, Inode(copied, mode, now));
      fs := fs.Create(dst, Inode(copied, mode, now));
      return if short && faulty then Err(Io) else Ok(Copy);
    }

    // ---------------------------------------------------------------- inserting one object

    /** Seal the staging file read-only and rename it to its object path. */
    method SealAndCommit(d: Digest) returns (r: Result<(), CasError>)
      requires Valid()
      modifies this`fs
      ensures Valid() && OutsideKept(old(fs), fs)
      ensures r.Ok? ==> old(fs).IsFile(Staging(d)) && Contents() == old(Contents())[d := old(fs).At(Staging(d)).content]
      ensures r.Err? ==> r.error == Io && Contents() == old(Contents())
      ensures r.Ok? ==> fs.IsFile(Object(d)) && fs.At(Object(d)) == old(fs).At(Staging(d)).(mode := 292)  // 0o444
      ensures r.Err? ==> faulty || !old(fs).IsFile(Staging(d))
      ensures r.Ok? && TidyBut(old(fs), d) ==> Tidy(fs)
    {
      if !fs.IsFile(Staging(d)) { return Err(Io); }
      ChmodStaging(fs, d, OBJECT_MODE);
      fs := fs.Chmod(Staging(d), OBJECT_MODE);
      var fails: bool := *;
      if fails && faulty { return Err(Io); }
      label Sealed:
      var renameFails: bool := *;
      if !(renameFails && faulty) {
        CommitStaging(fs, d);
        fs := fs.Rename(Staging(d), Object(d));
        KeptTransitive(old(fs), old@Sealed(fs), fs);
        return Ok(());
      }
      var uncleaned: bool := *;
      if !uncleaned {
        UnlinkStaging(fs, d);
        fs := fs.Unlink(Staging(d));
        KeptTransitive(old(fs), old@Sealed(fs), fs);
      }
      return Err(Io);
    }

    /** Write the staging file of `d` from scratch, then commit it. A sealed file left behind by a
        put that was stopped is read-only, and opening it is refused. */
    method InsertStaged(d: Digest, content: Bytes, now: nat) returns (r: Result<(), CasError>)
      requires Valid()
      modifies this`fs
      ensures Valid() && OutsideKept(old(fs), fs)
      ensures r.Ok? ==> Contents() == old(Contents())[d := content]
      ensures r.Err? ==> r.error == Io && Contents() == old(Contents())
      ensures r.Ok? ==> fs.IsFile(Object(d)) && fs.At(Object(d)) == Inode(content, 292, now)
      ensures !faulty ==> (r.Err? <==> Leftover(old(fs), d) && !bypasses)
      ensures r.Ok? && TidyBut(old(fs), d) ==> Tidy(fs)
    {
      var refused: bool := *;
      if (refused && faulty) || (Leftover(fs, d) && !bypasses) { return Err(Io); }
      if Staging(d) in fs.names {
        WriteStaging(fs, d, [], now);
        fs := fs.Write(fs.names[Staging(d)].ino, [], now);
      } else {
        var umasked: nat := *;
        CreateStaging(fs, d, Inode([], umasked, now));
        fs := fs.Create(Staging(d), Inode([], umasked, now));
      }
      label Opened:
      var short: bool := *;
      var written: Bytes := *;
      if !(short && faulty) { written := content; }
      WriteStaging(fs, d, written, now);
      fs := fs.Write(fs.names[Staging(d)].ino, written, now);
      KeptTransitive(old(fs), old@Opened(fs), fs);
      if short && faulty { return Err(Io); }
      label Written:
      r := SealAndCommit(d);
      KeptTransitive(old(fs), old@Written(fs), fs);
    }

    /** A dedupe hit stores nothing, and in an honest store needs to store nothing. */
    method Put(d: Digest, content: Bytes, now: nat) returns (r: Result<Digest, CasError>)
      requires Valid()
      modifies this`fs
      ensures Valid() && OutsideKept(old(fs), fs)
      ensures r.Ok? ==> r.value == d && PutLeaves(old(Contents()), Contents(), d, content, faulty)
      ensures r.Err? ==> r.error == Io && Contents() == old(Contents())
      ensures r.Ok? && old(Honest()) && content in universe && Names(w, d, content) ==>
        Honest() && Contents() == old(Contents())[d := content] && Grows(old(Contents()), Contents())
      ensures r.Ok? ==> PutOnDisk(old(fs), fs, d, content, now, faulty)
      ensures !faulty ==> (r.Err? <==> d !in old(Contents()) && Leftover(old(fs), d) && !bypasses)
      ensures r.Ok? && Tidy(old(fs)) ==> Tidy(fs)
    {
      hide Trusted, Sound;
      ContentsAt(fs, d);
      if Honest() && content in universe && Names(w, d, content) {
        AddedIsStored(w, universe, Contents(), d, content);
      }
      var unseen: bool := *;
      if Object(d) in fs.names && !(unseen && faulty) { return Ok(d); }
      var _ :- InsertStaged(d, content, now);
      return Ok(d);
    }

    method PutBytes(bytes: Bytes, now: nat) returns (r: Result<Digest, CasError>)
      requires Valid()
      modifies this`fs
      ensures Valid() && OutsideKept(old(fs), fs)
      ensures r.Ok? ==> r.value == w.blob(bytes) && PutLeaves(old(Contents()), Contents(), r.value, bytes, faulty)
      ensures r.Err? ==> r.error == Io && Contents() == old(Contents())
      ensures r.Ok? && old(Honest()) && bytes in universe ==>
        Honest() && Contents() == old(Contents())[r.value := bytes] && Grows(old(Contents()), Contents())
      ensures r.Ok? ==> PutOnDisk(old(fs), fs, w.blob(bytes), bytes, now, faulty)
      ensures !faulty ==> (r.Err? <==> w.blob(bytes) !in old(Contents()) && Leftover(old(fs), w.blob(bytes)) && !bypasses)
      ensures r.Ok? && Tidy(old(fs)) ==> Tidy(fs)
    {
      r := Put(w.blob(bytes), bytes, now);
    }

    method PutTree(t: Tree, now: nat) returns (r: Result<Digest, CasError>)
      requires Valid()
      modifies this`fs
      ensures Valid() && OutsideKept(old(fs), fs)
      ensures r.Ok? ==> r.value == w.tree(EncodeTree(t)) && PutLeaves(old(Contents()), Contents(), r.value, EncodeTree(t), faulty)
      ensures r.Err? ==> r.error == Io && Contents() == old(Contents())
      ensures r.Ok? && old(Honest()) && EncodeTree(t) in universe ==>
        Honest() && Contents() == old(Contents())[r.value := EncodeTree(t)] && Grows(old(Contents()), Contents())
      ensures var d := w.tree(EncodeTree(t));
              && (r.Ok? ==> PutOnDisk(old(fs), fs, d, EncodeTree(t), now, faulty))
              && (!faulty ==> (r.Err? <==> d !in old(Contents()) && Leftover(old(fs), d) && !bypasses))
      ensures r.Ok? && Tidy(old(fs)) ==> Tidy(fs)
    {
      var encoded := Encode(t);
      r := Put(w.tree(encoded), encoded, now);
    }

    // ---------------------------------------------------------------- ingest

    /** Small files are hashed in one go, large ones in chunks of whatever size the reads return. */
    method HashFile(content: Bytes) returns (d: Digest)
      ensures d == w.blob(content)
    {
      if |content| <= 1048576 { return w.blob(content); }
      var absorbed: Bytes, at := [], 0;
      while at < |content|
        invariant 0 <= at <= |content| && absorbed == content[..at]
      {
        var n: nat :| 1 <= n <= |content| - at;
        absorbed, at := absorbed + content[at..at + n], at + n;
      }
      assert content[..|content|] == content;
      return w.blob(absorbed);
    }

    /** The staging file is replaced, so a leftover is no obstacle here. */
    method PutFile(p: Path, now: nat) returns (r: Result<(Digest, nat), CasError>)
      requires Valid()
      modifies this`fs, this`reflink
      ensures Valid() && OutsideKept(old(fs), fs)
      ensures r.Ok? ==> old(fs).IsFile(Outside(p))
      ensures r.Ok? ==> var c := old(fs).At(Outside(p)).content;
                        r.value == (w.blob(c), |c|) && PutLeaves(old(Contents()), Contents(), w.blob(c), c, faulty)
      ensures r.Ok? && old(Honest()) && old(fs).At(Outside(p)).content in universe ==>
        var c := old(fs).At(Outside(p)).content;
        Honest() && Contents() == old(Contents())[w.blob(c) := c] && Grows(old(Contents()), Contents())
      ensures r.Err? ==> Contents() == old(Contents())
      ensures r.Err? ==> r.error == Io || (r.error == NotAFile && !old(fs).IsFile(Outside(p)))
      ensures r.Ok? ==> var c := old(fs).At(Outside(p)).content; PutOnDisk(old(fs), fs, w.blob(c), c, now, faulty)
      ensures !faulty ==> (r.Ok? <==> old(fs).IsFile(Outside(p)))
      ensures r.Ok? && Tidy(old(fs)) ==> Tidy(fs)
    {
      if Outside(p) !in fs.names { return Err(Io); }
      if !fs.IsFile(Outside(p)) { return Err(NotAFile); }
      var content := fs.At(Outside(p)).content;
      var d := HashFile(content);
      ContentsAt(fs, d);
      if Honest() && content in universe { AddedIsStored(w, universe, Contents(), d, content); }
      hide Trusted, Sound, Grows;
      var unseen: bool := *;
      if Object(d) in fs.names && !(unseen && faulty) { return Ok((d, |content|)); }
      var inserted := InsertFile(p, d, now);
      return if inserted.Ok? then Ok((d, |content|)) else Err(Io);
    }

    /** Stage a file without moving bytes if possible, and otherwise by copying it, and commit it. */
    method InsertFile(p: Path, d: Digest, now: nat) returns (r: Result<(), CasError>)
      requires Valid() && fs.IsFile(Outside(p))
      modifies this`fs, this`reflink
      ensures Valid() && OutsideKept(old(fs), fs)
      ensures r.Ok? ==> Contents() == old(Contents())[d := old(fs).At(Outside(p)).content]
      ensures r.Ok? ==> fs.IsFile(Object(d)) && fs.At(Object(d)) == Inode(old(fs).At(Outside(p)).content, 292, now)
      ensures r.Err? ==> r.error == Io && Contents() == old(Contents())
      ensures !faulty ==> r.Ok?
      ensures r.Ok? && Tidy(old(fs)) ==> Tidy(fs)
    {
      hide ContentsOf;
      var content := fs.At(Outside(p)).content;
      var placed := PlaceFile(Outside(p), Staging(d), PrivateInode, now);
      PlacedStaging(old(fs), fs, d);
      if Tidy(old(fs)) { TidyAround(old(fs), fs, d); }
      label Placed:
      if placed.Ok? {
        r := SealAndCommit(d);
        KeptTransitive(old(fs), old@Placed(fs), fs);
        return;
      }
      var uncleaned: bool := *;
      if !uncleaned {
        UnlinkStaging(fs, d);
        fs := fs.Unlink(Staging(d));
        KeptTransitive(old(fs), old@Placed(fs), fs);
      }
      label Cleared:
      r := InsertStaged(d, content, now);
      KeptTransitive(old(fs), old@Cleared(fs), fs);
    }

    /** One entry of `ingest_dir_inner`: links are recorded, directories walked, files put. */
    method IngestEntry(p: Path, ghost item: Item, now: nat) returns (r: Result<Node, CasError>)
      requires Valid() && Honest() && Holds(fs, p, item) && Shaped(item) && Hashed(w, universe, item)
      modifies this`fs, this`reflink
      ensures Valid() && Honest() && OutsideKept(old(fs), fs) && Grows(old(Contents()), Contents())
      ensures r.Ok? ==> Ingestible(w, item) && r.value == NodeOf(w, item) && Stored(w, Contents(), item)
      ensures r.Ok? && r.value.File? ==>
        r.value.digest in Contents() && r.value.size == |Contents()[r.value.digest]| == |old(fs).At(Outside(p)).content|
      ensures r.Err? && Ingestible(w, item) ==> r.error == Io && !old(Smooth())
      ensures item.Device? ==> r == Err(UnsupportedFileType)
      ensures item.SoftLink? ==> r == if w.utf8(item.target) then Ok(Symlink(item.target)) else Err(NonUtf8Name)
      ensures r.Ok? && old(Smooth()) ==> Smooth()
      decreases item, 1
    {
      hide EncodeTree, ContentsOf;
      match fs.names[Outside(p)]
      case LinkAt(target) =>
        if !w.utf8(target) { return Err(NonUtf8Name); }
        return Ok(Symlink(target));
      case DirAt =>
        var t :- IngestTree(p, item, now);
        ghost var mid, objs := fs, Contents();
        var put := PutTree(t, now);
        KeptTransitive(old(fs), mid, fs);
        var d :- put;
        ChildrenGrow(w, objs, Contents(), item.children);
        return Ok(Dir(d));
      case FileAt(_) =>
        var executable := OwnerExec(fs.At(Outside(p)).mode);
        var f :- PutFile(p, now);
        return Ok(File(f.0, f.1, executable));
      case DeviceAt =>
        return Err(UnsupportedFileType);
    }

    /** `ingest_dir_inner`: the manifest of a directory, read in whatever order the filesystem
        lists it. */
    method IngestTree(p: Path, ghost item: Item, now: nat) returns (r: Result<Tree, CasError>)
      requires Valid() && Honest() && item.Folder? && Holds(fs, p, item) && Shaped(item) && Hashed(w, universe, item)
      modifies this`fs, this`reflink
      ensures Valid() && Honest() && OutsideKept(old(fs), fs) && Grows(old(Contents()), Contents())
      ensures r.Ok? ==> Ingestible(w, item) && r.value == TreeOf(w, item.children) && TrueEntries(Contents(), r.value)
      ensures r.Ok? ==> forall i :: 0 <= i < |item.children| ==> Stored(w, Contents(), item.children[i].item)
      ensures r.Err? && Ingestible(w, item) ==> r.error == Io && !old(Smooth())
      ensures r.Ok? && old(Smooth()) ==> Smooth()
      decreases item, 0
    {
      hide Holds, Shaped, Structured, OutsideKept, Lookup, Insert, Stored, NodeOf, Hashed, Ingestible, ValidName, CheckName;
      hide Assembled, ReadDir, Grows, ContentsOf, TreeOf;
      ghost var cs := item.children;
      var tree: Tree := [];
      var rest := ReadDir(fs, p);
      AssembledStart(w, fs, p, cs);
      while rest != {}
        invariant Valid() && Honest() && OutsideKept(old(fs), fs) && Grows(old(Contents()), Contents())
        invariant forall n :: n in rest ==> HasChild(cs, n)
        invariant Assembled(w, Contents(), cs, rest, tree)
        invariant old(Smooth()) ==> Smooth()
        decreases |rest|
      {
        var broken: bool := *;
        if broken && faulty { return Err(Io); }
        var n :| n in rest;
        ghost var i := ChildIndex(cs, n);
        ChildHolds(old(fs), fs, p, cs, i);
        BadNameStops(w, cs, i);
        if !w.utf8(n) { return Err(NonUtf8Name); }
        if CheckName(n).Some? { return Err(BadTree(CheckName(n).value)); }
        ghost var before, objs := fs, Contents();
        ChildFacts(w, universe, cs, i);
        var entry := IngestEntry(p + [n], cs[i].item, now);
        KeptTransitive(old(fs), before, fs);
        GrowsTransitive(old(Contents()), objs, Contents());
        var node :- entry;
        AssembledStep(w, objs, Contents(), cs, rest, tree, i);
        tree, rest := Insert(tree, Entry(n, node)), rest - {n};
      }
      AssembledDone(w, Contents(), cs, tree);
      AllChildrenIngestible(w, cs);
      IngestedSizes(w, Contents(), cs);
      return Ok(tree);
    }

    /** `ingest_dir`: on success the digest of the directory, with every object of it stored. */
    method IngestDir(p: Path, ghost item: Item, now: nat) returns (r: Result<Digest, CasError>)
      requires Valid() && Honest() && Holds(fs, p, item) && Shaped(item) && Hashed(w, universe, item)
      modifies this`fs, this`reflink
      ensures Valid() && Honest() && OutsideKept(old(fs), fs) && Grows(old(Contents()), Contents())
      ensures r.Ok? ==> item.Folder? && Ingestible(w, item)
      ensures r.Ok? ==> r.value == DigestOf(w, item.children) && Stored(w, Contents(), item)
      ensures r.Err? && Ingestible(w, item) ==> r.error == Io && !(old(Smooth()) && item.Folder?)
      ensures r.Ok? && old(Smooth()) ==> Smooth()
    {
      if !fs.names[Outside(p)].DirAt? { return Err(Io); }
      var node :- IngestEntry(p, item, now);
      return Ok(node.digest);
    }

    // ---------------------------------------------------------------- materialize

    /** Reading a tree object, with the check that its canonical bytes hash to its name. The read
        itself may fail. */
    method ReadTree(d: Digest) returns (r: Result<Tree, CasError>)
      requires Valid()
      ensures r == Err(Io) ==> faulty
      ensures r != Err(Io) ==> r == GetTree(w, Contents(), d)
    {
      hide EncodeTree, DecodeTree;
      ContentsAt(fs, d);
      if !fs.IsFile(Object(d)) { return Err(Missing(d)); }
      var fails: bool := *;
      if fails && faulty { return Err(Io); }
      var decoded := Decode(w.utf8, fs.At(Object(d)).content);
      if decoded.Err? { return Err(BadTree(decoded.error)); }
      var bytes := Encode(decoded.value);
      if w.tree(bytes) != d { return Err(Corrupt(d, w.tree(bytes))); }
      return Ok(decoded.value);
    }

    /** One file of a tree, by the cheapest link its intent allows, with its mode set only on an
        inode of its own. */
    method MaterializeFile(d: Digest, size: nat, executable: bool, dest: Path, intent: Intent, stats: Stats, now: nat)
      returns (r: Result<(), CasError>, out: Stats)
      requires Valid() && Outside(dest) !in fs.names
      modifies this`fs, this`reflink
      ensures Valid() && Built(old(fs), fs, dest) && Contents() == old(Contents())
      ensures r.Ok? ==> d in Contents() && Holds(fs, dest, RegularFile(Contents()[d], executable))
      ensures r.Ok? ==> out.Tallied() == Plus(stats.Tallied(), Tally(1, size, 0, 0))
      ensures r.Err? ==> r.error == Io || (r.error == Missing(d) && (faulty || d !in Contents()))
      ensures r == Err(Io) ==> faulty || !old(fs).CanCreate(Outside(dest))
      ensures r.Ok? ==> fs.IsFile(Outside(dest)) && OwnerWrite(fs.At(Outside(dest)).mode) == (intent == PrivateInode)
      ensures r.Ok? && SharesInode(fs, dest, d) ==> intent == OverlayLower && !executable
      ensures r.Ok? ==> Counted(fs, dest, stats, out) && SumLengths(ContentBelow(fs, dest)) == |Contents()[d]|
      ensures r.Ok? && !SharesInode(fs, dest, d) ==>
        && reflink != Unknown
        && out.reflinked == stats.reflinked + (if reflink == Yes then 1 else 0)
        && out.copied == stats.copied + (if reflink == No then 1 else 0)
    {
      hide Structured, ContentsOf, Built, OneName, Holds, Counted, ContentBelow, SumLengths;
      out := stats;
      ContentsAt(fs, d);
      Unchanged(fs, dest);
      var unseen: bool := *;
      if !fs.IsFile(Object(d)) || (unseen && faulty) { r := Err(Missing(d)); return; }
      if !fs.CanCreate(Outside(dest)) { r := Err(Io); return; }
      var place := if executable then PrivateInode else intent;
      var placed := PlaceFile(Object(d), Outside(dest), place, now);
      PlacedOutside(old(fs), fs, dest);
      if placed.Err? { r := Err(Io); return; }
      out := stats.Record(placed.value, size);
      if placed.value != Hardlink {
        var fails: bool := *;
        if fails && faulty { r := Err(Io); return; }
        ChmodOwn(old(fs), fs, Outside(dest), WantedMode(intent, executable));
        fs := fs.Chmod(Outside(dest), WantedMode(intent, executable));
        PlacedOutside(old(fs), fs, dest);
        OwnFile(old(fs), fs, d, dest, executable);
      } else {
        SharedFile(old(fs), fs, d, dest);
      }
      FileCounted(fs, dest, d, stats, out);
      r := Ok(());
    }

    method MaterializeEntry(node: Node, dest: Path, intent: Intent, stats: Stats, depth: nat, now: nat)
      returns (r: Result<(), CasError>, out: Stats)
      requires Valid() && Outside(dest) !in fs.names
      modifies this`fs, this`reflink
      ensures Valid() && Built(old(fs), fs, dest) && Contents() == old(Contents())
      ensures r.Ok? ==> WalkNode(w, Contents(), node, Levels(depth), true).Ok?
      ensures r.Ok? ==> var s := WalkNode(w, Contents(), node, Levels(depth), true).value;
                        && Holds(fs, dest, Fill(Contents(), s)) && out.Tallied() == Plus(stats.Tallied(), Count(s))
                        && Counted(fs, dest, stats, out) && Weighed(Contents(), s, fs, dest, stats, out)
      ensures r.Err? ==> r.error == Io || (faulty && r.error.Missing?)
                         || WalkNode(w, Contents(), node, Levels(depth), true) == Err(r.error)
      ensures r == Err(Io) ==> faulty || !old(fs).CanCreate(Outside(dest))
      decreases Levels(depth), 2
    {
      hide Structured, ContentsOf, Built, Walk, Counted, ContentBelow, SumLengths;
      match node
      case File(d, size, executable) =>
        r, out := MaterializeFile(d, size, executable, dest, intent, stats, now);
      case Dir(d) =>
        r, out := MaterializeInto(d, dest, intent, stats, depth, now);
      case Symlink(target) =>
        out := stats;
        Unchanged(fs, dest);
        var fails: bool := *;
        if (fails && faulty) || !fs.CanCreate(Outside(dest)) { r := Err(Io); return; }
        LinkWritten(fs, dest, target);
        fs := fs.Name(Outside(dest), LinkAt(target));
        out := stats.(symlinks := stats.symlinks + 1);
        LinkCounted(fs, dest, stats, out);
        r := Ok(());
    }

    /** `materialize_into`. On success `dest` holds exactly the unfolded tree and the counters have
        grown by its counts; a failure other than an I/O error is the first error of the walk. */
    method MaterializeInto(d: Digest, dest: Path, intent: Intent, stats: Stats, depth: nat, now: nat)
      returns (r: Result<(), CasError>, out: Stats)
      requires Valid()
      modifies this`fs, this`reflink
      ensures Valid() && Built(old(fs), fs, dest) && Contents() == old(Contents())
      ensures r.Ok? ==> Walk(w, Contents(), d, Levels(depth), true).Ok?
      ensures r.Ok? ==> var parts := Walk(w, Contents(), d, Levels(depth), true).value;
                        && Holds(fs, dest, Folder(FillAll(Contents(), parts)))
                        && out.Tallied() == Plus(stats.Tallied(), Count(DirOf(parts)))
                        && Counted(fs, dest, stats, out) && Weighed(Contents(), DirOf(parts), fs, dest, stats, out)
      ensures r.Err? ==> r.error == Io || (faulty && r.error.Missing?) || Walk(w, Contents(), d, Levels(depth), true) == Err(r.error)
      ensures r == Err(Io) ==> faulty || !old(fs).CanCreate(Outside(dest))
      decreases Levels(depth), 1
    {
      hide Structured, ContentsOf, Built, GetTree, Writing, Holds, WalkNode, WalkEntries, Walk, Sorted, Fill, Count, Counted, Weighed;
      out := stats;
      Unchanged(fs, dest);
      WalkStops(w, Contents(), d, Levels(depth), true);
      if depth >= MAX_LEVELS { r := Err(TreeTooDeep); return; }
      if !fs.CanCreate(Outside(dest)) { r := Err(Io); return; }
      ghost var objs, levels := Contents(), Levels(depth + 1);
      ghost var start := fs;
      fs := fs.Name(Outside(dest), DirAt);
      WritingStart(w, objs, start, dest, [], levels);
      CountEmptyDir();
      out := out.(dirs := out.dirs + 1);
      DirStarts(objs, start, dest, stats, out);
      var read := ReadTree(d);
      if read.Err? { r := Err(read.error); return; }
      var t := read.value;
      ReadSorted(w, objs, d);
      WalkFrom(w, objs, d, Levels(depth), true);
      WritingStart(w, objs, start, dest, t, levels);
      ghost var parts: seq<Part> := [];
      var i := 0;
      while i < |t|
        invariant 0 <= i == |parts| <= |t|
        invariant Valid() && Built(old(fs), fs, dest) && Contents() == objs
        invariant Writing(w, objs, fs, dest, t, levels, parts)
        invariant out.Tallied() == Plus(stats.Tallied(), Count(DirOf(parts)))
        invariant Counted(fs, dest, stats, out) && Weighed(objs, DirOf(parts), fs, dest, stats, out)
      {
        ghost var before, mid := fs, out;
        WritingFacts(w, objs, fs, dest, t, levels, parts);
        var child := dest + [t[i].name];
        r, out := MaterializeEntry(t[i].node, child, intent, out, depth + 1, now);
        BuiltTransitive(old(fs), before, fs, dest, child);
        if r.Err? {
          if WalkNode(w, objs, t[i].node, levels, true).Err? { WalkFirstError(w, objs, t, i, levels, true); }
          return;
        }
        ghost var s := WalkNode(w, objs, t[i].node, levels, true).value;
        WritingNext(w, objs, before, fs, dest, t, levels, parts, s);
        CountEntry(stats.Tallied(), parts, Part(t[i].name, s));
        ChildIsNew(before, fs, dest, t[i].name);
        CountedNext(before, fs, dest, child, stats, mid, out);
        WeighedNext(objs, before, fs, dest, child, parts, Part(t[i].name, s), stats, mid, out);
        parts, i := parts + [Part(t[i].name, s)], i + 1;
      }
      WritingDone(w, objs, fs, dest, t, levels, parts);
      r := Ok(());
    }

    /** `materialize_tree`: into a destination that does not exist yet. */
    method MaterializeTree(d: Digest, dest: Path, intent: Intent, now: nat) returns (r: Result<Stats, CasError>)
      requires Valid()
      modifies this`fs, this`reflink
      ensures Valid() && Built(old(fs), fs, dest) && Contents() == old(Contents())
      ensures r.Ok? ==> Unfold(w, Contents(), d).Ok? && Holds(fs, dest, Unfold(w, Contents(), d).value)
      ensures r.Ok? ==> var s := DirOf(Walk(w, Contents(), d, MAX_LEVELS, true).value);
                        && r.value.Tallied() == Count(s)
                        && (TrueSizes(Contents(), s) ==> r.value.bytes == SumLengths(ContentBelow(fs, dest)))
      ensures r.Ok? ==>
        && r.value.dirs == |Below(fs, dest, Dirs)| && r.value.symlinks == |Below(fs, dest, Links)|
        && r.value.reflinked + r.value.hardlinked + r.value.copied == |Below(fs, dest, Files)|
        && r.value.hardlinked == |Below(fs, dest, SharedFiles)|
      ensures r.Err? ==> r.error == Io || (faulty && r.error.Missing?) || Unfold(w, Contents(), d) == Err(r.error)
                         || (r.error == DestinationExists && Outside(dest) in old(fs).names)
      ensures !faulty && old(fs).CanCreate(Outside(dest)) ==> (r.Ok? <==> Unfold(w, Contents(), d).Ok?)
    {
      hide Structured, ContentsOf, Built, Walk, Holds, Count, FillAll, Unfold, Plus, Below, ContentBelow, SumLengths, TrueSizes;
      Unchanged(fs, dest);
      UnfoldIs(w, Contents(), d);
      var unseen: bool := *;
      if Outside(dest) in fs.names {  // unseen, it makes the creation of the directory fail instead
        return Err(if unseen && faulty then Io else DestinationExists);
      }
      var done, stats := MaterializeInto(d, dest, intent, Stats(0, 0, 0, 0, 0, 0), 0, now);
      if done.Err? { return Err(done.error); }
      PlusZero(Count(DirOf(Walk(w, Contents(), d, Levels(0), true).value)));
      return Ok(stats);
    }

    /** Ingest a directory, materialize its digest under any intent, and ingest the result: the
        same tree and the same digest, and the bytes reported are those of the source files. Short
        of faults it succeeds exactly on directories whose names and targets are valid and which
        hold no device. */
    method RoundTrip(src: Path, dest: Path, intent: Intent, ghost item: Item, now: nat)
      returns (r: Result<(Digest, Digest), CasError>, stats: Stats)
      requires Valid() && Honest() && Holds(fs, src, item) && Shaped(item) && Hashed(w, universe, item)
      requires Representable(item, 129)
      modifies this`fs, this`reflink
      ensures Valid() && Honest()
      ensures r.Ok? ==> r.value.0 == r.value.1 && Holds(fs, dest, item)
      ensures r.Ok? ==> stats.bytes == SumLengths(ContentBelow(old(fs), src))
      ensures r.Err? ==> r.error == Io || !Ingestible(w, item) || (faulty && r.error.Missing?)
                         || (r.error == DestinationExists && Outside(dest) in old(fs).names)
      ensures old(Smooth()) && old(fs).CanCreate(Outside(dest)) ==> (r.Ok? <==> item.Folder? && Ingestible(w, item))
    {
      hide ContentsOf, Built, Walk, Holds, Hashed, Shaped, Ingestible, Stored, Representable, DigestOf, SumLengths, ContentBelow;
      hide TrueSizes, Below, TotalLengths;
      hide Structured;
      stats := Stats(0, 0, 0, 0, 0, 0);
      Weighs(fs, src, item);
      var ingested := IngestDir(src, item, now);
      if ingested.Err? { r := Err(ingested.error); return; }
      var d := ingested.value;
      RoundTripExactlyWhenRepresentable(w, Contents(), item.children);
      var _ := FolderUnfolds(w, Contents(), item.children, 129);
      assert SamePath(old(fs), fs, dest) && (dest != [] ==> SamePath(old(fs), fs, dest[..|dest| - 1]));
      ghost var stored := fs;
      var done := MaterializeTree(d, dest, intent, now);
      if done.Err? { r := Err(done.error); return; }
      stats := done.value;
      Weighs(fs, dest, item);
      if Tidy(stored) { TidyBelow(stored, fs, dest); }
      ghost var held := fs;
      var again := IngestDir(dest, item, now);
      if again.Err? { r := Err(again.error); return; }
      StillHolds(held, fs, dest, item);
      r := Ok((d, again.value));
    }

    // ---------------------------------------------------------------- garbage collection

    /** One turn of the marking loop. A failed read is not reported: the digest becomes a leaf. */
    method MarkOne(m: Marks) returns (next: Marks, ghost failed: bool)
      requires Valid() && m.queue != []
      ensures failed ==> faulty
      ensures next == if failed then MarkLeaf(m) else MarkStep(w, Contents(), m)
    {
      hide Structured, GetTree, ContentsOf, BlobDigests, Unmarked;
      var last := |m.queue| - 1;
      var d, queue := m.queue[last], m.queue[..last];
      failed := false;
      if d in m.live { next := Marks(m.live, queue); return; }
      var read := ReadTree(d);
      if read.Err? {
        failed := read == Err(Io);
        next := Marks(m.live + {d}, queue);
        return;
      }
      var live := MarkFiles(read.value, m.live + {d});
      queue := PushSubtrees(read.value, live, queue);
      next := Marks(live, queue);
    }

    /** The first half of `gc`. It marks what it could read below the roots, what it could not
        read, and the files that the former names. */
    method Mark(roots: seq<Digest>) returns (live: set<Digest>, ghost expanded: set<Digest>, ghost unread: set<Digest>)
      requires Valid()
      ensures !faulty ==> unread == {}
      ensures Traced(w, Contents(), roots, expanded, unread, Marks(live, []))
    {
      hide Structured, GetTree, ContentsOf, MarkStep, MarkLeaf, Traced;
      ghost var objs := Contents();
      var m := Marks({}, roots);
      expanded, unread := {}, {};
      TraceStart(w, objs, roots);
      while m.queue != []
        invariant !faulty ==> unread == {}
        invariant Traced(w, objs, roots, expanded, unread, m)
        decreases objs.Keys - m.live, |m.queue|
      {
        ghost var top := m.queue[|m.queue| - 1];
        MarkStepDecreases(w, objs, m);
        MarkLeafDecreases(objs, m);
        TraceStep(w, objs, roots, expanded, unread, m);
        TraceLeaf(w, objs, roots, expanded, unread, m);
        ghost var known := top in m.live;
        ghost var failed;
        m, failed := MarkOne(m);
        if failed {
          unread := unread + {top};
        } else if !known {
          expanded := expanded + {top};
        }
      }
      live := m.live;
      assert m == Marks(live, []);
    }

    /** The second half of `gc`: unlink what is neither live nor young. `skipped` are the objects
        that were not looked at: a failed stat passes over one without a word, and other failures
        end the sweep. */
    method Sweep(live: set<Digest>, minAge: nat, now: nat) returns (r: Result<GcStats, CasError>, ghost skipped: set<Digest>)
      requires Valid()
      modifies this`fs
      ensures Valid() && OutsideKept(old(fs), fs)
      ensures Sweeping(old(fs), fs, live, minAge, now, skipped)
      ensures !faulty ==> r.Ok? && skipped == {}
      ensures r.Err? ==> r.error == Io
      ensures r.Ok? ==> |old(Contents())| == |Contents()| + r.value.deleted
      ensures r.Ok? ==> SumLengths(old(Contents())) == SumLengths(Contents()) + r.value.bytesFreed
      ensures r.Ok? ==> r.value.live == |live| && r.value.sparedYoung == |Spared(fs, live, skipped)|
    {
      hide Structured, ContentsOf, Sweeping, Spared, SumLengths, OutsideKept, Accounted, Listed;
      var stats := GcStats(|live|, 0, 0, 0);
      var rest := Listed(fs);
      SweepStart(fs, live, minAge, now, rest);
      skipped := rest;
      while rest != {}
        invariant Valid() && rest <= skipped && (!faulty ==> skipped == rest)
        invariant Accounted(old(fs), fs, live, minAge, now, skipped, stats)
        decreases |rest|
      {
        var d :| d in rest;
        var fails: bool, fatal: bool := *, *;
        if fails && fatal && faulty {
          SweepStops(old(fs), fs, live, minAge, now, skipped, stats);
          r := Err(Io);
          return;
        }
        if !(fails && faulty) {
          stats := SweepOne(d, live, minAge, now, stats, old(fs), skipped);
          skipped := skipped - {d};
        }
        rest := rest - {d};
      }
      SweepStops(old(fs), fs, live, minAge, now, skipped, stats);
      r := Ok(stats);
    }

    /** One object of the sweep. */
    method SweepOne(d: Digest, live: set<Digest>, minAge: nat, now: nat, before: GcStats, ghost start: Fs, ghost rest: set<Digest>)
      returns (stats: GcStats)
      requires Valid() && Accounted(start, fs, live, minAge, now, rest, before) && d in rest
      modifies this`fs
      ensures Valid() && Accounted(start, fs, live, minAge, now, rest - {d}, stats)
    {
      assert fs.IsFile(Object(d));
      hide Accounted, Structured;
      stats := before;
      if d in live {
        AccountPast(start, fs, live, minAge, now, rest, before, d);
      } else if Age(fs.At(Object(d)).mtime, now) < minAge {
        AccountPast(start, fs, live, minAge, now, rest, before, d);
        stats := stats.(sparedYoung := stats.sparedYoung + 1);
      } else {
        AccountAway(start, fs, live, minAge, now, rest, before, d);
        stats := stats.(deleted := stats.deleted + 1, bytesFreed := stats.bytesFreed + |fs.At(Object(d)).content|);
        fs := fs.Unlink(Object(d));
        SweepStops(start, fs, live, minAge, now, rest - {d}, stats);
      }
    }

    /** Mark and sweep. Unmarked objects at least `minAge` old go, all of them unless a stat failed;
        the counters account for every object and every byte. Where nothing that is stored as a
        tree below the roots is also named as a file there, each root below which no read failed
        unfolds after the pass exactly as before it. */
    method Gc(roots: seq<Digest>, minAge: nat, now: nat)
      returns (r: Result<GcStats, CasError>, ghost marked: set<Digest>, ghost expanded: set<Digest>,
               ghost unread: set<Digest>, ghost skipped: set<Digest>)
      requires Valid()
      modifies this`fs
      ensures Valid() && (old(Honest()) ==> Honest()) && OutsideKept(old(fs), fs)
      ensures Traced(w, old(Contents()), roots, expanded, unread, Marks(marked, []))
      ensures forall d :: fs.IsFile(Object(d)) ==> old(fs).IsFile(Object(d)) && fs.At(Object(d)) == old(fs).At(Object(d))
      ensures forall d :: old(fs).IsFile(Object(d)) ==>
        (fs.IsFile(Object(d)) <==>
          d in marked || d in skipped || (minAge > 0 && now < old(fs).At(Object(d)).mtime + minAge))
      ensures !faulty ==> r.Ok? && skipped == {} && unread == {}
      ensures r.Ok? ==> |old(Contents())| == |Contents()| + r.value.deleted
      ensures r.Ok? ==> SumLengths(old(Contents())) == SumLengths(Contents()) + r.value.bytesFreed
      ensures r.Ok? ==> r.value.live == |marked| && r.value.sparedYoung == |Spared(fs, marked, skipped)|
      ensures forall dirs, safe, d ::
        RolesDisjoint(w, old(Contents()), roots, dirs) && SafeFrom(w, old(Contents()), dirs, unread, safe) && d in safe && d in roots ==>
          Unfold(w, Contents(), d) == Unfold(w, old(Contents()), d)
      ensures !faulty ==> forall dirs, d :: RolesDisjoint(w, old(Contents()), roots, dirs) && d in roots ==>
        Unfold(w, Contents(), d) == Unfold(w, old(Contents()), d)
    {
      hide Structured, Trusted, Closed, FilesOf, ContentsOf, Unfold, Spared, SumLengths, OutsideKept, Traced;
      ghost var objs := Contents();
      var live;
      live, expanded, unread := Mark(roots);
      marked := live;
      r, skipped := Sweep(live, minAge, now);
      if Trusted(w, universe, objs) { SweptIsTrusted(w, universe, old(fs), fs, live, minAge, now, skipped); }
      forall dirs, safe | RolesDisjoint(w, objs, roots, dirs) && SafeFrom(w, objs, dirs, unread, safe)
        ensures forall d :: d in roots && d in safe ==> Unfold(w, Contents(), d) == Unfold(w, objs, d)
      {
        RootsKept(w, old(fs), fs, Marks(live, []), minAge, now, skipped, roots, dirs, expanded, unread, safe);
      }
      if !faulty {
        forall dirs | RolesDisjoint(w, objs, roots, dirs)
          ensures forall d :: d in roots ==> Unfold(w, Contents(), d) == Unfold(w, objs, d)
        {
          assert SafeFrom(w, objs, dirs, unread, dirs);
        }
      }
    }
  }
}
