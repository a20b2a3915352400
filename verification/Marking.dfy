/** The mark phase of garbage collection, one queue element at a time. */
module Marking {
  import opened Base
  import opened Manifest
  import opened Objects

  datatype Marks = Marks(live: set<Digest>, queue: seq<Digest>)

  /** Subtrees to push: in entry order, those not marked yet. */
  function Unmarked(t: Tree, live: set<Digest>): (q: seq<Digest>)
    ensures forall d :: d in q <==> d in SubtreeDigests(t) && d !in live
    ensures (forall e :: e in t && e.node.Dir? ==> e.node.digest in live) ==> q == []
  {
    if t == [] then []
    else
      var rest := Unmarked(t[1..], live);
      assert SubtreeDigests(t) ==
        (if t[0].node.Dir? then {t[0].node.digest} else {}) + SubtreeDigests(t[1..]);
      if t[0].node.Dir? && t[0].node.digest !in live then [t[0].node.digest] + rest else rest
  }

  /** One turn of the marking loop. Files are marked without being looked into; an object that
      does not parse as a tree is a leaf. */
  function MarkStep(w: World, objs: Contents, m: Marks): Marks
    requires m.queue != []
  {
    var last := |m.queue| - 1;
    var d, rest := m.queue[last], m.queue[..last];
    if d in m.live then Marks(m.live, rest)
    else match GetTree(w, objs, d)
      case Err(_) => Marks(m.live + {d}, rest)
      case Ok(t) =>
        var live := m.live + {d} + BlobDigests(t);
        Marks(live, rest + Unmarked(t, live))
  }

  /** A turn whose read fails for the kernel's own reasons. The error is dropped, and the digest is
      taken for a leaf. */
  function MarkLeaf(m: Marks): Marks
    requires m.queue != []
  {
    var last := |m.queue| - 1;
    Marks(m.live + {m.queue[last]}, m.queue[..last])
  }

  /** Whatever is stored under a directory digest refers to `dirs` as directories and to `files`
      as files. */
  ghost predicate Kinds(w: World, objs: Contents, dirs: set<Digest>, files: set<Digest>)
  {
    forall d :: d in dirs && GetTree(w, objs, d).Ok? ==>
      && SubtreeDigests(GetTree(w, objs, d).value) <= dirs
      && BlobDigests(GetTree(w, objs, d).value) <= files
  }

  /** A digest whose tree has been looked into: its files are marked and its subtrees are marked
      or queued. */
  ghost predicate Expanded(w: World, base: Contents, d: Digest, m: Marks)
  {
    GetTree(w, base, d).Ok? ==>
      && BlobDigests(GetTree(w, base, d).value) <= m.live
      && (forall s :: s in SubtreeDigests(GetTree(w, base, d).value) ==> s in m.live || s in m.queue)
  }

  /** The invariant of the marking loop. `kept` are the directories whose trees cannot change
      while marking goes on, and `base` is where those trees are read. */
  ghost predicate MarkInv(w: World, base: Contents, dirs: set<Digest>, files: set<Digest>,
                          kept: set<Digest>, roots: set<Digest>, m: Marks)
  {
    && (forall d :: d in dirs && d in files && d in kept ==> GetTree(w, base, d).Err?)
    && (forall d :: d in m.queue ==> d in dirs)
    && m.live <= dirs + files
    && (forall d :: d in roots ==> d in m.live || d in m.queue)
    && (forall d :: d in m.live && d in dirs && d in kept ==> Expanded(w, base, d, m))
  }

  lemma MarkStepKeeps(w: World, base: Contents, objs: Contents, dirs: set<Digest>, files: set<Digest>,
                      kept: set<Digest>, roots: set<Digest>, m: Marks)
    requires MarkInv(w, base, dirs, files, kept, roots, m) && m.queue != []
    requires Kinds(w, objs, dirs, files)
    requires forall d :: d in kept ==> GetTree(w, objs, d) == GetTree(w, base, d)
    ensures MarkInv(w, base, dirs, files, kept, roots, MarkStep(w, objs, m))
  {
    hide GetTree;
    var m' := MarkStep(w, objs, m);
    var last := |m.queue| - 1;
    var top, rest := m.queue[last], m.queue[..last];
    forall d | d in m.live || d in m.queue ensures d in m'.live || d in m'.queue {
      if d in m.queue && d !in rest { assert d == top; }
    }
    forall d | d in m'.live && d in dirs && d in kept ensures Expanded(w, base, d, m') {
      if d in m.live { assert Expanded(w, base, d, m); }
    }
  }

  /** A failed read does no harm to a digest that does not have to be expanded. */
  lemma MarkLeafKeeps(w: World, base: Contents, dirs: set<Digest>, files: set<Digest>,
                      kept: set<Digest>, roots: set<Digest>, m: Marks)
    requires MarkInv(w, base, dirs, files, kept, roots, m) && m.queue != []
    requires m.queue[|m.queue| - 1] !in kept
    ensures MarkInv(w, base, dirs, files, kept, roots, MarkLeaf(m))
  {
    hide GetTree;
    var m' := MarkLeaf(m);
    var last := |m.queue| - 1;
    var top, rest := m.queue[last], m.queue[..last];
    forall d | d in m.live || d in m.queue ensures d in m'.live || d in m'.queue {
      if d in m.queue && d !in rest { assert d == top; }
    }
    forall d | d in m'.live && d in dirs && d in kept ensures Expanded(w, base, d, m') {
      assert Expanded(w, base, d, m);
    }
  }

  /** Termination: a step either shortens the queue, or marks a stored digest for the first time. */
  lemma MarkStepDecreases(w: World, objs: Contents, m: Marks)
    requires m.queue != []
    ensures var m' := MarkStep(w, objs, m);
            && objs.Keys - m'.live <= objs.Keys - m.live
            && (objs.Keys - m'.live == objs.Keys - m.live ==> |m'.queue| < |m.queue|)
  {
    hide ParseTree;
    var d := m.queue[|m.queue| - 1];
    if d !in m.live && d in objs { assert d in objs.Keys - m.live; }
  }

  lemma MarkLeafDecreases(objs: Contents, m: Marks)
    requires m.queue != []
    ensures var m' := MarkLeaf(m);
            objs.Keys - m'.live <= objs.Keys - m.live && |m'.queue| < |m.queue|
  {
  }

  // ------------------------------------------------------------------ what is marked

  ghost predicate Has(ds: set<Digest>, roots: seq<Digest>)
  {
    forall d :: d in roots ==> d in ds
  }

  /** What marking amounts to, whatever roles a digest has. `expanded` are the digests whose trees
      have been looked into, or that turned out not to be trees, and `unread` those whose read
      failed: marked are these and the files that the former name. Nothing outside a closed set of
      directories that has the roots is ever looked at. */
  ghost predicate Traced(w: World, objs: Contents, roots: seq<Digest>, expanded: set<Digest>, unread: set<Digest>, m: Marks)
  {
    && m.live == expanded + unread + FilesOf(w, objs, expanded)
    && (forall d :: d in roots ==> d in m.live || d in m.queue)
    && (forall d, s :: d in expanded && GetTree(w, objs, d).Ok? && s in SubtreeDigests(GetTree(w, objs, d).value) ==>
          s in m.live || s in m.queue)
    && (forall ds :: Closed(w, objs, ds) && Has(ds, roots) ==>
          expanded + unread <= ds && forall d :: d in m.queue ==> d in ds)
  }

  lemma TraceStart(w: World, objs: Contents, roots: seq<Digest>)
    ensures Traced(w, objs, roots, {}, {}, Marks({}, roots))
  {
    assert FilesOf(w, objs, {}) == {};
  }

  lemma FilesOfOneMore(w: World, objs: Contents, ds: set<Digest>, d: Digest)
    ensures FilesOf(w, objs, ds + {d}) ==
            FilesOf(w, objs, ds) + if GetTree(w, objs, d).Ok? then BlobDigests(GetTree(w, objs, d).value) else {}
  {
    hide GetTree, BlobDigests;
  }

  lemma Unpopped(m: Marks, d: Digest)
    requires m.queue != [] && d in m.queue
    ensures d == m.queue[|m.queue| - 1] || d in m.queue[..|m.queue| - 1]
  {
  }

  lemma TraceStep(w: World, objs: Contents, roots: seq<Digest>, expanded: set<Digest>, unread: set<Digest>, m: Marks)
    requires Traced(w, objs, roots, expanded, unread, m) && m.queue != []
    ensures var top := m.queue[|m.queue| - 1];
            Traced(w, objs, roots, if top in m.live then expanded else expanded + {top}, unread, MarkStep(w, objs, m))
  {
    hide GetTree, FilesOf;
    var top, m' := m.queue[|m.queue| - 1], MarkStep(w, objs, m);
    FilesOfOneMore(w, objs, expanded, top);
    forall d | d in m.live || d in m.queue ensures d in m'.live || d in m'.queue {
      if d in m.queue { Unpopped(m, d); }
    }
  }

  lemma TraceLeaf(w: World, objs: Contents, roots: seq<Digest>, expanded: set<Digest>, unread: set<Digest>, m: Marks)
    requires Traced(w, objs, roots, expanded, unread, m) && m.queue != []
    ensures Traced(w, objs, roots, expanded, unread + {m.queue[|m.queue| - 1]}, MarkLeaf(m))
  {
    hide GetTree, FilesOf;
    forall d | d in m.live || d in m.queue ensures d in MarkLeaf(m).live || d in MarkLeaf(m).queue {
      if d in m.queue { Unpopped(m, d); }
    }
  }

  /** No digest that is stored as a tree below the roots is also named as a file there. A root that
      is a blob may well be. */
  ghost predicate RolesDisjoint(w: World, objs: Contents, roots: seq<Digest>, dirs: set<Digest>)
  {
    && Has(dirs, roots) && Closed(w, objs, dirs)
    && forall d :: d in dirs && GetTree(w, objs, d).Ok? ==> d !in FilesOf(w, objs, dirs)
  }

  /** A closed set of directories none of whose manifests failed to be read. */
  ghost predicate SafeFrom(w: World, objs: Contents, dirs: set<Digest>, unread: set<Digest>, safe: set<Digest>)
  {
    Closed(w, objs, safe) && safe <= dirs && safe !! unread
  }

  /** When the queue runs dry, the marked part of a set that is safe to keep is closed, its files
      are marked, and so are the roots in it. */
  lemma MarkedIsClosed(w: World, objs: Contents, roots: seq<Digest>, dirs: set<Digest>, expanded: set<Digest>, unread: set<Digest>,
                       m: Marks, safe: set<Digest>)
    requires Traced(w, objs, roots, expanded, unread, m) && m.queue == []
    requires RolesDisjoint(w, objs, roots, dirs) && SafeFrom(w, objs, dirs, unread, safe)
    ensures Closed(w, objs, m.live * safe) && FilesOf(w, objs, m.live * safe) <= m.live
    ensures forall d :: d in roots && d in safe ==> d in m.live
  {
    hide GetTree;
    assert expanded + unread <= dirs;
    forall d | d in m.live * safe && GetTree(w, objs, d).Ok?
      ensures d in expanded
      ensures SubtreeDigests(GetTree(w, objs, d).value) <= m.live * safe
      ensures BlobDigests(GetTree(w, objs, d).value) <= m.live
    {
      assert d in FilesOf(w, objs, expanded) ==> d in FilesOf(w, objs, dirs);
    }
  }

  // ------------------------------------------------------------------ what ingest stores has one role each

  /** The digests of a directory and of the directories in it. */
  ghost function Folders(w: World, item: Item): set<Digest>
    requires Ingestible(w, item)
    decreases item, 0
  {
    if item.Folder? then {DigestOf(w, item.children)} + FoldersIn(w, item.children) else {}
  }

  ghost function FoldersIn(w: World, cs: seq<Child>): set<Digest>
    requires AllIngestible(w, cs)
    decreases cs, 1
  {
    set i, d | 0 <= i < |cs| && d in Folders(w, cs[i].item) :: d
  }

  /** The manifest of one directory of an ingested tree: it is stored, its files are blobs of the
      run, and its subdirectories are directories of the tree. */
  ghost predicate OneFolder(w: World, u: set<Bytes>, objs: Contents, all: set<Digest>, d: Digest)
  {
    && GetTree(w, objs, d).Ok?
    && (exists b :: b in u && d == w.tree(b))
    && SubtreeDigests(GetTree(w, objs, d).value) <= all
    && forall x :: x in BlobDigests(GetTree(w, objs, d).value) ==> exists b :: b in u && x == w.blob(b)
  }

  lemma {:induction false} FoldersStored(w: World, u: set<Bytes>, objs: Contents, item: Item, levels: nat, all: set<Digest>, d: Digest)
    requires Ingestible(w, item) && Shaped(item) && Stored(w, objs, item) && Representable(item, levels) && Hashed(w, u, item)
    requires Folders(w, item) <= all && d in Folders(w, item)
    ensures OneFolder(w, u, objs, all, d)
    decreases item
  {
    var cs := item.children;
    hide GetTree;
    if d == DigestOf(w, cs) {
      TopFolder(w, u, objs, cs, levels, all);
    } else {
      var i :| 0 <= i < |cs| && d in Folders(w, cs[i].item);
      FoldersStored(w, u, objs, cs[i].item, levels - 1, all, d);
    }
  }

  lemma TopFolder(w: World, u: set<Bytes>, objs: Contents, cs: seq<Child>, levels: nat, all: set<Digest>)
    requires Ingestible(w, Folder(cs)) && Shaped(Folder(cs)) && Stored(w, objs, Folder(cs))
    requires Representable(Folder(cs), levels) && Hashed(w, u, Folder(cs)) && Folders(w, Folder(cs)) <= all
    ensures OneFolder(w, u, objs, all, DigestOf(w, cs))
  {
    var t := TreeOf(w, cs);
    TreeOfWellTyped(w, cs);
    DecodeInvertsEncode(w.utf8, t);
    hide DecodeTree, EncodeTree;
    assert GetTree(w, objs, DigestOf(w, cs)) == Ok(t);
    assert EncodeTree(t) in u && DigestOf(w, cs) == w.tree(EncodeTree(t));
    TopNames(w, u, cs, all);
    hide GetTree, DigestOf, Ingestible, Shaped, Stored, Representable, Hashed, Folders;
  }

  lemma TopNames(w: World, u: set<Bytes>, cs: seq<Child>, all: set<Digest>)
    requires Ingestible(w, Folder(cs)) && Hashed(w, u, Folder(cs)) && Folders(w, Folder(cs)) <= all
    ensures SubtreeDigests(TreeOf(w, cs)) <= all
    ensures forall x :: x in BlobDigests(TreeOf(w, cs)) ==> exists b :: b in u && x == w.blob(b)
  {
    hide EncodeTree;
    var t := TreeOf(w, cs);
    forall x | x in SubtreeDigests(t) ensures x in all {
      var i :| 0 <= i < |t| && t[i].node.Dir? && t[i].node.digest == x;
      assert x in Folders(w, cs[i].item) && x in FoldersIn(w, cs);
    }
    forall x | x in BlobDigests(t) ensures exists b :: b in u && x == w.blob(b) {
      var i :| 0 <= i < |t| && t[i].node.File? && t[i].node.digest == x;
      assert cs[i].item.content in u && x == w.blob(cs[i].item.content);
    }
  }

  /** A blob of the run is no directory's digest. */
  lemma FileIsNoFolder(w: World, u: set<Bytes>, objs: Contents, all: set<Digest>, x: Digest, d: Digest)
    requires CollisionFree(w, u) && OneFolder(w, u, objs, all, x) && OneFolder(w, u, objs, all, d)
    ensures d !in BlobDigests(GetTree(w, objs, x).value)
  {
    hide GetTree, BlobDigests, SubtreeDigests;
    var c :| c in u && d == w.tree(c);
    assert forall b :: b in u ==> w.blob(b) != w.tree(c);
  }

  lemma OneRoleEach(w: World, u: set<Bytes>, objs: Contents, dirs: set<Digest>, root: Digest)
    requires root in dirs && CollisionFree(w, u) && forall d :: d in dirs ==> OneFolder(w, u, objs, dirs, d)
    ensures RolesDisjoint(w, objs, [root], dirs)
  {
    forall d | d in dirs ensures SubtreeDigests(GetTree(w, objs, d).value) <= dirs { assert OneFolder(w, u, objs, dirs, d); }
    hide GetTree, BlobDigests, SubtreeDigests, CollisionFree, OneFolder;
    forall d, x | d in dirs && x in dirs ensures d !in BlobDigests(GetTree(w, objs, x).value) {
      FileIsNoFolder(w, u, objs, dirs, x, d);
    }
  }

  /** So what the collector asks for holds of whatever ingest has stored, as long as nothing that
      was hashed collides. */
  lemma IngestedRolesDisjoint(w: World, u: set<Bytes>, objs: Contents, cs: seq<Child>)
    requires Ingestible(w, Folder(cs)) && Shaped(Folder(cs)) && Stored(w, objs, Folder(cs))
    requires Representable(Folder(cs), 129) && Hashed(w, u, Folder(cs)) && CollisionFree(w, u)
    ensures RolesDisjoint(w, objs, [DigestOf(w, cs)], Folders(w, Folder(cs)))
  {
    var dirs := Folders(w, Folder(cs));
    assert DigestOf(w, cs) in dirs;
    hide OneFolder, Shaped, Stored, Representable, Hashed, Ingestible, DigestOf, CollisionFree, Folders;
    forall d | d in dirs ensures OneFolder(w, u, objs, dirs, d) { FoldersStored(w, u, objs, Folder(cs), 129, dirs, d); }
    OneRoleEach(w, u, objs, dirs, DigestOf(w, cs));
  }

  // ------------------------------------------------------------------ a read that fails

  /** If the read of a root fails, only the root is marked. What is left of it after a sweep of the
      unmarked objects unfolds as before exactly when its manifest names no other object. */
  lemma FailedReadLosesTheRoot(w: World, objs: Contents, root: Digest)
    requires Unfold(w, objs, root).Ok?
    ensures MarkLeaf(Marks({}, [root])) == Marks({root}, [])
    ensures GetTree(w, objs, root).Ok?
    ensures var t, left := GetTree(w, objs, root).value, objs - (objs.Keys - {root});
            && (BlobDigests(t) + SubtreeDigests(t) <= {root} ==> Unfold(w, left, root) == Unfold(w, objs, root))
            && (!(BlobDigests(t) + SubtreeDigests(t) <= {root}) ==> Unfold(w, left, root).Err?)
  {
    hide ParseTree, WalkEntries, FillAll;
    assert {} + {root} == {root} && [root][..0] == [];
    var t, left := GetTree(w, objs, root).value, objs - (objs.Keys - {root});
    assert GetTree(w, left, root) == Ok(t);
    if BlobDigests(t) + SubtreeDigests(t) <= {root} {
      assert FilesOf(w, objs, {root}) <= {root};
      UnfoldLocal(w, objs, left, {root}, root);
    } else {
      var x :| x in BlobDigests(t) + SubtreeDigests(t) && x != root;
      MissingBelow(w, left, root, t, x);
    }
  }

  /** A root that names a missing object does not unfold. */
  lemma MissingBelow(w: World, objs: Contents, root: Digest, t: Tree, x: Digest)
    requires GetTree(w, objs, root) == Ok(t) && x in BlobDigests(t) + SubtreeDigests(t) && x !in objs
    ensures Unfold(w, objs, root).Err?
  {
    hide ParseTree, WalkEntries, FillAll;
    var e :| e in t && !e.node.Symlink? && e.node.digest == x;
    var i :| 0 <= i < |t| && t[i] == e;
    assert WalkNode(w, objs, t[i].node, MAX_LEVELS - 1, true) == Err(Missing(x));
    if Walk(w, objs, root, MAX_LEVELS, true).Ok? {
      WalkPointwise(w, objs, t, MAX_LEVELS - 1, true, Walk(w, objs, root, MAX_LEVELS, true).value);
    }
  }

  // ------------------------------------------------------------------ a digest in two roles

  /** A digest that the root names both as a file and as its only kind of subdirectory is marked
      as a file, and its tree is never looked into. */
  lemma DualUseIsNotExpanded(w: World, objs: Contents, root: Digest, x: Digest)
    requires root != x && GetTree(w, objs, root).Ok?
    requires x in BlobDigests(GetTree(w, objs, root).value) && SubtreeDigests(GetTree(w, objs, root).value) == {x}
    ensures MarkStep(w, objs, Marks({}, [root])) == Marks({root} + BlobDigests(GetTree(w, objs, root).value), [])
  {
    hide GetTree;
    var t := GetTree(w, objs, root).value;
    var live := {root} + BlobDigests(t);
    assert {} + {root} + BlobDigests(t) == live;
    var pushed := Unmarked(t, live);
    assert forall e :: e in t && e.node.Dir? ==> e.node.digest in SubtreeDigests(t);
    assert [root][..0] + pushed == [];
  }

  /** So a sweep that keeps only what was marked breaks such a root: it unfolded before the pass
      and does not unfold after it, as soon as the digest's tree names a file of its own. */
  lemma DualUseLosesTheRoot(w: World, objs: Contents, root: Digest, x: Digest, file: Digest)
    requires root != x && GetTree(w, objs, root).Ok? && GetTree(w, objs, x).Ok? && Unfold(w, objs, root).Ok?
    requires x in BlobDigests(GetTree(w, objs, root).value) && SubtreeDigests(GetTree(w, objs, root).value) == {x}
    requires file in BlobDigests(GetTree(w, objs, x).value)
    requires file != root && file !in BlobDigests(GetTree(w, objs, root).value)
    ensures var marked := MarkStep(w, objs, Marks({}, [root]));
            marked.queue == [] && Unfold(w, objs - (objs.Keys - marked.live), root).Err?
  {
    hide ParseTree, WalkEntries, FillAll;
    DualUseIsNotExpanded(w, objs, root, x);
    var left := objs - (objs.Keys - MarkStep(w, objs, Marks({}, [root])).live);
    var t, s := GetTree(w, objs, root).value, GetTree(w, objs, x).value;
    hide MarkStep;
    assert file !in left;
    var e :| e in t && e.node.Dir? && e.node.digest == x;
    var i :| 0 <= i < |t| && t[i] == e;
    var f :| f in s && f.node.File? && f.node.digest == file;
    var j :| 0 <= j < |s| && s[j] == f;
    assert x in objs && root in objs;
    assert GetTree(w, left, root) == Ok(t) && GetTree(w, left, x) == Ok(s);
    assert WalkNode(w, left, s[j].node, MAX_LEVELS - 2, true) == Err(Missing(file));
    if Walk(w, left, root, MAX_LEVELS, true).Ok? {
      var parts := Walk(w, left, root, MAX_LEVELS, true).value;
      WalkPointwise(w, left, t, MAX_LEVELS - 1, true, parts);
      assert WalkNode(w, left, t[i].node, MAX_LEVELS - 1, true).Ok?;
      var below := Walk(w, left, x, MAX_LEVELS - 1, true).value;
      WalkPointwise(w, left, s, MAX_LEVELS - 2, true, below);
    }
  }
}
