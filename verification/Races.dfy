/** Runs of the concurrent store in which it does not keep what its comments promise. Each holds
    from every state of its kind and for any content, and each shows that a hypothesis of the
    theorems about whole runs cannot be dropped. */
module Races {
  import opened Base
  import opened Manifest
  import opened Objects
  import opened Filesystem
  import opened Marking
  import opened ObjectStore
  import opened Protocol
  import opened Interleavings
  import opened Collection

  /** Some run leads from `s` to `t`, with one put per digest in flight if `routed`, and with no
      object linked at another placer's path if `unshared`. */
  ghost predicate Leads(w: World, u: set<Bytes>, routed: bool, unshared: bool, s: State, t: State)
  {
    exists ss, steps ::
      && Trace(w, ss, steps) && ss[0] == s && ss[|steps|] == t
      && (routed ==> AllRouted(w, u, ss, steps)) && (unshared ==> AllUnshared(ss, steps))
  }

  lemma LeadsHere(w: World, u: set<Bytes>, routed: bool, unshared: bool, s: State)
    ensures Leads(w, u, routed, unshared, s, s)
  {
    assert Trace(w, [s], []);
  }

  lemma LeadsOn(w: World, u: set<Bytes>, routed: bool, unshared: bool, s: State, t: State, step: Step)
    requires Leads(w, u, routed, unshared, s, t) && Enabled(t, step) && (routed ==> Routed(w, u, t, step)) && (unshared ==> Unshared(t, step))
    ensures Leads(w, u, routed, unshared, s, Apply(w, t, step))
  {
    hide Apply, Enabled, Routed, Unshared;
    var ss, steps :| && Trace(w, ss, steps) && ss[0] == s && ss[|steps|] == t
                     && (routed ==> AllRouted(w, u, ss, steps)) && (unshared ==> AllUnshared(ss, steps));
    var ss', steps' := ss + [Apply(w, t, step)], steps + [step];
    forall i | 0 <= i < |steps'|
      ensures Enabled(ss'[i], steps'[i]) && ss'[i + 1] == Apply(w, ss'[i], steps'[i])
      ensures routed ==> Routed(w, u, ss'[i], steps'[i])
      ensures unshared ==> Unshared(ss'[i], steps'[i])
    {
      if i < |steps| { assert ss'[i] == ss[i] && ss'[i + 1] == ss[i + 1] && steps'[i] == steps[i]; }
    }
    assert Trace(w, ss', steps');
  }

  lemma Next(w: World, u: set<Bytes>, routed: bool, unshared: bool, from: State, s: State, step: Step) returns (t: State)
    requires Leads(w, u, routed, unshared, from, s) && Enabled(s, step) && (routed ==> Routed(w, u, s, step)) && (unshared ==> Unshared(s, step))
    ensures t == Apply(w, s, step) && Leads(w, u, routed, unshared, from, t)
  {
    LeadsOn(w, u, routed, unshared, from, s, step);
    t := Apply(w, s, step);
  }

  // ------------------------------------------------------------------ two puts of one digest

  /** The state after put `id` has written all of `c` to a new staging file. */
  function Staged(s: State, id: nat, d: Digest, c: Bytes): State
  {
    s.(fs := Fs(s.fs.names[Staging(d) := FileAt(s.fs.next)],
                s.fs.inodes[s.fs.next := Inode(c, 420, s.clock)], s.fs.next + 1),
       writers := s.writers[id := Opened(d, c, s.fs.next, |c|)])
  }

  lemma PutStages(w: World, u: set<Bytes>, routed: bool, unshared: bool, from: State, s: State, id: nat, d: Digest, c: Bytes) returns (t: State)
    requires Leads(w, u, routed, unshared, from, s) && id in s.writers && s.writers[id] == Checked(d, c) && Staging(d) !in s.fs.names
    ensures t == Staged(s, id, d, c) && Leads(w, u, routed, unshared, from, t)
  {
    hide Leads, ApplyPlacer, ApplyCollector, ApplyUser, PlacerCan, CollectorCan, UserCan;
    t := Next(w, u, routed, unshared, from, s, OpenStaging(id, 420));
    assert c[0..0 + |c|] == c && WriteAt([], 0, c) == c;
    t := Next(w, u, routed, unshared, from, t, WriteChunk(id, |c|));
    assert t.fs.inodes == Staged(s, id, d, c).fs.inodes;
    assert t.writers == Staged(s, id, d, c).writers;
  }

  /** Whenever two puts of one digest have both found it missing, a run goes on from there in which
      the second truncates the shared staging file after the first has written it and before the
      first renames it: a reader finds an empty object under the digest of non-empty content. */
  lemma TwoPutsExposeAPartialObject(w: World, u: set<Bytes>, s: State, a: nat, b: nat, d: Digest, c: Bytes) returns (t: State)
    requires a in s.writers && b in s.writers && a != b && c != []
    requires s.writers[a] == s.writers[b] == Checked(d, c)
    requires Staging(d) !in s.fs.names
    ensures Leads(w, u, false, true, s, t)
    ensures t.fs.IsFile(Object(d)) && t.fs.At(Object(d)).content == [] != c
  {
    LeadsHere(w, u, false, true, s);
    hide Leads, ApplyPlacer, ApplyCollector, ApplyUser, PlacerCan, CollectorCan, UserCan;
    t := PutStages(w, u, false, true, s, s, a, d, c);
    var shared := Next(w, u, false, true, s, t, OpenStaging(b, 420));
    assert shared == TruncateStep(t, b);
    t := Next(w, u, false, true, s, shared, Seal(a));
    t := Next(w, u, false, true, s, t, Commit(a));
    assert t == CommitStep(SealStep(shared, a), a);
    hide Apply, Enabled;
  }

  /** Such a state is two steps away from any state that lacks the object. */
  lemma TwoPutsMayBothCheck(w: World, u: set<Bytes>, s: State, a: nat, b: nat, c: Bytes) returns (t: State)
    requires a !in s.writers && b !in s.writers && a != b && Object(w.blob(c)) !in s.fs.names
    ensures Leads(w, u, false, true, s, t)
    ensures t == s.(writers := s.writers[a := Checked(w.blob(c), c)][b := Checked(w.blob(c), c)])
  {
    LeadsHere(w, u, false, true, s);
    hide Leads, ApplyPlacer, ApplyCollector, ApplyUser, PlacerCan, CollectorCan, UserCan;
    t := Next(w, u, false, true, s, s, Put(a, c, false));
    t := Next(w, u, false, true, s, t, Put(b, c, false));
  }

  // ------------------------------------------------------------------ a put that stops

  /** From any state without the object, a put that stops between sealing its staging file and
      renaming it leaves a read-only file in the way of the next put. */
  lemma StoppedPutLeavesASealedFile(w: World, u: set<Bytes>, s: State, id: nat, c: Bytes) returns (t: State)
    requires id !in s.writers && c in u && forall x :: x in s.writers ==> s.writers[x].digest != w.blob(c)
    requires Object(w.blob(c)) !in s.fs.names && Staging(w.blob(c)) !in s.fs.names
    ensures Leads(w, u, true, true, s, t) && Leftover(t.fs, w.blob(c)) && Object(w.blob(c)) !in t.fs.names && t.writers == s.writers
  {
    var d := w.blob(c);
    LeadsHere(w, u, true, true, s);
    hide Leads, ApplyPlacer, ApplyCollector, ApplyUser, PlacerCan, CollectorCan, UserCan;
    t := Next(w, u, true, true, s, s, Put(id, c, false));
    t := PutStages(w, u, true, true, s, t, id, d, c);
    t := SealsAndStops(w, u, s, s, t, id, d, c);
  }

  lemma SealsAndStops(w: World, u: set<Bytes>, from: State, s: State, staged: State, id: nat, d: Digest, c: Bytes) returns (t: State)
    requires Leads(w, u, true, true, from, staged) && id !in s.writers && staged == Staged(s, id, d, c)
    ensures Leads(w, u, true, true, from, t) && t.writers == s.writers
    ensures Leftover(t.fs, d) && (Object(d) in t.fs.names <==> Object(d) in s.fs.names)
  {
    hide Leads, ApplyPlacer, ApplyCollector, ApplyUser, PlacerCan, CollectorCan, UserCan;
    t := Next(w, u, true, true, from, staged, Seal(id));
    t := Next(w, u, true, true, from, t, Stop(id));
    assert t == StopStep(SealStep(staged, id), id);
    hide Apply, Enabled;
    assert t.writers == s.writers;
  }

  // ------------------------------------------------------------------ two placers at one path

  /** Setting a mode by path changes the mode of an object exactly when the path leads to it. */
  lemma SetModeReaches(w: World, s: State, m: nat, d: Digest)
    requires Enabled(s, SetMode(m)) && s.fs.IsFile(Object(d))
    ensures var t, want := Apply(w, s, SetMode(m)), WantedMode(s.placers[m].intent, s.placers[m].executable);
            && t.fs.IsFile(Object(d))
            && (t.fs.At(Object(d)).mode != s.fs.At(Object(d)).mode <==>
                SharesInode(s.fs, s.placers[m].path, d) && want != s.fs.At(Object(d)).mode)
  {
    hide WantedMode;
  }

  /** The state after placer `k` has linked the object at `p`. */
  lemma LinksObject(w: World, u: set<Bytes>, from: State, s: State, k: nat, d: Digest, p: Path) returns (t: State)
    requires Leads(w, u, true, false, from, s) && k !in s.placers && s.fs.IsFile(Object(d))
    requires p != [] && (k, Parent(p)) in s.made && Outside(p) !in s.fs.names
    ensures Leads(w, u, true, false, from, t)
    ensures t.fs == Fs(s.fs.names[Outside(p) := s.fs.names[Object(d)]], s.fs.inodes, s.fs.next) && t.placers == s.placers
  {
    hide Leads, ApplyWriter, ApplyCollector, ApplyUser, WriterCan, CollectorCan, UserCan;
    var placing := Next(w, u, true, false, from, s, Place(k, d, p, OverlayLower, false));
    t := Next(w, u, true, false, from, placing, ClearPath(k));
    t := Next(w, u, true, false, from, t, LinkPath(k));
    assert t == LinkPathStep(ClearPathStep(placing, k), k);
    hide Apply, Enabled;
    LinkedIs(s, k, d, p);
  }

  lemma LinkedIs(s: State, k: nat, d: Digest, p: Path)
    requires k !in s.placers && s.fs.IsFile(Object(d))
    ensures var placing := s.(placers := s.placers[k := Started(d, p, OverlayLower, false)]);
            var t := LinkPathStep(ClearPathStep(placing, k), k);
            t.fs == Fs(s.fs.names[Outside(p) := s.fs.names[Object(d)]], s.fs.inodes, s.fs.next) && t.placers == s.placers
  {
    var placing := s.(placers := s.placers[k := Started(d, p, OverlayLower, false)]);
    var t := LinkPathStep(ClearPathStep(placing, k), k);
    assert t.fs.names == s.fs.names[Outside(p) := s.fs.names[Object(d)]];
    assert t.placers == s.placers;
  }

  /** Only `p` is in its directory, if anything. */
  ghost predicate Alone(s: State, p: Path)
  {
    && p != [] && Outside(Parent(p)) in s.fs.names && s.fs.names[Outside(Parent(p))].DirAt?
    && (Outside(p) in s.fs.names ==> !s.fs.names[Outside(p)].DirAt?)
    && forall q :: q in s.fs.names && q.Outside? && Parent(p) <= q.path ==> q.path == Parent(p) || q.path == p
  }

  lemma Removed(w: World, u: set<Bytes>, from: State, s: State, p: Path) returns (t: State)
    requires Leads(w, u, true, false, from, s) && Alone(s, p)
    ensures Leads(w, u, true, false, from, t) && t.placers == s.placers && t.made == s.made
    ensures t.fs == Fs(s.fs.names - {Outside(p)}, s.fs.inodes, s.fs.next)
    ensures Enabled(t, UserRemoveDir(Parent(p)))
  {
    hide Leads, ApplyWriter, ApplyCollector, ApplyPlacer, WriterCan, CollectorCan, PlacerCan;
    t := s;
    if Outside(p) in s.fs.names {
      t := Next(w, u, true, false, from, s, UserUnlink(p));
    } else {
      assert s.fs.names - {Outside(p)} == s.fs.names;
    }
  }

  /** The directory of `p` is removed under the call that made it, and made again by call `k`. */
  lemma Remade(w: World, u: set<Bytes>, from: State, s: State, k: nat, p: Path) returns (t: State)
    requires Leads(w, u, true, false, from, s) && Alone(s, p) && k !in s.placers
    ensures Leads(w, u, true, false, from, t) && t.placers == s.placers && (k, Parent(p)) in t.made
    ensures t.fs == Fs(s.fs.names - {Outside(p)}, s.fs.inodes, s.fs.next)
  {
    var removed := Removed(w, u, from, s, p);
    t := MadeAgain(w, u, from, removed, k, Parent(p));
  }

  lemma MadeAgain(w: World, u: set<Bytes>, from: State, s: State, k: nat, dir: Path) returns (t: State)
    requires Leads(w, u, true, false, from, s) && k !in s.placers && Enabled(s, UserRemoveDir(dir))
    ensures Leads(w, u, true, false, from, t) && t.placers == s.placers && (k, dir) in t.made && t.fs == s.fs
  {
    hide Leads, ApplyWriter, ApplyCollector, WriterCan, CollectorCan;
    var gone := Next(w, u, true, false, from, s, UserRemoveDir(dir));
    assert gone.fs.names == s.fs.names - {Outside(dir)} && gone.placers == s.placers;
    t := Next(w, u, true, false, from, gone, MakeDir(k, dir));
    assert t.fs.names == s.fs.names;
  }

  /** Whenever a placer has filled a private file and has yet to set its mode, and its directory is
      removed and made again by another call, that call can link any object at the same path: the
      mode then lands on the object, which becomes writable. */
  lemma SharedPathUnsealsAnObject(w: World, u: set<Bytes>, s: State, m: nat, k: nat, d: Digest) returns (t: State)
    requires Enabled(s, SetMode(m)) && s.placers[m].intent == PrivateInode && Alone(s, s.placers[m].path)
    requires k !in s.placers && s.fs.IsFile(Object(d))
    ensures Leads(w, u, true, false, s, t) && t.fs.IsFile(Object(d))
    ensures OwnerWrite(t.fs.At(Object(d)).mode) && t.fs.At(Object(d)).mode != OBJECT_MODE
  {
    LeadsHere(w, u, true, false, s);
    assert s.placers[m].path != [];
    hide Leads, ApplyWriter, ApplyCollector, ApplyUser, WriterCan, CollectorCan, UserCan, Alone;
    t := Remade(w, u, s, s, k, s.placers[m].path);
    t := LinksObject(w, u, s, t, k, d, s.placers[m].path);
    t := Next(w, u, true, false, s, t, SetMode(m));
  }

  /** And between the removal and a truncating open, the copy of a process that may write to
      read-only files empties the object. */
  lemma SharedPathEmptiesAnObject(w: World, u: set<Bytes>, s: State, m: nat, k: nat, d: Digest, mode: nat) returns (t: State)
    requires m in s.placers && s.placers[m].Cleared? && s.fs.IsFile(Object(s.placers[m].digest))
    requires k !in s.placers && s.fs.IsFile(Object(d)) && Alone(s, s.placers[m].path)
    ensures Leads(w, u, true, false, s, t) && t.fs.IsFile(Object(d)) && t.fs.At(Object(d)).content == []
  {
    LeadsHere(w, u, true, false, s);
    assert s.placers[m].path != [];
    hide Leads, ApplyWriter, ApplyCollector, ApplyUser, WriterCan, CollectorCan, UserCan, Alone;
    t := Remade(w, u, s, s, k, s.placers[m].path);
    t := LinksObject(w, u, s, t, k, d, s.placers[m].path);
    t := Next(w, u, true, false, s, t, OpenPath(m, mode));
  }

  // ------------------------------------------------------------------ one put to its end

  function Inserted(s: State, d: Digest, c: Bytes): State
  {
    s.(fs := Fs(s.fs.names[Object(d) := FileAt(s.fs.next)],
                s.fs.inodes[s.fs.next := Inode(c, OBJECT_MODE, s.clock)], s.fs.next + 1),
       sealed := s.sealed[s.fs.next := d])
  }

  lemma PutRuns(w: World, u: set<Bytes>, from: State, s: State, c: Bytes) returns (t: State)
    requires Leads(w, u, true, true, from, s) && s.writers == map[] && c in u
    requires Object(w.blob(c)) !in s.fs.names && Staging(w.blob(c)) !in s.fs.names
    ensures t == Inserted(s, w.blob(c), c) && Leads(w, u, true, true, from, t)
  {
    hide Leads, ApplyPlacer, ApplyCollector, ApplyUser, PlacerCan, CollectorCan, UserCan;
    var d := w.blob(c);
    t := Next(w, u, true, true, from, s, Put(1, c, false));
    t := PutStages(w, u, true, true, from, t, 1, d, c);
    t := PutCommits(w, u, from, s, t, d, c);
  }

  lemma PutCommits(w: World, u: set<Bytes>, from: State, s: State, staged: State, d: Digest, c: Bytes) returns (t: State)
    requires Leads(w, u, true, true, from, staged) && s.writers == map[] && Staging(d) !in s.fs.names
    requires staged == Staged(s, 1, d, c)
    ensures t == Inserted(s, d, c) && Leads(w, u, true, true, from, t)
  {
    hide Leads, ApplyPlacer, ApplyCollector, ApplyUser, PlacerCan, CollectorCan, UserCan;
    t := Next(w, u, true, true, from, staged, Seal(1));
    t := Next(w, u, true, true, from, t, Commit(1));
    assert t == CommitStep(SealStep(staged, 1), 1);
    hide Apply, Enabled;
    SealedCommits(s, d, c);
  }

  lemma SealedCommits(s: State, d: Digest, c: Bytes)
    requires s.writers == map[] && Staging(d) !in s.fs.names
    ensures CommitStep(SealStep(Staged(s, 1, d, c), 1), 1) == Inserted(s, d, c)
  {
    var sealed := SealStep(Staged(s, 1, d, c), 1);
    assert sealed.fs.inodes == s.fs.inodes[s.fs.next := Inode(c, OBJECT_MODE, s.clock)];
    assert sealed.writers == map[1 := Protocol.Sealed(d, c)];
    hide SealStep;
    RenameStaged(s.fs, d);
    assert sealed.writers - {1} == map[];
  }

  lemma RenameStaged(fs: Fs, d: Digest)
    requires Staging(d) !in fs.names
    ensures (fs.names[Staging(d) := FileAt(fs.next)] - {Staging(d)})[Object(d) := FileAt(fs.next)]
            == fs.names[Object(d) := FileAt(fs.next)]
  {
  }

  // ------------------------------------------------------------------ dedupe and overlapping passes

  lemma PassSweeps(w: World, u: set<Bytes>, from: State, s: State, g: nat, minAge: nat) returns (t: State)
    requires Leads(w, u, true, true, from, s) && g !in s.passes
    ensures Leads(w, u, true, true, from, t)
    ensures t == s.(passes := s.passes[g := SweepPhase(minAge, {}, s.clock, None)])
  {
    hide Leads, ApplyWriter, ApplyPlacer, ApplyUser, WriterCan, PlacerCan, UserCan, MarkPass;
    t := Next(w, u, true, true, from, s, GcStart(g, [], minAge));
    t := Next(w, u, true, true, from, t, GcSweep(g));
    assert t.passes == s.passes[g := SweepPhase(minAge, {}, s.clock, None)];
  }

  lemma PassDooms(w: World, u: set<Bytes>, from: State, s: State, g: nat, d: Digest, minAge: nat) returns (t: State)
    requires Leads(w, u, true, true, from, s) && g !in s.passes
    requires s.fs.IsFile(Object(d)) && Age(s.fs.At(Object(d)).mtime, s.clock) >= minAge
    ensures Leads(w, u, true, true, from, t)
    ensures t == s.(passes := s.passes[g := SweepPhase(minAge, {}, s.clock, Some(d))])
  {
    hide Leads, ApplyWriter, ApplyPlacer, ApplyUser, WriterCan, PlacerCan, UserCan, MarkPass;
    t := PassSweeps(w, u, from, s, g, minAge);
    t := Next(w, u, true, true, from, t, GcStat(g, d));
    assert t.passes == s.passes[g := SweepPhase(minAge, {}, s.clock, Some(d))];
  }

  /** From any state with an old object that is not the root, a pass over the root whose first read
      fails goes on to unlink the object, and if the root's manifest names it the root no longer
      unfolds. */
  lemma FailedReadTakesAReachableObject(w: World, u: set<Bytes>, s: State, g: nat, root: Digest, d: Digest, minAge: nat) returns (t: State)
    requires g !in s.passes && d != root && s.fs.IsFile(Object(d))
    requires Age(s.fs.At(Object(d)).mtime, s.clock) >= minAge
    ensures Leads(w, u, true, true, s, t) && t.clock == s.clock && Object(d) !in t.fs.names
    ensures var tree := GetTree(w, ContentsOf(s.fs), root);
            tree.Ok? && d in BlobDigests(tree.value) + SubtreeDigests(tree.value) ==> Unfold(w, ContentsOf(t.fs), root).Err?
  {
    LeadsHere(w, u, true, true, s);
    hide Leads, ApplyWriter, ApplyPlacer, ApplyUser, WriterCan, PlacerCan, UserCan, ContentsOf, Unfold, ParseTree;
    var marked := FailedMark(w, u, s, s, g, root, minAge);
    t := Next(w, u, true, true, s, marked, GcSweep(g));
    assert t == SweepPass(marked, g);
    t := StatAndUnlink(w, u, s, t, g, d);
    RootUnlinked(w, s.fs, root, d);
  }

  lemma RootUnlinked(w: World, fs: Fs, root: Digest, d: Digest)
    requires d != root
    ensures var t := GetTree(w, ContentsOf(fs), root);
            t.Ok? && d in BlobDigests(t.value) + SubtreeDigests(t.value) ==> Unfold(w, ContentsOf(fs.Unlink(Object(d))), root).Err?
  {
    hide ContentsOf, Unfold, ParseTree;
    var t, left := GetTree(w, ContentsOf(fs), root), ContentsOf(fs.Unlink(Object(d)));
    ContentsAt(fs, root);
    ContentsAt(fs.Unlink(Object(d)), root);
    ContentsAt(fs.Unlink(Object(d)), d);
    if t.Ok? && d in BlobDigests(t.value) + SubtreeDigests(t.value) { MissingBelow(w, left, root, t.value, d); }
  }

  lemma FailedMark(w: World, u: set<Bytes>, from: State, s: State, g: nat, root: Digest, minAge: nat) returns (t: State)
    requires Leads(w, u, true, true, from, s) && g !in s.passes
    ensures Leads(w, u, true, true, from, t)
    ensures t == s.(passes := s.passes[g := MarkPhase(minAge, Marks({root}, []))])
  {
    hide Leads, ApplyWriter, ApplyPlacer, ApplyUser, WriterCan, PlacerCan, UserCan, MarkStep, ContentsOf;
    t := Next(w, u, true, true, from, s, GcStart(g, [root], minAge));
    t := Next(w, u, true, true, from, t, GcMark(g, false));
    assert {} + {root} == {root} && [root][..0] == [];
    assert t.passes == s.passes[g := MarkPhase(minAge, Marks({root}, []))];
  }

  lemma StatAndUnlink(w: World, u: set<Bytes>, from: State, s: State, g: nat, d: Digest) returns (t: State)
    requires Leads(w, u, true, true, from, s) && Enabled(s, GcStat(g, d))
    requires Age(s.fs.At(Object(d)).mtime, s.passes[g].now) >= s.passes[g].minAge
    ensures Leads(w, u, true, true, from, t) && t.fs == s.fs.Unlink(Object(d)) && t.clock == s.clock
  {
    hide Leads, ApplyWriter, ApplyPlacer, ApplyUser, WriterCan, PlacerCan, UserCan, MarkPass;
    var doomed := Next(w, u, true, true, from, s, GcStat(g, d));
    assert doomed == StatStep(s, g, d);
    t := Next(w, u, true, true, from, doomed, GcUnlink(g));
  }

  /** A put that finds its object already stored reports success and changes nothing; if no root
      reaches the object and it is old, a pass may take it away at once. */
  lemma DedupeHitMayBeLost(w: World, u: set<Bytes>, s: State, id: nat, g: nat, c: Bytes, minAge: nat) returns (t: State)
    requires id !in s.writers && g !in s.passes && s.fs.IsFile(Object(w.blob(c)))
    requires Age(s.fs.At(Object(w.blob(c))).mtime, s.clock) >= minAge
    ensures Apply(w, s, Put(id, c, false)) == s
    ensures Leads(w, u, true, true, s, t) && t.clock == s.clock && Object(w.blob(c)) !in t.fs.names
  {
    LeadsHere(w, u, true, true, s);
    hide Leads;
    t := PassDooms(w, u, s, s, g, w.blob(c), minAge);
    t := Next(w, u, true, true, s, t, GcUnlink(g));
  }

  /** Whenever two passes have doomed the same object, a run goes on from there in which one
      unlinks it, a put inserts it afresh, and the other is about to unlink the fresh object. */
  lemma SharedDoomTakesAYoungObject(w: World, u: set<Bytes>, s: State, g: nat, h: nat, c: Bytes) returns (t: State)
    requires g != h && Dooms(s, g, w.blob(c)) && Dooms(s, h, w.blob(c)) && c in u
    requires s.writers == map[] && Staging(w.blob(c)) !in s.fs.names
    ensures Leads(w, u, true, true, s, t) && t.clock == s.clock
    ensures t.fs.IsFile(Object(w.blob(c))) && t.fs.At(Object(w.blob(c))).mtime == t.clock
    ensures Enabled(t, GcUnlink(h)) && Object(w.blob(c)) !in Apply(w, t, GcUnlink(h)).fs.names
  {
    LeadsHere(w, u, true, true, s);
    hide Leads, ApplyWriter, ApplyPlacer, ApplyUser, WriterCan, PlacerCan, UserCan;
    t := Next(w, u, true, true, s, s, GcUnlink(g));
    t := PutRuns(w, u, s, t, c);
  }

  /** Two overlapping passes get there from any state with an old object. */
  lemma OverlappingPassesMayBothDoom(w: World, u: set<Bytes>, s: State, d: Digest, minAge: nat) returns (t: State)
    requires s.passes == map[] && s.fs.IsFile(Object(d)) && Age(s.fs.At(Object(d)).mtime, s.clock) >= minAge
    ensures Leads(w, u, true, true, s, t) && Dooms(t, 1, d) && Dooms(t, 2, d) && t.fs == s.fs && t.writers == s.writers
  {
    LeadsHere(w, u, true, true, s);
    hide Leads;
    t := PassDooms(w, u, s, s, 1, d, minAge);
    t := PassDooms(w, u, s, t, 2, d, minAge);
  }
}
