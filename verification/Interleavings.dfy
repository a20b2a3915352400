/** What holds over whole runs of the concurrent store: objects at their final paths are always
    whole, and an inode that has been an object never changes again. */
module Interleavings {
  import opened Base
  import opened Manifest
  import opened Objects
  import opened Filesystem
  import opened Marking
  import opened ObjectStore
  import opened Protocol
  import Digests

  /** A run: each state follows from the one before by an enabled step. */
  ghost predicate Trace(w: World, ss: seq<State>, steps: seq<Step>)
  {
    && |ss| == |steps| + 1
    && forall i :: 0 <= i < |steps| ==> Enabled(ss[i], steps[i]) && ss[i + 1] == Apply(w, ss[i], steps[i])
  }

  ghost predicate AllRouted(w: World, u: set<Bytes>, ss: seq<State>, steps: seq<Step>)
    requires |ss| == |steps| + 1
  {
    forall i :: 0 <= i < |steps| ==> Routed(w, u, ss[i], steps[i])
  }

  ghost predicate AllUnshared(ss: seq<State>, steps: seq<Step>)
    requires |ss| == |steps| + 1
  {
    forall i :: 0 <= i < |steps| ==> Unshared(ss[i], steps[i])
  }

  ghost predicate AllOrderly(w: World, u: set<Bytes>, ss: seq<State>, steps: seq<Step>)
    requires |ss| == |steps| + 1
  {
    AllRouted(w, u, ss, steps) && AllUnshared(ss, steps)
  }

  const START := State(Fs(map[], map[], 0), 0, map[], map[], map[], map[], map[], {})

  lemma StartInv(w: World, u: set<Bytes>)
    ensures Inv(w, u, START)
  {
  }

  lemma {:induction false} RunKeepsInv(w: World, u: set<Bytes>, ss: seq<State>, steps: seq<Step>, n: nat)
    requires Trace(w, ss, steps) && AllOrderly(w, u, ss, steps) && Inv(w, u, ss[0]) && n <= |steps|
    ensures Inv(w, u, ss[n])
    decreases n
  {
    hide Inv, Apply;
    if n > 0 {
      RunKeepsInv(w, u, ss, steps, n - 1);
      StepKeepsInv(w, u, ss[n - 1], steps[n - 1]);
    }
  }

  /** At most one put is in flight on every shard. */
  ghost predicate OnePerShard(s: State, shards: nat)
    requires shards > 0
  {
    forall a, b :: a in s.writers && b in s.writers && a != b ==>
      Digests.Shard(s.writers[a].digest, shards) != Digests.Shard(s.writers[b].digest, shards)
  }

  /** A put that would be the second of its digest either finds the object, and then there is no
      first, or makes two on one shard. */
  lemma ShardedPutIsAlone(w: World, u: set<Bytes>, s: State, id: nat, d: Digest, content: Bytes, shards: nat)
    requires shards > 0 && Inv(w, u, s) && id !in s.writers && OnePerShard(PutStep(s, id, d, content), shards)
    ensures forall x :: x in s.writers ==> s.writers[x].digest != d
  {
    hide DiskInv, PlacersInv, Digests.Shard;
    var t := PutStep(s, id, d, content);
    assert Object(d) !in s.fs.names ==> id in t.writers && t.writers[id].digest == d;
    forall x | x in s.writers ensures s.writers[x].digest != d {
      assert WriterOk(w, u, s.fs, s.writers[x]) && t.writers[x] == s.writers[x];
    }
  }

  lemma ShardedStepIsRouted(w: World, u: set<Bytes>, s: State, step: Step, shards: nat)
    requires shards > 0 && Inv(w, u, s) && Enabled(s, step) && (step.Put? ==> step.content in u)
    requires OnePerShard(Apply(w, s, step), shards)
    ensures Routed(w, u, s, step)
  {
    hide Inv, OnePerShard;
    if step.Put? {
      ShardedPutIsAlone(w, u, s, step.id, DigestFor(w, step.content, step.manifest), step.content, shards);
    }
  }

  /** Routing every digest to its shard and running one put at a time per shard gives one put per
      digest, over whole runs. */
  lemma {:induction false} ShardedRunIsRouted(w: World, u: set<Bytes>, ss: seq<State>, steps: seq<Step>, shards: nat, n: nat)
    requires shards > 0 && Trace(w, ss, steps) && AllUnshared(ss, steps) && Inv(w, u, ss[0]) && n <= |steps|
    requires forall i :: 0 <= i < |ss| ==> OnePerShard(ss[i], shards)
    requires forall i :: 0 <= i < |steps| && steps[i].Put? ==> steps[i].content in u
    ensures Inv(w, u, ss[n]) && forall i :: 0 <= i < n ==> Routed(w, u, ss[i], steps[i])
    ensures n == |steps| ==> AllOrderly(w, u, ss, steps)
    decreases n
  {
    hide Inv, Apply, OnePerShard, Routed, Unshared;
    if n > 0 {
      ShardedRunIsRouted(w, u, ss, steps, shards, n - 1);
      assert OnePerShard(ss[n], shards) && ss[n] == Apply(w, ss[n - 1], steps[n - 1]);
      ShardedStepIsRouted(w, u, ss[n - 1], steps[n - 1], shards);
      StepKeepsInv(w, u, ss[n - 1], steps[n - 1]);
    }
  }

  // ------------------------------------------------------------------ calls with directories of their own

  /** Every directory that a call in flight has made is there, was made by no other call in
      flight, and holds whatever file the call is placing. */
  ghost predicate Owned(s: State)
  {
    && (forall c :: c in s.made ==> Outside(c.1) in s.fs.names && s.fs.names[Outside(c.1)].DirAt?)
    && (forall b, c :: b in s.made && c in s.made && b.1 == c.1 ==> b.0 == c.0)
    && (forall m :: m in s.placers ==> s.placers[m].path != [] && (m, Parent(s.placers[m].path)) in s.made)
  }

  /** No directory is removed under the call that made it. */
  ghost predicate Standing(s: State, step: Step)
  {
    step.UserRemoveDir? ==> forall c :: c in s.made ==> c.1 != step.path
  }

  lemma OwnedIsUnshared(s: State, step: Step)
    requires Owned(s)
    ensures Unshared(s, step)
  {
    if step.LinkPath? && step.placer in s.placers {
      var p := s.placers[step.placer].path;
      forall m | m in s.placers && s.placers[m].path == p ensures m == step.placer {
        assert (m, Parent(p)) in s.made && (step.placer, Parent(p)) in s.made;
      }
    }
  }

  lemma WriterKeepsDirs(w: World, s: State, step: Step, p: Path)
    requires OfWriter(step) && Enabled(s, step) && Outside(p) in s.fs.names
    ensures var t := ApplyWriter(w, s, step); Outside(p) in t.fs.names && t.fs.names[Outside(p)] == s.fs.names[Outside(p)]
  {
    hide WriteAt, DigestFor;
  }

  lemma PlacerKeepsDirs(s: State, step: Step, p: Path)
    requires OfPlacer(step) && Enabled(s, step) && Outside(p) in s.fs.names && s.fs.names[Outside(p)].DirAt?
    ensures var t := ApplyPlacer(s, step); Outside(p) in t.fs.names && t.fs.names[Outside(p)].DirAt?
  {
    hide WriteAt, WantedMode;
  }

  lemma DirStays(w: World, s: State, step: Step, p: Path)
    requires Enabled(s, step) && Outside(p) in s.fs.names && s.fs.names[Outside(p)].DirAt?
    requires step.UserRemoveDir? ==> step.path != p
    ensures var t := Apply(w, s, step); Outside(p) in t.fs.names && t.fs.names[Outside(p)].DirAt?
  {
    hide ApplyWriter, ApplyPlacer, MarkStep, MarkLeaf, ContentsOf;
    if OfWriter(step) { WriterKeepsDirs(w, s, step, p); }
    if OfPlacer(step) { PlacerKeepsDirs(s, step, p); }
  }

  /** Directories may be forgotten, and one new one may be added. */
  ghost predicate MadeBy(s: State, t: State, made: Option<(nat, Path)>)
  {
    && (forall c :: c in t.made ==> c in s.made || made == Some(c))
    && (made.Some? ==> Outside(made.value.1) !in s.fs.names
                       && Outside(made.value.1) in t.fs.names && t.fs.names[Outside(made.value.1)].DirAt?)
    && (forall m :: m in t.placers ==> t.placers[m].path != [] && (m, Parent(t.placers[m].path)) in t.made)
  }

  lemma OwnedAfter(s: State, t: State, made: Option<(nat, Path)>)
    requires Owned(s) && MadeBy(s, t, made)
    requires forall c :: c in s.made ==> Outside(c.1) in t.fs.names && t.fs.names[Outside(c.1)].DirAt?
    ensures Owned(t)
  {
  }

  function Maker(step: Step): Option<(nat, Path)>
  {
    if step.MakeDir? then Some((step.placer, step.path)) else None
  }

  lemma CallsMake(s: State, step: Step)
    requires OfPlacer(step) && Enabled(s, step) && Owned(s)
    ensures MadeBy(s, ApplyPlacer(s, step), Maker(step))
  {
    hide WriteAt, WantedMode;
  }

  lemma StepMakes(w: World, s: State, step: Step)
    requires Owned(s) && Enabled(s, step)
    ensures MadeBy(s, Apply(w, s, step), Maker(step))
  {
    hide ApplyWriter, ApplyPlacer, ApplyCollector, ApplyUser, WriterCan, PlacerCan, UserCan, CollectorCan;
    if OfPlacer(step) {
      hide MadeBy, Owned;
      CallsMake(s, step);
    }
  }

  lemma StepKeepsOwned(w: World, s: State, step: Step)
    requires Owned(s) && Enabled(s, step) && Standing(s, step)
    ensures Owned(Apply(w, s, step))
  {
    hide Apply, Enabled, MadeBy, Maker;
    var t := Apply(w, s, step);
    forall c | c in s.made ensures Outside(c.1) in t.fs.names && t.fs.names[Outside(c.1)].DirAt? {
      DirStays(w, s, step, c.1);
    }
    StepMakes(w, s, step);
    OwnedAfter(s, t, Maker(step));
  }

  /** Creating a directory fails if it exists, so while no directory is removed under the call that
      made it, no two calls place files at one path. */
  lemma {:induction false} OwnedRunIsUnshared(w: World, ss: seq<State>, steps: seq<Step>, n: nat)
    requires Trace(w, ss, steps) && Owned(ss[0]) && n <= |steps|
    requires forall i :: 0 <= i < |steps| ==> Standing(ss[i], steps[i])
    ensures Owned(ss[n]) && forall i :: 0 <= i < n ==> Unshared(ss[i], steps[i])
    ensures n == |steps| ==> AllUnshared(ss, steps)
    decreases n
  {
    hide Owned, Apply, Unshared, Standing;
    if n > 0 {
      OwnedRunIsUnshared(w, ss, steps, n - 1);
      OwnedIsUnshared(ss[n - 1], steps[n - 1]);
      StepKeepsOwned(w, ss[n - 1], steps[n - 1]);
    }
  }

  // ------------------------------------------------------------------ whole objects, frozen inodes

  /** In every interleaving of writers, materializers, users, collectors and stopped processes with
      one put per digest in flight, an object at its final path is complete, is what its digest
      names, and is read-only; and a path outside the store shares its inode only if it was
      placed as a non-executable overlay entry. */
  lemma ObjectsAlwaysWhole(w: World, u: set<Bytes>, ss: seq<State>, steps: seq<Step>, n: nat, d: Digest)
    requires Trace(w, ss, steps) && AllOrderly(w, u, ss, steps) && Inv(w, u, ss[0]) && n <= |steps|
    requires ss[n].fs.IsFile(Object(d))
    ensures ss[n].fs.At(Object(d)).mode == OBJECT_MODE
    ensures ss[n].fs.At(Object(d)).content in u && Names(w, d, ss[n].fs.At(Object(d)).content)
    ensures forall p :: Outside(p) in ss[n].fs.names && ss[n].fs.names[Outside(p)] == ss[n].fs.names[Object(d)] ==>
      p in ss[n].placed && ss[n].placed[p] == (OverlayLower, false)
  {
    RunKeepsInv(w, u, ss, steps, n);
    var s := ss[n];
    assert NameOk(s.sealed, s.placed, Object(d), s.fs.names[Object(d)]);
    forall p | Outside(p) in s.fs.names && s.fs.names[Outside(p)] == s.fs.names[Object(d)]
      ensures p in s.placed && s.placed[p] == (OverlayLower, false)
    {
      assert NameOk(s.sealed, s.placed, Outside(p), s.fs.names[Outside(p)]);
    }
  }

  /** `b` keeps every inode that is or has been an object in `a`. */
  ghost predicate Frozen(a: State, b: State)
  {
    forall i :: i in a.sealed ==>
      && i in b.sealed && b.sealed[i] == a.sealed[i]
      && (i in a.fs.inodes ==> i in b.fs.inodes && b.fs.inodes[i] == a.fs.inodes[i])
  }

  lemma StepFreezes(w: World, u: set<Bytes>, s: State, step: Step)
    requires Inv(w, u, s) && Enabled(s, step)
    ensures Frozen(s, Apply(w, s, step))
  {
    hide Inv, Apply, Touched, Enabled;
    SealedStays(w, u, s, step);
    OnlyTouched(w, s, step);
    TouchedNotSealed(w, u, s, step);
  }

  lemma SealedStays(w: World, u: set<Bytes>, s: State, step: Step)
    requires Inv(w, u, s) && Enabled(s, step)
    ensures forall i :: i in s.sealed ==> i in Apply(w, s, step).sealed && Apply(w, s, step).sealed[i] == s.sealed[i]
  {
    hide Inv, ApplyPlacer, ApplyCollector, ApplyUser;
    if step.Commit? {
      StagingNotSealed(w, u, s, s.writers[step.id].digest);
    } else {
      hide ApplyWriter;
    }
  }

  /** What a step writes to is neither an object nor was one. */
  lemma TouchedNotSealed(w: World, u: set<Bytes>, s: State, step: Step)
    requires Inv(w, u, s) && Enabled(s, step)
    ensures Touched(s, step).Some? ==> Touched(s, step).value !in s.sealed
  {
    NextNotSealed(w, u, s);
    if step.OpenPath? || step.FillPath? || step.SetMode? { assert PlacerOk(s.fs, s.sealed, s.placers[step.placer]); }
    hide Inv;
    if step.OpenStaging? || step.Seal? { StagingNotSealed(w, u, s, s.writers[step.id].digest); }
    if step.WriteChunk? { OpenNotSealed(w, u, s, step.id); }
    if step.UserWrite? || step.UserChmod? { OutsideInode(w, u, s, step.path); }
  }

  lemma StagingNotSealed(w: World, u: set<Bytes>, s: State, d: Digest)
    requires Inv(w, u, s)
    ensures s.fs.IsFile(Staging(d)) ==> s.fs.names[Staging(d)].ino !in s.sealed
  {
    assert s.fs.IsFile(Staging(d)) ==> NameOk(s.sealed, s.placed, Staging(d), s.fs.names[Staging(d)]);
  }

  lemma OpenNotSealed(w: World, u: set<Bytes>, s: State, id: nat)
    requires Inv(w, u, s) && id in s.writers && s.writers[id].Opened?
    ensures s.writers[id].ino !in s.sealed
  {
    assert WriterOk(w, u, s.fs, s.writers[id]);
    StagingNotSealed(w, u, s, s.writers[id].digest);
  }

  /** Over a whole run no write, chmod, put, materialization or collection changes the bytes or
      the mode of an inode once it has been an object, collected or not. */
  lemma {:induction false} SealedForever(w: World, u: set<Bytes>, ss: seq<State>, steps: seq<Step>, m: nat, n: nat)
    requires Trace(w, ss, steps) && AllOrderly(w, u, ss, steps) && Inv(w, u, ss[0]) && m <= n <= |steps|
    ensures Frozen(ss[m], ss[n])
    decreases n
  {
    hide Inv, Apply;
    if m < n {
      SealedForever(w, u, ss, steps, m, n - 1);
      RunKeepsInv(w, u, ss, steps, m);
      RunKeepsInv(w, u, ss, steps, n - 1);
      StepFreezes(w, u, ss[n - 1], steps[n - 1]);
      FrozenTransitive(w, u, ss[m], ss[n - 1], ss[n]);
    }
  }

  lemma FrozenTransitive(w: World, u: set<Bytes>, a: State, b: State, c: State)
    requires Inv(w, u, a) && Frozen(a, b) && Frozen(b, c)
    ensures Frozen(a, c)
  {
    forall i | i in a.sealed
      ensures i in c.sealed && c.sealed[i] == a.sealed[i]
      ensures i in a.fs.inodes ==> i in c.fs.inodes && c.fs.inodes[i] == a.fs.inodes[i]
    {
      assert SealedInode(w, u, a.fs, i, a.sealed[i]);
    }
  }

  /** The collector never changes what a path outside the store is or reads. */
  lemma CollectorSparesWorkspaces(w: World, s: State, step: Step)
    requires Enabled(s, step) && OfCollector(step)
    ensures OutsideKept(s.fs, Apply(w, s, step).fs)
  {
    hide MarkStep, MarkLeaf, ContentsOf;
    var t := Apply(w, s, step);
    forall p: Path ensures SamePath(s.fs, t.fs, p) { }
  }
}
