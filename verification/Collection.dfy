/** Garbage collection while puts are in flight: what is reachable from the roots of every pass
    survives, and so does what is young, so a tree committed in time can be materialized. */
module Collection {
  import opened Base
  import opened Manifest
  import opened Objects
  import opened Filesystem
  import opened Marking
  import opened ObjectStore
  import opened Protocol
  import opened Interleavings

  /** What a run must not lose: `kept` are the directories reachable from `roots` in `base`.
      `dirs` and `files` are the digests that any manifest of the run uses as directories (or any
      pass as a root) and as files. */
  datatype Keep = Keep(base: Contents, roots: set<Digest>, kept: set<Digest>, dirs: set<Digest>, files: set<Digest>)

  /** No protected directory that is stored as a tree is also named as a file. A root that is a
      blob may well be. */
  ghost predicate RolesApart(w: World, u: set<Bytes>, k: Keep)
  {
    && (forall d :: d in k.kept && d in k.files ==> GetTree(w, k.base, d).Err?)
    && forall d, c :: d in k.dirs && c in u && ParseTree(w, d, c).Ok? ==>
         SubtreeDigests(ParseTree(w, d, c).value) <= k.dirs && BlobDigests(ParseTree(w, d, c).value) <= k.files
  }

  ghost predicate FollowsFrom(w: World, k: Keep, ds: set<Digest>)
  {
    && k.roots <= ds
    && forall d :: d in ds && d in k.kept && GetTree(w, k.base, d).Ok? ==> SubtreeDigests(GetTree(w, k.base, d).value) <= ds
  }

  /** `kept` is closed, and is the least such set that has the roots. */
  ghost predicate Reachable(w: World, k: Keep)
  {
    && k.roots <= k.kept <= k.dirs && Closed(w, k.base, k.kept)
    && forall ds :: FollowsFrom(w, k, ds) ==> k.kept <= ds
  }

  ghost function Needed(w: World, k: Keep): set<Digest>
  {
    k.kept + FilesOf(w, k.base, k.kept)
  }

  ghost predicate Present(fs: Fs, base: Contents, d: Digest)
  {
    d in base && fs.IsFile(Object(d)) && fs.At(Object(d)).content == base[d]
  }

  ghost predicate PassOk(w: World, k: Keep, p: Pass)
  {
    match p
    case MarkPhase(_, m) => MarkInv(w, k.base, k.dirs, k.files, k.kept, k.roots, m)
    case SweepPhase(_, live, _, doomed) => Needed(w, k) <= live && (doomed.Some? ==> doomed.value !in live)
  }

  ghost predicate KeepInv(w: World, u: set<Bytes>, k: Keep, s: State)
  {
    && Inv(w, u, s)
    && (forall d :: d in Needed(w, k) ==> Present(s.fs, k.base, d))
    && (forall g :: g in s.passes ==> PassOk(w, k, s.passes[g]))
  }

  /** Every pass starts from the protected roots and perhaps others, all of them directories. */
  ghost predicate Rooted(k: Keep, step: Step)
  {
    step.GcStart? ==> (forall d :: d in k.roots ==> d in step.roots) && (forall d :: d in step.roots ==> d in k.dirs)
  }

  /** The digest that a marking turn takes from the queue. */
  function Popped(s: State, g: nat): Digest
    requires g in s.passes && s.passes[g].MarkPhase? && s.passes[g].marks.queue != []
  {
    s.passes[g].marks.queue[|s.passes[g].marks.queue| - 1]
  }

  /** No marking read of a protected directory fails. */
  ghost predicate ReadsKept(k: Keep, s: State, step: Step)
  {
    step.GcMark? && !step.read && Enabled(s, step) ==> Popped(s, step.pass) !in k.kept
  }

  ghost predicate Guarded(k: Keep, s: State, step: Step)
  {
    Rooted(k, step) && ReadsKept(k, s, step)
  }

  // ------------------------------------------------------------------ reachable objects survive

  lemma WriterKeepsNames(w: World, s: State, step: Step, d: Digest)
    requires OfWriter(step) && Enabled(s, step) && Object(d) in s.fs.names
    requires step.Commit? ==> s.writers[step.id].digest != d
    ensures var t := ApplyWriter(w, s, step); Object(d) in t.fs.names && t.fs.names[Object(d)] == s.fs.names[Object(d)]
  {
    hide WriteAt, DigestFor;
  }

  lemma PlacerKeepsNames(s: State, step: Step, d: Digest)
    requires OfPlacer(step) && Enabled(s, step) && Object(d) in s.fs.names
    ensures var t := ApplyPlacer(s, step); Object(d) in t.fs.names && t.fs.names[Object(d)] == s.fs.names[Object(d)]
  {
    hide WriteAt, WantedMode;
  }

  lemma ObjectNameStays(w: World, s: State, step: Step, d: Digest)
    requires Enabled(s, step) && Object(d) in s.fs.names
    requires step.GcUnlink? ==> s.passes[step.pass].doomed != Some(d)
    requires step.Commit? ==> s.writers[step.id].digest != d
    ensures Object(d) in Apply(w, s, step).fs.names && Apply(w, s, step).fs.names[Object(d)] == s.fs.names[Object(d)]
  {
    hide ApplyWriter, ApplyPlacer, MarkStep, MarkLeaf, ContentsOf;
    if OfWriter(step) { WriterKeepsNames(w, s, step, d); }
    if OfPlacer(step) { PlacerKeepsNames(s, step, d); }
  }

  /** Nothing but an unlink by a pass that doomed it takes an object away or changes it. */
  lemma ObjectStays(w: World, u: set<Bytes>, s: State, step: Step, d: Digest)
    requires Inv(w, u, s) && Enabled(s, step) && s.fs.IsFile(Object(d))
    requires step.GcUnlink? ==> s.passes[step.pass].doomed != Some(d)
    ensures var t := Apply(w, s, step); t.fs.IsFile(Object(d)) && t.fs.At(Object(d)) == s.fs.At(Object(d))
  {
    hide Apply;
    assert NameOk(s.sealed, s.placed, Object(d), s.fs.names[Object(d)]);
    assert step.Commit? ==> WriterOk(w, u, s.fs, s.writers[step.id]);
    StepFreezes(w, u, s, step);
    ObjectNameStays(w, s, step, d);
  }

  lemma SoundContents(w: World, u: set<Bytes>, s: State)
    requires Inv(w, u, s)
    ensures Sound(w, u, ContentsOf(s.fs))
  {
    forall d | d in ContentsOf(s.fs) ensures ContentsOf(s.fs)[d] in u && Names(w, d, ContentsOf(s.fs)[d]) {
      ContentsAt(s.fs, d);
      assert NameOk(s.sealed, s.placed, Object(d), s.fs.names[Object(d)]);
    }
  }

  lemma MarkPassKeeps(w: World, u: set<Bytes>, k: Keep, s: State, m: Marks)
    requires RolesApart(w, u, k) && KeepInv(w, u, k, s) && m.queue != []
    requires MarkInv(w, k.base, k.dirs, k.files, k.kept, k.roots, m)
    ensures MarkInv(w, k.base, k.dirs, k.files, k.kept, k.roots, MarkStep(w, ContentsOf(s.fs), m))
  {
    var objs := ContentsOf(s.fs);
    SoundContents(w, u, s);
    forall d | d in k.kept ensures GetTree(w, objs, d) == GetTree(w, k.base, d) {
      assert d in Needed(w, k) && Present(s.fs, k.base, d);
      ContentsAt(s.fs, d);
    }
    hide ContentsOf, ParseTree, Inv, MarkInv, FilesOf, MarkStep;
    assert Kinds(w, objs, k.dirs, k.files);
    MarkStepKeeps(w, k.base, objs, k.dirs, k.files, k.kept, k.roots, m);
  }

  /** When marking ends, everything reachable has been marked. */
  lemma MarkedAll(w: World, k: Keep, m: Marks)
    requires Reachable(w, k) && MarkInv(w, k.base, k.dirs, k.files, k.kept, k.roots, m) && m.queue == []
    ensures Needed(w, k) <= m.live
  {
    hide GetTree;
    forall d | d in m.live && d in k.kept ensures Expanded(w, k.base, d, m) { }
    assert FollowsFrom(w, k, m.live);
    forall b | b in FilesOf(w, k.base, k.kept) ensures b in m.live {
      var d :| d in k.kept && GetTree(w, k.base, d).Ok? && b in BlobDigests(GetTree(w, k.base, d).value);
      assert Expanded(w, k.base, d, m);
    }
  }

  lemma StepKeepsReachable(w: World, u: set<Bytes>, k: Keep, s: State, step: Step)
    requires RolesApart(w, u, k) && Reachable(w, k) && KeepInv(w, u, k, s)
    requires Enabled(s, step) && Orderly(w, u, s, step) && Guarded(k, s, step)
    ensures KeepInv(w, u, k, Apply(w, s, step))
  {
    var t := Apply(w, s, step);
    StepKeepsInv(w, u, s, step);
    hide Inv, MarkStep, ContentsOf, MarkInv, FilesOf, WriteAt, GetTree;
    if step.GcUnlink? { assert PassOk(w, k, s.passes[step.pass]); }
    forall d | d in Needed(w, k) ensures Present(t.fs, k.base, d) {
      assert Present(s.fs, k.base, d);
      ObjectStays(w, u, s, step, d);
    }
    PassesOk(w, u, k, s, step);
  }

  lemma StartMarks(w: World, u: set<Bytes>, k: Keep, roots: seq<Digest>, minAge: nat, g: nat)
    requires RolesApart(w, u, k) && Rooted(k, GcStart(g, roots, minAge))
    ensures MarkInv(w, k.base, k.dirs, k.files, k.kept, k.roots, Marks({}, roots))
  {
  }

  lemma MarkTurnOk(w: World, u: set<Bytes>, k: Keep, s: State, g: nat, read: bool)
    requires RolesApart(w, u, k) && KeepInv(w, u, k, s) && Enabled(s, GcMark(g, read)) && ReadsKept(k, s, GcMark(g, read))
    ensures PassOk(w, k, MarkPass(w, s, g, read).passes[g])
  {
    assert PassOk(w, k, s.passes[g]);
    hide KeepInv, RolesApart, MarkStep, MarkLeaf, ContentsOf, MarkInv;
    if read {
      MarkPassKeeps(w, u, k, s, s.passes[g].marks);
    } else {
      MarkLeafKeeps(w, k.base, k.dirs, k.files, k.kept, k.roots, s.passes[g].marks);
    }
  }

  lemma OtherPassStays(w: World, s: State, step: Step, g: nat)
    requires OfCollector(step) && Enabled(s, step) && step.pass != g
    ensures var t := ApplyCollector(w, s, step);
            (g in t.passes <==> g in s.passes) && (g in t.passes ==> t.passes[g] == s.passes[g])
  {
    hide MarkStep, MarkLeaf, ContentsOf;
  }

  lemma CollectorPassesOk(w: World, u: set<Bytes>, k: Keep, s: State, step: Step, g: nat)
    requires RolesApart(w, u, k) && Reachable(w, k) && KeepInv(w, u, k, s) && Guarded(k, s, step)
    requires OfCollector(step) && Enabled(s, step) && g in ApplyCollector(w, s, step).passes
    ensures PassOk(w, k, ApplyCollector(w, s, step).passes[g])
  {
    assert g in s.passes ==> PassOk(w, k, s.passes[g]);
    hide KeepInv, RolesApart, Reachable, MarkPass, Needed, MarkInv;
    if step.pass != g {
      OtherPassStays(w, s, step, g);
      hide ApplyCollector, PassOk;
    } else if step.GcMark? {
      MarkTurnOk(w, u, k, s, g, step.read);
    } else if step.GcSweep? {
      MarkedAll(w, k, s.passes[g].marks);
    } else if step.GcStart? {
      StartMarks(w, u, k, step.roots, step.minAge, step.pass);
    }
  }

  lemma OthersKeepPasses(w: World, s: State, step: Step)
    requires Enabled(s, step)
    ensures Apply(w, s, step).passes == if OfCollector(step) then ApplyCollector(w, s, step).passes else s.passes
  {
    hide ApplyWriter, ApplyPlacer, ApplyUser, ApplyCollector, WriterCan, PlacerCan, UserCan, CollectorCan;
  }

  lemma PassesOk(w: World, u: set<Bytes>, k: Keep, s: State, step: Step)
    requires RolesApart(w, u, k) && Reachable(w, k) && KeepInv(w, u, k, s) && Enabled(s, step) && Guarded(k, s, step)
    ensures forall g :: g in Apply(w, s, step).passes ==> PassOk(w, k, Apply(w, s, step).passes[g])
  {
    hide Inv, PassOk, RolesApart, Reachable, Needed, Guarded;
    OthersKeepPasses(w, s, step);
    hide Apply;
    if OfCollector(step) {
      hide KeepInv, ApplyCollector;
      forall g | g in ApplyCollector(w, s, step).passes ensures PassOk(w, k, ApplyCollector(w, s, step).passes[g]) {
        CollectorPassesOk(w, u, k, s, step, g);
      }
    }
  }

  ghost predicate AllGuarded(k: Keep, ss: seq<State>, steps: seq<Step>)
    requires |ss| == |steps| + 1
  {
    forall i :: 0 <= i < |steps| ==> Guarded(k, ss[i], steps[i])
  }

  /** In every interleaving of puts, stopped processes and any number of passes, none of which
      fails to read the manifest of a reachable directory, each reachable object is present in
      every state, with the content it had at the start. */
  lemma {:induction false} ReachableSurvives(w: World, u: set<Bytes>, k: Keep, ss: seq<State>, steps: seq<Step>, n: nat)
    requires Trace(w, ss, steps) && AllOrderly(w, u, ss, steps) && AllGuarded(k, ss, steps) && n <= |steps|
    requires RolesApart(w, u, k) && Reachable(w, k) && KeepInv(w, u, k, ss[0])
    ensures KeepInv(w, u, k, ss[n])
    decreases n
  {
    hide KeepInv, Apply, RolesApart, Reachable;
    if n > 0 {
      ReachableSurvives(w, u, k, ss, steps, n - 1);
      StepKeepsReachable(w, u, k, ss[n - 1], steps[n - 1]);
    }
  }

  // ------------------------------------------------------------------ young objects survive

  /** No clock reading lies in the future, and a doomed object is still there and still old. */
  ghost predicate AgesOk(s: State)
  {
    && (forall i :: i in s.fs.inodes ==> s.fs.inodes[i].mtime <= s.clock)
    && (forall g :: g in s.passes && s.passes[g].SweepPhase? ==> SweepAged(s, s.passes[g]))
  }

  ghost predicate SweepAged(s: State, p: Pass)
    requires p.SweepPhase?
  {
    && p.now <= s.clock
    && (p.doomed.Some? ==> s.fs.IsFile(Object(p.doomed.value)) && Age(s.fs.At(Object(p.doomed.value)).mtime, p.now) >= p.minAge)
  }

  ghost predicate Dooms(s: State, g: nat, d: Digest)
  {
    g in s.passes && s.passes[g].SweepPhase? && s.passes[g].doomed == Some(d)
  }

  /** No two passes are about to unlink the same object, as when passes do not overlap. */
  ghost predicate SeparateDooms(s: State)
  {
    forall g, h, d :: Dooms(s, g, d) && Dooms(s, h, d) ==> g == h
  }

  lemma MtimesOk(w: World, s: State, step: Step)
    requires Enabled(s, step) && forall i :: i in s.fs.inodes ==> s.fs.inodes[i].mtime <= s.clock
    ensures var t := Apply(w, s, step); forall i :: i in t.fs.inodes ==> t.fs.inodes[i].mtime <= t.clock
  {
    hide Apply, Touched;
    OnlyTouched(w, s, step);
    ClockStep(w, s, step);
  }

  lemma ClockStep(w: World, s: State, step: Step)
    requires Enabled(s, step)
    ensures s.clock <= Apply(w, s, step).clock
  {
    hide ApplyWriter, ApplyPlacer, ApplyCollector, ApplyUser;
  }

  /** How a step leaves a sweeping pass: alone, just started, with nothing doomed, or with an old
      object doomed. */
  lemma PassChanges(w: World, s: State, step: Step, g: nat)
    requires Enabled(s, step) && g in Apply(w, s, step).passes && Apply(w, s, step).passes[g].SweepPhase?
    ensures var t := Apply(w, s, step);
      || (g in s.passes && t.passes[g] == s.passes[g] && !(step.GcUnlink? && step.pass == g))
      || (t.passes[g].now == s.clock == t.clock && t.passes[g].doomed == None)
      || (g in s.passes && s.passes[g].SweepPhase? && t.passes[g] == s.passes[g].(doomed := None) && t.clock == s.clock)
      || (g in s.passes && s.passes[g].SweepPhase? && t.fs == s.fs && t.clock == s.clock && step.GcStat?
          && t.passes[g] == s.passes[g].(doomed := Some(step.digest)) && s.fs.IsFile(Object(step.digest))
          && Age(s.fs.At(Object(step.digest)).mtime, s.passes[g].now) >= s.passes[g].minAge)
  {
    hide ApplyWriter, ApplyPlacer, ApplyUser, MarkStep, MarkLeaf, ContentsOf;
  }

  lemma DoomerIsSweeping(s: State, step: Step, d: Digest)
    requires step.GcUnlink? && Enabled(s, step) && s.passes[step.pass].doomed == Some(d)
    ensures Dooms(s, step.pass, d)
  {
  }

  lemma StepKeepsAges(w: World, u: set<Bytes>, s: State, step: Step)
    requires Inv(w, u, s) && AgesOk(s) && SeparateDooms(s) && Enabled(s, step)
    ensures AgesOk(Apply(w, s, step))
  {
    hide Inv, Apply;
    var t := Apply(w, s, step);
    MtimesOk(w, s, step);
    ClockStep(w, s, step);
    forall g | g in t.passes && t.passes[g].SweepPhase? ensures SweepAged(t, t.passes[g]) {
      PassChanges(w, s, step, g);
      if g in s.passes && t.passes[g] == s.passes[g] && t.passes[g].doomed.Some? {
        var d := t.passes[g].doomed.value;
        assert SweepAged(s, s.passes[g]) && Dooms(s, g, d);
        if step.GcUnlink? && s.passes[step.pass].doomed == Some(d) { DoomerIsSweeping(s, step, d); }
        ObjectStays(w, u, s, step, d);
      }
    }
  }

  ghost predicate Patient(s: State, minAge: nat)
  {
    forall g :: g in s.passes ==> s.passes[g].minAge >= minAge
  }

  /** An object younger than the least age that any pass collects is not taken. */
  lemma YoungStays(w: World, u: set<Bytes>, s: State, step: Step, d: Digest, minAge: nat)
    requires Inv(w, u, s) && AgesOk(s) && Patient(s, minAge) && Enabled(s, step)
    requires s.fs.IsFile(Object(d)) && s.clock < s.fs.At(Object(d)).mtime + minAge
    ensures var t := Apply(w, s, step); t.fs.IsFile(Object(d)) && t.fs.At(Object(d)) == s.fs.At(Object(d))
  {
    hide Inv, Apply;
    if step.GcUnlink? {
      var p := s.passes[step.pass];
      assert SweepAged(s, p);
      assert s.fs.names[Object(d)].ino in s.fs.inodes;
    }
    ObjectStays(w, u, s, step, d);
  }

  ghost predicate NeverTwiceDoomed(ss: seq<State>, minAge: nat)
  {
    forall i :: 0 <= i < |ss| ==> SeparateDooms(ss[i]) && Patient(ss[i], minAge)
  }

  lemma {:induction false} RunKeepsAges(w: World, u: set<Bytes>, ss: seq<State>, steps: seq<Step>, minAge: nat, n: nat)
    requires Trace(w, ss, steps) && AllOrderly(w, u, ss, steps) && NeverTwiceDoomed(ss, minAge) && n <= |steps|
    requires Inv(w, u, ss[0]) && AgesOk(ss[0])
    ensures Inv(w, u, ss[n]) && AgesOk(ss[n])
    decreases n
  {
    hide Inv, AgesOk, Apply;
    RunKeepsInv(w, u, ss, steps, n);
    if n > 0 {
      RunKeepsAges(w, u, ss, steps, minAge, n - 1);
      StepKeepsAges(w, u, ss[n - 1], steps[n - 1]);
    }
  }

  lemma {:induction false} ClockRuns(w: World, ss: seq<State>, steps: seq<Step>, m: nat, n: nat)
    requires Trace(w, ss, steps) && m <= n <= |steps|
    ensures ss[m].clock <= ss[n].clock
    decreases n
  {
    hide Apply;
    if m < n {
      ClockRuns(w, ss, steps, m, n - 1);
      ClockStep(w, ss[n - 1], steps[n - 1]);
    }
  }

  /** While no two passes doom the same object, an inserted object survives until it is `minAge` old. */
  lemma {:induction false} YoungSurvives(w: World, u: set<Bytes>, ss: seq<State>, steps: seq<Step>, minAge: nat, m: nat, n: nat, d: Digest)
    requires Trace(w, ss, steps) && AllOrderly(w, u, ss, steps) && NeverTwiceDoomed(ss, minAge) && m <= n <= |steps|
    requires Inv(w, u, ss[0]) && AgesOk(ss[0])
    requires ss[m].fs.IsFile(Object(d)) && ss[n].clock < ss[m].fs.At(Object(d)).mtime + minAge
    ensures ss[n].fs.IsFile(Object(d)) && ss[n].fs.At(Object(d)) == ss[m].fs.At(Object(d))
    decreases n
  {
    hide Inv, AgesOk, Apply;
    if m < n {
      ClockRuns(w, ss, steps, n - 1, n);
      YoungSurvives(w, u, ss, steps, minAge, m, n - 1, d);
      RunKeepsAges(w, u, ss, steps, minAge, n - 1);
      YoungStays(w, u, ss[n - 1], steps[n - 1], d, minAge);
    }
  }

  /** Passes may overlap while marking, but sweep one at a time. */
  ghost predicate SweepsAlone(s: State)
  {
    forall g, h :: g in s.passes && h in s.passes && s.passes[g].SweepPhase? && s.passes[h].SweepPhase? ==> g == h
  }

  /** It is enough that passes sweep one at a time. */
  lemma YoungSurvivesLoneSweeps(w: World, u: set<Bytes>, ss: seq<State>, steps: seq<Step>, minAge: nat, m: nat, n: nat, d: Digest)
    requires Trace(w, ss, steps) && AllOrderly(w, u, ss, steps) && m <= n <= |steps|
    requires forall i :: 0 <= i < |ss| ==> SweepsAlone(ss[i]) && Patient(ss[i], minAge)
    requires Inv(w, u, ss[0]) && AgesOk(ss[0])
    requires ss[m].fs.IsFile(Object(d)) && ss[n].clock < ss[m].fs.At(Object(d)).mtime + minAge
    ensures ss[n].fs.IsFile(Object(d)) && ss[n].fs.At(Object(d)) == ss[m].fs.At(Object(d))
  {
    hide Inv, AgesOk, Apply, Patient;
    forall i | 0 <= i < |ss| ensures SeparateDooms(ss[i]) { }
    YoungSurvives(w, u, ss, steps, minAge, m, n, d);
  }

  // ------------------------------------------------------------------ so a committed tree survives

  lemma ObjectSame(w: World, u: set<Bytes>, k: Keep, ss: seq<State>, steps: seq<Step>, minAge: nat, m: nat, n: nat, d: Digest)
    requires Trace(w, ss, steps) && AllOrderly(w, u, ss, steps) && AllGuarded(k, ss, steps) && m <= n <= |steps|
    requires NeverTwiceDoomed(ss, minAge) && AgesOk(ss[0])
    requires RolesApart(w, u, k) && Reachable(w, k) && KeepInv(w, u, k, ss[0])
    requires ss[m].fs.IsFile(Object(d)) && (d in Needed(w, k) || ss[n].clock < ss[m].fs.At(Object(d)).mtime + minAge)
    ensures var a, b := ContentsOf(ss[m].fs), ContentsOf(ss[n].fs); d in a && d in b && a[d] == b[d]
  {
    hide Inv, AgesOk, Apply, NeverTwiceDoomed, RolesApart, Reachable, PassOk, ContentsOf, Needed;
    ContentsAt(ss[m].fs, d);
    ContentsAt(ss[n].fs, d);
    if d in Needed(w, k) {
      ReachableSurvives(w, u, k, ss, steps, m);
      ReachableSurvives(w, u, k, ss, steps, n);
      assert Present(ss[m].fs, k.base, d) && Present(ss[n].fs, k.base, d);
    } else {
      YoungSurvives(w, u, ss, steps, minAge, m, n, d);
    }
  }

  /** A tree whose every object is present at step `m`, and is either reachable from the protected
      roots or still young at step `n`, unfolds at `n` exactly as it did at `m`: whether an
      object was inserted by the step or was a dedupe hit makes no difference beyond that. */
  lemma CommittedTreeSurvives(w: World, u: set<Bytes>, k: Keep, ss: seq<State>, steps: seq<Step>, minAge: nat,
                              m: nat, n: nat, dirs: set<Digest>, root: Digest)
    requires Trace(w, ss, steps) && AllOrderly(w, u, ss, steps) && AllGuarded(k, ss, steps) && m <= n <= |steps|
    requires NeverTwiceDoomed(ss, minAge) && AgesOk(ss[0])
    requires RolesApart(w, u, k) && Reachable(w, k) && KeepInv(w, u, k, ss[0])
    requires root in dirs && Closed(w, ContentsOf(ss[m].fs), dirs)
    requires forall d :: d in dirs + FilesOf(w, ContentsOf(ss[m].fs), dirs) ==>
      && ss[m].fs.IsFile(Object(d))
      && (d in Needed(w, k) || ss[n].clock < ss[m].fs.At(Object(d)).mtime + minAge)
    ensures Unfold(w, ContentsOf(ss[n].fs), root) == Unfold(w, ContentsOf(ss[m].fs), root)
  {
    hide KeepInv, AgesOk, Apply, NeverTwiceDoomed, RolesApart, Reachable, ContentsOf, FilesOf, Closed, Unfold, Needed;
    var a, b := ContentsOf(ss[m].fs), ContentsOf(ss[n].fs);
    forall d | d in dirs + FilesOf(w, a, dirs) ensures d in a && d in b && a[d] == b[d] {
      ObjectSame(w, u, k, ss, steps, minAge, m, n, d);
    }
    UnfoldLocal(w, a, b, dirs, root);
  }

  // ------------------------------------------------------------------ from the puts themselves

  /** The last step of a put of `d`: it finds the object, or renames it into place. */
  predicate Supplies(w: World, s: State, step: Step, d: Digest)
  {
    || (step.Put? && DigestFor(w, step.content, step.manifest) == d && Object(d) in s.fs.names)
    || (step.Commit? && step.id in s.writers && s.writers[step.id].digest == d)
  }

  lemma SuppliedIsPresent(w: World, u: set<Bytes>, s: State, step: Step, d: Digest)
    requires Inv(w, u, s) && Enabled(s, step) && Supplies(w, s, step, d)
    ensures Apply(w, s, step).fs.IsFile(Object(d))
  {
    if step.Commit? { assert WriterOk(w, u, s.fs, s.writers[step.id]); }
  }

  /** Some put of `d` ended before step `n`, and at `n` the object is reachable from the protected
      roots or still younger than `minAge`. */
  ghost predicate Supplied(w: World, k: Keep, ss: seq<State>, steps: seq<Step>, minAge: nat, n: nat, d: Digest)
    requires n <= |steps| < |ss|
  {
    exists j :: 0 <= j < n && SuppliedAt(w, k, ss, steps, minAge, n, d, j)
  }

  ghost predicate SuppliedAt(w: World, k: Keep, ss: seq<State>, steps: seq<Step>, minAge: nat, n: nat, d: Digest, j: nat)
    requires j < n <= |steps| < |ss|
  {
    && Supplies(w, ss[j], steps[j], d)
    && (d in Needed(w, k)
        || (ss[j + 1].fs.IsFile(Object(d)) && ss[n].clock < ss[j + 1].fs.At(Object(d)).mtime + minAge))
  }

  /** Every object of a directory tree has been put. */
  ghost predicate AllSupplied(w: World, k: Keep, ss: seq<State>, steps: seq<Step>, minAge: nat, n: nat, item: Item)
    requires n <= |steps| < |ss| && Ingestible(w, item)
    decreases item
  {
    match item
    case RegularFile(c, _) => Supplied(w, k, ss, steps, minAge, n, w.blob(c))
    case Folder(cs) =>
      && Supplied(w, k, ss, steps, minAge, n, DigestOf(w, cs))
      && forall i :: 0 <= i < |cs| ==> AllSupplied(w, k, ss, steps, minAge, n, cs[i].item)
    case SoftLink(_) => true
  }

  lemma SuppliedObject(w: World, u: set<Bytes>, k: Keep, ss: seq<State>, steps: seq<Step>, minAge: nat, n: nat, d: Digest, c: Bytes)
    requires Trace(w, ss, steps) && AllOrderly(w, u, ss, steps) && AllGuarded(k, ss, steps) && n <= |steps|
    requires NeverTwiceDoomed(ss, minAge) && AgesOk(ss[0])
    requires RolesApart(w, u, k) && Reachable(w, k) && KeepInv(w, u, k, ss[0])
    requires Supplied(w, k, ss, steps, minAge, n, d) && CollisionFree(w, u) && c in u && Names(w, d, c)
    ensures d in ContentsOf(ss[n].fs) && ContentsOf(ss[n].fs)[d] == c
  {
    hide Inv, AgesOk, Apply, NeverTwiceDoomed, RolesApart, Reachable, PassOk, ContentsOf, Needed, CollisionFree, Supplies;
    var j :| 0 <= j < n && SuppliedAt(w, k, ss, steps, minAge, n, d, j);
    RunKeepsInv(w, u, ss, steps, j);
    SuppliedIsPresent(w, u, ss[j], steps[j], d);
    assert ss[j + 1] == Apply(w, ss[j], steps[j]);
    ObjectSame(w, u, k, ss, steps, minAge, j + 1, n, d);
    RunKeepsInv(w, u, ss, steps, n);
    SoundContents(w, u, ss[n]);
    NamesUnique(w, u, d, ContentsOf(ss[n].fs)[d], c);
  }

  lemma {:induction false} SuppliedIsStored(w: World, u: set<Bytes>, k: Keep, ss: seq<State>, steps: seq<Step>, minAge: nat, n: nat, item: Item)
    requires Trace(w, ss, steps) && AllOrderly(w, u, ss, steps) && AllGuarded(k, ss, steps) && n <= |steps|
    requires NeverTwiceDoomed(ss, minAge) && AgesOk(ss[0])
    requires RolesApart(w, u, k) && Reachable(w, k) && KeepInv(w, u, k, ss[0])
    requires Ingestible(w, item) && Hashed(w, u, item) && CollisionFree(w, u)
    requires AllSupplied(w, k, ss, steps, minAge, n, item)
    ensures Stored(w, ContentsOf(ss[n].fs), item)
    decreases item
  {
    var fs := ss[n].fs;
    hide Trace, AllOrderly, AllGuarded, NeverTwiceDoomed, AgesOk, RolesApart, Reachable, KeepInv, Supplied, ContentsOf, CollisionFree, EncodeTree;
    match item {
      case RegularFile(c, _) => SuppliedObject(w, u, k, ss, steps, minAge, n, w.blob(c), c);
      case Folder(cs) =>
        SuppliedObject(w, u, k, ss, steps, minAge, n, DigestOf(w, cs), EncodeTree(TreeOf(w, cs)));
        forall i | 0 <= i < |cs| ensures Stored(w, ContentsOf(fs), cs[i].item) {
          SuppliedIsStored(w, u, k, ss, steps, minAge, n, cs[i].item);
        }
      case SoftLink(_) =>
    }
  }

  /** Whenever all puts of a directory tree have ended, in whatever order and by whatever processes,
      and each object is reachable or still young, the tree's digest unfolds to the tree, exactly
      if it is representable at all. */
  lemma PutTreeSurvives(w: World, u: set<Bytes>, k: Keep, ss: seq<State>, steps: seq<Step>, minAge: nat, n: nat, cs: seq<Child>)
    requires Trace(w, ss, steps) && AllOrderly(w, u, ss, steps) && AllGuarded(k, ss, steps) && n <= |steps|
    requires NeverTwiceDoomed(ss, minAge) && AgesOk(ss[0])
    requires RolesApart(w, u, k) && Reachable(w, k) && KeepInv(w, u, k, ss[0])
    requires Ingestible(w, Folder(cs)) && Shaped(Folder(cs)) && Hashed(w, u, Folder(cs)) && CollisionFree(w, u)
    requires AllSupplied(w, k, ss, steps, minAge, n, Folder(cs))
    ensures Unfold(w, ContentsOf(ss[n].fs), DigestOf(w, cs)) == Ok(Folder(cs)) <==> Representable(Folder(cs), 129)
  {
    var fs := ss[n].fs;
    hide Trace, AllOrderly, AllGuarded, NeverTwiceDoomed, AgesOk, RolesApart, Reachable, KeepInv, AllSupplied, ContentsOf;
    hide CollisionFree, Hashed, Shaped, Stored, Unfold, Representable, DigestOf;
    SuppliedIsStored(w, u, k, ss, steps, minAge, n, Folder(cs));
    RoundTripExactlyWhenRepresentable(w, ContentsOf(fs), cs);
  }
}
