/** The store under concurrency: writers, materializers, users and collector passes interleave one
    system call at a time, processes stop anywhere, and the clock never runs backwards. Reading a
    tree during marking, and the check and open of an object that is being copied, are one step
    each. */
module Protocol {
  import opened Base
  import opened Manifest
  import opened Objects
  import opened Filesystem
  import opened Marking
  import opened ObjectStore

  /** A put in flight: past its `has` check, writing its staging file, or about to rename it. */
  datatype Writer =
    | Checked(digest: Digest, content: Bytes)
    | Opened(digest: Digest, content: Bytes, ino: nat, done: nat)
    | Sealed(digest: Digest, content: Bytes)

  /** A materializer at one file: past its check that the object exists, past the removal of what
      was at the path, or writing an inode of its own, whose mode it sets by path at the end. */
  datatype Placer =
    | Started(digest: Digest, path: Path, intent: Intent, executable: bool)
    | Cleared(digest: Digest, path: Path, intent: Intent, executable: bool)
    | Copying(digest: Digest, path: Path, intent: Intent, executable: bool, content: Bytes, ino: nat, done: nat)

  /** A collector pass. `doomed` is an object whose age has been read and found sufficient, and
      which the pass is about to unlink. */
  datatype Pass =
    | MarkPhase(minAge: nat, marks: Marks)
    | SweepPhase(minAge: nat, live: set<Digest>, now: nat, doomed: Option<Digest>)

  /** `sealed` records which inodes have become objects, and of which digest; `placed` records
      how each materialized file was asked for; `made` records which directories each call of
      `materialize_tree` in flight has created. A call places one file at a time, so that a
      placer has the number of its call. */
  datatype State = State(
    fs: Fs, clock: nat, writers: map<nat, Writer>, placers: map<nat, Placer>, passes: map<nat, Pass>,
    sealed: map<nat, Digest>, placed: map<Path, (Intent, bool)>, made: set<(nat, Path)>)

  datatype Step =
    | Put(id: nat, content: Bytes, manifest: bool)
    | OpenStaging(id: nat, mode: nat)
    | ClearStaging(id: nat)
    | WriteChunk(id: nat, count: nat)
    | Seal(id: nat)
    | Commit(id: nat)
    | Stop(id: nat)
    | MakeDir(placer: nat, path: Path)
    | EndCall(placer: nat)
    | Place(placer: nat, digest: Digest, path: Path, intent: Intent, executable: bool)
    | ClearPath(placer: nat)
    | LinkPath(placer: nat)
    | OpenPath(placer: nat, mode: nat)
    | FillPath(placer: nat, count: nat)
    | SetMode(placer: nat)
    | Abandon(placer: nat)
    | UserCreate(path: Path, content: Bytes, mode: nat)
    | UserWrite(path: Path, content: Bytes)
    | UserChmod(path: Path, mode: nat)
    | UserUnlink(path: Path)
    | UserRemoveDir(path: Path)
    | GcStart(pass: nat, roots: seq<Digest>, minAge: nat)
    | GcMark(pass: nat, read: bool)
    | GcSweep(pass: nat)
    | GcStat(pass: nat, digest: Digest)
    | GcUnlink(pass: nat)
    | GcEnd(pass: nat)
    | Tick(elapsed: nat)

  predicate OfWriter(step: Step)
  {
    step.Put? || step.OpenStaging? || step.ClearStaging? || step.WriteChunk? || step.Seal? || step.Commit? || step.Stop?
  }

  predicate OfPlacer(step: Step)
  {
    || step.MakeDir? || step.EndCall? || step.Place? || step.ClearPath? || step.LinkPath? || step.OpenPath? || step.FillPath?
    || step.SetMode? || step.Abandon?
  }

  predicate OfCollector(step: Step)
  {
    step.GcStart? || step.GcMark? || step.GcSweep? || step.GcStat? || step.GcUnlink? || step.GcEnd?
  }

  // ------------------------------------------------------------------ the steps

  function DigestFor(w: World, content: Bytes, manifest: bool): Digest
  {
    if manifest then w.tree(content) else w.blob(content)
  }

  /** A write at an offset: what lies beyond it stays, and a gap before it reads as zeros. */
  function WriteAt(content: Bytes, at: nat, chunk: Bytes): Bytes
  {
    if at <= |content| then
      content[..at] + chunk + if at + |chunk| < |content| then content[at + |chunk|..] else []
    else content + seq(at - |content|, _ => 0) + chunk
  }

  function Parent(p: Path): Path
    requires p != []
  {
    p[..|p| - 1]
  }

  /** What is at the path that a placer works on. */
  function Bound(s: State, m: nat): Option<Target>
    requires m in s.placers
  {
    var q := Outside(s.placers[m].path);
    if q in s.fs.names then Some(s.fs.names[q]) else None
  }

  predicate WriterCan(s: State, step: Step)
    requires OfWriter(step)
  {
    match step
    case Put(id, _, _) => id !in s.writers
    case OpenStaging(id, _) => id in s.writers && s.writers[id].Checked?
    case ClearStaging(id) => id in s.writers
    case WriteChunk(id, n) =>
      && id in s.writers && s.writers[id].Opened? && s.writers[id].ino in s.fs.inodes
      && s.writers[id].done + n <= |s.writers[id].content|
    case Seal(id) => id in s.writers && s.writers[id].Opened? && s.writers[id].done == |s.writers[id].content|
    case Commit(id) => id in s.writers && s.writers[id].Sealed?
    case Stop(id) => id in s.writers
  }

  predicate PlacerCan(s: State, step: Step)
    requires OfPlacer(step)
  {
    match step
    case MakeDir(m, p) => m !in s.placers && Outside(p) !in s.fs.names
    case EndCall(m) => m !in s.placers
    case Place(m, d, p, _, _) => m !in s.placers && s.fs.IsFile(Object(d)) && p != [] && (m, Parent(p)) in s.made
    case ClearPath(m) => m in s.placers && !(Bound(s, m).Some? && Bound(s, m).value.DirAt?)
    case LinkPath(m) =>
      && m in s.placers && s.placers[m].Cleared? && s.fs.IsFile(Object(s.placers[m].digest)) && Bound(s, m) == None
      && s.placers[m].intent == OverlayLower && !s.placers[m].executable
    case OpenPath(m, _) =>
      && m in s.placers && s.placers[m].Cleared? && s.fs.IsFile(Object(s.placers[m].digest))
      && (Bound(s, m).Some? ==> s.fs.IsFile(Outside(s.placers[m].path)))
    case FillPath(m, n) =>
      && m in s.placers && s.placers[m].Copying? && s.placers[m].ino in s.fs.inodes
      && s.placers[m].done + n <= |s.placers[m].content|
    case SetMode(m) => m in s.placers && s.placers[m].Copying? && s.placers[m].done == |s.placers[m].content|
    case Abandon(m) => m in s.placers
  }

  predicate CollectorCan(s: State, step: Step)
    requires OfCollector(step)
  {
    match step
    case GcStart(g, _, _) => g !in s.passes
    case GcMark(g, _) => g in s.passes && s.passes[g].MarkPhase? && s.passes[g].marks.queue != []
    case GcSweep(g) => g in s.passes && s.passes[g].MarkPhase? && s.passes[g].marks.queue == []
    case GcStat(g, d) =>
      && g in s.passes && s.passes[g].SweepPhase? && s.passes[g].doomed == None
      && s.fs.IsFile(Object(d)) && d !in s.passes[g].live
    case GcUnlink(g) => g in s.passes && s.passes[g].SweepPhase? && s.passes[g].doomed.Some?
    case GcEnd(g) => g in s.passes && s.passes[g].SweepPhase? && s.passes[g].doomed == None
  }

  predicate UserCan(s: State, step: Step)
    requires !OfWriter(step) && !OfPlacer(step) && !OfCollector(step)
  {
    match step
    case UserCreate(p, _, _) => Outside(p) !in s.fs.names
    case UserWrite(p, _) => s.fs.IsFile(Outside(p)) && MayModify(s, p)
    case UserChmod(p, _) => s.fs.IsFile(Outside(p)) && MayModify(s, p)
    case UserUnlink(p) => Outside(p) in s.fs.names && !s.fs.names[Outside(p)].DirAt?
    case UserRemoveDir(p) =>
      && Outside(p) in s.fs.names && s.fs.names[Outside(p)].DirAt?
      && forall q :: q in s.fs.names && q.Outside? && p <= q.path ==> q.path == p
    case Tick(_) => true
  }

  predicate Enabled(s: State, step: Step)
  {
    if OfWriter(step) then WriterCan(s, step)
    else if OfPlacer(step) then PlacerCan(s, step)
    else if OfCollector(step) then CollectorCan(s, step)
    else UserCan(s, step)
  }

  /** Users write to source files and to outputs placed with a private inode; a write to an
      overlay lowerdir is redirected by the kernel and never reaches it. */
  predicate MayModify(s: State, p: Path)
  {
    p in s.placed ==> s.placed[p].0 == PrivateInode
  }

  function ApplyWriter(w: World, s: State, step: Step): (t: State)
    requires OfWriter(step) && WriterCan(s, step)
    ensures t.passes == s.passes && t.clock == s.clock && t.placers == s.placers && t.placed == s.placed && t.made == s.made
    ensures !step.Commit? ==> t.sealed == s.sealed
  {
    match step
    case Put(id, content, manifest) => PutStep(s, id, DigestFor(w, content, manifest), content)
    case OpenStaging(id, mode) =>
      if s.fs.IsFile(Staging(s.writers[id].digest)) then TruncateStep(s, id) else CreateStep(s, id, mode)
    case ClearStaging(id) => ClearStep(s, id)
    case WriteChunk(id, n) => ChunkStep(s, id, n)
    case Seal(id) => if s.fs.IsFile(Staging(s.writers[id].digest)) then SealStep(s, id) else StopStep(s, id)
    case Commit(id) => if s.fs.IsFile(Staging(s.writers[id].digest)) then CommitStep(s, id) else StopStep(s, id)
    case Stop(id) => StopStep(s, id)
  }

  function ApplyPlacer(s: State, step: Step): (t: State)
    requires OfPlacer(step) && PlacerCan(s, step)
    ensures t.passes == s.passes && t.clock == s.clock && t.writers == s.writers && t.sealed == s.sealed
  {
    match step
    case MakeDir(m, p) => s.(fs := s.fs.Name(Outside(p), DirAt), made := s.made + {(m, p)})
    case EndCall(m) => s.(made := set c | c in s.made && c.0 != m)
    case Place(m, d, p, intent, x) => s.(placers := s.placers[m := Started(d, p, intent, x)])
    case ClearPath(m) => ClearPathStep(s, m)
    case LinkPath(m) => LinkPathStep(s, m)
    case OpenPath(m, mode) => OpenPathStep(s, m, mode)
    case FillPath(m, n) => FillPathStep(s, m, n)
    case SetMode(m) => SetModeStep(s, m)
    case Abandon(m) => s.(placers := s.placers - {m})
  }

  function ApplyCollector(w: World, s: State, step: Step): (t: State)
    requires OfCollector(step) && CollectorCan(s, step)
    ensures t == s.(fs := t.fs, passes := t.passes) && t.fs.inodes == s.fs.inodes && (!step.GcUnlink? ==> t.fs == s.fs)
  {
    match step
    case GcStart(g, roots, minAge) => s.(passes := s.passes[g := MarkPhase(minAge, Marks({}, roots))])
    case GcMark(g, read) => MarkPass(w, s, g, read)
    case GcSweep(g) => SweepPass(s, g)
    case GcStat(g, d) => StatStep(s, g, d)
    case GcUnlink(g) => UnlinkStep(s, g)
    case GcEnd(g) => s.(passes := s.passes - {g})
  }

  function ApplyUser(s: State, step: Step): (t: State)
    requires !OfWriter(step) && !OfPlacer(step) && !OfCollector(step) && UserCan(s, step)
    ensures t == s.(fs := t.fs, placed := t.placed, clock := t.clock) && s.clock <= t.clock
  {
    match step
    case UserCreate(p, content, mode) => UserCreateStep(s, p, content, mode)
    case UserWrite(p, content) => s.(fs := s.fs.Write(s.fs.names[Outside(p)].ino, content, s.clock))
    case UserChmod(p, mode) => s.(fs := s.fs.Chmod(Outside(p), mode))
    case UserUnlink(p) => s.(fs := s.fs.Unlink(Outside(p)), placed := s.placed - {p})
    case UserRemoveDir(p) => s.(fs := s.fs.Unlink(Outside(p)), placed := s.placed - {p})
    case Tick(elapsed) => s.(clock := s.clock + elapsed)
  }

  function Apply(w: World, s: State, step: Step): State
    requires Enabled(s, step)
  {
    if OfWriter(step) then ApplyWriter(w, s, step)
    else if OfPlacer(step) then ApplyPlacer(s, step)
    else if OfCollector(step) then ApplyCollector(w, s, step)
    else ApplyUser(s, step)
  }

  function PutStep(s: State, id: nat, d: Digest, content: Bytes): State
  {
    if Object(d) in s.fs.names then s else s.(writers := s.writers[id := Checked(d, content)])
  }

  function TruncateStep(s: State, id: nat): State
    requires id in s.writers && s.fs.IsFile(Staging(s.writers[id].digest))
  {
    var wr := s.writers[id];
    var ino := s.fs.names[Staging(wr.digest)].ino;
    s.(fs := s.fs.Write(ino, [], s.clock), writers := s.writers[id := Opened(wr.digest, wr.content, ino, 0)])
  }

  function CreateStep(s: State, id: nat, mode: nat): State
    requires id in s.writers
  {
    var wr := s.writers[id];
    s.(fs := s.fs.Create(Staging(wr.digest), Inode([], mode, s.clock)),
       writers := s.writers[id := Opened(wr.digest, wr.content, s.fs.next, 0)])
  }

  function ChunkStep(s: State, id: nat, n: nat): State
    requires id in s.writers && s.writers[id].Opened? && s.writers[id].ino in s.fs.inodes
    requires s.writers[id].done + n <= |s.writers[id].content|
  {
    var wr := s.writers[id];
    var now := WriteAt(s.fs.inodes[wr.ino].content, wr.done, wr.content[wr.done..wr.done + n]);
    s.(fs := s.fs.Write(wr.ino, now, s.clock), writers := s.writers[id := wr.(done := wr.done + n)])
  }

  function SealStep(s: State, id: nat): State
    requires id in s.writers && s.fs.IsFile(Staging(s.writers[id].digest))
  {
    var wr := s.writers[id];
    s.(fs := s.fs.Chmod(Staging(wr.digest), OBJECT_MODE), writers := s.writers[id := Sealed(wr.digest, wr.content)])
  }

  function CommitStep(s: State, id: nat): State
    requires id in s.writers && s.fs.IsFile(Staging(s.writers[id].digest))
  {
    var d := s.writers[id].digest;
    s.(fs := s.fs.Rename(Staging(d), Object(d)), writers := s.writers - {id},
       sealed := s.sealed[s.fs.names[Staging(d)].ino := d])
  }

  function ClearStep(s: State, id: nat): State
    requires id in s.writers
  {
    var wr := s.writers[id];
    s.(fs := s.fs.Unlink(Staging(wr.digest)), writers := s.writers[id := Checked(wr.digest, wr.content)])
  }

  function StopStep(s: State, id: nat): State
  {
    s.(writers := s.writers - {id})
  }

  /** `remove_file` before a placement, or after a reflink that turned out to be unsupported. */
  function ClearPathStep(s: State, m: nat): State
    requires m in s.placers
  {
    var pl := s.placers[m];
    s.(fs := s.fs.Unlink(Outside(pl.path)), placed := s.placed - {pl.path},
       placers := s.placers[m := Cleared(pl.digest, pl.path, pl.intent, pl.executable)])
  }

  function LinkPathStep(s: State, m: nat): State
    requires m in s.placers && Object(s.placers[m].digest) in s.fs.names
  {
    var pl := s.placers[m];
    s.(fs := s.fs.HardLink(Object(pl.digest), Outside(pl.path)), placed := s.placed[pl.path := (pl.intent, pl.executable)],
       placers := s.placers - {m})
  }

  /** The open of a reflink or a copy. A copy truncates whatever file it finds. */
  function OpenPathStep(s: State, m: nat, mode: nat): State
    requires m in s.placers && s.fs.IsFile(Object(s.placers[m].digest))
  {
    var pl, q := s.placers[m], Outside(s.placers[m].path);
    var ino := if s.fs.IsFile(q) then s.fs.names[q].ino else s.fs.next;
    var fs := if s.fs.IsFile(q) then Fs(s.fs.names, s.fs.inodes[ino := Inode([], mode, s.clock)], s.fs.next)
              else s.fs.Create(q, Inode([], mode, s.clock));
    s.(fs := fs, placed := s.placed[pl.path := (pl.intent, pl.executable)],
       placers := s.placers[m := Copying(pl.digest, pl.path, pl.intent, pl.executable, s.fs.At(Object(pl.digest)).content, ino, 0)])
  }

  function FillPathStep(s: State, m: nat, n: nat): State
    requires m in s.placers && s.placers[m].Copying? && s.placers[m].ino in s.fs.inodes
    requires s.placers[m].done + n <= |s.placers[m].content|
  {
    var pl := s.placers[m];
    var now := WriteAt(s.fs.inodes[pl.ino].content, pl.done, pl.content[pl.done..pl.done + n]);
    s.(fs := s.fs.Write(pl.ino, now, s.clock), placers := s.placers[m := pl.(done := pl.done + n)])
  }

  /** The mode is set by path, on whatever inode is there by now. */
  function SetModeStep(s: State, m: nat): State
    requires m in s.placers
  {
    var pl, q := s.placers[m], Outside(s.placers[m].path);
    s.(fs := if s.fs.IsFile(q) then s.fs.Chmod(q, WantedMode(pl.intent, pl.executable)) else s.fs,
       placers := s.placers - {m})
  }

  function UserCreateStep(s: State, p: Path, content: Bytes, mode: nat): State
  {
    s.(fs := s.fs.Create(Outside(p), Inode(content, mode, s.clock)), placed := s.placed - {p})
  }

  /** One turn of marking. A read that fails makes the digest a leaf. */
  function MarkPass(w: World, s: State, g: nat, read: bool): State
    requires Enabled(s, GcMark(g, read))
  {
    var p := s.passes[g];
    s.(passes := s.passes[g := p.(marks := if read then MarkStep(w, ContentsOf(s.fs), p.marks) else MarkLeaf(p.marks))])
  }

  function SweepPass(s: State, g: nat): State
    requires Enabled(s, GcSweep(g))
  {
    var p := s.passes[g];
    s.(passes := s.passes[g := SweepPhase(p.minAge, p.marks.live, s.clock, None)])
  }

  function StatStep(s: State, g: nat, d: Digest): State
    requires Enabled(s, GcStat(g, d))
  {
    var p := s.passes[g];
    if Age(s.fs.At(Object(d)).mtime, p.now) < p.minAge then s
    else s.(passes := s.passes[g := p.(doomed := Some(d))])
  }

  function UnlinkStep(s: State, g: nat): State
    requires Enabled(s, GcUnlink(g))
  {
    var p := s.passes[g];
    s.(fs := s.fs.Unlink(Object(p.doomed.value)), passes := s.passes[g := p.(doomed := None)])
  }

  // ------------------------------------------------------------------ what a step touches

  /** The one inode that a step creates or changes, if any. */
  function Touched(s: State, step: Step): Option<nat>
    requires Enabled(s, step)
  {
    match step
    case OpenStaging(id, _) => Some(InodeAt(s.fs, Staging(s.writers[id].digest)))
    case WriteChunk(id, _) => Some(s.writers[id].ino)
    case Seal(id) =>
      if s.fs.IsFile(Staging(s.writers[id].digest)) then Some(InodeAt(s.fs, Staging(s.writers[id].digest))) else None
    case OpenPath(m, _) => Some(InodeAt(s.fs, Outside(s.placers[m].path)))
    case FillPath(m, _) => Some(s.placers[m].ino)
    case SetMode(m) =>
      if s.fs.IsFile(Outside(s.placers[m].path)) then Some(InodeAt(s.fs, Outside(s.placers[m].path))) else None
    case UserCreate(_, _, _) => Some(s.fs.next)
    case UserWrite(p, _) => Some(InodeAt(s.fs, Outside(p)))
    case UserChmod(p, _) => Some(InodeAt(s.fs, Outside(p)))
    case _ => None
  }

  function InodeAt(fs: Fs, q: Place): nat
  {
    if fs.IsFile(q) then fs.names[q].ino else fs.next
  }

  /** At most the inode `i` differs, and its time is either kept or the current one. */
  ghost predicate OnlyInode(s: State, t: State, i: Option<nat>)
  {
    match i
    case None => t.fs.inodes == s.fs.inodes
    case Some(i) =>
      && i in t.fs.inodes && t.fs.inodes == s.fs.inodes[i := t.fs.inodes[i]]
      && (t.fs.inodes[i].mtime == s.clock || (i in s.fs.inodes && t.fs.inodes[i].mtime == s.fs.inodes[i].mtime))
  }

  lemma WriterTouches(w: World, s: State, step: Step)
    requires OfWriter(step) && Enabled(s, step)
    ensures OnlyInode(s, ApplyWriter(w, s, step), Touched(s, step))
  {
    hide WriteAt, DigestFor;
  }

  lemma PlacerTouches(s: State, step: Step)
    requires OfPlacer(step) && Enabled(s, step)
    ensures OnlyInode(s, ApplyPlacer(s, step), Touched(s, step))
  {
    hide WriteAt, WantedMode;
  }

  lemma OnlyTouched(w: World, s: State, step: Step)
    requires Enabled(s, step)
    ensures OnlyInode(s, Apply(w, s, step), Touched(s, step))
  {
    hide ApplyWriter, ApplyPlacer, ApplyCollector;
    if OfWriter(step) {
      hide OnlyInode, Touched;
      WriterTouches(w, s, step);
    } else if OfPlacer(step) {
      hide OnlyInode, Touched;
      PlacerTouches(s, step);
    }
  }

  // ------------------------------------------------------------------ the safety invariant

  ghost predicate SealedInode(w: World, u: set<Bytes>, fs: Fs, i: nat, d: Digest)
  {
    && i in fs.inodes && fs.inodes[i].mode == OBJECT_MODE
    && fs.inodes[i].content in u && Names(w, d, fs.inodes[i].content)
  }

  ghost predicate WriterOk(w: World, u: set<Bytes>, fs: Fs, wr: Writer)
  {
    && wr.content in u && Names(w, wr.digest, wr.content)
    && Object(wr.digest) !in fs.names
    && (!wr.Checked? ==> fs.IsFile(Staging(wr.digest)))
    && (wr.Opened? ==> fs.names[Staging(wr.digest)].ino == wr.ino && wr.done <= |wr.content|
                       && fs.At(Staging(wr.digest)).content == wr.content[..wr.done])
    && (wr.Sealed? ==> fs.At(Staging(wr.digest)).content == wr.content
                       && fs.At(Staging(wr.digest)).mode == OBJECT_MODE)
  }

  /** How a name may reach an inode that is, or has been, an object. */
  ghost predicate NameOk(sealed: map<nat, Digest>, placed: map<Path, (Intent, bool)>, q: Place, t: Target)
  {
    t.FileAt? ==>
      match q
      case Object(d) => t.ino in sealed && sealed[t.ino] == d
      case Staging(_) => t.ino !in sealed
      case Outside(p) => t.ino in sealed ==> p in placed && placed[p] == (OverlayLower, false)
  }

  ghost predicate DiskInv(w: World, u: set<Bytes>, fs: Fs, sealed: map<nat, Digest>, placed: map<Path, (Intent, bool)>)
  {
    && fs.Ok() && StagingPrivate(fs)
    && (forall i :: i in sealed ==> SealedInode(w, u, fs, i, sealed[i]))
    && (forall q :: q in fs.names ==> NameOk(sealed, placed, q, fs.names[q]))
  }

  ghost predicate WritersInv(w: World, u: set<Bytes>, fs: Fs, writers: map<nat, Writer>)
  {
    && (forall id :: id in writers ==> WriterOk(w, u, fs, writers[id]))
    && (forall a, b :: a in writers && b in writers && a != b ==> writers[a].digest != writers[b].digest)
  }

  /** Past the removal, a placer's path does not lead to an object, and the inode that it writes
      neither is an object nor will become one. */
  ghost predicate PlacerOk(fs: Fs, sealed: map<nat, Digest>, pl: Placer)
  {
    && (!pl.Started? && fs.IsFile(Outside(pl.path)) ==> fs.names[Outside(pl.path)].ino !in sealed)
    && (pl.Copying? ==> pl.ino in fs.inodes && pl.ino !in sealed
                        && forall d :: Staging(d) in fs.names ==> fs.names[Staging(d)] != FileAt(pl.ino))
  }

  ghost predicate PlacersInv(fs: Fs, sealed: map<nat, Digest>, placers: map<nat, Placer>)
  {
    forall m :: m in placers ==> PlacerOk(fs, sealed, placers[m])
  }

  ghost predicate Inv(w: World, u: set<Bytes>, s: State)
  {
    && DiskInv(w, u, s.fs, s.sealed, s.placed) && WritersInv(w, u, s.fs, s.writers)
    && PlacersInv(s.fs, s.sealed, s.placers)
  }

  /** A put starts only while no other put of the same digest is in flight, as when every digest
      is routed to its one shard; its content is among the byte strings of the run. */
  ghost predicate Routed(w: World, u: set<Bytes>, s: State, step: Step)
  {
    step.Put? ==>
      && step.content in u
      && forall id :: id in s.writers ==> s.writers[id].digest != DigestFor(w, step.content, step.manifest)
  }

  /** No object is linked at a path where another placer, past its removal, has yet to open the
      file or to set its mode. */
  predicate Unshared(s: State, step: Step)
  {
    step.LinkPath? && step.placer in s.placers ==>
      forall m :: m in s.placers && m != step.placer && s.placers[m].path == s.placers[step.placer].path ==>
        s.placers[m].Started?
  }

  ghost predicate Orderly(w: World, u: set<Bytes>, s: State, step: Step)
  {
    Routed(w, u, s, step) && Unshared(s, step)
  }

  // ------------------------------------------------------------------ every step keeps it

  /** Between two filesystems, only the staging file of `d` has changed. */
  ghost predicate OnlyStagingOf(a: Fs, b: Fs, d: Digest)
  {
    && b.Ok() && OnlyNameChanged(a, b, Staging(d))
    && (Staging(d) in b.names ==> SameName(a, b, Staging(d)) || b.names[Staging(d)] == FileAt(a.next))
    && (forall i :: i in a.inodes && !(a.IsFile(Staging(d)) && i == a.names[Staging(d)].ino) ==>
          i in b.inodes && a.inodes[i] == b.inodes[i])
  }

  lemma StagingStepDisk(w: World, u: set<Bytes>, a: Fs, b: Fs, sealed: map<nat, Digest>, placed: map<Path, (Intent, bool)>, d: Digest)
    requires DiskInv(w, u, a, sealed, placed) && OnlyStagingOf(a, b, d)
    ensures DiskInv(w, u, b, sealed, placed)
  {
    var mine := Staging(d);
    forall q | q in b.names ensures NameOk(sealed, placed, q, b.names[q]) {
      assert q != mine ==> SameName(a, b, q);
    }
    forall d, q | Staging(d) in b.names && q in b.names && q != Staging(d)
      ensures b.names[q] != b.names[Staging(d)]
    {
      assert Staging(d) != mine ==> SameName(a, b, Staging(d));
      assert q != mine ==> SameName(a, b, q);
    }
  }

  lemma PlacersBesideStaging(a: Fs, b: Fs, sealed: map<nat, Digest>, placers: map<nat, Placer>, d: Digest)
    requires a.Ok() && PlacersInv(a, sealed, placers) && OnlyStagingOf(a, b, d)
    ensures PlacersInv(b, sealed, placers)
  {
    forall m | m in placers ensures PlacerOk(b, sealed, placers[m]) {
      assert PlacerOk(a, sealed, placers[m]) && SameName(a, b, Outside(placers[m].path));
      forall x | Staging(x) in b.names && x != d ensures SameName(a, b, Staging(x)) { }
    }
  }

  lemma StagingStepKeeps(w: World, u: set<Bytes>, s: State, fs: Fs, id: nat, wr: Writer)
    requires Inv(w, u, s) && id in s.writers && OnlyStagingOf(s.fs, fs, s.writers[id].digest)
    requires wr.digest == s.writers[id].digest && WriterOk(w, u, fs, wr)
    ensures Inv(w, u, s.(fs := fs, writers := s.writers[id := wr]))
  {
    StagingStepDisk(w, u, s.fs, fs, s.sealed, s.placed, wr.digest);
    PlacersBesideStaging(s.fs, fs, s.sealed, s.placers, wr.digest);
    hide WriterOk, OnlyStagingOf, PlacersInv;
    forall x | x in s.writers && x != id ensures WriterOk(w, u, fs, s.writers[x]) {
      assert WriterOk(w, u, s.fs, s.writers[x]);
      OtherWriterStays(w, u, s.fs, fs, wr.digest, s.writers[x]);
    }
    hide DiskInv;
  }

  lemma OtherWriterStays(w: World, u: set<Bytes>, a: Fs, b: Fs, d: Digest, other: Writer)
    requires StagingPrivate(a) && OnlyStagingOf(a, b, d) && WriterOk(w, u, a, other) && other.digest != d
    ensures WriterOk(w, u, b, other)
  {
    assert SameName(a, b, Staging(other.digest)) && SameName(a, b, Object(other.digest));
  }

  lemma WriteOnlyStaging(fs: Fs, d: Digest, node: Inode)
    requires fs.Ok() && fs.IsFile(Staging(d))
    ensures OnlyStagingOf(fs, Fs(fs.names, fs.inodes[fs.names[Staging(d)].ino := node], fs.next), d)
  {
  }

  lemma CreateOnlyStaging(fs: Fs, d: Digest, node: Inode)
    requires fs.Ok()
    ensures OnlyStagingOf(fs, fs.Create(Staging(d), node), d) && OnlyStagingOf(fs, fs.Unlink(Staging(d)), d)
  {
  }

  lemma MyWriter(w: World, u: set<Bytes>, s: State, id: nat)
    requires Inv(w, u, s) && id in s.writers
    ensures WriterOk(w, u, s.fs, s.writers[id]) && s.fs.Ok()
  {
  }

  lemma TruncateKeeps(w: World, u: set<Bytes>, s: State, id: nat)
    requires Inv(w, u, s) && id in s.writers && s.fs.IsFile(Staging(s.writers[id].digest))
    ensures Inv(w, u, TruncateStep(s, id))
  {
    hide Inv, OnlyStagingOf;
    var t, d := TruncateStep(s, id), s.writers[id].digest;
    MyWriter(w, u, s, id);
    WriteOnlyStaging(s.fs, d, s.fs.At(Staging(d)).(content := [], mtime := s.clock));
    StagingStepKeeps(w, u, s, t.fs, id, t.writers[id]);
  }

  lemma CreateKeeps(w: World, u: set<Bytes>, s: State, id: nat, mode: nat)
    requires Inv(w, u, s) && id in s.writers
    ensures Inv(w, u, CreateStep(s, id, mode))
  {
    hide Inv, OnlyStagingOf;
    var t := CreateStep(s, id, mode);
    MyWriter(w, u, s, id);
    CreateOnlyStaging(s.fs, s.writers[id].digest, Inode([], mode, s.clock));
    StagingStepKeeps(w, u, s, t.fs, id, t.writers[id]);
  }

  lemma ChunkKeeps(w: World, u: set<Bytes>, s: State, id: nat, n: nat)
    requires Inv(w, u, s) && id in s.writers && s.writers[id].Opened? && s.writers[id].ino in s.fs.inodes
    requires s.writers[id].done + n <= |s.writers[id].content|
    ensures Inv(w, u, ChunkStep(s, id, n))
  {
    hide Inv, OnlyStagingOf;
    var t, wr := ChunkStep(s, id, n), s.writers[id];
    MyWriter(w, u, s, id);
    assert WriteAt(wr.content[..wr.done], wr.done, wr.content[wr.done..wr.done + n]) == wr.content[..wr.done + n];
    hide WriteAt;
    WriteOnlyStaging(s.fs, wr.digest, s.fs.At(Staging(wr.digest)).(content := wr.content[..wr.done + n], mtime := s.clock));
    StagingStepKeeps(w, u, s, t.fs, id, t.writers[id]);
  }

  lemma SealKeeps(w: World, u: set<Bytes>, s: State, id: nat)
    requires Inv(w, u, s) && id in s.writers && s.writers[id].Opened? && s.writers[id].done == |s.writers[id].content|
    requires s.fs.IsFile(Staging(s.writers[id].digest))
    ensures Inv(w, u, SealStep(s, id))
  {
    hide Inv, OnlyStagingOf;
    var t, wr := SealStep(s, id), s.writers[id];
    MyWriter(w, u, s, id);
    assert wr.content[..wr.done] == wr.content;
    WriteOnlyStaging(s.fs, wr.digest, s.fs.At(Staging(wr.digest)).(mode := OBJECT_MODE));
    StagingStepKeeps(w, u, s, t.fs, id, t.writers[id]);
  }

  lemma ClearKeeps(w: World, u: set<Bytes>, s: State, id: nat)
    requires Inv(w, u, s) && id in s.writers
    ensures Inv(w, u, ClearStep(s, id))
  {
    hide Inv, OnlyStagingOf;
    var t := ClearStep(s, id);
    MyWriter(w, u, s, id);
    CreateOnlyStaging(s.fs, s.writers[id].digest, Inode([], 0, 0));
    StagingStepKeeps(w, u, s, t.fs, id, t.writers[id]);
  }

  /** The rename: the sealed staging inode becomes the object, and nothing else reaches it. */
  lemma CommitDisk(w: World, u: set<Bytes>, fs: Fs, sealed: map<nat, Digest>, placed: map<Path, (Intent, bool)>, wr: Writer)
    requires DiskInv(w, u, fs, sealed, placed) && WriterOk(w, u, fs, wr) && wr.Sealed?
    ensures var i := fs.names[Staging(wr.digest)].ino;
            DiskInv(w, u, fs.Rename(Staging(wr.digest), Object(wr.digest)), sealed[i := wr.digest], placed)
  {
    var i, b := fs.names[Staging(wr.digest)].ino, fs.Rename(Staging(wr.digest), Object(wr.digest));
    assert NameOk(sealed, placed, Staging(wr.digest), fs.names[Staging(wr.digest)]);
    forall q | q in b.names ensures NameOk(sealed[i := wr.digest], placed, q, b.names[q]) {
      assert q != Object(wr.digest) ==> NameOk(sealed, placed, q, fs.names[q]) && fs.names[q] != FileAt(i);
    }
  }

  lemma CommitKeeps(w: World, u: set<Bytes>, s: State, id: nat)
    requires Inv(w, u, s) && id in s.writers && s.writers[id].Sealed? && s.fs.IsFile(Staging(s.writers[id].digest))
    ensures Inv(w, u, CommitStep(s, id))
  {
    hide DiskInv, PlacersInv;
    CommitDisk(w, u, s.fs, s.sealed, s.placed, s.writers[id]);
    CommitPlacers(w, u, s, s.writers[id].digest);
    var t := CommitStep(s, id);
    hide WriterOk;
    forall x | x in t.writers ensures WriterOk(w, u, t.fs, t.writers[x]) {
      assert WriterOk(w, u, s.fs, s.writers[x]);
      OtherWriterAfterCommit(w, u, s.fs, s.writers[id].digest, s.writers[x]);
    }
  }

  lemma CommitPlacers(w: World, u: set<Bytes>, s: State, d: Digest)
    requires Inv(w, u, s) && s.fs.IsFile(Staging(d))
    ensures PlacersInv(s.fs.Rename(Staging(d), Object(d)), s.sealed[s.fs.names[Staging(d)].ino := d], s.placers)
  {
    var b, sealed := s.fs.Rename(Staging(d), Object(d)), s.sealed[s.fs.names[Staging(d)].ino := d];
    forall m | m in s.placers ensures PlacerOk(b, sealed, s.placers[m]) {
      assert PlacerOk(s.fs, s.sealed, s.placers[m]);
    }
  }

  lemma OtherWriterAfterCommit(w: World, u: set<Bytes>, fs: Fs, d: Digest, other: Writer)
    requires fs.IsFile(Staging(d)) && WriterOk(w, u, fs, other) && other.digest != d
    ensures WriterOk(w, u, fs.Rename(Staging(d), Object(d)), other)
  {
  }

  lemma PutKeeps(w: World, u: set<Bytes>, s: State, id: nat, d: Digest, content: Bytes)
    requires Inv(w, u, s) && content in u && Names(w, d, content)
    requires forall x :: x in s.writers ==> s.writers[x].digest != d
    ensures Inv(w, u, PutStep(s, id, d, content))
  {
  }

  // ------------------------------------------------------------------ outside the store

  lemma WritersBesideName(w: World, u: set<Bytes>, a: Fs, b: Fs, writers: map<nat, Writer>, p: Path)
    requires WritersInv(w, u, a, writers) && OneName(a, b, Outside(p))
    ensures WritersInv(w, u, b, writers)
  {
    forall x | x in writers ensures WriterOk(w, u, b, writers[x]) {
      var d := writers[x].digest;
      assert SameName(a, b, Staging(d)) && SameName(a, b, Object(d)) && WriterOk(w, u, a, writers[x]);
    }
  }

  /** What is at a path may be at it: it is not a staging file, and an object only if the path was
      placed as a non-executable overlay entry. */
  ghost predicate MayHold(fs: Fs, sealed: map<nat, Digest>, placed: map<Path, (Intent, bool)>, p: Path, t: Target)
  {
    && NameOk(sealed, placed, Outside(p), t)
    && forall d :: Staging(d) in fs.names ==> t != fs.names[Staging(d)]
  }

  lemma DiskBesideName(w: World, u: set<Bytes>, a: Fs, b: Fs, sealed: map<nat, Digest>, before: map<Path, (Intent, bool)>,
                       placed: map<Path, (Intent, bool)>, p: Path)
    requires DiskInv(w, u, a, sealed, before) && OneName(a, b, Outside(p))
    requires Outside(p) in b.names ==> MayHold(a, sealed, placed, p, b.names[Outside(p)])
    requires forall x: Path :: x != p ==> (x in placed <==> x in before) && (x in placed ==> placed[x] == before[x])
    ensures DiskInv(w, u, b, sealed, placed)
  {
    forall q | q in b.names && q != Outside(p) ensures NameOk(sealed, placed, q, b.names[q]) {
      assert SameName(a, b, q) && NameOk(sealed, before, q, a.names[q]);
    }
    forall d, q | Staging(d) in b.names && q in b.names && q != Staging(d)
      ensures b.names[q] != b.names[Staging(d)]
    {
      assert SameName(a, b, Staging(d)) && (q != Outside(p) ==> SameName(a, b, q));
    }
  }

  /** A step that changes one name outside the store and no existing inode. */
  lemma OutsideKeeps(w: World, u: set<Bytes>, s: State, b: Fs, placed: map<Path, (Intent, bool)>, p: Path)
    requires Inv(w, u, s) && OneName(s.fs, b, Outside(p))
    requires Outside(p) in b.names ==> MayHold(s.fs, s.sealed, placed, p, b.names[Outside(p)])
    requires forall x: Path :: x != p ==> (x in placed <==> x in s.placed) && (x in placed ==> placed[x] == s.placed[x])
    requires PlacersInv(b, s.sealed, s.placers)
    ensures Inv(w, u, s.(fs := b, placed := placed))
  {
    hide PlacersInv, DiskInv, WritersInv, OneName, MayHold;
    WritersBesideName(w, u, s.fs, b, s.writers, p);
    DiskBesideName(w, u, s.fs, b, s.sealed, s.placed, placed, p);
  }

  /** Placers are unharmed unless an object appears at the path of one that is past its removal. */
  lemma PlacersBesideName(a: Fs, b: Fs, sealed: map<nat, Digest>, placers: map<nat, Placer>, p: Path)
    requires a.Ok() && PlacersInv(a, sealed, placers) && OneName(a, b, Outside(p))
    requires b.IsFile(Outside(p)) && b.names[Outside(p)].ino in sealed ==>
      forall m :: m in placers && placers[m].path == p ==> placers[m].Started?
    ensures PlacersInv(b, sealed, placers)
  {
    forall m | m in placers ensures PlacerOk(b, sealed, placers[m]) {
      var pl := placers[m];
      assert PlacerOk(a, sealed, pl) && (pl.path != p ==> SameName(a, b, Outside(pl.path)));
      forall d | Staging(d) in b.names ensures SameName(a, b, Staging(d)) { }
    }
  }

  /** A step that changes an inode which is neither an object nor a staging file. */
  lemma InodeKeeps(w: World, u: set<Bytes>, s: State, i: nat, node: Inode)
    requires Inv(w, u, s) && i in s.fs.inodes && i !in s.sealed
    requires forall d :: Staging(d) in s.fs.names ==> s.fs.names[Staging(d)] != FileAt(i)
    ensures Inv(w, u, s.(fs := Fs(s.fs.names, s.fs.inodes[i := node], s.fs.next)))
  {
    var b := Fs(s.fs.names, s.fs.inodes[i := node], s.fs.next);
    forall m | m in s.placers ensures PlacerOk(b, s.sealed, s.placers[m]) { assert PlacerOk(s.fs, s.sealed, s.placers[m]); }
    hide PlacersInv;
    forall x | x in s.writers ensures WriterOk(w, u, b, s.writers[x]) { assert WriterOk(w, u, s.fs, s.writers[x]); }
  }

  lemma PlacerMoves(w: World, u: set<Bytes>, s: State, m: nat, pl: Placer)
    requires Inv(w, u, s) && PlacerOk(s.fs, s.sealed, pl)
    ensures Inv(w, u, s.(placers := s.placers[m := pl]))
  {
    hide DiskInv, WritersInv, PlacerOk;
  }

  lemma PlacerLeaves(w: World, u: set<Bytes>, s: State, m: nat)
    requires Inv(w, u, s)
    ensures Inv(w, u, s.(placers := s.placers - {m}))
  {
    hide DiskInv, WritersInv, PlacerOk;
  }

  /** The inode at a path that a user or a placer may change is neither an object nor staging. */
  lemma OutsideInode(w: World, u: set<Bytes>, s: State, p: Path)
    requires Inv(w, u, s) && s.fs.IsFile(Outside(p))
    ensures MayModify(s, p) ==> s.fs.names[Outside(p)].ino !in s.sealed
    ensures forall d :: Staging(d) in s.fs.names ==> s.fs.names[Staging(d)] != s.fs.names[Outside(p)]
  {
    assert NameOk(s.sealed, s.placed, Outside(p), s.fs.names[Outside(p)]);
  }

  lemma NextNotSealed(w: World, u: set<Bytes>, s: State)
    requires Inv(w, u, s)
    ensures s.fs.next !in s.sealed && s.fs.next !in s.fs.inodes
    ensures forall d :: Staging(d) in s.fs.names ==> s.fs.names[Staging(d)] != FileAt(s.fs.next)
  {
    assert s.fs.next in s.sealed ==> SealedInode(w, u, s.fs, s.fs.next, s.sealed[s.fs.next]);
  }

  lemma ClearPathKeeps(w: World, u: set<Bytes>, s: State, m: nat)
    requires Inv(w, u, s) && m in s.placers
    ensures Inv(w, u, ClearPathStep(s, m))
  {
    hide WritersInv;
    var pl := s.placers[m];
    UnlinkKeeps(w, u, s, Outside(pl.path));
    var t := s.(fs := s.fs.Unlink(Outside(pl.path)), placed := s.placed - {pl.path});
    hide Inv;
    PlacerMoves(w, u, t, m, Cleared(pl.digest, pl.path, pl.intent, pl.executable));
  }

  lemma LinkPathKeeps(w: World, u: set<Bytes>, s: State, m: nat)
    requires Inv(w, u, s) && Enabled(s, LinkPath(m)) && Unshared(s, LinkPath(m))
    ensures Inv(w, u, LinkPathStep(s, m))
  {
    var pl, t := s.placers[m], LinkPathStep(s, m);
    PlacerLeaves(w, u, s, m);
    assert NameOk(s.sealed, s.placed, Object(pl.digest), s.fs.names[Object(pl.digest)]);
    var r := s.(placers := s.placers - {m});
    assert OneName(s.fs, t.fs, Outside(pl.path));
    PlacersBesideName(s.fs, t.fs, s.sealed, r.placers, pl.path);
    hide WritersInv, PlacersInv;
    OutsideKeeps(w, u, r, t.fs, t.placed, pl.path);
  }

  lemma CreateOutsideKeeps(w: World, u: set<Bytes>, s: State, p: Path, node: Inode, placed: map<Path, (Intent, bool)>)
    requires Inv(w, u, s)
    requires forall x: Path :: x != p ==> (x in placed <==> x in s.placed) && (x in placed ==> placed[x] == s.placed[x])
    ensures Inv(w, u, s.(fs := s.fs.Create(Outside(p), node), placed := placed))
  {
    hide WritersInv;
    NextNotSealed(w, u, s);
    var b := s.fs.Create(Outside(p), node);
    assert OneName(s.fs, b, Outside(p));
    PlacersBesideName(s.fs, b, s.sealed, s.placers, p);
    hide PlacersInv;
    OutsideKeeps(w, u, s, b, placed, p);
  }

  lemma OpenPathKeeps(w: World, u: set<Bytes>, s: State, m: nat, mode: nat)
    requires Inv(w, u, s) && m in s.placers && s.placers[m].Cleared? && s.fs.IsFile(Object(s.placers[m].digest))
    ensures Inv(w, u, OpenPathStep(s, m, mode))
  {
    var pl, t, node := s.placers[m], OpenPathStep(s, m, mode), Inode([], mode, s.clock);
    assert PlacerOk(s.fs, s.sealed, pl);
    NextNotSealed(w, u, s);
    hide PlacersInv, WritersInv;
    if s.fs.IsFile(Outside(pl.path)) {
      OutsideInode(w, u, s, pl.path);
      InodeKeeps(w, u, s, s.fs.names[Outside(pl.path)].ino, node);
      PlacedKeeps(w, u, s.(fs := t.fs), pl.path, (pl.intent, pl.executable));
    } else {
      CreateOutsideKeeps(w, u, s, pl.path, node, t.placed);
    }
    PlacerMoves(w, u, s.(fs := t.fs, placed := t.placed), m, t.placers[m]);
  }

  lemma PlacedKeeps(w: World, u: set<Bytes>, s: State, p: Path, how: (Intent, bool))
    requires Inv(w, u, s) && s.fs.IsFile(Outside(p)) && s.fs.names[Outside(p)].ino !in s.sealed
    ensures Inv(w, u, s.(placed := s.placed[p := how]))
  {
    hide WritersInv, PlacersInv, SealedInode;
    forall q | q in s.fs.names ensures NameOk(s.sealed, s.placed[p := how], q, s.fs.names[q]) {
      assert NameOk(s.sealed, s.placed, q, s.fs.names[q]);
    }
  }

  lemma FillPathKeeps(w: World, u: set<Bytes>, s: State, m: nat, n: nat)
    requires Inv(w, u, s) && Enabled(s, FillPath(m, n))
    ensures Inv(w, u, FillPathStep(s, m, n))
  {
    hide WriteAt;
    var pl, t := s.placers[m], FillPathStep(s, m, n);
    assert PlacerOk(s.fs, s.sealed, pl);
    InodeKeeps(w, u, s, pl.ino, t.fs.inodes[pl.ino]);
    hide Inv;
    PlacerMoves(w, u, s.(fs := t.fs), m, t.placers[m]);
  }

  /** With paths unshared, setting a mode by path never lands on an object. */
  lemma SetModeKeeps(w: World, u: set<Bytes>, s: State, m: nat)
    requires Inv(w, u, s) && m in s.placers && s.placers[m].Copying?
    ensures Inv(w, u, SetModeStep(s, m))
  {
    var pl, q := s.placers[m], Outside(s.placers[m].path);
    assert PlacerOk(s.fs, s.sealed, pl);
    var b := if s.fs.IsFile(q) then s.fs.Chmod(q, WantedMode(pl.intent, pl.executable)) else s.fs;
    if s.fs.IsFile(q) {
      OutsideInode(w, u, s, pl.path);
      InodeKeeps(w, u, s, s.fs.names[q].ino, b.At(q));
    }
    hide Inv;
    PlacerLeaves(w, u, s.(fs := b), m);
  }

  /** A user's change to a file it may modify never lands on an object or a staging file. */
  lemma ModifyKeeps(w: World, u: set<Bytes>, s: State, p: Path, node: Inode)
    requires Inv(w, u, s) && s.fs.IsFile(Outside(p)) && MayModify(s, p)
    ensures Inv(w, u, s.(fs := Fs(s.fs.names, s.fs.inodes[s.fs.names[Outside(p)].ino := node], s.fs.next)))
  {
    OutsideInode(w, u, s, p);
    hide Inv;
    InodeKeeps(w, u, s, s.fs.names[Outside(p)].ino, node);
  }

  lemma UnlinkDisk(w: World, u: set<Bytes>, fs: Fs, sealed: map<nat, Digest>, placed: map<Path, (Intent, bool)>, q: Place)
    requires DiskInv(w, u, fs, sealed, placed)
    ensures DiskInv(w, u, fs.Unlink(q), sealed, if q.Outside? then placed - {q.path} else placed)
  {
    var b, less := fs.Unlink(q), if q.Outside? then placed - {q.path} else placed;
    forall x | x in b.names ensures NameOk(sealed, less, x, b.names[x]) {
      assert NameOk(sealed, placed, x, fs.names[x]);
    }
  }

  lemma UnlinkKeeps(w: World, u: set<Bytes>, s: State, q: Place)
    requires Inv(w, u, s) && !q.Staging?
    ensures Inv(w, u, s.(fs := s.fs.Unlink(q), placed := if q.Outside? then s.placed - {q.path} else s.placed))
  {
    hide DiskInv;
    UnlinkDisk(w, u, s.fs, s.sealed, s.placed, q);
    var b := s.fs.Unlink(q);
    forall m | m in s.placers ensures PlacerOk(b, s.sealed, s.placers[m]) { assert PlacerOk(s.fs, s.sealed, s.placers[m]); }
    hide PlacersInv;
    forall x | x in s.writers ensures WriterOk(w, u, b, s.writers[x]) { assert WriterOk(w, u, s.fs, s.writers[x]); }
  }

  lemma MakeDirKeeps(w: World, u: set<Bytes>, s: State, p: Path)
    requires Inv(w, u, s) && Outside(p) !in s.fs.names
    ensures Inv(w, u, s.(fs := s.fs.Name(Outside(p), DirAt)))
  {
    var b := s.fs.Name(Outside(p), DirAt);
    hide WritersInv;
    assert OneName(s.fs, b, Outside(p));
    PlacersBesideName(s.fs, b, s.sealed, s.placers, p);
    hide PlacersInv;
    OutsideKeeps(w, u, s, b, s.placed, p);
  }

  lemma PlacerKeeps(w: World, u: set<Bytes>, s: State, step: Step)
    requires Inv(w, u, s) && OfPlacer(step) && Enabled(s, step) && Unshared(s, step)
    ensures Inv(w, u, ApplyPlacer(s, step))
  {
    hide DiskInv, WritersInv, PlacersInv;
    match step {
      case MakeDir(m, p) => MakeDirKeeps(w, u, s, p);
      case EndCall(_) =>
      case Place(m, d, p, intent, x) => PlacerMoves(w, u, s, m, Started(d, p, intent, x));
      case ClearPath(m) => ClearPathKeeps(w, u, s, m);
      case LinkPath(m) => LinkPathKeeps(w, u, s, m);
      case OpenPath(m, mode) => OpenPathKeeps(w, u, s, m, mode);
      case FillPath(m, n) => FillPathKeeps(w, u, s, m, n);
      case SetMode(m) => SetModeKeeps(w, u, s, m);
      case Abandon(m) => PlacerLeaves(w, u, s, m);
    }
  }

  lemma WriterKeeps(w: World, u: set<Bytes>, s: State, step: Step)
    requires Inv(w, u, s) && OfWriter(step) && Enabled(s, step) && Routed(w, u, s, step)
    ensures Inv(w, u, ApplyWriter(w, s, step))
  {
    hide DiskInv, WriterOk, PlacersInv;
    match step {
      case Put(id, content, manifest) => PutKeeps(w, u, s, id, DigestFor(w, content, manifest), content);
      case OpenStaging(id, mode) =>
        if s.fs.IsFile(Staging(s.writers[id].digest)) { TruncateKeeps(w, u, s, id); } else { CreateKeeps(w, u, s, id, mode); }
      case ClearStaging(id) => ClearKeeps(w, u, s, id);
      case WriteChunk(id, n) => ChunkKeeps(w, u, s, id, n);
      case Seal(id) =>
        if s.fs.IsFile(Staging(s.writers[id].digest)) { SealKeeps(w, u, s, id); }
      case Commit(id) =>
        if s.fs.IsFile(Staging(s.writers[id].digest)) { CommitKeeps(w, u, s, id); }
      case Stop(_) =>
    }
  }

  lemma CollectorKeeps(w: World, u: set<Bytes>, s: State, step: Step)
    requires Inv(w, u, s) && OfCollector(step) && Enabled(s, step)
    ensures Inv(w, u, ApplyCollector(w, s, step))
  {
    hide DiskInv, WritersInv, PlacersInv, MarkStep, ContentsOf;
    if step.GcUnlink? { UnlinkKeeps(w, u, s, Object(s.passes[step.pass].doomed.value)); }
  }

  lemma UserKeeps(w: World, u: set<Bytes>, s: State, step: Step)
    requires Inv(w, u, s) && !OfWriter(step) && !OfPlacer(step) && !OfCollector(step) && Enabled(s, step)
    ensures Inv(w, u, ApplyUser(s, step))
  {
    hide DiskInv, WritersInv, PlacersInv;
    match step {
      case UserCreate(p, content, mode) => CreateOutsideKeeps(w, u, s, p, Inode(content, mode, s.clock), s.placed - {p});
      case UserWrite(p, content) =>
        ModifyKeeps(w, u, s, p, s.fs.At(Outside(p)).(content := content, mtime := s.clock));
      case UserChmod(p, mode) => ModifyKeeps(w, u, s, p, s.fs.At(Outside(p)).(mode := mode));
      case UserUnlink(p) => UnlinkKeeps(w, u, s, Outside(p));
      case UserRemoveDir(p) => UnlinkKeeps(w, u, s, Outside(p));
      case Tick(_) =>
    }
  }

  lemma StepKeepsInv(w: World, u: set<Bytes>, s: State, step: Step)
    requires Inv(w, u, s) && Enabled(s, step) && Orderly(w, u, s, step)
    ensures Inv(w, u, Apply(w, s, step))
  {
    hide Inv, ApplyWriter, ApplyPlacer, ApplyCollector, ApplyUser;
    if OfWriter(step) { WriterKeeps(w, u, s, step); }
    else if OfPlacer(step) { PlacerKeeps(w, u, s, step); }
    else if OfCollector(step) { CollectorKeeps(w, u, s, step); }
    else { UserKeeps(w, u, s, step); }
  }
}
