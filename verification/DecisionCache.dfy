/** The decision cache: readers, cache fillers and invalidating writers interleave one atomic
    access at a time. An answer is never older than the last invalidation that had returned when
    the question was asked. */
module DecisionCache {
  import opened Base
  import opened Authz

  const CACHE_TTL := 30000

  datatype Call = Call(principal: Principal, scope: Scope)

  /** `call` and `version` record which question was answered from which database version. */
  datatype Entry = Entry(perms: set<Permission>, generation: nat, at: nat, call: Call, version: nat)

  /** A `permissions` call in flight. `floor` is the newest version whose invalidation had
      returned when the call began. */
  datatype Reader =
    | Begun(call: Call, floor: nat)
    | Loaded(call: Call, floor: nat, generation: nat)
    | Missed(call: Call, floor: nat, generation: nat)
    | Queried(call: Call, floor: nat, generation: nat, perms: set<Permission>, version: nat)
    | Answered(call: Call, floor: nat, perms: set<Permission>, version: nat)

  /** A writer that has committed a version, and then bumped the generation. */
  datatype Writer = Committed(version: nat) | Bumped(version: nat)

  /** `versions` is the history of the database; the last one is current. `bumps` counts the
      generation increments and `floors[g]` is the newest version that the first `g` of them
      followed; `returned` is the newest version whose invalidation has returned. */
  datatype State = State(
    versions: seq<Db>, bumps: nat, floors: seq<nat>, returned: nat, entries: map<Key, Entry>,
    readers: map<nat, Reader>, writers: map<nat, Writer>, clock: nat)

  datatype Step =
    | Change(db: Db)
    | Commit(id: nat, db: Db)
    | Bump(id: nat)
    | Clear(id: nat, lock: bool)
    | Begin(id: nat, call: Call)
    | Load(id: nat)
    | Lookup(id: nat, lock: bool)
    | Query(id: nat)
    | Fill(id: nat, lock: bool)
    | Abort(id: nat)
    | Tick(elapsed: nat)

  function Generation(s: State): nat { s.bumps % U64 }

  function Max(a: nat, b: nat): nat { if a < b then b else a }

  function KeyOf(c: Call): Key
    requires !c.principal.System?
  {
    CacheKey(c.principal, c.scope).value
  }

  predicate Enabled(s: State, step: Step)
  {
    match step
    case Change(_) => true
    case Commit(id, _) => id !in s.writers
    case Bump(id) => id in s.writers && s.writers[id].Committed? && s.floors != []
    case Clear(id, _) => id in s.writers && s.writers[id].Bumped?
    case Begin(id, c) => id !in s.readers && !c.principal.System?
    case Load(id) => id in s.readers && s.readers[id].Begun?
    case Lookup(id, _) => id in s.readers && s.readers[id].Loaded? && !s.readers[id].call.principal.System?
    case Query(id) => id in s.readers && s.readers[id].Missed? && s.versions != []
    case Fill(id, _) => id in s.readers && s.readers[id].Queried? && !s.readers[id].call.principal.System?
    case Abort(id) => id in s.readers
    case Tick(_) => true
  }

  /** A cached entry answers when it carries the loaded generation and has not expired. */
  predicate Hit(s: State, r: Reader)
    requires r.Loaded? && !r.call.principal.System?
  {
    && KeyOf(r.call) in s.entries
    && s.entries[KeyOf(r.call)].generation == r.generation
    && s.clock - s.entries[KeyOf(r.call)].at < CACHE_TTL
  }

  function Apply(s: State, step: Step): State
    requires Enabled(s, step)
  {
    match step
    case Change(db) => s.(versions := s.versions + [db])
    case Commit(id, db) => s.(versions := s.versions + [db], writers := s.writers[id := Committed(|s.versions|)])
    case Bump(id) =>
      var v := s.writers[id].version;
      s.(bumps := s.bumps + 1, floors := s.floors + [Max(s.floors[|s.floors| - 1], v)],
         writers := s.writers[id := Bumped(v)])
    case Clear(id, lock) =>
      s.(entries := if lock then map[] else s.entries, writers := s.writers - {id},
         returned := Max(s.returned, s.writers[id].version))
    case Begin(id, c) => s.(readers := s.readers[id := Begun(c, s.returned)])
    case Load(id) =>
      var r := s.readers[id];
      s.(readers := s.readers[id := Loaded(r.call, r.floor, Generation(s))])
    case Lookup(id, lock) =>
      var r := s.readers[id];
      if lock && Hit(s, r) then
        var e := s.entries[KeyOf(r.call)];
        s.(readers := s.readers[id := Answered(r.call, r.floor, e.perms, e.version)])
      else s.(readers := s.readers[id := Missed(r.call, r.floor, r.generation)])
    case Query(id) =>
      var r, v := s.readers[id], |s.versions| - 1;
      var perms := QueryPermissions(s.versions[v], r.call.principal, r.call.scope);
      s.(readers := s.readers[id := Queried(r.call, r.floor, r.generation, perms, v)])
    case Fill(id, lock) =>
      var r := s.readers[id];
      var e := Entry(r.perms, r.generation, s.clock, r.call, r.version);
      s.(entries := if lock then s.entries[KeyOf(r.call) := e] else s.entries,
         readers := s.readers[id := Answered(r.call, r.floor, r.perms, r.version)])
    case Abort(id) => s.(readers := s.readers - {id})
    case Tick(elapsed) => s.(clock := s.clock + elapsed)
  }

  // ------------------------------------------------------------------ the invariant

  ghost predicate True(versions: seq<Db>, c: Call, perms: set<Permission>, v: nat)
  {
    v < |versions| && perms == QueryPermissions(versions[v], c.principal, c.scope)
  }

  ghost predicate ProperCall(projectOf: Id -> Id, c: Call)
  {
    Proper(projectOf, c.principal, c.scope)
  }

  ghost predicate EntryOk(projectOf: Id -> Id, versions: seq<Db>, floors: seq<nat>, key: Key, e: Entry)
  {
    && ProperCall(projectOf, e.call) && KeyOf(e.call) == key && True(versions, e.call, e.perms, e.version)
    && e.generation < |floors| && floors[e.generation] <= e.version
  }

  ghost predicate ReaderOk(projectOf: Id -> Id, versions: seq<Db>, floors: seq<nat>, returned: nat, r: Reader)
  {
    && ProperCall(projectOf, r.call)
    && match r
       case Begun(_, floor) => floor <= returned
       case Loaded(_, floor, g) => g < |floors| && floor <= floors[g]
       case Missed(_, floor, g) => g < |floors| && floor <= floors[g]
       case Queried(c, floor, g, perms, v) => g < |floors| && floor <= floors[g] <= v && True(versions, c, perms, v)
       case Answered(c, floor, perms, v) => floor <= v && True(versions, c, perms, v)
  }

  ghost predicate WriterOk(versions: seq<Db>, floors: seq<nat>, wr: Writer)
  {
    wr.version < |versions| && (wr.Bumped? ==> floors != [] && wr.version <= floors[|floors| - 1])
  }

  ghost predicate Inv(projectOf: Id -> Id, s: State)
  {
    && s.versions != [] && |s.floors| == s.bumps + 1
    && (forall i, j :: 0 <= i <= j < |s.floors| ==> s.floors[i] <= s.floors[j])
    && s.floors[s.bumps] < |s.versions| && s.returned <= s.floors[s.bumps]
    && (forall k :: k in s.entries ==> EntryOk(projectOf, s.versions, s.floors, k, s.entries[k]))
    && (forall r :: r in s.readers ==> ReaderOk(projectOf, s.versions, s.floors, s.returned, s.readers[r]))
    && (forall x :: x in s.writers ==> WriterOk(s.versions, s.floors, s.writers[x]))
  }

  /** Callers present each pipeline under its one project, and the 64-bit generation has not
      wrapped around. */
  ghost predicate Permitted(projectOf: Id -> Id, s: State, step: Step)
  {
    && (step.Begin? ==> ProperCall(projectOf, step.call))
    && s.bumps < U64
  }

  // ------------------------------------------------------------------ every step keeps it

  lemma NewVersion(projectOf: Id -> Id, s: State, db: Db)
    requires Inv(projectOf, s)
    ensures Inv(projectOf, s.(versions := s.versions + [db]))
  {
    hide QueryPermissions;
    forall v: nat | v < |s.versions| ensures (s.versions + [db])[v] == s.versions[v] { }
  }

  lemma BumpKeeps(projectOf: Id -> Id, s: State, id: nat)
    requires Inv(projectOf, s) && Enabled(s, Bump(id))
    ensures Inv(projectOf, Apply(s, Bump(id)))
  {
    hide QueryPermissions;
    var t := Apply(s, Bump(id));
    assert WriterOk(s.versions, s.floors, s.writers[id]);
    forall i | 0 <= i < |s.floors| ensures t.floors[i] == s.floors[i] <= t.floors[t.bumps] { }
  }

  lemma LookupKeeps(projectOf: Id -> Id, s: State, id: nat, lock: bool)
    requires Inv(projectOf, s) && Enabled(s, Lookup(id, lock))
    ensures Inv(projectOf, Apply(s, Lookup(id, lock)))
  {
    var r := s.readers[id];
    assert ReaderOk(projectOf, s.versions, s.floors, s.returned, r);
    if lock && Hit(s, r) {
      var e := s.entries[KeyOf(r.call)];
      HitIsTrue(projectOf, s.versions, s.floors, s.returned, r, e);
    }
    hide Inv, QueryPermissions;
    ReaderMoves(projectOf, s, id, Apply(s, Lookup(id, lock)).readers[id]);
  }

  /** An entry of the loaded generation answers this call, and from a version that is new enough. */
  lemma HitIsTrue(projectOf: Id -> Id, versions: seq<Db>, floors: seq<nat>, returned: nat, r: Reader, e: Entry)
    requires ReaderOk(projectOf, versions, floors, returned, r) && r.Loaded? && !r.call.principal.System?
    requires EntryOk(projectOf, versions, floors, KeyOf(r.call), e) && e.generation == r.generation
    ensures ReaderOk(projectOf, versions, floors, returned, Answered(r.call, r.floor, e.perms, e.version))
  {
    hide QueryPermissions;
    KeyDeterminesAnswer(projectOf, versions[e.version], e.call.principal, e.call.scope, r.call.principal, r.call.scope);
  }

  /** The cache answers exactly when it holds an entry of the loaded generation that was filled less
      than 30 seconds before, and then with what that entry holds. */
  lemma LookupAnswers(s: State, id: nat, lock: bool)
    requires Enabled(s, Lookup(id, lock))
    ensures var r, t := s.readers[id], Apply(s, Lookup(id, lock)).readers[id];
            && (t.Answered? <==> lock && KeyOf(r.call) in s.entries
                                 && s.entries[KeyOf(r.call)].generation == r.generation
                                 && s.clock < s.entries[KeyOf(r.call)].at + 30000)
            && (t.Answered? ==> t.perms == s.entries[KeyOf(r.call)].perms)
            && (!t.Answered? ==> t == Missed(r.call, r.floor, r.generation))
  {
  }

  /** A fill stamps the entry with the time and with the generation loaded before the query. */
  lemma FillStamps(s: State, id: nat)
    requires Enabled(s, Fill(id, true))
    ensures var r, e := s.readers[id], Apply(s, Fill(id, true)).entries[KeyOf(s.readers[id].call)];
            e.at == s.clock && e.generation == r.generation && e.perms == r.perms
  {
  }

  lemma FillKeeps(projectOf: Id -> Id, s: State, id: nat, lock: bool)
    requires Inv(projectOf, s) && Enabled(s, Fill(id, lock))
    ensures Inv(projectOf, Apply(s, Fill(id, lock)))
  {
    hide QueryPermissions;
    var r := s.readers[id];
    assert ReaderOk(projectOf, s.versions, s.floors, s.returned, r);
    assert EntryOk(projectOf, s.versions, s.floors, KeyOf(r.call), Entry(r.perms, r.generation, s.clock, r.call, r.version));
    assert ReaderOk(projectOf, s.versions, s.floors, s.returned, Answered(r.call, r.floor, r.perms, r.version));
    hide EntryOk, ReaderOk, WriterOk;
  }

  lemma ClearKeeps(projectOf: Id -> Id, s: State, id: nat, lock: bool)
    requires Inv(projectOf, s) && Enabled(s, Clear(id, lock))
    ensures Inv(projectOf, Apply(s, Clear(id, lock)))
  {
    hide EntryOk, QueryPermissions;
    assert WriterOk(s.versions, s.floors, s.writers[id]);
  }

  lemma StepKeepsInv(projectOf: Id -> Id, s: State, step: Step)
    requires Inv(projectOf, s) && Enabled(s, step) && Permitted(projectOf, s, step)
    ensures Inv(projectOf, Apply(s, step))
  {
    hide EntryOk, QueryPermissions;
    match step {
      case Change(db) => NewVersion(projectOf, s, db);
      case Commit(id, db) =>
        NewVersion(projectOf, s, db);
        WriterJoins(projectOf, s.(versions := s.versions + [db]), id, Committed(|s.versions|));
      case Bump(id) => BumpKeeps(projectOf, s, id);
      case Clear(id, lock) => ClearKeeps(projectOf, s, id, lock);
      case Begin(id, c) => ReaderMoves(projectOf, s, id, Begun(c, s.returned));
      case Load(id) =>
        assert ReaderOk(projectOf, s.versions, s.floors, s.returned, s.readers[id]);
        ReaderMoves(projectOf, s, id, Apply(s, step).readers[id]);
      case Lookup(id, lock) => LookupKeeps(projectOf, s, id, lock);
      case Query(id) =>
        assert ReaderOk(projectOf, s.versions, s.floors, s.returned, s.readers[id]);
        ReaderMoves(projectOf, s, id, Apply(s, step).readers[id]);
      case Fill(id, lock) => FillKeeps(projectOf, s, id, lock);
      case Abort(_) =>
      case Tick(_) =>
    }
  }

  lemma ReaderMoves(projectOf: Id -> Id, s: State, id: nat, r: Reader)
    requires Inv(projectOf, s) && ReaderOk(projectOf, s.versions, s.floors, s.returned, r)
    ensures Inv(projectOf, s.(readers := s.readers[id := r]))
  {
    hide EntryOk, ReaderOk, WriterOk;
  }

  lemma WriterJoins(projectOf: Id -> Id, s: State, id: nat, wr: Writer)
    requires Inv(projectOf, s) && WriterOk(s.versions, s.floors, wr)
    ensures Inv(projectOf, s.(writers := s.writers[id := wr]))
  {
    hide EntryOk, ReaderOk, WriterOk;
  }

  // ------------------------------------------------------------------ over whole runs

  ghost predicate Run(projectOf: Id -> Id, ss: seq<State>, steps: seq<Step>)
  {
    && |ss| == |steps| + 1
    && forall i :: 0 <= i < |steps| ==>
         Enabled(ss[i], steps[i]) && Permitted(projectOf, ss[i], steps[i]) && ss[i + 1] == Apply(ss[i], steps[i])
  }

  lemma StartInv(projectOf: Id -> Id, db: Db)
    ensures Inv(projectOf, State([db], 0, [0], 0, map[], map[], map[], 0))
  {
  }

  lemma {:induction false} RunKeepsInv(projectOf: Id -> Id, ss: seq<State>, steps: seq<Step>, n: nat)
    requires Run(projectOf, ss, steps) && Inv(projectOf, ss[0]) && n <= |steps|
    ensures Inv(projectOf, ss[n])
    decreases n
  {
    hide Inv, Apply;
    if n > 0 {
      RunKeepsInv(projectOf, ss, steps, n - 1);
      StepKeepsInv(projectOf, ss[n - 1], steps[n - 1]);
    }
  }

  /** A reader keeps the call and the floor that it began with. */
  lemma {:induction false} ReaderKeepsFloor(projectOf: Id -> Id, ss: seq<State>, steps: seq<Step>, m: nat, n: nat, id: nat)
    requires Run(projectOf, ss, steps) && m <= n <= |steps|
    requires forall i :: m <= i <= n ==> id in ss[i].readers
    ensures ss[n].readers[id].floor == ss[m].readers[id].floor && ss[n].readers[id].call == ss[m].readers[id].call
    decreases n
  {
    hide QueryPermissions;
    if m < n {
      ReaderKeepsFloor(projectOf, ss, steps, m, n - 1, id);
      var s, step := ss[n - 1], steps[n - 1];
      assert Enabled(s, step) && ss[n] == Apply(s, step);
    }
  }

  lemma {:induction false} ReturnedGrows(projectOf: Id -> Id, ss: seq<State>, steps: seq<Step>, m: nat, n: nat)
    requires Run(projectOf, ss, steps) && m <= n <= |steps|
    ensures ss[m].returned <= ss[n].returned
    decreases n
  {
    hide QueryPermissions;
    if m < n {
      ReturnedGrows(projectOf, ss, steps, m, n - 1);
      var s, step := ss[n - 1], steps[n - 1];
      assert Enabled(s, step) && ss[n] == Apply(s, step);
    }
  }

  /** Freshness, in every interleaving: a call that begins after the invalidation of version `v`
      has returned is answered with what the uncached query says about some version from `v` on,
      whichever fillers overwrite the entry and whether or not any `clear` takes place. */
  lemma AnswersAreFresh(projectOf: Id -> Id, ss: seq<State>, steps: seq<Step>, cleared: nat, begun: nat, answered: nat, id: nat)
    requires Run(projectOf, ss, steps) && Inv(projectOf, ss[0])
    requires cleared < begun < answered <= |steps|
    requires steps[cleared].Clear? && steps[begun].Begin? && steps[begun].id == id
    requires forall i :: begun < i <= answered ==> id in ss[i].readers
    requires ss[answered].readers[id].Answered?
    ensures var v, r, now := ss[cleared].writers[steps[cleared].id].version, ss[answered].readers[id], ss[answered].versions;
            && v <= r.version < |now|
            && r.call == steps[begun].call
            && r.perms == QueryPermissions(now[r.version], r.call.principal, r.call.scope)
  {
    hide QueryPermissions, EntryOk;
    RunKeepsInv(projectOf, ss, steps, answered);
    ReturnedGrows(projectOf, ss, steps, cleared + 1, begun);
    ReaderKeepsFloor(projectOf, ss, steps, begun + 1, answered, id);
    assert ss[cleared + 1] == Apply(ss[cleared], steps[cleared]);
    assert ss[begun + 1] == Apply(ss[begun], steps[begun]);
    assert ReaderOk(projectOf, ss[answered].versions, ss[answered].floors, ss[answered].returned, ss[answered].readers[id]);
  }

  /** So a revocation takes effect when its invalidation returns: a permission that no version
      from the revocation on confers is in no answer to a later call. */
  lemma RevocationTakesEffect(projectOf: Id -> Id, ss: seq<State>, steps: seq<Step>, cleared: nat, begun: nat, answered: nat, id: nat, p: Permission)
    requires Run(projectOf, ss, steps) && Inv(projectOf, ss[0])
    requires cleared < begun < answered <= |steps|
    requires steps[cleared].Clear? && steps[begun].Begin? && steps[begun].id == id
    requires forall i :: begun < i <= answered ==> id in ss[i].readers
    requires ss[answered].readers[id].Answered?
    requires !steps[begun].call.principal.System?
    requires forall v, g :: ss[cleared].writers[steps[cleared].id].version <= v < |ss[answered].versions| ==>
      !Confers(ss[answered].versions[v], g, steps[begun].call.principal, p, steps[begun].call.scope)
    ensures p !in ss[answered].readers[id].perms
  {
    hide QueryPermissions, Inv, Apply;
    AnswersAreFresh(projectOf, ss, steps, cleared, begun, answered, id);
    var r := ss[answered].readers[id];
    QueryMeans(ss[answered].versions[r.version], r.call.principal, p, r.call.scope);
  }

  // ------------------------------------------------------------------ whole decisions

  lemma {:induction false} VersionsGrow(projectOf: Id -> Id, ss: seq<State>, steps: seq<Step>, m: nat, n: nat)
    requires Run(projectOf, ss, steps) && m <= n <= |steps|
    ensures ss[m].versions <= ss[n].versions
    decreases n
  {
    hide QueryPermissions;
    if m < n {
      VersionsGrow(projectOf, ss, steps, m, n - 1);
      var s, step := ss[n - 1], steps[n - 1];
      assert Enabled(s, step) && ss[n] == Apply(s, step);
    }
  }

  /** Freshness of decisions, in every interleaving: an `authorize` that reads the standing after
      the invalidation of version `v` has returned, and then asks the cache, decides as one version
      from `v` on has the standing and one version from `v` on has the grants. */
  lemma DecisionsAreFresh(projectOf: Id -> Id, ss: seq<State>, steps: seq<Step>, cleared: nat, stood: nat,
                          begun: nat, answered: nat, id: nat, p: Permission)
    requires Run(projectOf, ss, steps) && Inv(projectOf, ss[0])
    requires cleared < stood <= begun < answered <= |steps|
    requires steps[cleared].Clear? && steps[begun].Begin? && steps[begun].id == id
    requires forall i :: begun < i <= answered ==> id in ss[i].readers
    requires ss[answered].readers[id].Answered? && ss[stood].versions != []
    ensures var v, r, now := ss[cleared].writers[steps[cleared].id].version, ss[answered].readers[id], ss[answered].versions;
            var standing, c := |ss[stood].versions| - 1, steps[begun].call;
            && v <= standing < |now| && v <= r.version < |now|
            && (Decide(ss[stood].versions[standing], r.perms, c.principal, p, c.scope).Ok? <==>
                && c.scope.org == c.principal.org && IsActive(now[standing], c.principal)
                && exists g :: Confers(now[r.version], g, c.principal, p, c.scope))
  {
    assert Enabled(ss[begun], steps[begun]);
    StandingIsFresh(projectOf, ss, steps, cleared, stood);
    VersionsGrow(projectOf, ss, steps, stood, answered);
    hide QueryPermissions, Inv, Apply;
    AnswersAreFresh(projectOf, ss, steps, cleared, begun, answered, id);
    var r := ss[answered].readers[id];
    QueryMeans(ss[answered].versions[r.version], r.call.principal, p, r.call.scope);
  }

  lemma StandingIsFresh(projectOf: Id -> Id, ss: seq<State>, steps: seq<Step>, cleared: nat, stood: nat)
    requires Run(projectOf, ss, steps) && Inv(projectOf, ss[0]) && cleared < stood <= |steps| && steps[cleared].Clear?
    ensures steps[cleared].id in ss[cleared].writers && ss[cleared].writers[steps[cleared].id].version < |ss[stood].versions|
  {
    hide QueryPermissions, EntryOk, ReaderOk;
    assert Enabled(ss[cleared], steps[cleared]) && ss[cleared + 1] == Apply(ss[cleared], steps[cleared]);
    ReturnedGrows(projectOf, ss, steps, cleared + 1, stood);
    RunKeepsInv(projectOf, ss, steps, stood);
  }
}
