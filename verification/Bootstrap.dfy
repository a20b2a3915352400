/** Seeding and reconciling the built-in roles. Tables are values under their keys; a statement
    that violates a constraint fails, and a failed transaction changes nothing. */
module Bootstrap {
  import opened Base
  import opened Authz

  datatype SystemRole = Owner | Admin | Maintainer | Developer | Viewer | Billing

  const ROLES: seq<SystemRole> := [Owner, Admin, Maintainer, Developer, Viewer, Billing]

  function RoleKey(r: SystemRole): string
  {
    match r
    case Owner => "owner"
    case Admin => "admin"
    case Maintainer => "maintainer"
    case Developer => "developer"
    case Viewer => "viewer"
    case Billing => "billing"
  }

  function Unprivileged(ps: seq<Permission>): (r: seq<Permission>)
    ensures forall p :: p in r <==> p in ps && p != BillingManage && p != SecretRead
  {
    if ps == [] then []
    else if ps[0] == BillingManage || ps[0] == SecretRead then Unprivileged(ps[1..])
    else [ps[0]] + Unprivileged(ps[1..])
  }

  const MAINTAINER: seq<Permission> := [
    OrgRead, ProjectCreate, ProjectRead, ProjectManage, PipelineRead, PipelineWrite, PipelineRun,
    RunRead, RunCancel, LogRead, SecretWrite, CacheRead, CachePurge, WorkerRead]

  const DEVELOPER: seq<Permission> :=
    [OrgRead, ProjectRead, PipelineRead, PipelineRun, RunRead, RunCancel, LogRead, CacheRead]

  const VIEWER: seq<Permission> := [OrgRead, ProjectRead, PipelineRead, RunRead, LogRead]

  function Permissions(r: SystemRole): seq<Permission>
  {
    match r
    case Owner => ALL
    case Admin => Unprivileged(ALL)
    case Maintainer => MAINTAINER
    case Developer => DEVELOPER
    case Viewer => VIEWER
    case Billing => [OrgRead, BillingManage]
  }

  lemma AdministratorHolds(p: Permission)
    ensures p in Permissions(Owner)
    ensures p in Permissions(Admin) <==> p != SecretRead && p != BillingManage
  {
    hide Unprivileged;
    InAll(p);
  }

  lemma MaintainerHolds(p: Permission)
    ensures p in MAINTAINER <==> p !in {
      OrgManage, MemberInvite, MemberRemove, TeamManage, RoleManage, BillingManage, SecretRead, WorkerAdmin, TokenManage, AuditRead}
  {
    match p {
      case OrgRead => assert MAINTAINER[0] == p;
      case ProjectCreate => assert MAINTAINER[1] == p;
      case ProjectRead => assert MAINTAINER[2] == p;
      case ProjectManage => assert MAINTAINER[3] == p;
      case PipelineRead => assert MAINTAINER[4] == p;
      case PipelineWrite => assert MAINTAINER[5] == p;
      case PipelineRun => assert MAINTAINER[6] == p;
      case RunRead => assert MAINTAINER[7] == p;
      case RunCancel => assert MAINTAINER[8] == p;
      case LogRead => assert MAINTAINER[9] == p;
      case SecretWrite => assert MAINTAINER[10] == p;
      case CacheRead => assert MAINTAINER[11] == p;
      case CachePurge => assert MAINTAINER[12] == p;
      case WorkerRead => assert MAINTAINER[13] == p;
      case _ =>
    }
  }

  lemma DeveloperHolds(p: Permission)
    ensures p in DEVELOPER <==>
      p in MAINTAINER && p !in {ProjectCreate, ProjectManage, PipelineWrite, SecretWrite, CachePurge, WorkerRead}
  {
    MaintainerHolds(p);
    hide MAINTAINER;
    match p {
      case OrgRead => assert DEVELOPER[0] == p;
      case ProjectRead => assert DEVELOPER[1] == p;
      case PipelineRead => assert DEVELOPER[2] == p;
      case PipelineRun => assert DEVELOPER[3] == p;
      case RunRead => assert DEVELOPER[4] == p;
      case RunCancel => assert DEVELOPER[5] == p;
      case LogRead => assert DEVELOPER[6] == p;
      case CacheRead => assert DEVELOPER[7] == p;
      case _ =>
    }
  }

  lemma ViewerHolds(p: Permission)
    ensures p in VIEWER <==> p in DEVELOPER && p !in {PipelineRun, RunCancel, CacheRead}
    ensures p in VIEWER ==> p in {OrgRead, ProjectRead, PipelineRead, RunRead, LogRead}
  {
    DeveloperHolds(p);
    MaintainerHolds(p);
    hide MAINTAINER, DEVELOPER;
    match p {
      case OrgRead => assert VIEWER[0] == p;
      case ProjectRead => assert VIEWER[1] == p;
      case PipelineRead => assert VIEWER[2] == p;
      case RunRead => assert VIEWER[3] == p;
      case LogRead => assert VIEWER[4] == p;
      case _ =>
    }
  }

  /** What each role leaves out. The roles form a ladder from the viewer, who may only read, to the
      owner; only the owner may read secrets back, and only the owner and the billing role, which
      is not on the ladder, manage billing. */
  lemma RoleDecisions(p: Permission)
    ensures p in Permissions(Owner)
    ensures p in Permissions(Admin) <==> p in Permissions(Owner) && p !in {SecretRead, BillingManage}
    ensures p in Permissions(Maintainer) <==>
      p in Permissions(Admin) &&
      p !in {OrgManage, MemberInvite, MemberRemove, TeamManage, RoleManage, WorkerAdmin, TokenManage, AuditRead}
    ensures p in Permissions(Developer) <==>
      p in Permissions(Maintainer) &&
      p !in {ProjectCreate, ProjectManage, PipelineWrite, SecretWrite, CachePurge, WorkerRead}
    ensures p in Permissions(Viewer) <==> p in Permissions(Developer) && p !in {PipelineRun, RunCancel, CacheRead}
    ensures p in Permissions(Viewer) ==> p in {OrgRead, ProjectRead, PipelineRead, RunRead, LogRead}
    ensures p in Permissions(Billing) <==> p in {OrgRead, BillingManage}
  {
    AdministratorHolds(p);
    MaintainerHolds(p);
    DeveloperHolds(p);
    ViewerHolds(p);
    hide Unprivileged, ALL, MAINTAINER, DEVELOPER, VIEWER;
    var billing := [OrgRead, BillingManage];
    assert billing[0] == OrgRead && billing[1] == BillingManage;
  }

  // ------------------------------------------------------------------ tables and statements

  datatype RoleRow = RoleRow(org: Option<Id>, key: string, isSystem: bool)

  datatype Tables = Tables(catalog: set<string>, roles: map<Id, RoleRow>, rolePermissions: set<(Id, string)>)

  datatype StoreError = MissingFromCatalog | RowNotFound | Constraint

  predicate IsSystemRow(t: Tables, id: Id, key: string)
  {
    id in t.roles && t.roles[id].org == None && t.roles[id].key == key
  }

  /** The uniqueness rules, the check and the foreign keys of the schema. */
  ghost predicate Schema(t: Tables)
  {
    && (forall a, b, key :: IsSystemRow(t, a, key) && IsSystemRow(t, b, key) ==> a == b)
    && (forall a, b :: a in t.roles && b in t.roles && a != b && t.roles[a].org.Some? ==>
          t.roles[a].org != t.roles[b].org || t.roles[a].key != t.roles[b].key)
    && (forall a :: a in t.roles ==> (t.roles[a].isSystem <==> t.roles[a].org == None))
    && (forall rp :: rp in t.rolePermissions ==> rp.0 in t.roles && rp.1 in t.catalog)
  }

  /** `SELECT id FROM roles WHERE org_id IS NULL AND key = ?`. */
  function SystemRoleId(t: Tables, key: string): (r: Option<Id>)
    requires Schema(t)
    ensures r.Some? ==> IsSystemRow(t, r.value, key)
    ensures r.None? ==> forall id :: !IsSystemRow(t, id, key)
  {
    var ids := set id | id in t.roles && IsSystemRow(t, id, key);
    if ids == {} then assert forall id :: IsSystemRow(t, id, key) ==> id in ids; None
    else var id :| id in ids; Some(id)
  }

  /** `INSERT OR IGNORE`: a row that would break the primary key or the unique key is dropped. */
  function InsertRoleOrIgnore(t: Tables, id: Id, key: string): Tables
    requires Schema(t)
  {
    if id in t.roles || SystemRoleId(t, key).Some? then t
    else t.(roles := t.roles[id := RoleRow(None, key, true)])
  }

  function ClearRole(t: Tables, role: Id): Tables
  {
    t.(rolePermissions := set rp | rp in t.rolePermissions && rp.0 != role)
  }

  function GrantOne(t: Tables, role: Id, key: string): Result<Tables, StoreError>
  {
    if (role, key) in t.rolePermissions || role !in t.roles || key !in t.catalog then Err(Constraint)
    else Ok(t.(rolePermissions := t.rolePermissions + {(role, key)}))
  }

  function GrantAll(t: Tables, role: Id, ps: seq<Permission>): Result<Tables, StoreError>
    decreases |ps|
  {
    if ps == [] then Ok(t)
    else
      var next :- GrantOne(t, role, AsStr(ps[0]));
      GrantAll(next, role, ps[1..])
  }

  // ------------------------------------------------------------------ one role

  lemma InsertKeepsSchema(t: Tables, id: Id, key: string)
    requires Schema(t)
    ensures Schema(InsertRoleOrIgnore(t, id, key))
  {
    var u := InsertRoleOrIgnore(t, id, key);
    if u != t {
      forall a, b, k | IsSystemRow(u, a, k) && IsSystemRow(u, b, k) ensures a == b {
        assert a != id ==> IsSystemRow(t, a, k);
        assert b != id ==> IsSystemRow(t, b, k);
      }
    }
  }

  function ReconcileRole(t: Tables, role: SystemRole, id: Id): Result<Tables, StoreError>
    requires Schema(t)
  {
    InsertKeepsSchema(t, id, RoleKey(role));
    var seeded := InsertRoleOrIgnore(t, id, RoleKey(role));
    match SystemRoleId(seeded, RoleKey(role))
    case None => Err(RowNotFound)
    case Some(roleId) => GrantAll(ClearRole(seeded, roleId), roleId, Permissions(role))
  }

  ghost predicate Distinct<T>(s: seq<T>)
  {
    forall i, j :: 0 <= i < j < |s| ==> s[i] != s[j]
  }

  ghost function Keys(ps: seq<Permission>): set<string>
  {
    set p | p in ps :: AsStr(p)
  }

  /** Granting distinct known permissions to a cleared role cannot fail, and grants just those. */
  lemma {:induction false} GrantAllGrants(t: Tables, role: Id, ps: seq<Permission>)
    requires Distinct(ps) && role in t.roles && Keys(ps) <= t.catalog
    requires forall p :: p in ps ==> (role, AsStr(p)) !in t.rolePermissions
    ensures GrantAll(t, role, ps) == Ok(t.(rolePermissions := t.rolePermissions + set k | k in Keys(ps) :: (role, k)))
    decreases |ps|
  {
    hide AsStr;
    if ps == [] {
      assert t.rolePermissions + (set k | k in Keys(ps) :: (role, k)) == t.rolePermissions;
    } else {
      assert AsStr(ps[0]) in Keys(ps);
      var next := t.(rolePermissions := t.rolePermissions + {(role, AsStr(ps[0]))});
      forall p | p in ps[1..] ensures (role, AsStr(p)) !in next.rolePermissions {
        if AsStr(p) == AsStr(ps[0]) { AsStrInjective(p, ps[0]); }
      }
      assert Keys(ps) == {AsStr(ps[0])} + Keys(ps[1..]);
      GrantAllGrants(next, role, ps[1..]);
      assert t.rolePermissions + (set k | k in Keys(ps) :: (role, k)) ==
             next.rolePermissions + (set k | k in Keys(ps[1..]) :: (role, k));
    }
  }

  function Index(p: Permission): nat
  {
    match p
    case OrgRead => 0 case OrgManage => 1 case MemberInvite => 2 case MemberRemove => 3 case TeamManage => 4
    case RoleManage => 5 case BillingManage => 6 case ProjectCreate => 7 case ProjectRead => 8 case ProjectManage => 9
    case PipelineRead => 10 case PipelineWrite => 11 case PipelineRun => 12 case RunRead => 13 case RunCancel => 14
    case LogRead => 15 case SecretWrite => 16 case SecretRead => 17 case CacheRead => 18 case CachePurge => 19
    case WorkerRead => 20 case WorkerAdmin => 21 case TokenManage => 22 case AuditRead => 23
  }

  lemma {:induction false} UnprivilegedDistinct(ps: seq<Permission>)
    requires Distinct(ps)
    ensures Distinct(Unprivileged(ps))
  {
    if ps != [] {
      UnprivilegedDistinct(ps[1..]);
      var rest := Unprivileged(ps[1..]);
      forall j | 0 <= j < |rest| ensures rest[j] != ps[0] { assert rest[j] in ps[1..]; }
    }
  }

  ghost predicate Ascending(ps: seq<Permission>)
  {
    forall i :: 0 <= i < |ps| - 1 ==> Index(ps[i]) < Index(ps[i + 1])
  }

  lemma {:induction false} AscendingDistinct(ps: seq<Permission>)
    requires Ascending(ps)
    ensures Distinct(ps) && forall j :: 0 < j < |ps| ==> Index(ps[0]) < Index(ps[j])
  {
    if |ps| > 1 {
      var rest := ps[1..];
      forall i | 0 <= i < |rest| - 1 ensures Index(rest[i]) < Index(rest[i + 1]) {
        assert rest[i] == ps[i + 1] && rest[i + 1] == ps[i + 2];
      }
      AscendingDistinct(rest);
      assert forall j :: 0 < j < |ps| ==> ps[j] == rest[j - 1];
    }
  }

  lemma AllAscending()
    ensures Ascending(ALL)
  {
    assert forall i :: 0 <= i < |ALL| ==> Index(ALL[i]) == i;
  }

  lemma MaintainerAscending()
    ensures Ascending(MAINTAINER)
  {
    assert forall i :: 0 <= i < |MAINTAINER| ==>
      Index(MAINTAINER[i]) == [0, 7, 8, 9, 10, 11, 12, 13, 14, 15, 16, 18, 19, 20][i];
  }

  lemma DeveloperAscending()
    ensures Ascending(DEVELOPER)
  {
    assert forall i :: 0 <= i < |DEVELOPER| ==> Index(DEVELOPER[i]) == [0, 8, 10, 12, 13, 14, 15, 18][i];
  }

  lemma ViewerAscending()
    ensures Ascending(VIEWER) && Ascending([OrgRead, BillingManage])
  {
    assert forall i :: 0 <= i < |VIEWER| ==> Index(VIEWER[i]) == [0, 8, 10, 13, 15][i];
  }

  lemma PermissionsDistinct(r: SystemRole)
    ensures Distinct(Permissions(r))
  {
    hide Ascending, Unprivileged, Distinct;
    AllAscending();
    MaintainerAscending();
    DeveloperAscending();
    ViewerAscending();
    AscendingDistinct(ALL);
    UnprivilegedDistinct(ALL);
    AscendingDistinct(MAINTAINER);
    AscendingDistinct(DEVELOPER);
    AscendingDistinct(VIEWER);
    AscendingDistinct([OrgRead, BillingManage]);
  }

  ghost predicate CatalogComplete(t: Tables)
  {
    forall p: Permission :: AsStr(p) in t.catalog
  }

  /** The role row exists and grants exactly what the code says. */
  ghost predicate Reconciled(t: Tables, role: SystemRole)
    requires Schema(t)
  {
    var id := SystemRoleId(t, RoleKey(role));
    id.Some? && forall k :: (id.value, k) in t.rolePermissions <==> k in Keys(Permissions(role))
  }

  /** What reconciling one role may change: it may add the role's row, and it sets the grants of
      that row. */
  ghost predicate RoleChanged(t: Tables, u: Tables, role: SystemRole)
  {
    && u.catalog == t.catalog
    && (forall id :: id in t.roles ==> id in u.roles && u.roles[id] == t.roles[id])
    && (forall id :: id in u.roles && id !in t.roles ==> IsSystemRow(u, id, RoleKey(role)))
    && (forall id, k :: !IsSystemRow(u, id, RoleKey(role)) ==> ((id, k) in u.rolePermissions <==> (id, k) in t.rolePermissions))
  }

  lemma ReconcileRoleWorks(t: Tables, role: SystemRole, id: Id)
    requires Schema(t) && CatalogComplete(t)
    ensures ReconcileRole(t, role, id).Ok? <==> SystemRoleId(t, RoleKey(role)).Some? || id !in t.roles
    ensures ReconcileRole(t, role, id).Ok? ==>
      var u := ReconcileRole(t, role, id).value;
      && Schema(u) && CatalogComplete(u) && Reconciled(u, role) && RoleChanged(t, u, role)
      && u.roles.Keys <= t.roles.Keys + {id}
  {
    hide AsStr, RoleKey, Permissions, ReconcileRole, GrantAll;
    var key := RoleKey(role);
    InsertKeepsSchema(t, id, key);
    var seeded := InsertRoleOrIgnore(t, id, key);
    assert seeded != t ==> IsSystemRow(seeded, id, key);
    ReconcileRoleIs(t, role, id);
    if SystemRoleId(seeded, key).Some? {
      GrantedIs(seeded, role);
      SeedChanges(t, id, key);
    }
  }

  lemma ReconcileRoleIs(t: Tables, role: SystemRole, id: Id)
    requires Schema(t)
    ensures Schema(InsertRoleOrIgnore(t, id, RoleKey(role)))
    ensures var seeded := InsertRoleOrIgnore(t, id, RoleKey(role));
            var found := SystemRoleId(seeded, RoleKey(role));
            ReconcileRole(t, role, id) ==
              if found.None? then Err(RowNotFound) else GrantAll(ClearRole(seeded, found.value), found.value, Permissions(role))
  {
    hide AsStr, RoleKey, Permissions, GrantAll;
    InsertKeepsSchema(t, id, RoleKey(role));
  }

  /** Clearing the role and granting its permissions again always succeeds. */
  lemma GrantedIs(t: Tables, role: SystemRole)
    requires Schema(t) && CatalogComplete(t) && SystemRoleId(t, RoleKey(role)).Some?
    ensures var id := SystemRoleId(t, RoleKey(role)).value;
            var granted := GrantAll(ClearRole(t, id), id, Permissions(role));
            && granted.Ok? && granted.value.roles == t.roles && granted.value.catalog == t.catalog
            && Schema(granted.value) && Reconciled(granted.value, role)
            && forall x, k :: x != id ==> ((x, k) in granted.value.rolePermissions <==> (x, k) in t.rolePermissions)
  {
    hide AsStr, RoleKey, Permissions, GrantAll;
    var id := SystemRoleId(t, RoleKey(role)).value;
    PermissionsDistinct(role);
    GrantAllGrants(ClearRole(t, id), id, Permissions(role));
    var u := GrantAll(ClearRole(t, id), id, Permissions(role)).value;
    SameRoles(t, u, RoleKey(role));
  }

  lemma SeedChanges(t: Tables, id: Id, key: string)
    requires Schema(t)
    ensures var u := InsertRoleOrIgnore(t, id, key);
            && u.catalog == t.catalog && u.rolePermissions == t.rolePermissions
            && (forall x :: x in t.roles ==> x in u.roles && u.roles[x] == t.roles[x])
            && (forall x :: x in u.roles && x !in t.roles ==> x == id && IsSystemRow(u, x, key))
  {
  }

  lemma SameRoles(t: Tables, u: Tables, key: string)
    requires Schema(t) && u.roles == t.roles && forall rp :: rp in u.rolePermissions ==> rp.0 in u.roles && rp.1 in u.catalog
    ensures Schema(u) && SystemRoleId(u, key) == SystemRoleId(t, key)
  {
    forall id, k ensures IsSystemRow(u, id, k) == IsSystemRow(t, id, k) { }
    assert Schema(u);
  }

  // ------------------------------------------------------------------ all roles

  function ReconcileAll(t: Tables, roles: seq<SystemRole>, ids: seq<Id>): Result<Tables, StoreError>
    requires Schema(t) && |ids| == |roles|
    decreases |roles|
  {
    if roles == [] then Ok(t)
    else
      var next :- ReconcileRole(t, roles[0], ids[0]);
      ReconcileKeepsSchema(t, roles[0], ids[0]);
      ReconcileAll(next, roles[1..], ids[1..])
  }

  lemma ReconcileKeepsSchema(t: Tables, role: SystemRole, id: Id)
    requires Schema(t)
    ensures ReconcileRole(t, role, id).Ok? ==> Schema(ReconcileRole(t, role, id).value)
  {
    hide AsStr, RoleKey, Permissions, GrantAll, ReconcileRole;
    ReconcileRoleIs(t, role, id);
    var seeded := InsertRoleOrIgnore(t, id, RoleKey(role));
    var found := SystemRoleId(seeded, RoleKey(role));
    if found.Some? {
      assert Schema(ClearRole(seeded, found.value)) by { SameRoles(seeded, ClearRole(seeded, found.value), RoleKey(role)); }
      GrantAllKeepsSchema(ClearRole(seeded, found.value), found.value, Permissions(role));
    }
  }

  lemma {:induction false} GrantAllKeepsSchema(t: Tables, role: Id, ps: seq<Permission>)
    requires Schema(t)
    ensures GrantAll(t, role, ps).Ok? ==> Schema(GrantAll(t, role, ps).value)
    decreases |ps|
  {
    hide AsStr;
    if ps != [] && GrantOne(t, role, AsStr(ps[0])).Ok? {
      var next := GrantOne(t, role, AsStr(ps[0])).value;
      SameRoles(t, next, "");
      GrantAllKeepsSchema(next, role, ps[1..]);
    }
  }

  ghost predicate IsSystemOneOf(t: Tables, id: Id, roles: seq<SystemRole>)
  {
    exists r :: r in roles && IsSystemRow(t, id, RoleKey(r))
  }

  /** Existing rows keep their ids and columns, new rows are system roles, and grants of rows
      that are not among these system roles do not change. */
  ghost predicate OnlySystemRoles(t: Tables, u: Tables, roles: seq<SystemRole>)
  {
    && u.catalog == t.catalog
    && (forall id :: id in t.roles ==> id in u.roles && u.roles[id] == t.roles[id])
    && (forall id :: id in u.roles && id !in t.roles ==> IsSystemOneOf(u, id, roles))
    && (forall id, k :: !IsSystemOneOf(u, id, roles) ==> ((id, k) in u.rolePermissions <==> (id, k) in t.rolePermissions))
  }

  lemma RoleKeysDiffer(a: SystemRole, b: SystemRole)
    requires RoleKey(a) == RoleKey(b)
    ensures a == b
  {
    var x, y := RoleKey(a), RoleKey(b);
    assert |x| == |y| && x[0] == y[0];
  }

  /** A role that is reconciled stays so while another one is. */
  lemma OtherRoleStays(t: Tables, u: Tables, role: SystemRole, other: SystemRole)
    requires Schema(t) && Schema(u) && Reconciled(t, role) && RoleChanged(t, u, other) && role != other
    ensures Reconciled(u, role)
  {
    hide RoleKey, Permissions, AsStr;
    var id := SystemRoleId(t, RoleKey(role)).value;
    if RoleKey(role) == RoleKey(other) { RoleKeysDiffer(role, other); }
    assert IsSystemRow(u, id, RoleKey(role));
    assert SystemRoleId(u, RoleKey(role)) == Some(id);
    assert !IsSystemRow(u, id, RoleKey(other));
  }

  /** After a successful pass over distinct roles, each grants exactly its code-defined
      permissions, and nothing else has changed. */
  lemma {:induction false} ReconcileAllWorks(t: Tables, roles: seq<SystemRole>, ids: seq<Id>)
    requires Schema(t) && CatalogComplete(t) && |ids| == |roles| && Distinct(roles)
    requires ReconcileAll(t, roles, ids).Ok?
    ensures var u := ReconcileAll(t, roles, ids).value;
            && Schema(u) && CatalogComplete(u) && OnlySystemRoles(t, u, roles)
            && (forall r :: r in roles ==> Reconciled(u, r))
            && (forall r :: r !in roles && Reconciled(t, r) ==> Reconciled(u, r))
    decreases |roles|
  {
    hide RoleKey, Permissions, AsStr, ReconcileRole, Reconciled, CatalogComplete;
    if roles != [] {
      var role := roles[0];
      ReconcileRoleWorks(t, role, ids[0]);
      var next := ReconcileRole(t, role, ids[0]).value;
      ReconcileAllWorks(next, roles[1..], ids[1..]);
      var u := ReconcileAll(t, roles, ids).value;
      forall r | r !in roles && Reconciled(t, r) ensures Reconciled(u, r) { OtherRoleStays(t, next, r, role); }
      assert role !in roles[1..];
      ChangesCompose(t, next, u, role, roles[1..]);
      assert [role] + roles[1..] == roles;
    }
  }

  ghost predicate NewIds(t: Tables, ids: seq<Id>)
  {
    Distinct(ids) && forall id :: id in ids ==> id !in t.roles
  }

  /** With new ids the pass over the roles cannot fail. */
  lemma {:induction false} NewIdsSucceed(t: Tables, roles: seq<SystemRole>, ids: seq<Id>)
    requires Schema(t) && CatalogComplete(t) && |ids| == |roles| && NewIds(t, ids)
    ensures ReconcileAll(t, roles, ids).Ok?
    decreases |roles|
  {
    hide RoleKey, Permissions, AsStr, ReconcileRole, Reconciled, CatalogComplete;
    if roles != [] {
      ReconcileRoleWorks(t, roles[0], ids[0]);
      NewIdsSucceed(ReconcileRole(t, roles[0], ids[0]).value, roles[1..], ids[1..]);
    }
  }

  lemma ChangesCompose(t: Tables, m: Tables, u: Tables, role: SystemRole, rest: seq<SystemRole>)
    requires RoleChanged(t, m, role) && OnlySystemRoles(m, u, rest)
    ensures OnlySystemRoles(t, u, [role] + rest)
  {
    hide RoleKey;
    var roles := [role] + rest;
    forall id ensures IsSystemOneOf(u, id, rest) ==> IsSystemOneOf(u, id, roles) {
      if r :| r in rest && IsSystemRow(u, id, RoleKey(r)) { assert r in roles; }
    }
    forall id ensures IsSystemRow(m, id, RoleKey(role)) ==> IsSystemOneOf(u, id, roles) {
      if IsSystemRow(m, id, RoleKey(role)) { assert role in roles && IsSystemRow(u, id, RoleKey(role)); }
    }
  }

  /** Reconciling what is already reconciled changes nothing, whatever ids were generated. */
  lemma ReconcileRoleAgain(t: Tables, role: SystemRole, id: Id)
    requires Schema(t) && CatalogComplete(t) && Reconciled(t, role)
    ensures ReconcileRole(t, role, id) == Ok(t)
  {
    hide RoleKey, Permissions, AsStr, GrantAll, ReconcileRole;
    ReconcileRoleIs(t, role, id);
    GrantedIs(t, role);
    var roleId := SystemRoleId(t, RoleKey(role)).value;
    var u := GrantAll(ClearRole(t, roleId), roleId, Permissions(role)).value;
    SameRoles(t, u, RoleKey(role));
    forall rp: (Id, string) ensures rp in u.rolePermissions <==> rp in t.rolePermissions {
      var (x, k) := rp;
      assert (x, k) in u.rolePermissions <==> (x, k) in t.rolePermissions;
    }
    assert u.rolePermissions == t.rolePermissions;
  }

  lemma {:induction false} ReconcileAllAgain(t: Tables, roles: seq<SystemRole>, ids: seq<Id>)
    requires Schema(t) && CatalogComplete(t) && |ids| == |roles| && forall r :: r in roles ==> Reconciled(t, r)
    ensures ReconcileAll(t, roles, ids) == Ok(t)
    decreases |roles|
  {
    hide Reconciled, ReconcileRole, CatalogComplete;
    if roles != [] {
      ReconcileRoleAgain(t, roles[0], ids[0]);
      ReconcileAllAgain(t, roles[1..], ids[1..]);
    }
  }

  /** Bootstrapping a second time changes nothing. */
  lemma BootstrapIsIdempotent(t: Tables, ids: seq<Id>, again: seq<Id>)
    requires Schema(t) && CatalogComplete(t) && |ids| == |ROLES| == |again| && ReconcileAll(t, ROLES, ids).Ok?
    ensures var u := ReconcileAll(t, ROLES, ids).value; Schema(u) && ReconcileAll(u, ROLES, again) == Ok(u)
  {
    hide Reconciled, ReconcileRole, CatalogComplete, ReconcileAll;
    ReconcileAllWorks(t, ROLES, ids);
    ReconcileAllAgain(ReconcileAll(t, ROLES, ids).value, ROLES, again);
  }

  // ------------------------------------------------------------------ the transaction

  class Database {
    var tables: Tables

    /** `verify_permission_catalog`: fails on a missing permission; extra ones are only logged. */
    method VerifyCatalog() returns (r: Result<(), StoreError>)
      ensures r == if CatalogComplete(tables) then Ok(()) else Err(MissingFromCatalog)
    {
      var i := 0;
      while i < |ALL|
        invariant 0 <= i <= |ALL|
        invariant forall k :: 0 <= k < i ==> AsStr(ALL[k]) in tables.catalog
      {
        if AsStr(ALL[i]) !in tables.catalog { return Err(MissingFromCatalog); }
        i := i + 1;
      }
      forall p: Permission ensures AsStr(p) in tables.catalog {
        InAll(p);
      }
      return Ok(());
    }

    /** `bootstrap`, with the role ids it generates. Everything happens in one transaction: a
        failure of any statement, or of the catalog check before it, leaves the tables alone. */
    method Bootstrap(ids: seq<Id>) returns (r: Result<(), StoreError>)
      requires Schema(tables) && |ids| == |ROLES|
      modifies this
      ensures Schema(tables)
      ensures r.Err? ==> tables == old(tables)
      ensures r.Ok? ==> CatalogComplete(old(tables)) && ReconcileAll(old(tables), ROLES, ids) == Ok(tables)
      ensures r.Ok? ==> OnlySystemRoles(old(tables), tables, ROLES) && forall role: SystemRole :: Reconciled(tables, role)
      ensures !CatalogComplete(old(tables)) ==> r == Err(MissingFromCatalog)
      ensures CatalogComplete(old(tables)) && ReconcileAll(old(tables), ROLES, ids).Ok? ==> r.Ok?
      ensures CatalogComplete(old(tables)) && NewIds(old(tables), ids) ==> r.Ok?
    {
      hide NewIds, Reconciled, CatalogComplete, ReconcileRole, Permissions, OnlySystemRoles, AsStr;
      var _ :- VerifyCatalog();
      if NewIds(tables, ids) { NewIdsSucceed(tables, ROLES, ids); }
      var tx := tables;
      var i := 0;
      while i < |ROLES|
        invariant 0 <= i <= |ROLES| && Schema(tx) && tables == old(tables)
        invariant ReconcileAll(tx, ROLES[i..], ids[i..]) == ReconcileAll(tables, ROLES, ids)
      {
        assert ROLES[i..][0] == ROLES[i] && ROLES[i..][1..] == ROLES[i + 1..];
        assert ids[i..][0] == ids[i] && ids[i..][1..] == ids[i + 1..];
        ReconcileKeepsSchema(tx, ROLES[i], ids[i]);
        tx :- RunRole(tx, ROLES[i], ids[i]);
        i := i + 1;
      }
      ReconcileAllWorks(tables, ROLES, ids);
      RolesListed();
      tables := tx;
      return Ok(());
    }

    /** The statements for one role, with its inner loop of inserts. */
    method RunRole(t: Tables, role: SystemRole, id: Id) returns (r: Result<Tables, StoreError>)
      requires Schema(t)
      ensures r == ReconcileRole(t, role, id)
    {
      hide Permissions, AsStr, Schema;
      ReconcileRoleIs(t, role, id);
      var seeded := InsertRoleOrIgnore(t, id, RoleKey(role));
      var found := SystemRoleId(seeded, RoleKey(role));
      if found.None? { return Err(RowNotFound); }
      var roleId := found.value;
      var tx := ClearRole(seeded, roleId);
      var ps := Permissions(role);
      var i := 0;
      while i < |ps|
        invariant 0 <= i <= |ps|
        invariant GrantAll(tx, roleId, ps[i..]) == GrantAll(ClearRole(seeded, roleId), roleId, ps)
      {
        assert ps[i..][0] == ps[i] && ps[i..][1..] == ps[i + 1..];
        tx :- GrantOne(tx, roleId, AsStr(ps[i]));
        i := i + 1;
      }
      return Ok(tx);
    }
  }

  lemma RolesListed()
    ensures Distinct(ROLES) && forall r: SystemRole :: r in ROLES
  {
    forall r: SystemRole ensures r in ROLES {
      match r {
        case Owner => assert ROLES[0] == r;
        case Admin => assert ROLES[1] == r;
        case Maintainer => assert ROLES[2] == r;
        case Developer => assert ROLES[3] == r;
        case Viewer => assert ROLES[4] == r;
        case Billing => assert ROLES[5] == r;
      }
    }
  }
}
