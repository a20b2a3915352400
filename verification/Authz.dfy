/** Permissions, principals, scopes and the grant query, and the meaning of an authorization
    decision. Database tables are sets of rows; a query reads one version of them. */
module Authz {
  import opened Base

  type Id = string

  datatype Permission =
    | OrgRead | OrgManage | MemberInvite | MemberRemove | TeamManage | RoleManage |
      BillingManage | ProjectCreate | ProjectRead | ProjectManage | PipelineRead | PipelineWrite
      | PipelineRun | RunRead | RunCancel | LogRead | SecretWrite | SecretRead | CacheRead |
      CachePurge | WorkerRead | WorkerAdmin | TokenManage | AuditRead

  const ALL: seq<Permission> := [
    OrgRead, OrgManage, MemberInvite, MemberRemove, TeamManage, RoleManage, BillingManage,
    ProjectCreate, ProjectRead, ProjectManage, PipelineRead, PipelineWrite, PipelineRun, RunRead,
    RunCancel, LogRead, SecretWrite, SecretRead, CacheRead, CachePurge, WorkerRead, WorkerAdmin,
    TokenManage, AuditRead]

  function AsStr(p: Permission): string
  {
    match p
    case OrgRead => "org.read"
    case OrgManage => "org.manage"
    case MemberInvite => "member.invite"
    case MemberRemove => "member.remove"
    case TeamManage => "team.manage"
    case RoleManage => "role.manage"
    case BillingManage => "billing.manage"
    case ProjectCreate => "project.create"
    case ProjectRead => "project.read"
    case ProjectManage => "project.manage"
    case PipelineRead => "pipeline.read"
    case PipelineWrite => "pipeline.write"
    case PipelineRun => "pipeline.run"
    case RunRead => "run.read"
    case RunCancel => "run.cancel"
    case LogRead => "log.read"
    case SecretWrite => "secret.write"
    case SecretRead => "secret.read"
    case CacheRead => "cache.read"
    case CachePurge => "cache.purge"
    case WorkerRead => "worker.read"
    case WorkerAdmin => "worker.admin"
    case TokenManage => "token.manage"
    case AuditRead => "audit.read"
  }

  /** `Permission::from_str`: the permission with that name, if the program knows one. */
  function Parse(key: string): Option<Permission>
  {
    Find(ALL, key)
  }

  function Find(ps: seq<Permission>, key: string): (r: Option<Permission>)
    ensures r.Some? ==> AsStr(r.value) == key
    ensures r.None? ==> forall p :: p in ps ==> AsStr(p) != key
  {
    if ps == [] then None else if AsStr(ps[0]) == key then Some(ps[0]) else Find(ps[1..], key)
  }

  lemma InAll(p: Permission)
    ensures p in ALL
  {
    match p {
      case OrgRead => assert ALL[0] == p;
      case OrgManage => assert ALL[1] == p;
      case MemberInvite => assert ALL[2] == p;
      case MemberRemove => assert ALL[3] == p;
      case TeamManage => assert ALL[4] == p;
      case RoleManage => assert ALL[5] == p;
      case BillingManage => assert ALL[6] == p;
      case ProjectCreate => assert ALL[7] == p;
      case ProjectRead => assert ALL[8] == p;
      case ProjectManage => assert ALL[9] == p;
      case PipelineRead => assert ALL[10] == p;
      case PipelineWrite => assert ALL[11] == p;
      case PipelineRun => assert ALL[12] == p;
      case RunRead => assert ALL[13] == p;
      case RunCancel => assert ALL[14] == p;
      case LogRead => assert ALL[15] == p;
      case SecretWrite => assert ALL[16] == p;
      case SecretRead => assert ALL[17] == p;
      case CacheRead => assert ALL[18] == p;
      case CachePurge => assert ALL[19] == p;
      case WorkerRead => assert ALL[20] == p;
      case WorkerAdmin => assert ALL[21] == p;
      case TokenManage => assert ALL[22] == p;
      case AuditRead => assert ALL[23] == p;
    }
  }

  lemma AsStrInjective(p: Permission, q: Permission)
    requires AsStr(p) == AsStr(q)
    ensures p == q
  {
    var a, b := AsStr(p), AsStr(q);
    assert |a| == |b| && a[0] == b[0] && a[|a| - 4] == b[|b| - 4];
  }

  lemma ParseAsStr(p: Permission)
    ensures Parse(AsStr(p)) == Some(p)
  {
    InAll(p);
    AsStrInjective(p, Parse(AsStr(p)).value);
  }

  // ------------------------------------------------------------------ principals and scopes

  datatype Principal =
    | User(org: Id, user: Id)
    | ServiceAccount(org: Id, sa: Id)
    | System(org: Id)
  {
    function IdString(): Option<Id>
    {
      match this
      case User(_, user) => Some(user)
      case ServiceAccount(_, sa) => Some(sa)
      case System(_) => None
    }
  }

  datatype ScopeKind = OrgKind | ProjectKind | PipelineKind

  datatype Scope =
    | OrgScope(org: Id)
    | ProjectScope(org: Id, project: Id)
    | PipelineScope(org: Id, project: Id, pipeline: Id)
  {
    function Kind(): ScopeKind
    {
      match this
      case OrgScope(_) => OrgKind
      case ProjectScope(_, _) => ProjectKind
      case PipelineScope(_, _, _) => PipelineKind
    }

    function Leaf(): Id
    {
      match this
      case OrgScope(o) => o
      case ProjectScope(_, p) => p
      case PipelineScope(_, _, x) => x
    }

    /** This scope and every scope above it, nearest first. */
    function Lineage(): seq<(ScopeKind, Id)>
    {
      match this
      case OrgScope(o) => [(OrgKind, o)]
      case ProjectScope(o, p) => [(ProjectKind, p), (OrgKind, o)]
      case PipelineScope(o, p, x) => [(PipelineKind, x), (ProjectKind, p), (OrgKind, o)]
    }
  }

  // ------------------------------------------------------------------ the database

  datatype PrincipalKind = UserKind | TeamKind | ServiceAccountKind

  datatype Grant = Grant(org: Id, kind: PrincipalKind, principal: Id, role: Id, scopeKind: ScopeKind, scopeId: Id)

  datatype Account = Account(org: Id, disabled: bool)

  /** The tables that authorization reads, each under its primary key; a status is true when it
      is `active`. */
  datatype Db = Db(
    users: map<Id, bool>, memberships: map<(Id, Id), bool>, accounts: map<Id, Account>,
    teams: map<Id, Id>, teamMembers: set<(Id, Id)>, rolePermissions: set<(Id, string)>, grants: set<Grant>)

  /** Teams of the organization that the user belongs to: the subquery of the grant query. */
  function TeamsOf(db: Db, user: Id, org: Id): set<Id>
  {
    set tm | tm in db.teamMembers && tm.1 == user && tm.0 in db.teams && db.teams[tm.0] == org :: tm.0
  }

  predicate Selected(db: Db, org: Id, id: Id, lineage: seq<(ScopeKind, Id)>, g: Grant)
  {
    && g.org == org
    && (if g.kind == TeamKind then g.principal in TeamsOf(db, id, org) else g.principal == id)
    && (g.scopeKind, g.scopeId) in lineage
  }

  /** The join of `role_assignments` and `role_permissions`. */
  function QueryRows(db: Db, org: Id, id: Id, lineage: seq<(ScopeKind, Id)>): set<string>
  {
    set g, rp | g in db.grants && rp in db.rolePermissions && rp.0 == g.role && Selected(db, org, id, lineage, g) :: rp.1
  }

  function QueryPermissions(db: Db, principal: Principal, scope: Scope): set<Permission>
  {
    match principal.IdString()
    case None => {}
    case Some(id) =>
      set key | key in QueryRows(db, principal.org, id, scope.Lineage()) && Parse(key).Some? :: Parse(key).value
  }

  predicate IsActive(db: Db, principal: Principal)
  {
    match principal
    case System(_) => true
    case User(org, user) =>
      (org, user) in db.memberships && db.memberships[(org, user)] && user in db.users && db.users[user]
    case ServiceAccount(org, sa) => sa in db.accounts && db.accounts[sa].org == org && !db.accounts[sa].disabled
  }

  datatype Denied = MissingPermission | NotAMember | WrongOrg

  /** `authorize`, given the database that the standing is read from and the permissions held. */
  function Decide(standing: Db, held: set<Permission>, principal: Principal, p: Permission, scope: Scope): Result<(), Denied>
  {
    if principal.System? then Ok(())
    else if scope.org != principal.org then Err(WrongOrg)
    else if !IsActive(standing, principal) then Err(NotAMember)
    else if p in held then Ok(())
    else Err(MissingPermission)
  }

  /** The decision without a cache. */
  function Authorize(db: Db, principal: Principal, p: Permission, scope: Scope): Result<(), Denied>
  {
    Decide(db, QueryPermissions(db, principal, scope), principal, p, scope)
  }

  // ------------------------------------------------------------------ what a decision means

  /** The grant names the principal, or a team of the organization that the principal is in. */
  ghost predicate Reaches(db: Db, g: Grant, principal: Principal)
    requires !principal.System?
  {
    var id := principal.IdString().value;
    match g.kind
    case TeamKind => (g.principal, id) in db.teamMembers && g.principal in db.teams && db.teams[g.principal] == principal.org
    case _ => g.principal == id
  }

  /** The grant sits at the scope or above it. */
  ghost predicate Covers(g: Grant, scope: Scope)
  {
    match g.scopeKind
    case OrgKind => g.scopeId == scope.org
    case ProjectKind => !scope.OrgScope? && g.scopeId == scope.project
    case PipelineKind => scope.PipelineScope? && g.scopeId == scope.pipeline
  }

  ghost predicate Confers(db: Db, g: Grant, principal: Principal, p: Permission, scope: Scope)
    requires !principal.System?
  {
    && g in db.grants && g.org == principal.org
    && Reaches(db, g, principal) && Covers(g, scope)
    && (g.role, AsStr(p)) in db.rolePermissions
  }

  lemma SelectedMeans(db: Db, g: Grant, principal: Principal, scope: Scope)
    requires !principal.System?
    ensures Selected(db, principal.org, principal.IdString().value, scope.Lineage(), g) <==>
            g.org == principal.org && Reaches(db, g, principal) && Covers(g, scope)
  {
    var id := principal.IdString().value;
    if g.kind == TeamKind && g.principal in TeamsOf(db, id, principal.org) {
      var tm :| tm in db.teamMembers && tm.1 == id && tm.0 == g.principal;
      assert tm == (g.principal, id);
    }
    if (g.principal, id) in db.teamMembers { assert (g.principal, id).1 == id; }
    assert Covers(g, scope) <==> (g.scopeKind, g.scopeId) in scope.Lineage();
  }

  /** The grant query answers with exactly the permissions that some grant confers. */
  lemma QueryMeans(db: Db, principal: Principal, p: Permission, scope: Scope)
    requires !principal.System?
    ensures p in QueryPermissions(db, principal, scope) <==> exists g :: Confers(db, g, principal, p, scope)
  {
    hide Parse, AsStr;
    var rows := QueryRows(db, principal.org, principal.IdString().value, scope.Lineage());
    ParseAsStr(p);
    if p in QueryPermissions(db, principal, scope) {
      var key :| key in rows && Parse(key) == Some(p);
      assert key == AsStr(p) by { ParsedIs(key); }
      var g, rp :| g in db.grants && rp in db.rolePermissions && rp.0 == g.role && rp.1 == key
        && Selected(db, principal.org, principal.IdString().value, scope.Lineage(), g);
      SelectedMeans(db, g, principal, scope);
      assert rp == (g.role, key);
      assert Confers(db, g, principal, p, scope);
    }
    if g :| Confers(db, g, principal, p, scope) {
      SelectedMeans(db, g, principal, scope);
      var rp := (g.role, AsStr(p));
      assert rp.1 in rows;
    }
  }

  lemma ParsedIs(key: string)
    ensures Parse(key).Some? ==> AsStr(Parse(key).value) == key
  {
  }

  /** The decision for every principal, with its standing read off the tables. The system is always
      allowed. A user needs an active account and an active membership of the organization, and a
      service account has to be one of the organization's and not disabled; beyond that, some grant
      has to confer the permission. */
  lemma AuthorizeMeans(db: Db, principal: Principal, p: Permission, scope: Scope)
    ensures principal.System? ==> Authorize(db, principal, p, scope).Ok?
    ensures principal.User? ==>
      (Authorize(db, principal, p, scope).Ok? <==>
        && scope.org == principal.org
        && (principal.org, principal.user) in db.memberships && db.memberships[(principal.org, principal.user)]
        && principal.user in db.users && db.users[principal.user]
        && exists g :: Confers(db, g, principal, p, scope))
    ensures principal.ServiceAccount? ==>
      (Authorize(db, principal, p, scope).Ok? <==>
        && scope.org == principal.org
        && principal.sa in db.accounts && db.accounts[principal.sa].org == principal.org
        && !db.accounts[principal.sa].disabled
        && exists g :: Confers(db, g, principal, p, scope))
  {
    hide QueryPermissions, Confers;
    if !principal.System? { QueryMeans(db, principal, p, scope); }
  }

  /** Another organization is refused before standing is looked at, and standing before grants. */
  lemma DenialsMean(db: Db, principal: Principal, p: Permission, scope: Scope)
    requires !principal.System?
    ensures Authorize(db, principal, p, scope) == Err(WrongOrg) <==> scope.org != principal.org
    ensures Authorize(db, principal, p, scope) == Err(NotAMember) <==> scope.org == principal.org && !IsActive(db, principal)
    ensures Authorize(db, principal, p, scope) == Err(MissingPermission) <==>
      scope.org == principal.org && IsActive(db, principal) && forall g :: !Confers(db, g, principal, p, scope)
  {
    hide QueryPermissions, Confers, IsActive;
    QueryMeans(db, principal, p, scope);
  }

  /** Grants say nothing about the system, which needs none. */
  lemma SystemHoldsNoGrants(db: Db, org: Id, scope: Scope)
    ensures QueryPermissions(db, System(org), scope) == {}
  {
  }

  /** Standing outranks grants: suspending or removing the account or the membership, or disabling
      or removing the service account, locks the principal out whatever grants remain. */
  lemma StandingOutranksGrants(db: Db, org: Id, id: Id, p: Permission, scope: Scope)
    ensures Authorize(db.(users := db.users[id := false]), User(org, id), p, scope).Err?
    ensures Authorize(db.(users := db.users - {id}), User(org, id), p, scope).Err?
    ensures Authorize(db.(memberships := db.memberships[(org, id) := false]), User(org, id), p, scope).Err?
    ensures Authorize(db.(memberships := db.memberships - {(org, id)}), User(org, id), p, scope).Err?
    ensures forall o :: Authorize(db.(accounts := db.accounts[id := Account(o, true)]), ServiceAccount(org, id), p, scope).Err?
    ensures Authorize(db.(accounts := db.accounts - {id}), ServiceAccount(org, id), p, scope).Err?
    ensures forall o :: o != org ==>
      Authorize(db.(accounts := db.accounts[id := Account(o, false)]), ServiceAccount(org, id), p, scope).Err?
  {
    hide QueryPermissions;
  }

  /** More grants and richer roles never take a permission away. */
  lemma AuthorizeMonotone(a: Db, b: Db, principal: Principal, p: Permission, scope: Scope)
    requires a.grants <= b.grants && a.rolePermissions <= b.rolePermissions
    requires b == a.(grants := b.grants, rolePermissions := b.rolePermissions)
    requires Authorize(a, principal, p, scope).Ok?
    ensures Authorize(b, principal, p, scope).Ok?
  {
    hide QueryPermissions;
    if !principal.System? {
      hide Authorize, Covers, AsStr;
      AuthorizeMeans(a, principal, p, scope);
      AuthorizeMeans(b, principal, p, scope);
      var g :| Confers(a, g, principal, p, scope);
      assert Confers(b, g, principal, p, scope);
    }
  }

  predicate Below(inner: Scope, outer: Scope)
  {
    match outer
    case OrgScope(o) => inner.org == o
    case ProjectScope(o, p) => !inner.OrgScope? && inner.org == o && inner.project == p
    case PipelineScope(_, _, _) => inner == outer
  }

  /** Permissions flow down the hierarchy. */
  lemma AuthorizeFlowsDown(db: Db, principal: Principal, p: Permission, outer: Scope, inner: Scope)
    requires Below(inner, outer) && Authorize(db, principal, p, outer).Ok?
    ensures Authorize(db, principal, p, inner).Ok?
  {
    hide QueryPermissions;
    if !principal.System? {
      hide Authorize, Reaches, AsStr;
      AuthorizeMeans(db, principal, p, outer);
      AuthorizeMeans(db, principal, p, inner);
      var g :| Confers(db, g, principal, p, outer);
      assert Confers(db, g, principal, p, inner);
    }
  }

  lemma OtherOrgConfersNothing(db: Db, principal: Principal, p: Permission, scope: Scope, others: set<Grant>, g: Grant)
    requires !principal.System? && forall g :: g in others ==> g.org != principal.org
    ensures Confers(db.(grants := db.grants + others), g, principal, p, scope) <==> Confers(db, g, principal, p, scope)
  {
    hide Covers, AsStr;
  }

  /** Grants of other organizations make no difference. */
  lemma OtherOrgsIgnored(db: Db, principal: Principal, p: Permission, scope: Scope, others: set<Grant>)
    requires forall g :: g in others ==> g.org != principal.org
    ensures Authorize(db.(grants := db.grants + others), principal, p, scope) == Authorize(db, principal, p, scope)
  {
    hide QueryPermissions, Confers;
    if !principal.System? {
      var more := db.(grants := db.grants + others);
      QueryMeans(db, principal, p, scope);
      QueryMeans(more, principal, p, scope);
      forall g ensures Confers(more, g, principal, p, scope) <==> Confers(db, g, principal, p, scope) {
        OtherOrgConfersNothing(db, principal, p, scope, others, g);
      }
    }
  }

  // ------------------------------------------------------------------ the cache key

  type Key = (Id, Id, ScopeKind, Id)

  /** The key holds the leaf of the scope only. */
  function CacheKey(principal: Principal, scope: Scope): Option<Key>
  {
    match principal.IdString()
    case None => None
    case Some(id) => Some((principal.org, id, scope.Kind(), scope.Leaf()))
  }

  /** How the authorizer calls the cache: within the principal's organization, and with each
      pipeline under its one project. */
  predicate Proper(projectOf: Id -> Id, principal: Principal, scope: Scope)
  {
    && !principal.System? && scope.org == principal.org
    && (scope.PipelineScope? ==> scope.project == projectOf(scope.pipeline))
  }

  lemma KeyDeterminesAnswer(projectOf: Id -> Id, db: Db, p1: Principal, s1: Scope, p2: Principal, s2: Scope)
    requires Proper(projectOf, p1, s1) && Proper(projectOf, p2, s2) && CacheKey(p1, s1) == CacheKey(p2, s2)
    ensures QueryPermissions(db, p1, s1) == QueryPermissions(db, p2, s2)
  {
    assert s1.Lineage() == s2.Lineage();
  }

  /** Presented with two projects for one pipeline, the key does not determine the answer. */
  lemma KeyNeedsOneProject(org: Id, user: Id, here: Id, there: Id, pipeline: Id, p: Permission) returns (db: Db)
    requires here != there
    ensures var a, b := PipelineScope(org, here, pipeline), PipelineScope(org, there, pipeline);
            && CacheKey(User(org, user), a) == CacheKey(User(org, user), b)
            && p in QueryPermissions(db, User(org, user), a)
            && p !in QueryPermissions(db, User(org, user), b)
  {
    hide QueryPermissions, AsStr;
    var g := Grant(org, UserKind, user, user, ProjectKind, here);
    db := Db(map[], map[], map[], map[], {}, {(user, AsStr(p))}, {g});
    var a, b := PipelineScope(org, here, pipeline), PipelineScope(org, there, pipeline);
    QueryMeans(db, User(org, user), p, a);
    QueryMeans(db, User(org, user), p, b);
    assert Confers(db, g, User(org, user), p, a);
    assert forall x :: !Confers(db, x, User(org, user), p, b);
  }
}
