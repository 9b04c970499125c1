/** The stored users, organizations and role grants, and what each operation does to them. */
module Grants {
  import opened Options
  import opened Authz

  datatype Scope = OnPlatform | InOrg(org: int)

  datatype Row = Row(user: int, role: Role, scope: Scope, createdAt: int, expires: Option<int>)

  /** users maps an id to whether its legacy account role is "admin". */
  datatype Db = Db(users: map<int, bool>, grants: map<int, Row>, orgs: set<int>, nextUser: int, nextGrant: int,
      now: int)

  // ---------------------------------------------------------------- reading

  predicate Current(r: Row, now: int) {
    r.expires.Some? ==> r.expires.value > now
  }

  predicate PlatformRow(r: Row, user: int) {
    r.user == user && r.scope == OnPlatform
  }

  predicate RowAt(db: Db, id: int, user: int, role: Role, scope: Scope) {
    id in db.grants && db.grants[id].user == user && db.grants[id].role == role && db.grants[id].scope == scope
  }

  /** The user holds the role at this scope now. */
  ghost predicate Active(db: Db, user: int, role: Role, scope: Scope) {
    exists id :: RowAt(db, id, user, role, scope) && Current(db.grants[id], db.now)
  }

  /** The user has a row for the role at this scope, current or expired. */
  ghost predicate HasRow(db: Db, user: int, role: Role, scope: Scope) {
    exists id :: RowAt(db, id, user, role, scope)
  }

  ghost predicate HasPlatformRow(db: Db, user: int) {
    exists id :: id in db.grants && PlatformRow(db.grants[id], user)
  }

  function ActiveRoles(db: Db, user: int): set<Role> {
    set id | id in db.grants && PlatformRow(db.grants[id], user) && Current(db.grants[id], db.now) :: db.grants[id].role
  }

  /** The roles sent along with a verified identity. */
  ghost function LoadedRoles(db: Db, user: int): set<Role>
    requires user in db.users
  {
    if ActiveRoles(db, user) != {} then ActiveRoles(db, user)
    else if HasPlatformRow(db, user) then {}
    else if db.users[user] then {PlatformAdmin}
    else {Student}
  }

  /** A principal built from the user's verified identity, in any class and with any role there. */
  ghost predicate Identified(db: Db, user: int, p: Principal) {
    && user in db.users && p.userId == user
    && (forall r :: r in p.platformRoles <==> r in LoadedRoles(db, user))
    && p.legacy == (if PlatformAdmin in p.platformRoles then LegacyAdmin else LegacyUser)
    && forall org :: org in p.orgRoles ==> forall r :: r in p.orgRoles[org] ==> Active(db, user, r, InOrg(org))
  }

  // ---------------------------------------------------------------- writing

  ghost predicate SameGrant(r: Row, s: Row) {
    r.user == s.user && r.role == s.role && r.scope == s.scope
  }

  /** No two rows grant the same role at the same scope to the same user. */
  ghost predicate Unique(db: Db) {
    forall i, j :: i in db.grants && j in db.grants && SameGrant(db.grants[i], db.grants[j]) ==> i == j
  }

  function Inserted(db: Db, r: Row): Db {
    db.(grants := db.grants[db.nextGrant := r], nextGrant := db.nextGrant + 1)
  }

  function NewRow(db: Db, user: int, role: Role, scope: Scope): Row {
    Row(user, role, scope, db.now, None)
  }

  /** A grant until `expires`, or for good: a row that is there already only takes over the new expiry. */
  ghost predicate Upserted(db: Db, db': Db, user: int, role: Role, scope: Scope, expires: Option<int>) {
    if HasRow(db, user, role, scope) then
      exists id :: id in db.grants && SameGrant(db.grants[id], NewRow(db, user, role, scope))
        && db' == db.(grants := db.grants[id := db.grants[id].(expires := expires)])
    else db' == Inserted(db, NewRow(db, user, role, scope).(expires := expires))
  }

  /** Removing a grant; a legacy administrator left without a current administrator grant becomes an ordinary user. */
  ghost function Deleted(db: Db, id: int): Db
    requires id in db.grants
  {
    var r := db.grants[id];
    var left := db.(grants := db.grants - {id});
    if r.role == PlatformAdmin && r.scope == OnPlatform && r.user in db.users && db.users[r.user]
      && !Active(left, r.user, PlatformAdmin, OnPlatform)
    then left.(users := left.users[r.user := false])
    else left
  }

  /** Every user of the set gets one new platform row, and nothing else changes. */
  ghost predicate Backfilled(db: Db, db': Db, users: set<int>, role: Role) {
    && db' == db.(grants := db'.grants, nextGrant := db'.nextGrant) && db.nextGrant <= db'.nextGrant
    && (forall id :: id in db.grants ==> id in db'.grants && db'.grants[id] == db.grants[id])
    && (forall id :: id in db'.grants && id !in db.grants ==>
          db.nextGrant <= id < db'.nextGrant && db'.grants[id].user in users
            && db'.grants[id] == NewRow(db, db'.grants[id].user, role, OnPlatform))
    && (forall u :: u in users ==> exists id :: id in db'.grants && id !in db.grants && db'.grants[id].user == u)
    && (forall i, j :: i in db'.grants && j in db'.grants && i !in db.grants && j !in db.grants ==>
          db'.grants[i].user == db'.grants[j].user ==> i == j)
  }

  /** The row that the clean-up prefers: without expiry, then newest, then the highest id. */
  predicate Better(i: int, r: Row, j: int, s: Row) {
    if r.expires.None? != s.expires.None? then r.expires.None?
    else if r.createdAt != s.createdAt then r.createdAt > s.createdAt
    else i > j
  }

  ghost predicate Best(db: Db, id: int)
    requires id in db.grants
  {
    forall j :: j in db.grants && SameGrant(db.grants[id], db.grants[j]) && j != id ==>
      Better(id, db.grants[id], j, db.grants[j])
  }

  ghost function Deduplicated(db: Db): Db {
    db.(grants := map id | id in db.grants && Best(db, id) :: db.grants[id])
  }

  ghost function AdminsToBackfill(db: Db): set<int> {
    set u | u in db.users && db.users[u] && !HasRow(db, u, PlatformAdmin, OnPlatform)
  }

  ghost function StudentsToBackfill(db: Db): set<int> {
    set u | u in db.users && !db.users[u] && !HasPlatformRow(db, u)
  }

  /** The grant statements of the migration: two backfills and the clean-up of duplicates. */
  ghost predicate Migrated(db: Db, db': Db) {
    exists d1, d2 :: MigrationStages(db, d1, d2) && db' == Deduplicated(d2)
  }

  ghost predicate MigrationStages(db: Db, d1: Db, d2: Db) {
    Backfilled(db, d1, AdminsToBackfill(db), PlatformAdmin) && Backfilled(d1, d2, StudentsToBackfill(d1), Student)
  }

  // ---------------------------------------------------------------- requests

  datatype ScopeType = Unspecified | PlatformType | OrgType | OtherType

  datatype Error = Unauthorized | Forbidden | Invalid(field: string) | NotFound

  const PLATFORM := Resource(Platform, 0, 0, 0, 0)

  ghost function PlatformDenial(actor: Principal, action: Action): Option<Error> {
    if actor.userId <= 0 then Some(Unauthorized)
    else if !MayDo(actor, action, PLATFORM) then Some(Forbidden)
    else None
  }

  /** Why an assignment is refused, if it is, in the order in which it is checked. */
  function AssignmentFault(db: Db, target: int, role: Role, scopeType: ScopeType, scopeId: Option<int>): Option<Error> {
    if target <= 0 then Some(Invalid("userId"))
    else if role.Class() || role.UnknownRole? then Some(Invalid("roleKey"))
    else if scopeType == OtherType then Some(Invalid("scopeType"))
    else if scopeType == OrgType && (scopeId.None? || scopeId.value <= 0) then Some(Invalid("scopeId"))
    else if role.Org() && scopeType != OrgType then Some(Invalid("scopeType"))
    else if scopeType != OrgType then None
    else if !role.Org() then Some(Invalid("roleKey"))
    else if scopeId.value !in db.orgs then Some(Invalid("scopeId"))
    else None
  }

  function ScopeOf(scopeType: ScopeType, scopeId: Option<int>): Scope {
    if scopeType == OrgType && scopeId.Some? then InOrg(scopeId.value) else OnPlatform
  }

  ghost predicate Assigned(db: Db, db': Db, actor: Principal, target: int, role: Role, scopeType: ScopeType,
      scopeId: Option<int>, error: Option<Error>) {
    if PlatformDenial(actor, IAMAssignRole).Some? then error == PlatformDenial(actor, IAMAssignRole) && db' == db
    else if AssignmentFault(db, target, role, scopeType, scopeId).Some?
      then error == AssignmentFault(db, target, role, scopeType, scopeId) && db' == db
    else if target !in db.users then error == Some(NotFound) && db' == db
    else error == None && Upserted(db, db', target, role, ScopeOf(scopeType, scopeId), None)
  }

  ghost predicate Revoked(db: Db, db': Db, actor: Principal, id: int, error: Option<Error>) {
    if PlatformDenial(actor, IAMRevokeRole).Some? then error == PlatformDenial(actor, IAMRevokeRole) && db' == db
    else if id !in db.grants then error == Some(NotFound) && db' == db
    else error == None && db' == Deleted(db, id)
  }

  /** A new account and, unless the process stops in between, its first role. */
  function Registered(db: Db, teacher: bool, interrupted: bool): Db {
    var user := db.nextUser;
    var created := db.(users := db.users[user := false], nextUser := user + 1);
    if interrupted then created
    else Inserted(created, NewRow(created, user, if teacher then Teacher else Student, OnPlatform))
  }

  ghost predicate OrganizationCreated(db: Db, db': Db, actor: Principal, org: int) {
    if PlatformDenial(actor, OrgCreate).Some? || org <= 0 then db' == db else db' == db.(orgs := db.orgs + {org})
  }
}
