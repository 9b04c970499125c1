/** What each operation on the grant table does to who holds which role, at every time from then on. */
module GrantEffects {
  import opened Options
  import opened Authz
  import opened PolicyShape
  import opened Grants
  import opened GrantTheorems
  import AccessTable

  /** Some row gives the user the role at this scope, and it lasts beyond the moment t. */
  ghost predicate HeldAt(db: Db, user: int, role: Role, scope: Scope, t: int) {
    exists id :: HoldsAt(db, id, user, role, scope, t)
  }

  ghost predicate HoldsAt(db: Db, id: int, user: int, role: Role, scope: Scope, t: int) {
    && id in db.grants
    && db.grants[id].user == user && db.grants[id].role == role && db.grants[id].scope == scope
    && (db.grants[id].expires == None || (db.grants[id].expires.Some? && t < db.grants[id].expires.value))
  }

  lemma ActiveIsHeldNow(db: Db, user: int, role: Role, scope: Scope)
    ensures Active(db, user, role, scope) <==> HeldAt(db, user, role, scope, db.now)
  {
    if id :| RowAt(db, id, user, role, scope) && Current(db.grants[id], db.now) {
      assert HoldsAt(db, id, user, role, scope, db.now);
    }
    if id :| HoldsAt(db, id, user, role, scope, db.now) {
      assert RowAt(db, id, user, role, scope) && Current(db.grants[id], db.now);
    }
  }

  // ---------------------------------------------------------------- granting

  /** Nothing has changed but that one role, which is held until the moment given, or for good. */
  ghost predicate OneGrantChanged(db: Db, db': Db, user: int, role: Role, scope: Scope, expires: Option<int>) {
    && db'.users == db.users && db'.orgs == db.orgs && db'.now == db.now
    && forall u, r, s, t :: HeldAt(db', u, r, s, t) <==>
         if u == user && r == role && s == scope then expires.None? || t < expires.value else HeldAt(db, u, r, s, t)
  }

  lemma OtherRowsKept(db: Db, db': Db, user: int, role: Role, scope: Scope, expires: Option<int>, id: int)
    requires WellFormed(db) && Upserted(db, db', user, role, scope, expires) && id in db.grants
    requires !RowAt(db, id, user, role, scope)
    ensures id in db'.grants && db'.grants[id] == db.grants[id]
  {
  }

  lemma NewRowsAreItsOwn(db: Db, db': Db, user: int, role: Role, scope: Scope, expires: Option<int>, id: int)
    requires WellFormed(db) && Unique(db) && Upserted(db, db', user, role, scope, expires) && id in db'.grants
    ensures RowAt(db', id, user, role, scope) ==> db'.grants[id].expires == expires
    ensures !RowAt(db', id, user, role, scope) ==> id in db.grants && db'.grants[id] == db.grants[id]
  {
    if HasRow(db, user, role, scope) && RowAt(db', id, user, role, scope) {
      var row :| row in db.grants && SameGrant(db.grants[row], NewRow(db, user, role, scope))
        && db' == db.(grants := db.grants[row := db.grants[row].(expires := expires)]);
      assert SameGrant(db.grants[id], db.grants[row]);
    } else if !HasRow(db, user, role, scope) && id in db.grants {
      assert !RowAt(db, id, user, role, scope);
    }
  }

  lemma GrantedRow(db: Db, db': Db, user: int, role: Role, scope: Scope, expires: Option<int>) returns (id: int)
    requires Upserted(db, db', user, role, scope, expires)
    ensures RowAt(db', id, user, role, scope) && db'.grants[id].expires == expires
  {
    if HasRow(db, user, role, scope) {
      id :| id in db.grants && SameGrant(db.grants[id], NewRow(db, user, role, scope))
        && db' == db.(grants := db.grants[id := db.grants[id].(expires := expires)]);
    } else {
      id := db.nextGrant;
    }
  }

  lemma GrantedAlone(db: Db, db': Db, user: int, role: Role, scope: Scope, expires: Option<int>, t: int)
    requires Inv(db) && Upserted(db, db', user, role, scope, expires)
    ensures HeldAt(db', user, role, scope, t) <==> expires.None? || t < expires.value
  {
    if id :| HoldsAt(db', id, user, role, scope, t) {
      NewRowsAreItsOwn(db, db', user, role, scope, expires, id);
    }
    var id := GrantedRow(db, db', user, role, scope, expires);
    assert expires.None? || t < expires.value ==> HoldsAt(db', id, user, role, scope, t);
  }

  lemma OtherRowsSame(db: Db, db': Db, user: int, role: Role, scope: Scope, expires: Option<int>, id: int, u: int,
      r: Role, s: Scope, t: int)
    requires Inv(db) && Upserted(db, db', user, role, scope, expires) && !(u == user && r == role && s == scope)
    ensures HoldsAt(db', id, u, r, s, t) <==> HoldsAt(db, id, u, r, s, t)
  {
    if HoldsAt(db', id, u, r, s, t) {
      NewRowsAreItsOwn(db, db', user, role, scope, expires, id);
    } else if HoldsAt(db, id, u, r, s, t) {
      OtherRowsKept(db, db', user, role, scope, expires, id);
    }
  }

  lemma OtherGrantsKept(db: Db, db': Db, user: int, role: Role, scope: Scope, expires: Option<int>, u: int, r: Role,
      s: Scope, t: int)
    requires Inv(db) && Upserted(db, db', user, role, scope, expires) && !(u == user && r == role && s == scope)
    ensures HeldAt(db', u, r, s, t) <==> HeldAt(db, u, r, s, t)
  {
    forall id
      ensures HoldsAt(db', id, u, r, s, t) <==> HoldsAt(db, id, u, r, s, t)
    {
      OtherRowsSame(db, db', user, role, scope, expires, id, u, r, s, t);
    }
  }

  /** A grant takes effect at once, lasts exactly as long as it says, and leaves all others as they were. */
  lemma GrantTakesEffect(db: Db, db': Db, user: int, role: Role, scope: Scope, expires: Option<int>)
    requires Inv(db) && Upserted(db, db', user, role, scope, expires)
    ensures OneGrantChanged(db, db', user, role, scope, expires)
  {
    forall u, r, s, t
      ensures HeldAt(db', u, r, s, t) <==>
              if u == user && r == role && s == scope then expires.None? || t < expires.value
              else HeldAt(db, u, r, s, t)
    {
      if u == user && r == role && s == scope {
        GrantedAlone(db, db', user, role, scope, expires, t);
      } else {
        OtherGrantsKept(db, db', user, role, scope, expires, u, r, s, t);
      }
    }
  }

  /** An assignment is accepted exactly for an existing user, and for a role and a scope that belong together. */
  ghost predicate Assignable(db: Db, target: int, role: Role, scopeType: ScopeType, scopeId: Option<int>) {
    && target > 0 && target in db.users
    && match scopeType
       case Unspecified | PlatformType => role in {PlatformAdmin, PlatformSupport, Teacher, Student}
       case OrgType =>
         role in {OrgAdmin, OrgTeacher, OrgStudent} && scopeId.Some? && scopeId.value > 0 && scopeId.value in db.orgs
       case OtherType => false
  }

  /** The actor is somebody, and an administrator. */
  ghost predicate Administers(actor: Principal) {
    actor.userId > 0 && PlatformAdmin in ResolvedPlatformRoles(actor)
  }

  lemma DeniedUnlessAdmin(actor: Principal, action: Action)
    requires AdminOnly(action)
    ensures PlatformDenial(actor, action) ==
            if actor.userId <= 0 then Some(Unauthorized) else if Administers(actor) then None else Some(Forbidden)
  {
    PlatformAdministration(actor, action);
  }

  lemma FaultlessWhenAssignable(db: Db, target: int, role: Role, scopeType: ScopeType, scopeId: Option<int>)
    ensures AssignmentFault(db, target, role, scopeType, scopeId).None? && target in db.users <==>
            Assignable(db, target, role, scopeType, scopeId)
  {
  }

  /**
   An assignment succeeds exactly if an administrator makes it for a role, a scope and a user that it can be made for.
   Then the user has the role there from that moment on, for good, and nobody else's roles change; otherwise nothing
   changes at all.
   */
  lemma AssignmentTakesEffect(db: Db, db': Db, actor: Principal, target: int, role: Role, scopeType: ScopeType,
      scopeId: Option<int>, error: Option<Error>)
    requires Inv(db) && Assigned(db, db', actor, target, role, scopeType, scopeId, error)
    ensures error == None <==> Administers(actor) && Assignable(db, target, role, scopeType, scopeId)
    ensures error != None ==> db' == db
    ensures error == None ==>
              var scope := if scopeType == OrgType then InOrg(scopeId.value) else OnPlatform;
              && Active(db', target, role, scope)
              && OneGrantChanged(db, db', target, role, scope, None)
  {
    DeniedUnlessAdmin(actor, IAMAssignRole);
    FaultlessWhenAssignable(db, target, role, scopeType, scopeId);
    if error == None {
      var scope := ScopeOf(scopeType, scopeId);
      GrantTakesEffect(db, db', target, role, scope, None);
      ActiveIsHeldNow(db', target, role, scope);
    }
  }

  /** Class roles and unknown ones cannot be assigned at all. */
  predicate Grantable(role: Role) {
    role.Platform() || role.Org()
  }

  /** Each field is named for its own cause, the first one that there is. */
  lemma FaultNamesItsField(db: Db, target: int, role: Role, scopeType: ScopeType, scopeId: Option<int>)
    ensures var fault := AssignmentFault(db, target, role, scopeType, scopeId);
            var given := scopeId.Some? && scopeId.value > 0;
            && (fault == Some(Invalid("userId")) <==> target <= 0)
            && (fault == Some(Invalid("roleKey")) <==>
                  target > 0 && (!Grantable(role) || (role.Platform() && scopeType == OrgType && given)))
            && (fault == Some(Invalid("scopeType")) <==>
                  target > 0 && Grantable(role) && (scopeType == OtherType || (role.Org() && scopeType != OrgType)))
            && (fault == Some(Invalid("scopeId")) <==>
                  && target > 0 && Grantable(role) && scopeType == OrgType
                  && (!given || (role.Org() && scopeId.value !in db.orgs)))
  {
    assert "userId"[0] != "roleKey"[0] && "roleKey"[0] != "scopeType"[0] && "userId"[0] != "scopeType"[0];
    assert "scopeType"[5] != "scopeId"[5] && "scopeId"[0] == "scopeType"[0];
  }

  /** A refusal says what is wrong first: who asks, the request itself, or that there is no such user. */
  lemma RefusalNamesItsCause(db: Db, db': Db, actor: Principal, target: int, role: Role, scopeType: ScopeType,
      scopeId: Option<int>, error: Option<Error>)
    requires Assigned(db, db', actor, target, role, scopeType, scopeId, error)
    ensures var fault := AssignmentFault(db, target, role, scopeType, scopeId);
            error == if actor.userId <= 0 then Some(Unauthorized)
                     else if !Administers(actor) then Some(Forbidden)
                     else if fault != None then fault
                     else if target !in db.users then Some(NotFound)
                     else None
  {
    DeniedUnlessAdmin(actor, IAMAssignRole);
  }

  // ---------------------------------------------------------------- taking away

  /** A revocation takes exactly the role of its row away, and with the administrator's the user's legacy role. */
  lemma RevocationTakesOneGrant(db: Db, id: int)
    requires Inv(db) && id in db.grants
    ensures var r, db' := db.grants[id], Deleted(db, id);
            && (forall u, role, s, t :: HeldAt(db', u, role, s, t) <==>
                  HeldAt(db, u, role, s, t) && !(u == r.user && role == r.role && s == r.scope))
            && db'.users.Keys == db.users.Keys
            && forall u :: u in db.users ==>
                 (db'.users[u] <==> db.users[u] && !(u == r.user && r.role == PlatformAdmin && r.scope == OnPlatform))
  {
    var r, db' := db.grants[id], Deleted(db, id);
    DeletedRows(db, id);
    forall u, role, s, t
      ensures HeldAt(db', u, role, s, t) <==>
              HeldAt(db, u, role, s, t) && !(u == r.user && role == r.role && s == r.scope)
    {
      if i :| HoldsAt(db', i, u, role, s, t) {
        assert HoldsAt(db, i, u, role, s, t);
        assert !SameGrant(db.grants[i], r);
      }
      if i :| HoldsAt(db, i, u, role, s, t) && !(u == r.user && role == r.role && s == r.scope) {
        assert HoldsAt(db', i, u, role, s, t);
      }
    }
    if r.role == PlatformAdmin && r.scope == OnPlatform {
      RevocationTakesEffect(db, id, r.user);
    }
  }

  /**
   A revocation succeeds exactly if an administrator asks for it and the row exists, and then takes exactly that grant
   away; otherwise nothing changes, and who is nobody is told apart from who has no authority.
   */
  lemma RevocationTakesEffectWhen(db: Db, db': Db, actor: Principal, id: int, error: Option<Error>)
    requires Inv(db) && Revoked(db, db', actor, id, error)
    ensures error == None <==> Administers(actor) && id in db.grants
    ensures error != None ==> db' == db
    ensures error != None ==> error == Some(if actor.userId <= 0 then Unauthorized
                                            else if !Administers(actor) then Forbidden else NotFound)
    ensures error == None ==>
              var r := db.grants[id];
              && id !in db'.grants
              && forall u, role, s, t :: HeldAt(db', u, role, s, t) <==>
                   HeldAt(db, u, role, s, t) && !(u == r.user && role == r.role && s == r.scope)
  {
    DeniedUnlessAdmin(actor, IAMRevokeRole);
    if error == None {
      RevocationTakesOneGrant(db, id);
      DeletedRows(db, id);
    }
  }

  /** Administrators, and nobody else, add organizations, and nothing else changes. */
  lemma OrganizationsComeFromAdmins(db: Db, db': Db, actor: Principal, org: int)
    requires OrganizationCreated(db, db', actor, org)
    ensures db'.users == db.users && db'.grants == db.grants && db'.now == db.now
    ensures forall o :: o in db'.orgs <==> o in db.orgs || (o == org && org >= 1 && Administers(actor))
  {
    DeniedUnlessAdmin(actor, OrgCreate);
  }

  // ---------------------------------------------------------------- registering

  /** A new user is a student, or a teacher if registered as one and not interrupted; nobody else's roles change. */
  lemma RegistrationTakesEffect(db: Db, teacher: bool, interrupted: bool)
    requires Inv(db)
    ensures var user, db' := db.nextUser, Registered(db, teacher, interrupted);
            && user !in db.users && db'.users == db.users[user := false]
            && LoadedRoles(db', user) == {if teacher && !interrupted then Teacher else Student}
            && forall u, r, s, t :: u != user ==> (HeldAt(db', u, r, s, t) <==> HeldAt(db, u, r, s, t))
  {
    var user, db' := db.nextUser, Registered(db, teacher, interrupted);
    forall u, r, s, t | u != user
      ensures HeldAt(db', u, r, s, t) <==> HeldAt(db, u, r, s, t)
    {
      if id :| HoldsAt(db', id, u, r, s, t) {
        assert HoldsAt(db, id, u, r, s, t);
      }
      if id :| HoldsAt(db, id, u, r, s, t) {
        assert HoldsAt(db', id, u, r, s, t);
      }
    }
    assert forall id :: id in db.grants ==> db.grants[id].user != user;
    if interrupted {
      assert ActiveRoles(db', user) == {};
    } else {
      var row := db'.grants[db.nextGrant];
      assert PlatformRow(row, user) && Current(row, db'.now);
      assert row.role in ActiveRoles(db', user);
    }
  }

  // ---------------------------------------------------------------- migrating

  /**
   Of the rows for one grant the clean-up keeps one: one without expiry if there is any, and among rows alike in that
   the one made last.
   */
  lemma CleanupKeepsTheBest(db: Db, user: int, role: Role, scope: Scope) returns (kept: int)
    requires HasRow(db, user, role, scope)
    ensures RowAt(db, kept, user, role, scope)
    ensures forall id :: RowAt(Deduplicated(db), id, user, role, scope) <==> id == kept
    ensures kept in Deduplicated(db).grants && Deduplicated(db).grants[kept] == db.grants[kept]
    ensures forall id :: RowAt(db, id, user, role, scope) ==>
              var best, other := db.grants[kept], db.grants[id];
              && (other.expires == None ==> best.expires == None)
              && ((other.expires == None <==> best.expires == None) ==> best.createdAt >= other.createdAt)
              && ((other.expires == None <==> best.expires == None) && best.createdAt == other.createdAt ==> kept >= id)
  {
    RowSurvivesCleanup(db, user, role, scope);
    CleanupLeavesUnique(db);
    kept :| RowAt(Deduplicated(db), kept, user, role, scope);
    forall id | RowAt(Deduplicated(db), id, user, role, scope)
      ensures id == kept
    {
      assert SameGrant(Deduplicated(db).grants[id], Deduplicated(db).grants[kept]);
    }
    forall id | RowAt(db, id, user, role, scope) && id != kept
      ensures Better(kept, db.grants[kept], id, db.grants[id])
    {
      assert SameGrant(db.grants[kept], db.grants[id]);
    }
  }

  /** What the two backfills are for. */
  ghost predicate Backfills(db: Db, user: int, role: Role, scope: Scope) {
    && scope == OnPlatform && user in db.users
    && if db.users[user] then role == PlatformAdmin else role == Student && !HasPlatformRow(db, user)
  }

  lemma BackfilledRow(db: Db, db': Db, users: set<int>, role: Role, id: int, u: int, r: Role, s: Scope)
    requires WellFormed(db) && Backfilled(db, db', users, role) && RowAt(db', id, u, r, s)
    ensures RowAt(db, id, u, r, s) || (u in users && r == role && s == OnPlatform && db'.grants[id].expires == None)
  {
  }

  lemma BackfillAdds(db: Db, db': Db, users: set<int>, role: Role, u: int)
    requires WellFormed(db) && Backfilled(db, db', users, role) && u in users
    ensures HasRow(db', u, role, OnPlatform)
  {
    var id :| id in db'.grants && id !in db.grants && db'.grants[id].user == u;
    assert RowAt(db', id, u, role, OnPlatform);
  }

  lemma BackfilledRows(db: Db, db': Db, users: set<int>, role: Role, u: int, r: Role, s: Scope)
    requires WellFormed(db) && Backfilled(db, db', users, role)
    ensures HasRow(db', u, r, s) <==> HasRow(db, u, r, s) || (u in users && r == role && s == OnPlatform)
    ensures forall id :: RowAt(db', id, u, r, s) && !HasRow(db, u, r, s) ==> db'.grants[id].expires == None
  {
    forall id | RowAt(db', id, u, r, s)
      ensures RowAt(db, id, u, r, s) || (u in users && r == role && s == OnPlatform && db'.grants[id].expires == None)
    {
      BackfilledRow(db, db', users, role, id, u, r, s);
    }
    if id :| RowAt(db, id, u, r, s) {
      assert RowAt(db', id, u, r, s);
    } else if u in users && r == role && s == OnPlatform {
      BackfillAdds(db, db', users, role, u);
    }
  }

  lemma CleanupRows(db: Db, u: int, r: Role, s: Scope)
    ensures HasRow(Deduplicated(db), u, r, s) <==> HasRow(db, u, r, s)
    ensures forall id :: RowAt(Deduplicated(db), id, u, r, s) ==>
              RowAt(db, id, u, r, s) && Deduplicated(db).grants[id] == db.grants[id]
  {
    if HasRow(db, u, r, s) {
      RowSurvivesCleanup(db, u, r, s);
    }
    assert forall id :: RowAt(Deduplicated(db), id, u, r, s) ==> RowAt(db, id, u, r, s);
  }

  lemma StudentsAfterAdmins(db: Db, d1: Db)
    requires WellFormed(db) && Backfilled(db, d1, AdminsToBackfill(db), PlatformAdmin)
    ensures forall u :: u in StudentsToBackfill(d1) <==> u in db.users && Backfills(db, u, Student, OnPlatform)
  {
    forall u | u in db.users && !db.users[u]
      ensures HasPlatformRow(d1, u) <==> HasPlatformRow(db, u)
    {
      forall id | id in d1.grants && PlatformRow(d1.grants[id], u)
        ensures id in db.grants && PlatformRow(db.grants[id], u)
      {
        BackfilledRow(db, d1, AdminsToBackfill(db), PlatformAdmin, id, u, d1.grants[id].role, OnPlatform);
      }
      forall id | id in db.grants && PlatformRow(db.grants[id], u)
        ensures id in d1.grants && PlatformRow(d1.grants[id], u)
      {
      }
    }
  }

  lemma BackfilledForGood(db: Db, d1: Db, d2: Db, id: int, u: int, r: Role, s: Scope)
    requires WellFormed(db) && MigrationStages(db, d1, d2) && RowAt(d2, id, u, r, s) && !HasRow(db, u, r, s)
    ensures d2.grants[id].expires == None
  {
    BackfillKeepsWellFormed(db, d1, AdminsToBackfill(db), PlatformAdmin);
    BackfilledRow(d1, d2, StudentsToBackfill(d1), Student, id, u, r, s);
    if RowAt(d1, id, u, r, s) {
      BackfilledRow(db, d1, AdminsToBackfill(db), PlatformAdmin, id, u, r, s);
    }
  }

  lemma ForGood(db: Db, id: int, u: int, r: Role, s: Scope)
    requires RowAt(db, id, u, r, s) && db.grants[id].expires == None
    ensures forall t :: HeldAt(db, u, r, s, t)
  {
    forall t
      ensures HeldAt(db, u, r, s, t)
    {
      assert HoldsAt(db, id, u, r, s, t);
    }
  }

  lemma MigratedRows(db: Db, d1: Db, d2: Db, u: int, r: Role, s: Scope)
    requires WellFormed(db) && MigrationStages(db, d1, d2)
    ensures HasRow(d2, u, r, s) <==> HasRow(db, u, r, s) || Backfills(db, u, r, s)
  {
    BackfillKeepsWellFormed(db, d1, AdminsToBackfill(db), PlatformAdmin);
    BackfilledRows(db, d1, AdminsToBackfill(db), PlatformAdmin, u, r, s);
    StudentsAfterAdmins(db, d1);
    BackfilledRows(d1, d2, StudentsToBackfill(d1), Student, u, r, s);
  }

  /**
   After the migration a user has a row for a role exactly if there was one before or the backfill is for it, and the
   roles that come from the backfill do not expire.
   */
  lemma MigrationTakesEffect(db: Db, db': Db, u: int, r: Role, s: Scope)
    requires WellFormed(db) && Migrated(db, db')
    ensures HasRow(db', u, r, s) <==> HasRow(db, u, r, s) || Backfills(db, u, r, s)
    ensures Backfills(db, u, r, s) && !HasRow(db, u, r, s) ==> forall t :: HeldAt(db', u, r, s, t)
  {
    var d1, d2 :| MigrationStages(db, d1, d2) && db' == Deduplicated(d2);
    MigratedRows(db, d1, d2, u, r, s);
    CleanupRows(d2, u, r, s);
    if Backfills(db, u, r, s) && !HasRow(db, u, r, s) {
      var id :| RowAt(db', id, u, r, s);
      BackfilledForGood(db, d1, d2, id, u, r, s);
      ForGood(db', id, u, r, s);
    }
  }

  // ---------------------------------------------------------------- what a grant is good for

  /** With the roles at their scopes, the table of decisions holds for every identity of every reachable state. */
  lemma ReachableAccess(states: seq<Db>, ops: seq<Op>, n: nat, user: int, p: Principal, action: Action, res: Resource)
    requires Run(states, ops) && Fitting(states[0]) && n < |states| && Identified(states[n], user, p)
    ensures MayDo(p, action, res) <==>
            || HeldAt(states[n], user, PlatformAdmin, OnPlatform, states[n].now)
            || AccessTable.Entitled(p, AccessTable.ActivityOf(action), res)
  {
    RunKeepsInv(states, ops, n);
    RunKeepsFitting(states, ops, n);
    IdentityWellPlaced(states[n], user, p);
    AccessTable.AccessDecided(p, action, res);
    AdminExactlyWhileGranted(states, ops, n, user, p);
    ActiveIsHeldNow(states[n], user, PlatformAdmin, OnPlatform);
    assert AccessTable.Ranks(p, PlatformAdmin) <==> PlatformAdmin in ResolvedPlatformRoles(p);
  }

  lemma NothingHeld(db: Db, user: int)
    requires forall r: Role :: !HeldAt(db, user, r, OnPlatform, db.now)
    ensures ActiveRoles(db, user) == {}
  {
    if r :| r in ActiveRoles(db, user) {
      ActiveIsListed(db, user, r);
      ActiveIsHeldNow(db, user, r, OnPlatform);
    }
  }

  /**
   Before there are platform rows the legacy role speaks: its administrators are administrators and everybody else is a
   student. As soon as there is one row it is silent, and without a current one the user is a student.
   */
  lemma LegacyRoleSpeaks(db: Db, user: int, p: Principal)
    requires Identified(db, user, p) && forall r: Role :: !HeldAt(db, user, r, OnPlatform, db.now)
    ensures forall r :: r in ResolvedPlatformRoles(p) <==>
              r == if db.users[user] && !HasPlatformRow(db, user) then PlatformAdmin else Student
  {
    NothingHeld(db, user);
    assert forall r :: r in LoadedRoles(db, user) ==> r in p.platformRoles;
    if p.platformRoles == [] {
      assert LoadedRoles(db, user) == {};
      assert ResolvedPlatformRoles(p) == [Student];
    } else {
      assert p.platformRoles[0] in LoadedRoles(db, user);
    }
  }
}
