/** What every reachable grant table guarantees, and what that means for decisions. */
module GrantTheorems {
  import opened Options
  import opened Sets
  import opened Authz
  import opened PolicyShape
  import Decisions
  import ManagedDecisions
  import opened Grants

  // ---------------------------------------------------------------- runs

  datatype Op =
    | Register(teacher: bool, interrupted: bool)
    | Assign(actor: int, target: int, role: Role, scopeType: ScopeType, scopeId: Option<int>)
    | Revoke(actor: int, id: int)
    | CreateOrganization(actor: int, org: int)
    | Elapse(seconds: nat)
    | Migrate

  ghost predicate AssignStep(db: Db, actor: Principal, op: Op, db': Db)
    requires op.Assign?
  {
    exists error :: Assigned(db, db', actor, op.target, op.role, op.scopeType, op.scopeId, error)
  }

  ghost predicate RevokeStep(db: Db, actor: Principal, op: Op, db': Db)
    requires op.Revoke?
  {
    exists error :: Revoked(db, db', actor, op.id, error)
  }

  /** One operation; whoever acts does so under an identity verified at that moment. */
  ghost predicate Next(db: Db, op: Op, db': Db) {
    match op
    case Register(teacher, interrupted) => db' == Registered(db, teacher, interrupted)
    case Assign(actor, _, _, _, _) => exists p :: Identified(db, actor, p) && AssignStep(db, p, op, db')
    case Revoke(actor, _) => exists p :: Identified(db, actor, p) && RevokeStep(db, p, op, db')
    case CreateOrganization(actor, org) => exists p :: Identified(db, actor, p) && OrganizationCreated(db, db', p, org)
    case Elapse(seconds) => db' == db.(now := db.now + seconds)
    case Migrate => Migrated(db, db')
  }

  // ---------------------------------------------------------------- what always holds

  /** Ids are below their counters and rows belong to known users. */
  ghost predicate WellFormed(db: Db) {
    && (forall u :: u in db.users ==> u < db.nextUser)
    && (forall id :: id in db.grants ==> id < db.nextGrant && db.grants[id].user in db.users)
  }

  /** A legacy administrator has an administrator row, if only an expired one. */
  ghost predicate AdminsHaveRows(db: Db) {
    forall u :: u in db.users && db.users[u] ==> HasRow(db, u, PlatformAdmin, OnPlatform)
  }

  ghost predicate Inv(db: Db) {
    WellFormed(db) && Unique(db) && AdminsHaveRows(db)
  }

  /** The role sits at the scope it is meant for. */
  ghost predicate FitsScope(db: Db, role: Role, scope: Scope) {
    match scope
    case OnPlatform => role.Platform()
    case InOrg(org) => role.Org() && org > 0 && org in db.orgs
  }

  /** All rows do so; a table from before the scopes were checked need not, and every other property is without this. */
  ghost predicate Fitting(db: Db) {
    forall id :: id in db.grants ==> FitsScope(db, db.grants[id].role, db.grants[id].scope)
  }

  // ---------------------------------------------------------------- migration

  /** Of the candidates for one grant, one is better than all others. */
  lemma {:induction false} BestExists(db: Db, candidates: set<int>) returns (best: int)
    requires candidates != {}
    requires forall id :: id in candidates ==> id in db.grants
    ensures best in candidates && forall j :: j in candidates && j != best ==>
              Better(best, db.grants[best], j, db.grants[j])
    decreases candidates
  {
    var id := Pick(candidates);
    var others := candidates - {id};
    assert forall j :: j in candidates && j != id ==> j in others;
    if others == {} {
      best := id;
    } else {
      var second := BestExists(db, others);
      best := if Better(id, db.grants[id], second, db.grants[second]) then id else second;
      forall j | j in candidates && j != best
        ensures Better(best, db.grants[best], j, db.grants[j])
      {
        if best == id && j != second {
          assert Better(second, db.grants[second], j, db.grants[j]);
        }
      }
    }
  }

  lemma RowSurvivesCleanup(db: Db, user: int, role: Role, scope: Scope)
    requires HasRow(db, user, role, scope)
    ensures HasRow(Deduplicated(db), user, role, scope)
  {
    var sample := Row(user, role, scope, 0, None);
    var same := set id | id in db.grants && SameGrant(db.grants[id], sample);
    assert forall id :: RowAt(db, id, user, role, scope) ==> id in same;
    var best := BestExists(db, same);
    assert Best(db, best);
    assert RowAt(Deduplicated(db), best, user, role, scope);
  }

  lemma CleanupLeavesUnique(db: Db)
    ensures Unique(Deduplicated(db))
  {
    var d := Deduplicated(db);
    forall i, j | i in d.grants && j in d.grants && SameGrant(d.grants[i], d.grants[j])
      ensures i == j
    {
      if i != j {
        NotBothBetter(i, db.grants[i], j, db.grants[j]);
      }
    }
  }

  lemma NotBothBetter(i: int, r: Row, j: int, s: Row)
    requires i != j
    ensures !Better(i, r, j, s) || !Better(j, s, i, r)
  {
  }

  lemma BackfillKeepsWellFormed(db: Db, db': Db, users: set<int>, role: Role)
    requires WellFormed(db) && Backfilled(db, db', users, role) && users <= db.users.Keys
    ensures WellFormed(db')
    ensures forall id, u, r, scope :: RowAt(db, id, u, r, scope) ==> RowAt(db', id, u, r, scope)
    ensures forall u :: u in users ==> HasRow(db', u, role, OnPlatform)
  {
    forall u | u in users
      ensures HasRow(db', u, role, OnPlatform)
    {
      var id :| id in db'.grants && id !in db.grants && db'.grants[id].user == u;
      assert RowAt(db', id, u, role, OnPlatform);
    }
  }

  lemma CleanupKeepsWellFormed(db: Db)
    requires WellFormed(db)
    ensures WellFormed(Deduplicated(db))
  {
  }

  lemma AdminKeepsRow(db: Db, d1: Db, d2: Db, u: int)
    requires u in db.users && db.users[u]
    requires forall id, u, r, scope :: RowAt(db, id, u, r, scope) ==> RowAt(d1, id, u, r, scope)
    requires forall id, u, r, scope :: RowAt(d1, id, u, r, scope) ==> RowAt(d2, id, u, r, scope)
    requires forall u :: u in AdminsToBackfill(db) ==> HasRow(d1, u, PlatformAdmin, OnPlatform)
    ensures HasRow(Deduplicated(d2), u, PlatformAdmin, OnPlatform)
  {
    if u !in AdminsToBackfill(db) {
      var prior :| RowAt(db, prior, u, PlatformAdmin, OnPlatform);
      assert RowAt(d1, prior, u, PlatformAdmin, OnPlatform);
    }
    var row :| RowAt(d1, row, u, PlatformAdmin, OnPlatform);
    assert RowAt(d2, row, u, PlatformAdmin, OnPlatform);
    RowSurvivesCleanup(d2, u, PlatformAdmin, OnPlatform);
  }

  /** One run of the migration over any well-formed table establishes the invariant. */
  lemma MigrationEstablishesInv(db: Db, db': Db)
    requires WellFormed(db) && Migrated(db, db')
    ensures Inv(db')
  {
    var d1, d2 :| MigrationStages(db, d1, d2) && db' == Deduplicated(d2);
    BackfillKeepsWellFormed(db, d1, AdminsToBackfill(db), PlatformAdmin);
    BackfillKeepsWellFormed(d1, d2, StudentsToBackfill(d1), Student);
    CleanupLeavesUnique(d2);
    forall u | u in db'.users && db'.users[u]
      ensures HasRow(db', u, PlatformAdmin, OnPlatform)
    {
      AdminKeepsRow(db, d1, d2, u);
    }
    CleanupKeepsWellFormed(d2);
  }

  lemma EmptyBackfill(db: Db, db': Db, role: Role)
    requires Backfilled(db, db', {}, role)
    ensures db'.grants == db.grants && db'.users == db.users && db'.orgs == db.orgs && db'.now == db.now
  {
    forall id
      ensures id in db'.grants <==> id in db.grants
      ensures id in db.grants ==> db'.grants[id] == db.grants[id]
    {
    }
    assert db'.grants == db.grants;
  }

  lemma NoRowOnPlatform(db: Db, user: int, id: int)
    requires !HasPlatformRow(db, user) && id in db.grants
    ensures !PlatformRow(db.grants[id], user)
  {
  }

  lemma OldRowsAreBest(db: Db, db': Db, id: int)
    requires Unique(db) && Backfilled(db, db', StudentsToBackfill(db), Student) && id in db.grants
    ensures id in db'.grants && db'.grants[id] == db.grants[id] && Best(db', id)
  {
    forall j | j in db'.grants && j !in db.grants
      ensures !SameGrant(db.grants[id], db'.grants[j])
    {
      NoRowOnPlatform(db, db'.grants[j].user, id);
    }
  }

  /** Once the invariant holds, the migration keeps every row and adds only Student rows. */
  lemma RepeatedMigrationAddsStudentsOnly(db: Db, db': Db)
    requires Inv(db) && Migrated(db, db')
    ensures db'.now == db.now && db'.users == db.users && db'.orgs == db.orgs
    ensures forall id :: id in db.grants ==> id in db'.grants && db'.grants[id] == db.grants[id]
    ensures forall id :: id in db'.grants && id !in db.grants ==>
              db'.grants[id].role == Student && db'.grants[id].scope == OnPlatform
                && !HasPlatformRow(db, db'.grants[id].user)
  {
    var d1, d2 :| MigrationStages(db, d1, d2) && db' == Deduplicated(d2);
    assert AdminsToBackfill(db) == {};
    EmptyBackfill(db, d1, PlatformAdmin);
    forall id | id in db.grants
      ensures id in db'.grants && db'.grants[id] == db.grants[id]
    {
      OldRowsAreBest(d1, d2, id);
    }
  }

  // ---------------------------------------------------------------- every step

  lemma DeletedRows(db: Db, id: int)
    requires id in db.grants
    ensures Deleted(db, id).grants == db.grants - {id} && Deleted(db, id).users.Keys == db.users.Keys
    ensures Deleted(db, id).orgs == db.orgs && Deleted(db, id).now == db.now
    ensures Deleted(db, id).nextUser == db.nextUser && Deleted(db, id).nextGrant == db.nextGrant
    ensures forall u :: u in db.users && Deleted(db, id).users[u] ==> db.users[u]
  {
  }

  lemma DeleteKeepsInv(db: Db, id: int)
    requires Inv(db) && id in db.grants
    ensures Inv(Deleted(db, id))
  {
    var r, db' := db.grants[id], Deleted(db, id);
    DeletedRows(db, id);
    forall u | u in db'.users && db'.users[u]
      ensures HasRow(db', u, PlatformAdmin, OnPlatform)
    {
      var row :| RowAt(db, row, u, PlatformAdmin, OnPlatform);
      if row == id {
        var left := db.(grants := db.grants - {id});
        assert Active(left, u, PlatformAdmin, OnPlatform);
        row :| RowAt(left, row, u, PlatformAdmin, OnPlatform);
      }
      assert RowAt(db', row, u, PlatformAdmin, OnPlatform);
    }
  }

  lemma UpsertKeepsInv(db: Db, db': Db, user: int, role: Role, scope: Scope, expires: Option<int>)
    requires Inv(db) && user in db.users && Upserted(db, db', user, role, scope, expires)
    ensures Inv(db')
  {
    assert db'.users == db.users && db'.orgs == db.orgs;
    assert forall id :: id in db.grants ==> id in db'.grants && SameGrant(db.grants[id], db'.grants[id]);
    forall u | u in db'.users && db'.users[u]
      ensures HasRow(db', u, PlatformAdmin, OnPlatform)
    {
      var row :| RowAt(db, row, u, PlatformAdmin, OnPlatform);
      assert RowAt(db', row, u, PlatformAdmin, OnPlatform);
    }
    UpsertKeepsUnique(db, db', user, role, scope, expires);
  }

  lemma UpsertKeepsUnique(db: Db, db': Db, user: int, role: Role, scope: Scope, expires: Option<int>)
    requires WellFormed(db) && Unique(db) && Upserted(db, db', user, role, scope, expires)
    ensures Unique(db')
  {
    forall i | i in db.grants && !HasRow(db, user, role, scope)
      ensures !SameGrant(db.grants[i], db'.grants[db.nextGrant]) && !SameGrant(db'.grants[db.nextGrant], db.grants[i])
    {
      assert !RowAt(db, i, user, role, scope);
    }
    forall i, j | i in db'.grants && j in db'.grants && SameGrant(db'.grants[i], db'.grants[j])
      ensures i == j
    {
      if i in db.grants && j in db.grants {
        assert SameGrant(db.grants[i], db.grants[j]);
      }
    }
  }

  /**
   An assignment that is accepted puts an organization role in an existing organization, or a platform role on the
   platform.
   */
  lemma AcceptedAssignmentFits(db: Db, target: int, role: Role, scopeType: ScopeType, scopeId: Option<int>)
    requires AssignmentFault(db, target, role, scopeType, scopeId).None?
    ensures var scope := ScopeOf(scopeType, scopeId);
            (scope == OnPlatform && role in {PlatformAdmin, PlatformSupport, Teacher, Student})
            || (scope.InOrg? && role.Org() && scope.org > 0 && scope.org in db.orgs)
  {
  }

  lemma RegisterKeepsInv(db: Db, teacher: bool, interrupted: bool)
    requires Inv(db)
    ensures Inv(Registered(db, teacher, interrupted))
  {
    var db' := Registered(db, teacher, interrupted);
    assert db.nextUser !in db.users && db.nextGrant !in db.grants;
    forall u | u in db'.users && db'.users[u]
      ensures HasRow(db', u, PlatformAdmin, OnPlatform)
    {
      var row :| RowAt(db, row, u, PlatformAdmin, OnPlatform);
      assert RowAt(db', row, u, PlatformAdmin, OnPlatform);
    }
  }

  lemma NextKeepsInv(db: Db, op: Op, db': Db)
    requires Inv(db) && Next(db, op, db')
    ensures Inv(db')
  {
    match op
    case Register(teacher, interrupted) => RegisterKeepsInv(db, teacher, interrupted);
    case Assign(actor, target, role, scopeType, scopeId) =>
      if db' != db {
        UpsertKeepsInv(db, db', target, role, ScopeOf(scopeType, scopeId), None);
      }
    case Revoke(actor, id) =>
      if db' != db {
        DeleteKeepsInv(db, id);
      }
    case CreateOrganization(_, _) => SameRowsKeepInv(db, db');
    case Elapse(_) => SameRowsKeepInv(db, db');
    case Migrate => MigrationEstablishesInv(db, db');
  }

  lemma SameRowsKeepInv(db: Db, db': Db)
    requires Inv(db) && db' == db.(orgs := db'.orgs, now := db'.now) && db.orgs <= db'.orgs
    ensures Inv(db')
  {
    forall u | u in db'.users && db'.users[u]
      ensures HasRow(db', u, PlatformAdmin, OnPlatform)
    {
      var row :| RowAt(db, row, u, PlatformAdmin, OnPlatform);
      assert RowAt(db', row, u, PlatformAdmin, OnPlatform);
    }
  }

  ghost predicate Run(states: seq<Db>, ops: seq<Op>) {
    && |states| == |ops| + 1
    && (exists legacy :: WellFormed(legacy) && Migrated(legacy, states[0]))
    && forall n :: 0 <= n < |ops| ==> StepAt(states, ops, n)
  }

  ghost predicate StepAt(states: seq<Db>, ops: seq<Op>, n: nat)
    requires |states| == |ops| + 1 && n < |ops|
  {
    Next(states[n], ops[n], states[n + 1])
  }

  lemma {:induction false} RunKeepsInv(states: seq<Db>, ops: seq<Op>, n: nat)
    requires Run(states, ops) && n < |states|
    ensures Inv(states[n])
  {
    if n == 0 {
      var legacy :| WellFormed(legacy) && Migrated(legacy, states[0]);
      MigrationEstablishesInv(legacy, states[0]);
    } else {
      RunKeepsInv(states, ops, n - 1);
      assert StepAt(states, ops, n - 1);
      NextKeepsInv(states[n - 1], ops[n - 1], states[n]);
    }
  }

  // ---------------------------------------------------------------- roles at their scopes

  /** The migration neither moves a role to another scope nor drops the last row that holds one. */
  lemma MigrationKeepsFitting(db: Db, db': Db)
    requires Migrated(db, db')
    ensures Fitting(db) <==> Fitting(db')
  {
    var d1, d2 :| MigrationStages(db, d1, d2) && db' == Deduplicated(d2);
    if Fitting(db') {
      forall id | id in db.grants
        ensures FitsScope(db, db.grants[id].role, db.grants[id].scope)
      {
        var r := db.grants[id];
        assert RowAt(d2, id, r.user, r.role, r.scope);
        RowSurvivesCleanup(d2, r.user, r.role, r.scope);
        var kept :| RowAt(db', kept, r.user, r.role, r.scope);
      }
    }
  }

  lemma UpsertKeepsFitting(db: Db, db': Db, user: int, role: Role, scope: Scope)
    requires Fitting(db) && FitsScope(db, role, scope) && Upserted(db, db', user, role, scope, None)
    ensures Fitting(db')
  {
    forall id | id in db'.grants
      ensures FitsScope(db', db'.grants[id].role, db'.grants[id].scope)
    {
      var r := db'.grants[id];
      assert (r.role == role && r.scope == scope)
             || (id in db.grants && r.role == db.grants[id].role && r.scope == db.grants[id].scope);
    }
  }

  lemma NextKeepsFitting(db: Db, op: Op, db': Db)
    requires Fitting(db) && Next(db, op, db')
    ensures Fitting(db')
  {
    match op
    case Assign(actor, target, role, scopeType, scopeId) =>
      if db' != db {
        AcceptedAssignmentFits(db, target, role, scopeType, scopeId);
        UpsertKeepsFitting(db, db', target, role, ScopeOf(scopeType, scopeId));
      }
    case Migrate => MigrationKeepsFitting(db, db');
    case _ =>
  }

  lemma {:induction false} RunKeepsFitting(states: seq<Db>, ops: seq<Op>, n: nat)
    requires Run(states, ops) && Fitting(states[0]) && n < |states|
    ensures Fitting(states[n])
  {
    if n > 0 {
      RunKeepsFitting(states, ops, n - 1);
      assert StepAt(states, ops, n - 1);
      NextKeepsFitting(states[n - 1], ops[n - 1], states[n]);
    }
  }

  // ---------------------------------------------------------------- roles that count

  /**
   Under the invariant the legacy account role never speaks: a user's platform roles are the current ones, or
   Student when there are none.
   */
  lemma RolesAreCurrentGrants(db: Db, user: int, p: Principal, role: Role)
    requires Inv(db) && Identified(db, user, p)
    ensures role in ResolvedPlatformRoles(p) <==>
              if ActiveRoles(db, user) == {} then role == Student else role in ActiveRoles(db, user)
  {
    if db.users[user] {
      var row :| RowAt(db, row, user, PlatformAdmin, OnPlatform);
      assert HasPlatformRow(db, user);
    }
    assert forall r :: r in LoadedRoles(db, user) ==> r in p.platformRoles;
    assert LoadedRoles(db, user) == {} <==> p.platformRoles == [] by {
      if p.platformRoles != [] {
        assert p.platformRoles[0] in LoadedRoles(db, user);
      }
    }
  }

  lemma ActiveIsListed(db: Db, user: int, role: Role)
    ensures Active(db, user, role, OnPlatform) <==> role in ActiveRoles(db, user)
  {
    if Active(db, user, role, OnPlatform) {
      var id :| RowAt(db, id, user, role, OnPlatform) && Current(db.grants[id], db.now);
      assert db.grants[id].role in ActiveRoles(db, user);
    }
    if role in ActiveRoles(db, user) {
      var id :| id in db.grants && PlatformRow(db.grants[id], user) && Current(db.grants[id], db.now)
        && db.grants[id].role == role;
      assert RowAt(db, id, user, role, OnPlatform);
    }
  }

  /** In every reachable state a user counts as a platform administrator exactly while an unexpired grant says so. */
  lemma AdminExactlyWhileGranted(states: seq<Db>, ops: seq<Op>, n: nat, user: int, p: Principal)
    requires Run(states, ops) && n < |states| && Identified(states[n], user, p)
    ensures PlatformAdmin in ResolvedPlatformRoles(p) <==> Active(states[n], user, PlatformAdmin, OnPlatform)
  {
    RunKeepsInv(states, ops, n);
    RolesAreCurrentGrants(states[n], user, p, PlatformAdmin);
    ActiveIsListed(states[n], user, PlatformAdmin);
  }

  lemma IdentityWellPlaced(db: Db, user: int, p: Principal)
    requires Inv(db) && Fitting(db) && Identified(db, user, p)
    ensures Decisions.WellPlaced(p)
  {
    forall r | r in p.platformRoles
      ensures r.Platform()
    {
      if r in ActiveRoles(db, user) {
        ActiveIsListed(db, user, r);
        var id :| RowAt(db, id, user, r, OnPlatform) && Current(db.grants[id], db.now);
        assert FitsScope(db, db.grants[id].role, db.grants[id].scope);
      }
    }
    forall org | org in p.orgRoles
      ensures Decisions.OnlyOrgRoles(p.orgRoles[org])
    {
      forall r | r in p.orgRoles[org]
        ensures r.Org()
      {
        var id :| RowAt(db, id, user, r, InOrg(org)) && Current(db.grants[id], db.now);
        assert FitsScope(db, db.grants[id].role, db.grants[id].scope);
      }
    }
  }

  /**
   With the roles at their scopes, a request is in every reachable state allowed only if a single grant of the user
   would allow it.
   */
  lemma ReachableDecisionsNeedOneGrant(states: seq<Db>, ops: seq<Op>, n: nat, user: int, p: Principal, action: Action,
      res: Resource)
    returns (g: Decisions.Grant)
    requires Run(states, ops) && Fitting(states[0]) && n < |states|
    requires Identified(states[n], user, p) && MayDo(p, action, res)
    ensures Decisions.Holder(p, g) && MayDo(Decisions.Alone(p, g), action, res)
  {
    RunKeepsInv(states, ops, n);
    RunKeepsFitting(states, ops, n);
    IdentityWellPlaced(states[n], user, p);
    g := ManagedDecisions.OneGrantDecides(p, action, res);
  }

  /**
   With the roles at their scopes, an ordinary user works in every reachable state on exactly the study sets it owns,
   as a teacher or a student.
   */
  lemma ReachableStudySetDecision(states: seq<Db>, ops: seq<Op>, n: nat, user: int, p: Principal, action: Action,
      res: Resource)
    requires Run(states, ops) && Fitting(states[0]) && n < |states| && Identified(states[n], user, p)
    requires !Active(states[n], user, PlatformAdmin, OnPlatform)
    requires action in OWN_STUDY_SET && res.kind == StudySet
    ensures MayDo(p, action, res) <==>
            res.owner == user > 0 &&
            (Active(states[n], user, Teacher, OnPlatform) || Active(states[n], user, Student, OnPlatform)
              || ActiveRoles(states[n], user) == {})
  {
    RunKeepsInv(states, ops, n);
    RunKeepsFitting(states, ops, n);
    IdentityWellPlaced(states[n], user, p);
    RolesAreCurrentGrants(states[n], user, p, PlatformAdmin);
    RolesAreCurrentGrants(states[n], user, p, Teacher);
    RolesAreCurrentGrants(states[n], user, p, Student);
    ActiveIsListed(states[n], user, PlatformAdmin);
    ActiveIsListed(states[n], user, Teacher);
    ActiveIsListed(states[n], user, Student);
    ManagedDecisions.StudySetDecided(p, action, res);
  }

  // ---------------------------------------------------------------- where administrators come from

  ghost predicate IsAdmin(db: Db, user: int) {
    Active(db, user, PlatformAdmin, OnPlatform)
  }

  lemma RolesAtPlatform(p: Principal)
    ensures PlatformAdmin in EffectiveRoles(p, PLATFORM) <==> PlatformAdmin in ResolvedPlatformRoles(p)
  {
    assert OrgRoleKeys(p, PLATFORM.orgId) == [] && PlatformAdmin !in ClassMemberRole(p.classRole);
  }

  lemma PlatformAdministration(p: Principal, action: Action)
    requires AdminOnly(action)
    ensures MayDo(p, action, PLATFORM) <==> PlatformAdmin in ResolvedPlatformRoles(p)
  {
    ManagedDecisions.AdministrationDecided(p, action, PLATFORM);
    RolesAtPlatform(p);
  }

  lemma ActorIsAdmin(db: Db, actor: int, p: Principal, action: Action)
    requires Inv(db) && Identified(db, actor, p) && AdminOnly(action) && PlatformDenial(p, action).None?
    ensures IsAdmin(db, actor)
  {
    PlatformAdministration(p, action);
    RolesAreCurrentGrants(db, actor, p, PlatformAdmin);
    ActiveIsListed(db, actor, PlatformAdmin);
  }

  lemma KeptRowsKeepNonAdmins(db: Db, db': Db, user: int)
    requires db.now <= db'.now && !IsAdmin(db, user)
    requires forall id :: id in db'.grants ==>
               (id in db.grants && db'.grants[id] == db.grants[id]) || db'.grants[id].role != PlatformAdmin
               || db'.grants[id].user != user
    ensures !IsAdmin(db', user)
  {
    if IsAdmin(db', user) {
      var id :| RowAt(db', id, user, PlatformAdmin, OnPlatform) && Current(db'.grants[id], db'.now);
      assert RowAt(db, id, user, PlatformAdmin, OnPlatform) && Current(db.grants[id], db.now);
    }
  }

  lemma UpsertChangesOneGrant(db: Db, db': Db, user: int, role: Role, scope: Scope, expires: Option<int>)
    ensures Upserted(db, db', user, role, scope, expires) ==> db'.now == db.now && forall id :: id in db'.grants ==>
              (id in db.grants && db'.grants[id] == db.grants[id])
                || (db'.grants[id].user == user && db'.grants[id].role == role)
  {
  }

  lemma AssignedByAdmin(db: Db, op: Op, db': Db, user: int)
    requires Inv(db) && op.Assign? && Next(db, op, db') && !IsAdmin(db, user) && IsAdmin(db', user)
    ensures op.target == user && op.role == PlatformAdmin && IsAdmin(db, op.actor)
  {
    var p :| Identified(db, op.actor, p) && AssignStep(db, p, op, db');
    UpsertChangesOneGrant(db, db', op.target, op.role, ScopeOf(op.scopeType, op.scopeId), None);
    if PlatformDenial(p, IAMAssignRole).None? {
      ActorIsAdmin(db, op.actor, p, IAMAssignRole);
    }
    if op.target != user || op.role != PlatformAdmin {
      KeptRowsKeepNonAdmins(db, db', user);
    }
  }

  /** A user becomes an administrator in no other way than by the assignment of someone who is one. */
  lemma AdminsComeFromAdmins(db: Db, op: Op, db': Db, user: int)
    requires Inv(db) && Next(db, op, db') && !IsAdmin(db, user) && IsAdmin(db', user)
    ensures op.Assign? && op.target == user && op.role == PlatformAdmin && IsAdmin(db, op.actor)
  {
    match op
    case Register(_, _) =>
      KeptRowsKeepNonAdmins(db, db', user);
    case Assign(_, _, _, _, _) =>
      AssignedByAdmin(db, op, db', user);
    case Revoke(_, _) =>
      KeptRowsKeepNonAdmins(db, db', user);
    case CreateOrganization(_, _) =>
      KeptRowsKeepNonAdmins(db, db', user);
    case Elapse(_) =>
      KeptRowsKeepNonAdmins(db, db', user);
    case Migrate =>
      RepeatedMigrationAddsStudentsOnly(db, db');
      KeptRowsKeepNonAdmins(db, db', user);
  }

  /** Once nobody is a platform administrator, nobody ever will be. */
  lemma {:induction false} NoAdminFromNothing(states: seq<Db>, ops: seq<Op>, m: nat, n: nat, user: int)
    requires Run(states, ops) && m <= n < |states|
    requires forall u :: !IsAdmin(states[m], u)
    ensures !IsAdmin(states[n], user)
  {
    if m < n {
      RunKeepsInv(states, ops, n - 1);
      assert StepAt(states, ops, n - 1);
      NoAdminFromNothing(states, ops, m, n - 1, user);
      if IsAdmin(states[n], user) {
        AdminsComeFromAdmins(states[n - 1], ops[n - 1], states[n], user);
        NoAdminFromNothing(states, ops, m, n - 1, ops[n - 1].actor);
      }
    }
  }

  /** An accepted revocation of an administrator grant ends the user's administration at once. */
  lemma RevocationTakesEffect(db: Db, id: int, user: int)
    requires Inv(db) && RowAt(db, id, user, PlatformAdmin, OnPlatform)
    ensures !IsAdmin(Deleted(db, id), user) && !Deleted(db, id).users[user]
  {
    DeletedRows(db, id);
    var left := db.(grants := db.grants - {id});
    if i :| RowAt(left, i, user, PlatformAdmin, OnPlatform) {
      assert SameGrant(db.grants[i], db.grants[id]);
    }
    if IsAdmin(Deleted(db, id), user) {
      var i :| RowAt(Deleted(db, id), i, user, PlatformAdmin, OnPlatform);
      assert RowAt(left, i, user, PlatformAdmin, OnPlatform);
    }
  }
}
