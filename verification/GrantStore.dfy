/** The grant tables as the auth service changes them, one transaction at a time. */
module GrantStore {
  import opened Options
  import opened Sets
  import opened Authz
  import opened Grants
  import OrgRoles
  import RoleHeaders

  lemma BackfillOneMore(db: Db, mid: Db, users: set<int>, user: int, role: Role)
    requires Backfilled(db, mid, users, role) && user !in users
    requires forall id :: id in mid.grants ==> id < mid.nextGrant
    ensures Backfilled(db, Inserted(mid, NewRow(mid, user, role, OnPlatform)), users + {user}, role)
  {
    var after := Inserted(mid, NewRow(mid, user, role, OnPlatform));
    forall u | u in users + {user}
      ensures exists id :: id in after.grants && id !in db.grants && after.grants[id].user == u
    {
      if u == user {
        assert mid.nextGrant in after.grants && mid.nextGrant !in db.grants;
      } else {
        var id :| id in mid.grants && id !in db.grants && mid.grants[id].user == u;
        assert id in after.grants;
      }
    }
  }

  class Store {
    var users: map<int, bool>
    var grants: map<int, Row>
    var orgs: set<int>
    var nextUser: int
    var nextGrant: int
    var now: int

    ghost function View(): Db
      reads this
    {
      Db(users, grants, orgs, nextUser, nextGrant, now)
    }

    // ------------------------------------------------------------ reading

    /** The row loop of the platform role query: the rows come in no particular order. */
    method ListPlatformRoleKeys(user: int) returns (keys: seq<Role>)
      ensures forall r :: r in keys <==> r in ActiveRoles(View(), user)
    {
      keys := [];
      var ids := grants.Keys;
      ghost var seen: set<int> := {};
      while ids != {}
        invariant ids + seen == grants.Keys && ids !! seen
        invariant forall r :: r in keys ==>
                    exists id ::
                      && id in seen && grants[id].role == r && PlatformRow(grants[id], user) && Current(grants[id], now)
        invariant forall id :: id in seen && PlatformRow(grants[id], user) && Current(grants[id], now) ==>
                    grants[id].role in keys
        decreases ids
      {
        ghost var some := Pick(ids);
        var id :| id in ids;
        if PlatformRow(grants[id], user) && Current(grants[id], now) {
          keys := keys + [grants[id].role];
        }
        ids := ids - {id};
        seen := seen + {id};
      }
    }

    /** The row loop of the organization role query, with each row as an entry of the header. */
    method ListOrgRoleEntries(user: int) returns (entries: seq<OrgRoles.Entry>)
      ensures RoleHeaders.Lists(View(), user, entries)
    {
      entries := [];
      var ids := grants.Keys;
      ghost var seen: set<int> := {};
      while ids != {}
        invariant ids + seen == grants.Keys && ids !! seen
        invariant forall e :: e in entries <==>
                    exists id :: id in seen && RoleHeaders.ListedRow(View(), user, id)
                      && RoleHeaders.EntryOf(grants[id]) == Some(e)
        decreases ids
      {
        ghost var some := Pick(ids);
        var id :| id in ids;
        if grants[id].user == user && grants[id].scope.InOrg? && Current(grants[id], now) {
          assert RoleHeaders.ListedRow(View(), user, id);
          entries := entries + [OrgRoles.Entry(grants[id].scope.org, RoleHeaders.RoleKey(grants[id].role))];
        }
        ids := ids - {id};
        seen := seen + {id};
      }
    }

    method HasPlatformAssignment(user: int) returns (found: bool)
      ensures found <==> HasPlatformRow(View(), user)
    {
      found := exists id :: id in grants.Keys && PlatformRow(grants[id], user);
    }

    method LoadPlatformRoles(user: int) returns (roles: seq<Role>)
      requires user in users
      ensures forall r :: r in roles <==> r in LoadedRoles(View(), user)
    {
      roles := ListPlatformRoleKeys(user);
      assert roles == [] <==> ActiveRoles(View(), user) == {} by {
        if roles != [] {
          assert roles[0] in ActiveRoles(View(), user);
        }
      }
      if |roles| == 0 {
        var any := HasPlatformAssignment(user);
        if any {
          return [];
        }
      }
      if |roles| == 0 && users[user] {
        return [PlatformAdmin];
      }
      if |roles| == 0 {
        return [Student];
      }
    }

    // ------------------------------------------------------------ writing

    method InsertRow(row: Row)
      modifies this
      ensures View() == Inserted(old(View()), row)
    {
      grants := grants[nextGrant := row];
      nextGrant := nextGrant + 1;
    }

    method Register(teacher: bool, interrupted: bool)
      modifies this
      ensures View() == Registered(old(View()), teacher, interrupted)
    {
      var user := nextUser;
      users := users[user := false];
      nextUser := nextUser + 1;
      if interrupted {
        return;
      }
      InsertRow(Row(user, if teacher then Teacher else Student, OnPlatform, now, None));
    }

    method CreateAssignmentAudited(target: int, role: Role, scope: Scope, expires: Option<int>)
        returns (error: Option<Error>)
      modifies this
      ensures target !in old(users) ==> error == Some(NotFound) && View() == old(View())
      ensures target in old(users) ==> error == None && Upserted(old(View()), View(), target, role, scope, expires)
    {
      if target !in users {
        return Some(NotFound);
      }
      Upsert(target, role, scope, expires);
      return None;
    }

    /** The INSERT that takes over the expiry where there is a row already. */
    method Upsert(target: int, role: Role, scope: Scope, expires: Option<int>)
      modifies this
      ensures Upserted(old(View()), View(), target, role, scope, expires)
    {
      NoRowUnlessFound(target, role, scope);
      if exists id :: id in grants.Keys && RowIs(grants[id], target, role, scope) {
        var id :| id in grants.Keys && RowIs(grants[id], target, role, scope);
        grants := grants[id := grants[id].(expires := expires)];
      } else {
        InsertRow(Row(target, role, scope, now, expires));
      }
    }

    lemma NoRowUnlessFound(target: int, role: Role, scope: Scope)
      ensures HasRow(View(), target, role, scope) <==>
                exists id :: id in grants.Keys && RowIs(grants[id], target, role, scope)
    {
      if id :| RowAt(View(), id, target, role, scope) {
        assert id in grants.Keys && RowIs(grants[id], target, role, scope);
      }
      if id :| id in grants.Keys && RowIs(grants[id], target, role, scope) {
        assert RowAt(View(), id, target, role, scope);
      }
    }

    predicate RowIs(r: Row, user: int, role: Role, scope: Scope) {
      r.user == user && r.role == role && r.scope == scope
    }

    method DeleteAssignmentAudited(id: int) returns (error: Option<Error>)
      modifies this
      ensures id !in old(grants) ==> error == Some(NotFound) && View() == old(View())
      ensures id in old(grants) ==> error == None && View() == Deleted(old(View()), id)
    {
      if id !in grants {
        return Some(NotFound);
      }
      var r := grants[id];
      grants := grants - {id};
      if r.role == PlatformAdmin && r.scope == OnPlatform {
        var stillAdmin := exists i ::
          i in grants.Keys && RowIs(grants[i], r.user, PlatformAdmin, OnPlatform) && Current(grants[i], now);
        assert stillAdmin <==> Active(View(), r.user, PlatformAdmin, OnPlatform) by {
          if i :| RowAt(View(), i, r.user, PlatformAdmin, OnPlatform) && Current(grants[i], now) {
            assert RowIs(grants[i], r.user, PlatformAdmin, OnPlatform);
          }
          if stillAdmin {
            var i :| i in grants.Keys && RowIs(grants[i], r.user, PlatformAdmin, OnPlatform) && Current(grants[i], now);
            assert RowAt(View(), i, r.user, PlatformAdmin, OnPlatform);
          }
        }
        if r.user in users && users[r.user] && !stillAdmin {
          users := users[r.user := false];
        }
      }
      return None;
    }

    // ------------------------------------------------------------ requests

    method RequirePlatform(actor: Principal, action: Action) returns (error: Option<Error>)
      ensures error == PlatformDenial(actor, action)
    {
      if actor.userId <= 0 {
        return Some(Unauthorized);
      }
      var ok := Can(actor, action, PLATFORM);
      return if ok then None else Some(Forbidden);
    }

    method CheckAssignment(target: int, role: Role, scopeType: ScopeType, scopeId: Option<int>)
        returns (error: Option<Error>)
      ensures error == AssignmentFault(View(), target, role, scopeType, scopeId)
    {
      if target <= 0 {
        return Some(Invalid("userId"));
      }
      if role.Class() {
        return Some(Invalid("roleKey"));
      }
      if role.UnknownRole? {
        return Some(Invalid("roleKey"));
      }
      if scopeType == OtherType {
        return Some(Invalid("scopeType"));
      }
      if scopeType == OrgType && (scopeId.None? || scopeId.value <= 0) {
        return Some(Invalid("scopeId"));
      }
      error := ValidateOrgScopeAssignment(role, scopeType, scopeId);
    }

    method AssignRole(actor: Principal, target: int, role: Role, scopeType: ScopeType, scopeId: Option<int>)
        returns (error: Option<Error>)
      modifies this
      ensures Assigned(old(View()), View(), actor, target, role, scopeType, scopeId, error)
    {
      error := RequirePlatform(actor, IAMAssignRole);
      if error.Some? {
        return;
      }
      error := CheckAssignment(target, role, scopeType, scopeId);
      if error.Some? {
        return;
      }
      error := CreateAssignmentAudited(target, role, if scopeType == OrgType then InOrg(scopeId.value)
        else OnPlatform, None);
    }

    /** Organization roles and organization scope always come together, for an organization that exists. */
    method ValidateOrgScopeAssignment(role: Role, scopeType: ScopeType, scopeId: Option<int>)
        returns (error: Option<Error>)
      ensures error.None? <==> if scopeType == OrgType then role.Org() && scopeId.Some? && scopeId.value > 0
                && scopeId.value in orgs else !role.Org()
      ensures error.Some? ==>
                error == Some(Invalid(if role.Org() && scopeType != OrgType then "scopeType"
                  else if !role.Org() then "roleKey" else "scopeId"))
    {
      if role.Org() && scopeType != OrgType {
        return Some(Invalid("scopeType"));
      }
      if scopeType != OrgType {
        return None;
      }
      if !role.Org() {
        return Some(Invalid("roleKey"));
      }
      if scopeId.None? || scopeId.value <= 0 {
        return Some(Invalid("scopeId"));
      }
      return if scopeId.value in orgs then None else Some(Invalid("scopeId"));
    }

    method RevokeRole(actor: Principal, id: int) returns (error: Option<Error>)
      modifies this
      ensures Revoked(old(View()), View(), actor, id, error)
    {
      error := RequirePlatform(actor, IAMRevokeRole);
      if error.Some? {
        return;
      }
      error := DeleteAssignmentAudited(id);
    }

    // ------------------------------------------------------------ migration

    /** One INSERT ... SELECT of the backfill. */
    method Backfill(chosen: set<int>, role: Role)
      requires forall id :: id in grants ==> id < nextGrant
      modifies this
      ensures Backfilled(old(View()), View(), chosen, role)
      ensures forall id :: id in grants ==> id < nextGrant
    {
      var rest := chosen;
      while rest != {}
        invariant rest <= chosen
        invariant Backfilled(old(View()), View(), chosen - rest, role)
        invariant forall id :: id in grants ==> id < nextGrant
        decreases rest
      {
        ghost var some := Pick(rest);
        var user :| user in rest;
        BackfillOneMore(old(View()), View(), chosen - rest, user, role);
        InsertRow(Row(user, role, OnPlatform, now, None));
        assert chosen - (rest - {user}) == (chosen - rest) + {user};
        rest := rest - {user};
      }
      assert chosen - rest == chosen;
    }

    method DeleteDuplicates()
      modifies this
      ensures View() == Deduplicated(old(View()))
    {
      grants := map id | id in grants.Keys && IsBest(id) :: grants[id];
    }

    predicate IsBest(id: int)
      requires id in grants
      reads this
      ensures IsBest(id) <==> Best(View(), id)
    {
      var r := grants[id];
      forall j :: j in grants.Keys && RowIs(grants[j], r.user, r.role, r.scope) && j != id ==>
        Better(id, r, j, grants[j])
    }

    method Migrate()
      requires forall id :: id in grants ==> id < nextGrant
      modifies this
      ensures Migrated(old(View()), View())
    {
      var admins := set u | u in users.Keys && users[u]
        && !(exists id :: id in grants.Keys && RowIs(grants[id], u, PlatformAdmin, OnPlatform));
      ghost var start := View();
      assert admins == AdminsToBackfill(start) by {
        assert forall u :: (exists id :: id in grants.Keys && RowIs(grants[id], u, PlatformAdmin, OnPlatform)) <==>
          HasRow(start, u, PlatformAdmin, OnPlatform) by {
          assert forall id, u :: id in grants.Keys && RowIs(grants[id], u, PlatformAdmin, OnPlatform) <==>
            RowAt(start, id, u, PlatformAdmin, OnPlatform);
        }
      }
      Backfill(admins, PlatformAdmin);
      ghost var middle := View();
      var students := set u | u in users.Keys && !users[u]
        && !(exists id :: id in grants.Keys && PlatformRow(grants[id], u));
      assert students == StudentsToBackfill(middle);
      Backfill(students, Student);
      assert MigrationStages(start, middle, View());
      DeleteDuplicates();
    }
  }
}
