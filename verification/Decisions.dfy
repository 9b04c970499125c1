/** What every policy table of the managed shape guarantees about its decisions. */
module Decisions {
  import opened Authz
  import opened PolicyShape

  ghost predicate May(policies: Policies, p: Principal, action: Action, res: Resource) {
    Permits(policies, EffectiveRoles(p, res), Matcher(p, action, res))
  }

  ghost predicate Tells(policies: Policies, effect: Effect, role: Role, p: Principal, action: Action, res: Resource) {
    Speaks(policies, effect, role, Matcher(p, action, res))
  }

  lemma Told(policies: Policies, effect: Effect, role: Role, p: Principal, action: Action, res: Resource)
      returns (s: Statement)
    requires Shape(policies) && Tells(policies, effect, role, p, action, res)
    ensures role in policies && s in policies[role] && s.effect == effect && Applies(s, p, action, res)
    ensures Conditioned(role, s) && Named(role, s) && Known(s)
  {
    s :| s in policies[role] && s.effect == effect && Applies(s, p, action, res);
    assert PolicyFits(role, policies[role]);
  }

  lemma Decided(policies: Policies, p: Principal, action: Action, res: Resource, role: Role)
    requires role in EffectiveRoles(p, res) && Tells(policies, Allow, role, p, action, res)
    requires forall r :: r in EffectiveRoles(p, res) ==> !Tells(policies, Deny, r, p, action, res)
    ensures May(policies, p, action, res)
  {
    assert Speaks(policies, Allow, role, Matcher(p, action, res));
    forall r | r in EffectiveRoles(p, res)
      ensures !Speaks(policies, Deny, r, Matcher(p, action, res))
    {
      assert !Tells(policies, Deny, r, p, action, res);
    }
  }

  lemma AllowedBy(policies: Policies, p: Principal, action: Action, res: Resource) returns (role: Role)
    requires May(policies, p, action, res)
    ensures role in EffectiveRoles(p, res) && Tells(policies, Allow, role, p, action, res)
  {
    role :| role in EffectiveRoles(p, res) && Speaks(policies, Allow, role, Matcher(p, action, res));
  }

  lemma StatementsApart(policies: Policies, role: Role, s: Statement, t: Statement)
    requires Shape(policies) && role in policies && s in policies[role] && t in policies[role]
    ensures Apart(s, t)
  {
    assert PolicyFits(role, policies[role]);
  }

  /** No policy denies what it allows. */
  lemma PolicyConsistent(policies: Policies, role: Role, p: Principal, action: Action, res: Resource)
    requires Shape(policies) && Tells(policies, Allow, role, p, action, res)
    ensures !Tells(policies, Deny, role, p, action, res)
  {
    if Tells(policies, Deny, role, p, action, res) {
      var s := Told(policies, Allow, role, p, action, res);
      var t := Told(policies, Deny, role, p, action, res);
      StatementsApart(policies, role, s, t);
    }
  }

  lemma ConditionTravels(role: Role, c: Condition, p: Principal, q: Principal, res: Resource)
    requires GrantCondition(role, c) && Holds(c, p, res) && q.userId == p.userId
    requires role.Class() ==> q.classId == p.classId
    requires role.Org() ==> OrgRoleKeys(q, res.orgId) != []
    ensures Holds(c, q, res)
  {
  }

  lemma AllowTravels(policies: Policies, role: Role, p: Principal, q: Principal, action: Action, res: Resource)
    requires Shape(policies) && Tells(policies, Allow, role, p, action, res) && q.userId == p.userId
    requires role.Class() ==> q.classId == p.classId
    requires role.Org() ==> OrgRoleKeys(q, res.orgId) != []
    ensures Tells(policies, Allow, role, q, action, res)
  {
    var s := Told(policies, Allow, role, p, action, res);
    forall c | c in s.conditions
      ensures Holds(c, q, res)
    {
      ConditionTravels(role, c, p, q, res);
    }
    assert Matcher(q, action, res)(s);
  }

  // ---------------------------------------------------------------- administrators

  lemma DenialSparesAdmin(policies: Policies, role: Role, p: Principal, action: Action, res: Resource)
    requires Shape(policies) && Tells(policies, Deny, role, p, action, res)
    ensures PlatformAdmin !in ResolvedPlatformRoles(p)
  {
    var s := Told(policies, Deny, role, p, action, res);
    var c :| c in s.conditions && SparesAdmin(c);
    assert Holds(c, p, res);
  }

  lemma AdminMayDoEverything(policies: Policies, p: Principal, action: Action, res: Resource)
    requires Shape(policies) && PlatformAdmin in ResolvedPlatformRoles(p)
    ensures May(policies, p, action, res)
  {
    var all := Statement(Allow, AnyAction, Everything, []);
    assert all in policies[PlatformAdmin] && Matcher(p, action, res)(all);
    assert Tells(policies, Allow, PlatformAdmin, p, action, res);
    forall r | r in EffectiveRoles(p, res)
      ensures !Tells(policies, Deny, r, p, action, res)
    {
      if Tells(policies, Deny, r, p, action, res) {
        DenialSparesAdmin(policies, r, p, action, res);
      }
    }
    Decided(policies, p, action, res, PlatformAdmin);
  }

  /** Class and organization roles are held only in their own places. */
  ghost predicate WellPlaced(p: Principal) {
    && (forall r :: r in p.platformRoles ==> r.Platform())
    && forall org :: org in p.orgRoles ==> OnlyOrgRoles(p.orgRoles[org])
  }

  ghost predicate OnlyOrgRoles(roles: seq<Role>) {
    forall r :: r in roles ==> r.Org()
  }

  lemma PlacesOfRoles(p: Principal, res: Resource, role: Role)
    requires WellPlaced(p)
    ensures role in ResolvedPlatformRoles(p) ==> role.Platform()
    ensures role in OrgRoleKeys(p, res.orgId) ==> role.Org()
  {
    if role in OrgRoleKeys(p, res.orgId) {
      assert OnlyOrgRoles(p.orgRoles[res.orgId]);
    }
  }

  lemma RoleHeld(p: Principal, res: Resource, role: Role)
    requires role in EffectiveRoles(p, res)
    ensures role !in ResolvedPlatformRoles(p) && role !in OrgRoleKeys(p, res.orgId) ==>
              role in ClassMemberRole(p.classRole) && (res.classId <= 0 || res.classId == p.classId)
  {
  }

  lemma RoleInItsPlace(p: Principal, res: Resource, role: Role)
    requires WellPlaced(p) && role in EffectiveRoles(p, res)
    ensures role.Platform() ==> role in ResolvedPlatformRoles(p)
    ensures role.Org() ==> role in OrgRoleKeys(p, res.orgId)
    ensures role in ResolvedPlatformRoles(p) ==> role.Platform()
    ensures role in OrgRoleKeys(p, res.orgId) ==> role.Org()
    ensures role !in ResolvedPlatformRoles(p) && role !in OrgRoleKeys(p, res.orgId) ==>
              role.Class() && ClassMemberRole(p.classRole) == [role] && (res.classId <= 0 || res.classId == p.classId)
  {
    PlacesOfRoles(p, res, role);
    RoleHeld(p, res, role);
  }

  /**
   An administrative action is allowed exactly if the administrator's role counts for the request, be it from the
   platform or, misplaced, from the resource's organization: no other policy grants it, and none denies it.
   */
  lemma AdministrationNeedsAdmin(policies: Policies, p: Principal, action: Action, res: Resource)
    requires Shape(policies) && AdminOnly(action)
    ensures May(policies, p, action, res) <==> PlatformAdmin in EffectiveRoles(p, res)
  {
    if May(policies, p, action, res) {
      var role := AllowedBy(policies, p, action, res);
      var s := Told(policies, Allow, role, p, action, res);
    }
    if PlatformAdmin in EffectiveRoles(p, res) {
      var all := Statement(Allow, AnyAction, Everything, []);
      assert all in policies[PlatformAdmin] && Matcher(p, action, res)(all);
      assert Tells(policies, Allow, PlatformAdmin, p, action, res);
      PolicyConsistent(policies, PlatformAdmin, p, action, res);
      forall r | r in EffectiveRoles(p, res)
        ensures !Tells(policies, Deny, r, p, action, res)
      {
        if Tells(policies, Deny, r, p, action, res) {
          var s := Told(policies, Deny, r, p, action, res);
        }
      }
      Decided(policies, p, action, res, PlatformAdmin);
    }
  }

  /** With roles in their places only the platform's administrators have the administrator's role. */
  lemma AdminRoleIsPlatforms(p: Principal, res: Resource)
    requires WellPlaced(p)
    ensures PlatformAdmin in EffectiveRoles(p, res) <==> PlatformAdmin in ResolvedPlatformRoles(p)
  {
    if PlatformAdmin in EffectiveRoles(p, res) {
      RoleInItsPlace(p, res, PlatformAdmin);
    }
  }

  // ---------------------------------------------------------------- no privilege by combination

  /** One grant: a platform role, the class role, or a role in one organization. */
  datatype Grant = OnPlatform(role: Role) | InClass(member: MemberRole) | InOrg(org: int, role: Role)

  ghost predicate Holder(p: Principal, g: Grant) {
    match g
    case OnPlatform(role) => role in ResolvedPlatformRoles(p)
    case InClass(member) => member == p.classRole
    case InOrg(org, role) => org in p.orgRoles && role in p.orgRoles[org]
  }

  /** The principal with this grant as its only one. */
  function Alone(p: Principal, g: Grant): Principal {
    var bare := Principal(p.userId, LegacyOther, [], NotMember, p.classId, map[]);
    match g
    case OnPlatform(role) => bare.(platformRoles := [role])
    case InClass(member) => bare.(classRole := member)
    case InOrg(org, role) => bare.(orgRoles := map[org := [role]])
  }

  lemma AloneHasOneRole(p: Principal, g: Grant, role: Role, res: Resource)
    requires match g
             case OnPlatform(r) => r == role
             case InClass(m) => ClassMemberRole(m) == [role] && (res.classId <= 0 || res.classId == p.classId)
             case InOrg(org, r) => r == role && org == res.orgId > 0
    ensures EffectiveRoles(Alone(p, g), res) == [role]
  {
  }

  lemma AloneSuffices(policies: Policies, p: Principal, g: Grant, role: Role, action: Action, res: Resource)
    requires Shape(policies) && Tells(policies, Allow, role, p, action, res)
               && EffectiveRoles(Alone(p, g), res) == [role]
    requires role.Org() ==> g.InOrg? && g.org == res.orgId > 0
    ensures May(policies, Alone(p, g), action, res)
  {
    var q := Alone(p, g);
    AllowTravels(policies, role, p, q, action, res);
    PolicyConsistent(policies, role, q, action, res);
    assert role in EffectiveRoles(q, res);
    assert forall r :: r in EffectiveRoles(q, res) ==> r == role;
    Decided(policies, q, action, res, role);
  }

  lemma PlatformGrant(p: Principal, res: Resource, role: Role)
    requires role in ResolvedPlatformRoles(p) && forall r :: r in p.platformRoles ==> !r.Org()
    ensures Holder(p, OnPlatform(role)) && EffectiveRoles(Alone(p, OnPlatform(role)), res) == [role] && !role.Org()
  {
    AloneHasOneRole(p, OnPlatform(role), role, res);
  }

  lemma ClassGrant(p: Principal, res: Resource, role: Role)
    requires role in ClassMemberRole(p.classRole) && (res.classId <= 0 || res.classId == p.classId)
    ensures EffectiveRoles(Alone(p, InClass(p.classRole)), res) == [role] && !role.Org()
  {
    assert ClassMemberRole(p.classRole) == [role];
    AloneHasOneRole(p, InClass(p.classRole), role, res);
  }

  lemma OrgGrant(p: Principal, res: Resource, role: Role)
    requires role in OrgRoleKeys(p, res.orgId)
    ensures res.orgId > 0 && Holder(p, InOrg(res.orgId, role))
    ensures EffectiveRoles(Alone(p, InOrg(res.orgId, role)), res) == [role]
  {
    AloneHasOneRole(p, InOrg(res.orgId, role), role, res);
  }

  /** The grant that holds a role which counts for the request; an organization role must not come from the platform. */
  lemma GrantOfRole(p: Principal, res: Resource, role: Role) returns (g: Grant)
    requires role in EffectiveRoles(p, res) && forall r :: r in p.platformRoles ==> !r.Org()
    ensures Holder(p, g) && EffectiveRoles(Alone(p, g), res) == [role]
    ensures role.Org() ==> g.InOrg? && g.org == res.orgId > 0
  {
    RoleHeld(p, res, role);
    if role in ResolvedPlatformRoles(p) {
      g := OnPlatform(role);
      PlatformGrant(p, res, role);
    } else if role in OrgRoleKeys(p, res.orgId) {
      g := InOrg(res.orgId, role);
      OrgGrant(p, res, role);
    } else {
      g := InClass(p.classRole);
      ClassGrant(p, res, role);
    }
  }

  /**
   Whatever a principal may do, one of its grants would allow on its own, unless a platform role is an organization's.
   */
  lemma NoPrivilegeByCombination(policies: Policies, p: Principal, action: Action, res: Resource) returns (g: Grant)
    requires Shape(policies) && May(policies, p, action, res) && forall r :: r in p.platformRoles ==> !r.Org()
    ensures Holder(p, g) && May(policies, Alone(p, g), action, res)
  {
    var role := AllowedBy(policies, p, action, res);
    g := GrantOfRole(p, res, role);
    AloneSuffices(policies, p, g, role, action, res);
  }

  // ---------------------------------------------------------------- roles that stay in their scope

  /** Roles without a say in a request can come and go. */
  lemma SilentRolesDoNotMatter(policies: Policies, effect: Effect, a: seq<Role>, b: seq<Role>, f: Statement -> bool,
      g: Statement -> bool)
    requires forall s :: f(s) == g(s)
    requires forall r :: r in b ==> r in a
    requires forall r :: r in a && r !in b ==> !Speaks(policies, effect, r, f)
    ensures AnySpeaks(policies, effect, a, f) == AnySpeaks(policies, effect, b, g)
  {
    assert forall r :: Speaks(policies, effect, r, f) == Speaks(policies, effect, r, g);
  }

  lemma SameConditionsSameMatcher(p: Principal, q: Principal, action: Action, res: Resource)
    requires forall c :: Holds(c, p, res) == Holds(c, q, res)
    ensures forall s :: Matcher(p, action, res)(s) == Matcher(q, action, res)(s)
  {
  }

  lemma ClassRoleSilent(policies: Policies, role: Role, effect: Effect, p: Principal, action: Action, res: Resource)
    requires Shape(policies) && role.Class() && !(p.classId == res.classId > 0)
    ensures !Tells(policies, effect, role, p, action, res)
  {
    if Tells(policies, effect, role, p, action, res) {
      var s := Told(policies, effect, role, p, action, res);
    }
  }

  lemma ClassRoleDropped(policies: Policies, effect: Effect, p: Principal, q: Principal, action: Action, res: Resource)
    requires Shape(policies) && !(p.classId == res.classId > 0) && q == p.(classRole := NotMember)
    ensures AnySpeaks(policies, effect, EffectiveRoles(p, res), Matcher(p, action, res)) ==
            AnySpeaks(policies, effect, EffectiveRoles(q, res), Matcher(q, action, res))
  {
    assert ResolvedPlatformRoles(p) == ResolvedPlatformRoles(q)
      && OrgRoleKeys(p, res.orgId) == OrgRoleKeys(q, res.orgId);
    SameConditionsSameMatcher(p, q, action, res);
    forall r | r in EffectiveRoles(p, res) && r !in EffectiveRoles(q, res)
      ensures !Speaks(policies, effect, r, Matcher(p, action, res))
    {
      ClassRoleSilent(policies, r, effect, p, action, res);
      assert !Tells(policies, effect, r, p, action, res);
    }
    SilentRolesDoNotMatter(policies, effect, EffectiveRoles(p, res), EffectiveRoles(q, res), Matcher(p, action, res),
      Matcher(q, action, res));
  }

  /** Outside its own class a class role changes no decision. */
  lemma ClassRoleOnlyInItsClass(policies: Policies, p: Principal, action: Action, res: Resource)
    requires Shape(policies) && !(p.classId == res.classId > 0)
    ensures May(policies, p, action, res) == May(policies, p.(classRole := NotMember), action, res)
  {
    ClassRoleDropped(policies, Allow, p, p.(classRole := NotMember), action, res);
    ClassRoleDropped(policies, Deny, p, p.(classRole := NotMember), action, res);
  }

  /** Roles held in other organizations change no decision. */
  lemma OrgRolesOnlyInTheirOrg(policies: Policies, p: Principal, orgRoles: map<int, seq<Role>>, action: Action,
      res: Resource)
    requires forall org :: org == res.orgId ==>
               (org in orgRoles <==> org in p.orgRoles) && (org in orgRoles ==> orgRoles[org] == p.orgRoles[org])
    ensures May(policies, p, action, res) == May(policies, p.(orgRoles := orgRoles), action, res)
  {
    var q := p.(orgRoles := orgRoles);
    assert ResolvedPlatformRoles(p) == ResolvedPlatformRoles(q);
    assert EffectiveRoles(p, res) == EffectiveRoles(q, res);
    SameConditionsSameMatcher(p, q, action, res);
    SilentRolesDoNotMatter(policies, Allow, EffectiveRoles(p, res), EffectiveRoles(q, res), Matcher(p, action, res),
      Matcher(q, action, res));
    SilentRolesDoNotMatter(policies, Deny, EffectiveRoles(p, res), EffectiveRoles(q, res), Matcher(p, action, res),
      Matcher(q, action, res));
  }

  // ---------------------------------------------------------------- study sets

  lemma OwnerDecides(s: Statement, p: Principal, res: Resource)
    requires s in {OWN_ALLOW, OWN_DENY_OTHERS} && forall c :: c in s.conditions ==> Holds(c, p, res)
    ensures res.owner == p.userId > 0 <==> s.effect == Allow
  {
    assert s.conditions[0] == if s == OWN_ALLOW then OwnerIsSelf else OwnerIsNotSelf;
    assert Holds(s.conditions[0], p, res);
  }

  lemma OwnStatements(policies: Policies, effect: Effect, role: Role, p: Principal, action: Action, res: Resource)
    requires Shape(policies) && Tells(policies, effect, role, p, action, res) && action in OWN_STUDY_SET
    ensures role == PlatformAdmin || (role in {Teacher, Student} && (res.owner == p.userId > 0 <==> effect == Allow))
  {
    var s := Told(policies, effect, role, p, action, res);
    if role != PlatformAdmin {
      assert s in {OWN_ALLOW, OWN_DENY_OTHERS};
      OwnerDecides(s, p, res);
    }
  }

  /** Short of an administrator, a study set is worked on by its owner, who must be a teacher or a student. */
  lemma OwnStudySetsOnly(policies: Policies, p: Principal, action: Action, res: Resource)
    requires Shape(policies) && WellPlaced(p) && PlatformAdmin !in ResolvedPlatformRoles(p)
    requires action in OWN_STUDY_SET && res.kind == StudySet
    ensures May(policies, p, action, res) <==>
            res.owner == p.userId > 0 && (Teacher in ResolvedPlatformRoles(p) || Student in ResolvedPlatformRoles(p))
  {
    if May(policies, p, action, res) {
      var role := AllowedBy(policies, p, action, res);
      OwnStatements(policies, Allow, role, p, action, res);
      RoleInItsPlace(p, res, role);
    }
    if res.owner == p.userId > 0 && (Teacher in ResolvedPlatformRoles(p) || Student in ResolvedPlatformRoles(p)) {
      var role := if Teacher in ResolvedPlatformRoles(p) then Teacher else Student;
      assert OWN_ALLOW in policies[role] && Matcher(p, action, res)(OWN_ALLOW);
      assert Tells(policies, Allow, role, p, action, res);
      forall r | r in EffectiveRoles(p, res)
        ensures !Tells(policies, Deny, r, p, action, res)
      {
        if Tells(policies, Deny, r, p, action, res) {
          OwnStatements(policies, Deny, r, p, action, res);
          RoleInItsPlace(p, res, r);
        }
      }
      Decided(policies, p, action, res, role);
    }
  }
}
