/** When a platform list takes no harm from combining grants: organization roles must stay out, or do not matter. */
module MisplacedRoles {
  import opened Authz
  import opened PolicyShape
  import opened Decisions
  import ManagedDecisions

  /** With this legacy role and platform list, whatever a principal may do, one of its grants alone allows. */
  ghost predicate NothingByCombination(legacy: LegacyRole, roles: seq<Role>) {
    forall p: Principal, action: Action, res: Resource ::
      p.legacy == legacy && p.platformRoles == roles && MayDo(p, action, res) ==> SomeGrantSuffices(p, action, res)
  }

  ghost predicate SomeGrantSuffices(p: Principal, action: Action, res: Resource) {
    exists g :: Holder(p, g) && MayDo(Alone(p, g), action, res)
  }

  /** The list holds no organization role, or the principal is an administrator anyway. */
  predicate Harmless(legacy: LegacyRole, roles: seq<Role>) {
    (forall r :: r in roles ==> !r.Org()) || PlatformAdmin in roles || legacy.LegacyAdmin?
  }

  // ---------------------------------------------------------------- who may view a class's dashboard

  /** A statement about the dashboard allows it, and asks a role other than the administrator's for its scope. */
  ghost predicate AsksScope(role: Role, s: Statement) {
    MatchesAction(s.actions, ClassViewDashboard) ==>
      && s.effect == Allow
      && (role == PlatformAdmin || ClassInScope in s.conditions || OrgInScope in s.conditions)
  }

  ghost predicate DashboardScoped(role: Role, policy: seq<Statement>) {
    forall s :: s in policy ==> AsksScope(role, s)
  }

  /** The policy allows it within the organization. */
  ghost predicate DashboardInOrg(policy: seq<Statement>) {
    exists s :: s in policy && s.effect == Allow && s.resources == CLASSES && s.conditions == [OrgInScope]
      && MatchesAction(s.actions, ClassViewDashboard)
  }

  ghost predicate AllScoped(policies: Policies) {
    forall role :: role in policies ==> DashboardScoped(role, policies[role])
  }

  ghost predicate AllOffered(policies: Policies) {
    forall role: Role :: role.Org() ==> role in policies && DashboardInOrg(policies[role])
  }

  ghost predicate DashboardRules(policies: Policies) {
    AllScoped(policies) && AllOffered(policies) && UnknownRole("x") !in policies
  }

  lemma PlatformScoped()
    ensures DashboardScoped(PlatformAdmin, PLATFORM_ADMIN_POLICY)
    ensures DashboardScoped(PlatformSupport, PLATFORM_SUPPORT_POLICY)
    ensures DashboardScoped(Teacher, TEACHER_POLICY)
  {
  }

  lemma StudentScoped()
    ensures DashboardScoped(Student, STUDENT_POLICY)
  {
  }

  lemma ClassScoped()
    ensures DashboardScoped(ClassOwner, CLASS_OWNER_POLICY)
    ensures DashboardScoped(ClassTeacher, CLASS_TEACHER_POLICY)
    ensures DashboardScoped(ClassStudent, CLASS_STUDENT_POLICY)
  {
  }

  lemma OrgScoped()
    ensures DashboardScoped(OrgAdmin, ORG_ADMIN_POLICY)
    ensures DashboardScoped(OrgTeacher, ORG_TEACHER_POLICY)
    ensures DashboardScoped(OrgStudent, ORG_STUDENT_POLICY)
  {
  }

  lemma ManagedScoped()
    ensures AllScoped(ManagedPolicies())
  {
    PlatformScoped();
    StudentScoped();
    ClassScoped();
    OrgScoped();
  }

  lemma OrgOffered()
    ensures DashboardInOrg(ORG_ADMIN_POLICY) && DashboardInOrg(ORG_TEACHER_POLICY) && DashboardInOrg(ORG_STUDENT_POLICY)
  {
    assert ORG_ADMIN_POLICY[1].conditions == [OrgInScope];
    assert ORG_TEACHER_POLICY[1].conditions == [OrgInScope];
    assert ORG_STUDENT_POLICY[0].conditions == [OrgInScope];
  }

  lemma ManagedOffered()
    ensures AllOffered(ManagedPolicies())
  {
    OrgOffered();
  }

  lemma ManagedDashboards()
    ensures DashboardRules(ManagedPolicies())
  {
    ManagedScoped();
    ManagedOffered();
  }

  // ---------------------------------------------------------------- the witness

  const ORG_CLASS := Resource(ClassKind, 3, 0, 3, 7)

  /** Outside any class, and in organization 7 with a role that grants nothing. */
  function Guest(legacy: LegacyRole, roles: seq<Role>): Principal {
    Principal(1, legacy, roles, NotMember, 0, map[7 := [UnknownRole("x")]])
  }

  lemma GuestViewsDashboard(policies: Policies, legacy: LegacyRole, roles: seq<Role>, role: Role)
    requires DashboardRules(policies) && role in roles && role.Org()
    ensures May(policies, Guest(legacy, roles), ClassViewDashboard, ORG_CLASS)
  {
    var p := Guest(legacy, roles);
    assert role in policies && DashboardInOrg(policies[role]);
    var s :| s in policies[role] && s.effect == Allow && s.resources == CLASSES && s.conditions == [OrgInScope]
      && MatchesAction(s.actions, ClassViewDashboard);
    assert Holds(OrgInScope, p, ORG_CLASS);
    assert Matcher(p, ClassViewDashboard, ORG_CLASS)(s);
    assert Tells(policies, Allow, role, p, ClassViewDashboard, ORG_CLASS);
    forall r | r in EffectiveRoles(p, ORG_CLASS)
      ensures !Tells(policies, Deny, r, p, ClassViewDashboard, ORG_CLASS)
    {
      assert r in policies ==> DashboardScoped(r, policies[r]);
    }
    Decided(policies, p, ClassViewDashboard, ORG_CLASS, role);
  }

  /** Outside organization and class only the administrator's role lets anybody see the dashboard. */
  lemma NoScopeNoDashboard(policies: Policies, p: Principal)
    requires DashboardRules(policies) && p.classId == 0 && OrgRoleKeys(p, 7) == []
    requires May(policies, p, ClassViewDashboard, ORG_CLASS)
    ensures PlatformAdmin in EffectiveRoles(p, ORG_CLASS)
  {
    var role := AllowedBy(policies, p, ClassViewDashboard, ORG_CLASS);
    var s :| s in policies[role] && s.effect == Allow && Applies(s, p, ClassViewDashboard, ORG_CLASS);
    assert DashboardScoped(role, policies[role]);
    assert !Holds(ClassInScope, p, ORG_CLASS) && !Holds(OrgInScope, p, ORG_CLASS);
  }

  lemma UnknownRoleGrantsNothing(policies: Policies, p: Principal, name: string)
    requires UnknownRole(name) !in policies && EffectiveRoles(p, ORG_CLASS) == [UnknownRole(name)]
    ensures !May(policies, p, ClassViewDashboard, ORG_CLASS)
  {
    if May(policies, p, ClassViewDashboard, ORG_CLASS) {
      var role := AllowedBy(policies, p, ClassViewDashboard, ORG_CLASS);
    }
  }

  lemma GuestsGrantsDoNot(policies: Policies, legacy: LegacyRole, roles: seq<Role>, g: Grant)
    requires DashboardRules(policies)
    requires roles != [] && PlatformAdmin !in roles && !legacy.LegacyAdmin?
    requires Holder(Guest(legacy, roles), g)
    ensures !May(policies, Alone(Guest(legacy, roles), g), ClassViewDashboard, ORG_CLASS)
  {
    var q := Alone(Guest(legacy, roles), g);
    if g.InOrg? {
      assert EffectiveRoles(q, ORG_CLASS) == [UnknownRole("x")];
      UnknownRoleGrantsNothing(policies, q, "x");
    } else if May(policies, q, ClassViewDashboard, ORG_CLASS) {
      NoScopeNoDashboard(policies, q);
    }
  }

  lemma HarmfulList(policies: Policies, legacy: LegacyRole, roles: seq<Role>)
    requires DashboardRules(policies) && !Harmless(legacy, roles)
    ensures var p := Guest(legacy, roles);
            && May(policies, p, ClassViewDashboard, ORG_CLASS)
            && forall g :: Holder(p, g) ==> !May(policies, Alone(p, g), ClassViewDashboard, ORG_CLASS)
  {
    var role :| role in roles && role.Org();
    GuestViewsDashboard(policies, legacy, roles, role);
    forall g | Holder(Guest(legacy, roles), g)
      ensures !May(policies, Alone(Guest(legacy, roles), g), ClassViewDashboard, ORG_CLASS)
    {
      GuestsGrantsDoNot(policies, legacy, roles, g);
    }
  }

  lemma HarmfulExample(legacy: LegacyRole, roles: seq<Role>)
    requires !Harmless(legacy, roles)
    ensures !NothingByCombination(legacy, roles)
  {
    ManagedDashboards();
    HarmfulList(ManagedPolicies(), legacy, roles);
    assert !SomeGrantSuffices(Guest(legacy, roles), ClassViewDashboard, ORG_CLASS);
  }

  lemma HarmlessList(p: Principal, action: Action, res: Resource)
    requires Harmless(p.legacy, p.platformRoles) && MayDo(p, action, res)
    ensures SomeGrantSuffices(p, action, res)
  {
    if forall r :: r in p.platformRoles ==> !r.Org() {
      var g := ManagedDecisions.OneGrantDecides(p, action, res);
    } else {
      var g := OnPlatform(PlatformAdmin);
      ManagedDecisions.AdminDecides(Alone(p, g), action, res);
      assert Holder(p, g);
    }
  }

  /**
   No privilege arises by combination exactly for those platform lists that hold no organization role, or where the
   principal is a platform administrator anyway.
   */
  lemma NothingByCombinationExactlyWhen(legacy: LegacyRole, roles: seq<Role>)
    ensures NothingByCombination(legacy, roles) <==> Harmless(legacy, roles)
  {
    if Harmless(legacy, roles) {
      forall p: Principal, action: Action, res: Resource |
        p.legacy == legacy && p.platformRoles == roles && MayDo(p, action, res)
        ensures SomeGrantSuffices(p, action, res)
      {
        HarmlessList(p, action, res);
      }
    } else {
      HarmfulExample(legacy, roles);
    }
  }
}
