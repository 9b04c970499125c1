/** The guarantees about decisions, for the managed policies themselves. */
module ManagedDecisions {
  import opened Authz
  import opened PolicyShape
  import opened Decisions

  /** A platform administrator may do everything, whatever other roles it holds. */
  lemma AdminDecides(p: Principal, action: Action, res: Resource)
    requires PlatformAdmin in ResolvedPlatformRoles(p)
    ensures MayDo(p, action, res)
  {
    ManagedPoliciesShape();
    AdminMayDoEverything(ManagedPolicies(), p, action, res);
  }

  /**
   Assigning and revoking roles, disabling users and the like are for those for whom the administrator's role counts,
   whatever lists it comes from.
   */
  lemma AdministrationDecided(p: Principal, action: Action, res: Resource)
    requires AdminOnly(action)
    ensures MayDo(p, action, res) <==> PlatformAdmin in EffectiveRoles(p, res)
    ensures WellPlaced(p) ==> (MayDo(p, action, res) <==> PlatformAdmin in ResolvedPlatformRoles(p))
  {
    ManagedPoliciesShape();
    AdministrationNeedsAdmin(ManagedPolicies(), p, action, res);
    if WellPlaced(p) {
      AdminRoleIsPlatforms(p, res);
    }
  }

  /** The administrator's role among those of one organization allows administration of all that belongs to it. */
  lemma MisplacedAdministrator(p: Principal, action: Action, res: Resource)
    requires AdminOnly(action) && res.orgId > 0 && PlatformAdmin in OrgRoleKeys(p, res.orgId)
    ensures MayDo(p, action, res)
  {
    AdministrationDecided(p, action, res);
  }

  /** The policies that between them name every action that any policy names. */
  ghost predicate NamingPolicies(policies: Policies) {
    && PlatformSupport in policies && policies[PlatformSupport] == PLATFORM_SUPPORT_POLICY
    && Teacher in policies && policies[Teacher] == TEACHER_POLICY
    && Student in policies && policies[Student] == STUDENT_POLICY
    && ClassOwner in policies && policies[ClassOwner] == CLASS_OWNER_POLICY
    && OrgAdmin in policies && policies[OrgAdmin] == ORG_ADMIN_POLICY
  }

  /** Somebody other than an administrator may do this somewhere. */
  ghost predicate DoneByOthers(policies: Policies, action: Action) {
    exists p, res :: WellPlaced(p) && PlatformAdmin !in ResolvedPlatformRoles(p) && May(policies, p, action, res)
  }

  lemma GrantedAlone(policies: Policies, p: Principal, role: Role, s: Statement, action: Action, res: Resource)
    requires Shape(policies) && WellPlaced(p) && PlatformAdmin !in ResolvedPlatformRoles(p)
    requires role in policies && s in policies[role] && s.effect == Allow && Applies(s, p, action, res)
    requires EffectiveRoles(p, res) == [role]
    ensures DoneByOthers(policies, action)
  {
    assert Matcher(p, action, res)(s) && Tells(policies, Allow, role, p, action, res);
    PolicyConsistent(policies, role, p, action, res);
    assert EffectiveRoles(p, res)[0] == role;
    Decided(policies, p, action, res, role);
  }

  lemma PlatformActions(policies: Policies, action: Action)
    requires Shape(policies) && NamingPolicies(policies)
    requires action in OWN_STUDY_SET
               || action in {StudySetSetPrice, ClassCreate, ClassJoin, LiveHost, DashboardViewSelf, WalletRead,
               OrderCreate}
    ensures DoneByOthers(policies, action)
  {
    var p, own := Principal(1, LegacyOther, [Teacher], NotMember, 0, map[]), Resource(StudySet, 1, 1, 0, 0);
    if action in OWN_STUDY_SET {
      GrantedAlone(policies, p, Teacher, TEACHER_POLICY[0], action, own);
    } else if action == StudySetSetPrice {
      GrantedAlone(policies, p, Teacher, TEACHER_POLICY[2], action, own);
    } else {
      GrantedAlone(policies, p, Teacher, TEACHER_POLICY[if action in {WalletRead, OrderCreate} then 4 else 3], action,
        own);
    }
  }

  lemma OtherPlatformActions(policies: Policies, action: Action)
    requires Shape(policies) && NamingPolicies(policies)
    requires action in {LiveJoin, QuizAttempt, UserList, OrderListAll, AuditRead}
    ensures DoneByOthers(policies, action)
  {
    var role := if action in {LiveJoin, QuizAttempt} then Student else PlatformSupport;
    var p := Principal(1, LegacyOther, [role], NotMember, 0, map[]);
    GrantedAlone(policies, p, role, if role == Student then STUDENT_POLICY[3]
      else PLATFORM_SUPPORT_POLICY[0], action, Resource(Platform, 0, 0, 0, 0));
  }

  lemma ClassActions(policies: Policies, action: Action)
    requires Shape(policies) && NamingPolicies(policies) && action in OWN_CLASS
    ensures DoneByOthers(policies, action)
  {
    var p := Principal(1, LegacyOther, [], Owner, 1, map[]);
    GrantedAlone(policies, p, ClassOwner, CLASS_OWNER_POLICY[0], action, Resource(ClassKind, 1, 1, 1, 0));
  }

  lemma OrgActions(policies: Policies, action: Action)
    requires Shape(policies) && NamingPolicies(policies)
               && action in {OrgRead, OrgUpdate, OrgInviteMember, OrgViewDashboard}
    ensures DoneByOthers(policies, action)
  {
    var p := Principal(1, LegacyOther, [], NotMember, 0, map[7 := [OrgAdmin]]);
    GrantedAlone(policies, p, OrgAdmin, ORG_ADMIN_POLICY[0], action, Resource(Organization, 7, 0, 0, 7));
  }

  lemma EveryNamedAction(policies: Policies, action: Action)
    requires Shape(policies) && NamingPolicies(policies) && !AdminOnly(action)
    ensures DoneByOthers(policies, action)
  {
    if action in OWN_CLASS {
      ClassActions(policies, action);
    } else if action in {OrgRead, OrgUpdate, OrgInviteMember, OrgViewDashboard} {
      OrgActions(policies, action);
    } else if action in {LiveJoin, QuizAttempt, UserList, OrderListAll, AuditRead} {
      OtherPlatformActions(policies, action);
    } else {
      PlatformActions(policies, action);
    }
  }

  /** These actions, and no others, are out of reach for everyone but administrators. */
  lemma OutOfReachExactly(action: Action)
    ensures AdminOnly(action) <==> !DoneByOthers(ManagedPolicies(), action)
  {
    ManagedPoliciesShape();
    if AdminOnly(action) {
      forall p, res | WellPlaced(p) && PlatformAdmin !in ResolvedPlatformRoles(p)
        ensures !May(ManagedPolicies(), p, action, res)
      {
        AdministrationNeedsAdmin(ManagedPolicies(), p, action, res);
        AdminRoleIsPlatforms(p, res);
      }
    } else {
      EveryNamedAction(ManagedPolicies(), action);
    }
  }

  /** Whatever a principal may do, one of its grants, kept alone in its place, already allows. */
  lemma OneGrantDecides(p: Principal, action: Action, res: Resource) returns (g: Grant)
    requires MayDo(p, action, res) && forall r :: r in p.platformRoles ==> !r.Org()
    ensures Holder(p, g) && MayDo(Alone(p, g), action, res)
  {
    ManagedPoliciesShape();
    g := NoPrivilegeByCombination(ManagedPolicies(), p, action, res);
  }

  /** A class role changes no decision except about its own class. */
  lemma ClassRoleDecides(p: Principal, action: Action, res: Resource)
    requires !(p.classId == res.classId > 0)
    ensures MayDo(p, action, res) == MayDo(p.(classRole := NotMember), action, res)
  {
    ManagedPoliciesShape();
    ClassRoleOnlyInItsClass(ManagedPolicies(), p, action, res);
  }

  /** The roles held in one organization change no decision about the resources of another. */
  lemma OrgRolesDecide(p: Principal, org: int, roles: seq<Role>, action: Action, res: Resource)
    requires org != res.orgId
    ensures MayDo(p, action, res) == MayDo(p.(orgRoles := p.orgRoles[org := roles]), action, res)
  {
    OrgRolesOnlyInTheirOrg(ManagedPolicies(), p, p.orgRoles[org := roles], action, res);
  }

  /** Short of an administrator, a study set is worked on by its owner, who must be a teacher or a student. */
  lemma StudySetDecided(p: Principal, action: Action, res: Resource)
    requires WellPlaced(p) && PlatformAdmin !in ResolvedPlatformRoles(p)
    requires action in OWN_STUDY_SET && res.kind == StudySet
    ensures MayDo(p, action, res) <==>
            res.owner == p.userId > 0 && (Teacher in ResolvedPlatformRoles(p) || Student in ResolvedPlatformRoles(p))
  {
    ManagedPoliciesShape();
    OwnStudySetsOnly(ManagedPolicies(), p, action, res);
  }

  // ---------------------------------------------------------------- why the roles must be well placed

  const MISPLACED := Principal(1, LegacyOther, [OrgAdmin], NotMember, 0, map[7 := [OrgStudent]])
  const ORG_CLASS := Resource(ClassKind, 3, 0, 3, 7)

  /** What the two organization policies in play say about updating a class. */
  ghost predicate UpdateRules(policies: Policies, p: Principal, res: Resource) {
    && !Tells(policies, Allow, OrgStudent, p, ClassUpdate, res)
    && !Tells(policies, Deny, OrgStudent, p, ClassUpdate, res)
    && !Tells(policies, Deny, OrgAdmin, p, ClassUpdate, res)
    && (Tells(policies, Allow, OrgAdmin, p, ClassUpdate, res) <==> res.kind == ClassKind && Holds(OrgInScope, p, res))
  }

  lemma ManagedUpdateRules(p: Principal, res: Resource)
    ensures UpdateRules(ManagedPolicies(), p, res)
  {
    assert ManagedPolicies()[OrgStudent] == ORG_STUDENT_POLICY && ManagedPolicies()[OrgAdmin] == ORG_ADMIN_POLICY;
    assert forall s :: s in ORG_STUDENT_POLICY ==> !Matcher(p, ClassUpdate, res)(s);
    var s := ORG_ADMIN_POLICY[1];
    assert Matcher(p, ClassUpdate, res)(s) <==> res.kind == ClassKind && Holds(OrgInScope, p, res);
    assert !Matcher(p, ClassUpdate, res)(ORG_ADMIN_POLICY[0]);
  }

  lemma MisplacedTogether(policies: Policies)
    requires UpdateRules(policies, MISPLACED, ORG_CLASS)
    ensures May(policies, MISPLACED, ClassUpdate, ORG_CLASS)
  {
    assert EffectiveRoles(MISPLACED, ORG_CLASS) == [OrgAdmin, OrgStudent];
    Decided(policies, MISPLACED, ClassUpdate, ORG_CLASS, EffectiveRoles(MISPLACED, ORG_CLASS)[0]);
  }

  lemma MisplacedAlone(policies: Policies, g: Grant)
    requires Holder(MISPLACED, g) && UpdateRules(policies, Alone(MISPLACED, g), ORG_CLASS)
    ensures !May(policies, Alone(MISPLACED, g), ClassUpdate, ORG_CLASS)
  {
    var q := Alone(MISPLACED, g);
    assert EffectiveRoles(q, ORG_CLASS) == [] || EffectiveRoles(q, ORG_CLASS) == [OrgStudent]
        || (EffectiveRoles(q, ORG_CLASS) == [OrgAdmin] && OrgRoleKeys(q, 7) == []);
    if May(policies, q, ClassUpdate, ORG_CLASS) {
      var role := AllowedBy(policies, q, ClassUpdate, ORG_CLASS);
    }
  }

  /**
   With an organization role among the platform roles, two grants that allow nothing alone allow something together.
   */
  lemma MisplacedRolesCombine()
    ensures MayDo(MISPLACED, ClassUpdate, ORG_CLASS)
    ensures forall g :: Holder(MISPLACED, g) ==> !MayDo(Alone(MISPLACED, g), ClassUpdate, ORG_CLASS)
  {
    ManagedUpdateRules(MISPLACED, ORG_CLASS);
    MisplacedTogether(ManagedPolicies());
    forall g | Holder(MISPLACED, g)
      ensures !MayDo(Alone(MISPLACED, g), ClassUpdate, ORG_CLASS)
    {
      ManagedUpdateRules(Alone(MISPLACED, g), ORG_CLASS);
      MisplacedAlone(ManagedPolicies(), g);
    }
  }
}
