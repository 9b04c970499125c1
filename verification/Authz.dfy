/** Role-based access decisions over a fixed table of managed policies: default deny, explicit deny wins. */
module Authz {
  datatype Role =
    | PlatformAdmin | PlatformSupport | Teacher | Student
    | ClassOwner | ClassTeacher | ClassStudent
    | OrgAdmin | OrgTeacher | OrgStudent
    | UnknownRole(key: string)
  {
    predicate Platform() {
      PlatformAdmin? || PlatformSupport? || Teacher? || Student?
    }

    predicate Class() {
      ClassOwner? || ClassTeacher? || ClassStudent?
    }

    predicate Org() {
      OrgAdmin? || OrgTeacher? || OrgStudent?
    }
  }

  datatype Action =
    | StudySetCreate | StudySetRead | StudySetUpdate | StudySetDelete | StudySetPublish | StudySetImport
      | StudySetExport | StudySetSetPrice
    | QuizAttempt | QuizViewAnswers | QuizViewResults
    | ClassCreate | ClassRead | ClassUpdate | ClassDelete | ClassResetInvite | ClassJoin | ClassViewDashboard
    | MemberList | MemberAdd | MemberRemove | MemberUpdateRole | MemberViewProgress
    | ContentAssign | ContentUnassign | ContentUpload | ContentView
    | LiveHost | LiveJoin
    | WalletRead | OrderCreate | OrderListAll | WalletCredit
    | UserReadSelf | UserUpdateSelf | UserList | UserDisable
    | IAMListRoles | IAMListAssignments | IAMAssignRole | IAMRevokeRole
    | DashboardViewSelf | DashboardViewAdmin | AuditRead
    | OrgCreate | OrgRead | OrgUpdate | OrgInviteMember | OrgViewDashboard
    | UnknownAction(name: string)

  datatype Kind = Untyped | StudySet | ClassKind | User | Organization | Platform | OtherKind(name: string)

  datatype Resource = Resource(kind: Kind, id: int, owner: int, classId: int, orgId: int)

  datatype LegacyRole = LegacyUser | LegacyAdmin | LegacyOther

  datatype MemberRole = Owner | TeacherMember | StudentMember | NotMember

  datatype Principal = Principal(
    userId: int, legacy: LegacyRole, platformRoles: seq<Role>, classRole: MemberRole, classId: int,
      orgRoles: map<int, seq<Role>>)

  datatype Effect = Allow | Deny

  datatype Condition = WithoutPlatformRole(roles: seq<Role>) | OwnerIsSelf | OwnerIsNotSelf | ClassInScope | OrgInScope

  datatype ResourcePattern = Everything | OfKind(kind: Kind)

  datatype ActionPattern = AnyAction | Exactly(actions: set<Action>)

  datatype Statement = Statement(effect: Effect, actions: ActionPattern, resources: ResourcePattern,
      conditions: seq<Condition>)

  predicate MatchesResource(pattern: ResourcePattern, res: Resource) {
    pattern.Everything? || pattern.kind == res.kind
  }

  predicate MatchesAction(pattern: ActionPattern, action: Action) {
    pattern.AnyAction? || action in pattern.actions
  }

  // ---------------------------------------------------------------- the managed policies

  const STUDY_SETS := OfKind(StudySet)
  const CLASSES := OfKind(ClassKind)
  const ORGS := OfKind(Organization)

  const OWN_STUDY_SET: set<Action> :=
    {StudySetCreate, StudySetRead, StudySetUpdate, StudySetDelete, StudySetPublish, StudySetImport, StudySetExport}

  const RUN_CLASS: set<Action> :=
    {ClassRead, ClassViewDashboard, MemberList, MemberAdd, MemberRemove, MemberUpdateRole, MemberViewProgress,
     ContentAssign, ContentUnassign, ContentUpload, ContentView, LiveHost}

  const ATTEND_CLASS: set<Action> := {ClassRead, ClassViewDashboard, MemberList, ContentView, LiveJoin, QuizAttempt}

  const OWN_CLASS: set<Action> :=
    {ClassRead, ClassUpdate, ClassDelete, ClassResetInvite, ClassViewDashboard, MemberList, MemberAdd, MemberRemove,
      MemberUpdateRole,
     MemberViewProgress, ContentAssign, ContentUnassign, ContentUpload, ContentView, LiveHost}

  const OWN_ORG_CLASSES: set<Action> :=
    {ClassCreate, ClassRead, ClassUpdate, ClassDelete, ClassResetInvite, ClassViewDashboard, MemberList, MemberAdd,
      MemberRemove,
     MemberUpdateRole, MemberViewProgress, ContentAssign, ContentUnassign, ContentUpload, ContentView, LiveHost}

  const END_CLASS: set<Action> := {ClassDelete, ClassResetInvite}

  function Grant(actions: set<Action>, resources: ResourcePattern, conditions: seq<Condition>): Statement {
    Statement(Allow, Exactly(actions), resources, conditions)
  }

  function Forbid(actions: set<Action>, resources: ResourcePattern, conditions: seq<Condition>): Statement {
    Statement(Deny, Exactly(actions), resources, conditions)
  }

  const OWN_ALLOW := Grant(OWN_STUDY_SET, STUDY_SETS, [OwnerIsSelf])
  const OWN_DENY_OTHERS := Forbid(OWN_STUDY_SET, STUDY_SETS, [OwnerIsNotSelf, WithoutPlatformRole([PlatformAdmin])])
  const DENY_SET_PRICE := Forbid({StudySetSetPrice}, STUDY_SETS, [WithoutPlatformRole([Teacher, PlatformAdmin])])
  const BUY := Grant({WalletRead, OrderCreate}, Everything, [])

  type Policies = map<Role, seq<Statement>>

  const PLATFORM_ADMIN_POLICY: seq<Statement> := [Statement(Allow, AnyAction, Everything, [])]

  const PLATFORM_SUPPORT_POLICY: seq<Statement> :=
      [Grant({UserList, ClassRead, OrderListAll, AuditRead}, Everything, [])]

  const TEACHER_POLICY: seq<Statement> := [
    OWN_ALLOW, OWN_DENY_OTHERS,
    Grant({StudySetSetPrice}, STUDY_SETS, [OwnerIsSelf]),
    Grant({ClassCreate, ClassJoin, LiveHost, DashboardViewSelf}, Everything, []),
    BUY]

  const STUDENT_POLICY: seq<Statement> := [
    OWN_ALLOW, OWN_DENY_OTHERS, DENY_SET_PRICE,
    Grant({ClassJoin, LiveJoin, DashboardViewSelf, QuizAttempt}, Everything, []),
    BUY]

  const CLASS_OWNER_POLICY: seq<Statement> := [Grant(OWN_CLASS, CLASSES, [ClassInScope])]

  const CLASS_TEACHER_POLICY: seq<Statement> := [
    Grant(RUN_CLASS, CLASSES, [ClassInScope]),
    Forbid(END_CLASS, CLASSES, [WithoutPlatformRole([PlatformAdmin]), ClassInScope])]

  const CLASS_STUDENT_POLICY: seq<Statement> := [
    Grant(ATTEND_CLASS, CLASSES, [ClassInScope]),
    Grant({MemberViewProgress}, CLASSES, [ClassInScope, OwnerIsSelf]),
    Forbid({MemberViewProgress}, CLASSES, [WithoutPlatformRole([PlatformAdmin]), ClassInScope, OwnerIsNotSelf])]

  const ORG_ADMIN_POLICY: seq<Statement> := [
    Grant({OrgRead, OrgUpdate, OrgInviteMember, OrgViewDashboard}, ORGS, [OrgInScope]),
    Grant(OWN_ORG_CLASSES, CLASSES, [OrgInScope])]

  const ORG_TEACHER_POLICY: seq<Statement> := [
    Grant({OrgRead, OrgViewDashboard}, ORGS, [OrgInScope]),
    Grant(RUN_CLASS, CLASSES, [OrgInScope]),
    Forbid(END_CLASS, CLASSES, [WithoutPlatformRole([PlatformAdmin]), OrgInScope])]

  const ORG_STUDENT_POLICY: seq<Statement> := [
    Grant(ATTEND_CLASS, CLASSES, [OrgInScope]),
    Grant({MemberViewProgress}, CLASSES, [OrgInScope, OwnerIsSelf]),
    Forbid({MemberViewProgress}, CLASSES, [WithoutPlatformRole([PlatformAdmin]), OrgInScope, OwnerIsNotSelf])]

  /** The statements of each managed role. */
  function ManagedPolicies(): Policies {
    map[
      PlatformAdmin := PLATFORM_ADMIN_POLICY,
      PlatformSupport := PLATFORM_SUPPORT_POLICY,
      Teacher := TEACHER_POLICY,
      Student := STUDENT_POLICY,
      ClassOwner := CLASS_OWNER_POLICY,
      ClassTeacher := CLASS_TEACHER_POLICY,
      ClassStudent := CLASS_STUDENT_POLICY,
      OrgAdmin := ORG_ADMIN_POLICY,
      OrgTeacher := ORG_TEACHER_POLICY,
      OrgStudent := ORG_STUDENT_POLICY]
  }

  // ---------------------------------------------------------------- the roles that count for a request

  /** The platform roles, with the legacy account role standing in for missing ones. */
  function ResolvedPlatformRoles(p: Principal): seq<Role> {
    var roles := p.platformRoles + if p.legacy.LegacyAdmin? && PlatformAdmin !in p.platformRoles then [PlatformAdmin]
      else [];
    if roles == [] && p.legacy.LegacyUser? then [Student] else roles
  }

  function ClassMemberRole(m: MemberRole): seq<Role> {
    match m
    case Owner => [ClassOwner]
    case TeacherMember => [ClassTeacher]
    case StudentMember => [ClassStudent]
    case NotMember => []
  }

  function OrgRoleKeys(p: Principal, orgId: int): seq<Role> {
    if orgId <= 0 || orgId !in p.orgRoles then [] else p.orgRoles[orgId]
  }

  function EffectiveRoles(p: Principal, res: Resource): seq<Role> {
    ResolvedPlatformRoles(p)
    + (if res.classId <= 0 || res.classId == p.classId then ClassMemberRole(p.classRole) else [])
    + OrgRoleKeys(p, res.orgId)
  }

  // ---------------------------------------------------------------- the decision

  predicate Holds(c: Condition, p: Principal, res: Resource) {
    match c
    case WithoutPlatformRole(roles) => forall r :: r in roles ==> r !in ResolvedPlatformRoles(p)
    case OwnerIsSelf => res.owner > 0 && res.owner == p.userId
    case OwnerIsNotSelf => !(res.owner > 0 && res.owner == p.userId)
    case ClassInScope => p.classId > 0 && res.classId > 0 && p.classId == res.classId
    case OrgInScope => res.orgId > 0 && OrgRoleKeys(p, res.orgId) != []
  }

  predicate Applies(s: Statement, p: Principal, action: Action, res: Resource) {
    && MatchesAction(s.actions, action)
    && MatchesResource(s.resources, res)
    && forall c :: c in s.conditions ==> Holds(c, p, res)
  }

  /** Which statements apply to a request. */
  function Matcher(p: Principal, action: Action, res: Resource): Statement -> bool {
    (s: Statement) => Applies(s, p, action, res)
  }

  /** Some of the statements with this effect applies. */
  predicate Says(effect: Effect, statements: seq<Statement>, applies: Statement -> bool) {
    exists s :: s in statements && s.effect == effect && applies(s)
  }

  predicate Speaks(policies: Policies, effect: Effect, role: Role, applies: Statement -> bool) {
    role in policies && Says(effect, policies[role], applies)
  }

  predicate AnySpeaks(policies: Policies, effect: Effect, roles: seq<Role>, applies: Statement -> bool) {
    exists r :: r in roles && Speaks(policies, effect, r, applies)
  }

  /** Some role allows the request and none denies it. */
  predicate Permits(policies: Policies, roles: seq<Role>, applies: Statement -> bool) {
    AnySpeaks(policies, Allow, roles, applies) && !AnySpeaks(policies, Deny, roles, applies)
  }

  predicate MayDo(p: Principal, action: Action, res: Resource) {
    Permits(ManagedPolicies(), EffectiveRoles(p, res), Matcher(p, action, res))
  }

  lemma OneMoreStatement(effect: Effect, statements: seq<Statement>, j: nat, applies: Statement -> bool)
    requires j < |statements|
    ensures Says(effect, statements[..j + 1], applies) <==>
            Says(effect, statements[..j], applies) || (statements[j].effect == effect && applies(statements[j]))
  {
    assert statements[..j + 1] == statements[..j] + [statements[j]];
  }

  lemma OneMoreRole(policies: Policies, effect: Effect, roles: seq<Role>, i: nat, applies: Statement -> bool)
    requires i < |roles|
    ensures AnySpeaks(policies, effect, roles[..i + 1], applies) <==>
            AnySpeaks(policies, effect, roles[..i], applies) || Speaks(policies, effect, roles[i], applies)
  {
    assert roles[..i + 1] == roles[..i] + [roles[i]];
  }

  method Can(p: Principal, action: Action, res: Resource) returns (answer: bool)
    ensures answer <==> MayDo(p, action, res)
  {
    answer := Evaluate(ManagedPolicies(), EffectiveRoles(p, res), Matcher(p, action, res));
  }

  method Evaluate(policies: Policies, roles: seq<Role>, applies: Statement -> bool) returns (answer: bool)
    ensures answer <==> Permits(policies, roles, applies)
  {
    var allowed, denied := false, false;
    for i := 0 to |roles|
      invariant allowed <==> AnySpeaks(policies, Allow, roles[..i], applies)
      invariant denied <==> AnySpeaks(policies, Deny, roles[..i], applies)
    {
      OneMoreRole(policies, Allow, roles, i, applies);
      OneMoreRole(policies, Deny, roles, i, applies);
      if roles[i] in policies {
        var statements := policies[roles[i]];
        ghost var allowedBefore, deniedBefore := allowed, denied;
        for j := 0 to |statements|
          invariant allowed <==> allowedBefore || Says(Allow, statements[..j], applies)
          invariant denied <==> deniedBefore || Says(Deny, statements[..j], applies)
        {
          OneMoreStatement(Allow, statements, j, applies);
          OneMoreStatement(Deny, statements, j, applies);
          if applies(statements[j]) {
            if statements[j].effect == Deny {
              denied := true;
            } else {
              allowed := true;
            }
          }
        }
        assert statements[..|statements|] == statements;
      }
    }
    assert roles[..|roles|] == roles;
    if denied {
      return false;
    }
    return allowed;
  }

  const STUDY_SET_ACTIONS: seq<Action> :=
    [StudySetCreate, StudySetRead, StudySetUpdate, StudySetDelete, StudySetPublish, StudySetImport, StudySetExport,
     StudySetSetPrice]

  const QUIZ_ACTIONS: seq<Action> := [QuizAttempt, QuizViewAnswers, QuizViewResults]

  const CLASS_ACTIONS: seq<Action> :=
    [ClassCreate, ClassRead, ClassUpdate, ClassDelete, ClassResetInvite, ClassJoin, ClassViewDashboard]

  const MEMBER_ACTIONS: seq<Action> := [MemberList, MemberAdd, MemberRemove, MemberUpdateRole, MemberViewProgress]

  const CONTENT_ACTIONS: seq<Action> :=
    [ContentAssign, ContentUnassign, ContentUpload, ContentView, LiveHost, LiveJoin]

  const MONEY_ACTIONS: seq<Action> := [WalletRead, OrderCreate, OrderListAll, WalletCredit]

  const USER_ACTIONS: seq<Action> :=
    [UserReadSelf, UserUpdateSelf, UserList, UserDisable, IAMListRoles, IAMListAssignments, IAMAssignRole,
     IAMRevokeRole]

  const OTHER_ACTIONS: seq<Action> :=
    [DashboardViewSelf, DashboardViewAdmin, AuditRead, OrgCreate, OrgRead, OrgUpdate, OrgInviteMember,
     OrgViewDashboard]

  /** The known actions, in the order of their catalogue. */
  const ALL_ACTIONS: seq<Action> :=
    STUDY_SET_ACTIONS + QUIZ_ACTIONS + CLASS_ACTIONS + MEMBER_ACTIONS + CONTENT_ACTIONS + MONEY_ACTIONS + USER_ACTIONS
    + OTHER_ACTIONS

  /** Every known action is in the list. */
  lemma KnownActionsAreListed(action: Action)
    requires !action.UnknownAction?
    ensures action in ALL_ACTIONS
  {
  }

  /** The allowed ones among some actions, in their order. */
  function Chosen(actions: seq<Action>, allowed: Action -> bool): (out: seq<Action>)
    ensures forall a :: a in out <==> a in actions && allowed(a)
  {
    if actions == [] then []
    else
      var n := |actions| - 1;
      assert actions == actions[..n] + [actions[n]];
      Chosen(actions[..n], allowed) + if allowed(actions[n]) then [actions[n]] else []
  }

  function Allowance(p: Principal, res: Resource): Action -> bool {
    action => MayDo(p, action, res)
  }

  method EffectiveActions(p: Principal, res: Resource) returns (out: seq<Action>)
    ensures out == Chosen(ALL_ACTIONS, Allowance(p, res))
  {
    out := AllowedAmong(ALL_ACTIONS, p, res);
  }

  method AllowedAmong(all: seq<Action>, p: Principal, res: Resource) returns (out: seq<Action>)
    ensures out == Chosen(all, Allowance(p, res))
  {
    out := [];
    for i := 0 to |all|
      invariant out == Chosen(all[..i], Allowance(p, res))
    {
      assert all[..i + 1][..i] == all[..i];
      var ok := Can(p, all[i], res);
      if ok {
        out := out + [all[i]];
      }
    }
    assert all[..|all|] == all;
  }
}
