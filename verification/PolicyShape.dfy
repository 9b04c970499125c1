/** The structural facts about the managed policies that the theorems on decisions rest on. */
module PolicyShape {
  import opened Authz

  /** The known actions that no policy names. */
  const UNNAMED: set<Action> :=
    {WalletCredit, UserDisable, IAMListRoles, IAMListAssignments, IAMAssignRole, IAMRevokeRole, DashboardViewAdmin,
      OrgCreate,
     QuizViewAnswers, QuizViewResults, UserReadSelf, UserUpdateSelf}

  /** Actions that only the administrator's "every action" covers: those that no policy names, unknown ones included. */
  predicate AdminOnly(action: Action) {
    action in UNNAMED || action.UnknownAction?
  }

  ghost predicate SparesAdmin(c: Condition) {
    c.WithoutPlatformRole? && PlatformAdmin in c.roles
  }

  /** What a grant may look at: who owns the resource, and the scope its own role is held in. */
  ghost predicate GrantCondition(role: Role, c: Condition) {
    c.OwnerIsSelf? || (c.ClassInScope? && role.Class()) || (c.OrgInScope? && role.Org())
  }

  /** The conditions that a role's statement carries. */
  ghost predicate Conditioned(role: Role, s: Statement) {
    && (s.effect == Deny ==> exists c :: c in s.conditions && SparesAdmin(c))
    && (s.effect == Allow ==> forall c :: c in s.conditions ==> GrantCondition(role, c))
    && (role.Class() ==> ClassInScope in s.conditions)
  }

  /** The actions that a role's statement names. */
  ghost predicate Named(role: Role, s: Statement) {
    match s.actions
    case AnyAction => role == PlatformAdmin
    case Exactly(actions) =>
      && actions !! UNNAMED
      && (actions !! OWN_STUDY_SET || (role in {Teacher, Student} && s in {OWN_ALLOW, OWN_DENY_OTHERS}))
  }

  /** The statement names no action that the program does not know. */
  ghost predicate Known(s: Statement) {
    s.actions.Exactly? ==> forall name :: UnknownAction(name) !in s.actions.actions
  }

  /** A grant and a denial of one policy never meet: they name different actions or opposite owners. */
  ghost predicate Apart(s: Statement, t: Statement) {
    s.effect == Allow && t.effect == Deny ==>
      || (s.actions.Exactly? && t.actions.Exactly? && s.actions.actions !! t.actions.actions)
      || (OwnerIsSelf in s.conditions && OwnerIsNotSelf in t.conditions)
  }

  ghost predicate AllConditioned(role: Role, policy: seq<Statement>) {
    forall s :: s in policy ==> Conditioned(role, s)
  }

  ghost predicate AllNamed(role: Role, policy: seq<Statement>) {
    forall s :: s in policy ==> Named(role, s)
  }

  ghost predicate AllKnown(policy: seq<Statement>) {
    forall s :: s in policy ==> Known(s)
  }

  ghost predicate AllApart(policy: seq<Statement>) {
    forall s, t :: s in policy && t in policy ==> Apart(s, t)
  }

  ghost predicate PolicyFits(role: Role, policy: seq<Statement>) {
    AllConditioned(role, policy) && AllNamed(role, policy) && AllKnown(policy) && AllApart(policy)
  }

  ghost predicate Shape(policies: Policies) {
    && (forall role :: role in policies ==> PolicyFits(role, policies[role]))
    && PlatformAdmin in policies && Statement(Allow, AnyAction, Everything, []) in policies[PlatformAdmin]
    && Teacher in policies && OWN_ALLOW in policies[Teacher]
    && Student in policies && OWN_ALLOW in policies[Student]
  }

  lemma DenialsSpareAdmin()
    ensures SparesAdmin(WithoutPlatformRole([PlatformAdmin]))
              && SparesAdmin(WithoutPlatformRole([Teacher, PlatformAdmin]))
  {
    assert [PlatformAdmin][0] == PlatformAdmin && [Teacher, PlatformAdmin][1] == PlatformAdmin;
  }

  lemma PlatformConditions()
    ensures AllConditioned(PlatformAdmin, PLATFORM_ADMIN_POLICY)
    ensures AllConditioned(PlatformSupport, PLATFORM_SUPPORT_POLICY)
  {
  }

  lemma TeacherConditions()
    ensures AllConditioned(Teacher, TEACHER_POLICY)
  {
    DenialsSpareAdmin();
    assert OWN_DENY_OTHERS.conditions[1] == WithoutPlatformRole([PlatformAdmin]);
  }

  lemma StudentConditions()
    ensures AllConditioned(Student, STUDENT_POLICY)
  {
    DenialsSpareAdmin();
    assert OWN_DENY_OTHERS.conditions[1] == WithoutPlatformRole([PlatformAdmin]);
    assert DENY_SET_PRICE.conditions[0] == WithoutPlatformRole([Teacher, PlatformAdmin]);
  }

  lemma ClassConditions()
    ensures AllConditioned(ClassOwner, CLASS_OWNER_POLICY)
    ensures AllConditioned(ClassTeacher, CLASS_TEACHER_POLICY)
    ensures AllConditioned(ClassStudent, CLASS_STUDENT_POLICY)
  {
    DenialsSpareAdmin();
    assert CLASS_TEACHER_POLICY[1].conditions[0] == WithoutPlatformRole([PlatformAdmin]);
    assert CLASS_STUDENT_POLICY[2].conditions[0] == WithoutPlatformRole([PlatformAdmin]);
  }

  lemma OrgConditions()
    ensures AllConditioned(OrgAdmin, ORG_ADMIN_POLICY)
    ensures AllConditioned(OrgTeacher, ORG_TEACHER_POLICY)
    ensures AllConditioned(OrgStudent, ORG_STUDENT_POLICY)
  {
    DenialsSpareAdmin();
    assert ORG_TEACHER_POLICY[2].conditions[0] == WithoutPlatformRole([PlatformAdmin]);
    assert ORG_STUDENT_POLICY[2].conditions[0] == WithoutPlatformRole([PlatformAdmin]);
  }

  lemma AdminAndSupportNames()
    ensures AllNamed(PlatformAdmin, PLATFORM_ADMIN_POLICY) && AllNamed(PlatformSupport, PLATFORM_SUPPORT_POLICY)
  {
  }

  /** The statements on one's own study sets and on buying, which two roles have. */
  lemma SharedNames(role: Role)
    requires role in {Teacher, Student}
    ensures Named(role, OWN_ALLOW) && Named(role, OWN_DENY_OTHERS) && Named(role, BUY)
  {
  }

  lemma TeacherNames()
    ensures AllNamed(Teacher, TEACHER_POLICY)
  {
    SharedNames(Teacher);
    assert Named(Teacher, TEACHER_POLICY[2]) && Named(Teacher, TEACHER_POLICY[3]);
  }

  lemma StudentNames()
    ensures AllNamed(Student, STUDENT_POLICY)
  {
    SharedNames(Student);
    assert Named(Student, STUDENT_POLICY[2]) && Named(Student, STUDENT_POLICY[3]);
  }

  lemma ClassOwnerNames()
    ensures AllNamed(ClassOwner, CLASS_OWNER_POLICY)
  {
  }

  lemma ClassTeacherNames()
    ensures AllNamed(ClassTeacher, CLASS_TEACHER_POLICY)
  {
  }

  lemma ClassStudentNames()
    ensures AllNamed(ClassStudent, CLASS_STUDENT_POLICY)
  {
  }

  lemma OrgAdminNames()
    ensures AllNamed(OrgAdmin, ORG_ADMIN_POLICY)
  {
  }

  lemma OrgTeacherNames()
    ensures AllNamed(OrgTeacher, ORG_TEACHER_POLICY)
  {
  }

  lemma OrgStudentNames()
    ensures AllNamed(OrgStudent, ORG_STUDENT_POLICY)
  {
  }

  lemma PlatformKnown()
    ensures AllKnown(PLATFORM_ADMIN_POLICY) && AllKnown(PLATFORM_SUPPORT_POLICY)
    ensures AllKnown(TEACHER_POLICY) && AllKnown(STUDENT_POLICY)
  {
  }

  lemma ClassKnown()
    ensures AllKnown(CLASS_OWNER_POLICY) && AllKnown(CLASS_TEACHER_POLICY) && AllKnown(CLASS_STUDENT_POLICY)
  {
  }

  lemma OrgKnown()
    ensures AllKnown(ORG_ADMIN_POLICY) && AllKnown(ORG_TEACHER_POLICY) && AllKnown(ORG_STUDENT_POLICY)
  {
  }

  lemma TeacherApart()
    ensures AllApart(TEACHER_POLICY)
  {
  }

  lemma StudentApart()
    ensures AllApart(STUDENT_POLICY)
  {
  }

  lemma ClassApart()
    ensures AllApart(CLASS_OWNER_POLICY) && AllApart(CLASS_TEACHER_POLICY) && AllApart(CLASS_STUDENT_POLICY)
  {
  }

  lemma OrgApart()
    ensures AllApart(ORG_ADMIN_POLICY) && AllApart(ORG_TEACHER_POLICY) && AllApart(ORG_STUDENT_POLICY)
  {
  }

  lemma PlatformShapes()
    ensures PolicyFits(PlatformAdmin, PLATFORM_ADMIN_POLICY) && PolicyFits(PlatformSupport, PLATFORM_SUPPORT_POLICY)
    ensures PolicyFits(Teacher, TEACHER_POLICY) && PolicyFits(Student, STUDENT_POLICY)
  {
    PlatformConditions();
    TeacherConditions();
    StudentConditions();
    AdminAndSupportNames();
    TeacherNames();
    StudentNames();
    PlatformKnown();
    TeacherApart();
    StudentApart();
  }

  lemma ClassShapes()
    ensures PolicyFits(ClassOwner, CLASS_OWNER_POLICY)
    ensures PolicyFits(ClassTeacher, CLASS_TEACHER_POLICY)
    ensures PolicyFits(ClassStudent, CLASS_STUDENT_POLICY)
  {
    ClassConditions();
    ClassOwnerNames();
    ClassTeacherNames();
    ClassStudentNames();
    ClassKnown();
    ClassApart();
  }

  lemma OrgShapes()
    ensures PolicyFits(OrgAdmin, ORG_ADMIN_POLICY)
    ensures PolicyFits(OrgTeacher, ORG_TEACHER_POLICY)
    ensures PolicyFits(OrgStudent, ORG_STUDENT_POLICY)
  {
    OrgConditions();
    OrgAdminNames();
    OrgTeacherNames();
    OrgStudentNames();
    OrgKnown();
    OrgApart();
  }

  lemma ManagedPoliciesShape()
    ensures Shape(ManagedPolicies())
  {
    PlatformShapes();
    ClassShapes();
    OrgShapes();
  }
}
