/** Who may do what: the decision for every action, told without roles' policies, their statements or their order. */
module AccessTable {
  import opened Authz
  import Decisions
  import ManagedDecisions

  // ---------------------------------------------------------------- the facts that decide

  /** A platform role, or the one that the legacy account role stands for. */
  predicate Ranks(p: Principal, role: Role) {
    || role in p.platformRoles
    || (role == PlatformAdmin && p.legacy.LegacyAdmin?)
    || (role == Student && p.platformRoles == [] && p.legacy.LegacyUser?)
  }

  predicate Mine(p: Principal, res: Resource) {
    res.owner == p.userId > 0
  }

  /** The resource is in the class that the principal has come as a member of, with one of these parts there. */
  predicate InClassAs(p: Principal, res: Resource, parts: set<MemberRole>) {
    res.kind == ClassKind && p.classId == res.classId > 0 && p.classRole in parts
  }

  /** The principal has the role in the organization that the resource belongs to. */
  predicate HasOrgRole(p: Principal, res: Resource, role: Role) {
    res.orgId > 0 && res.orgId in p.orgRoles && role in p.orgRoles[res.orgId]
  }

  predicate InOrgAs(p: Principal, res: Resource, roles: set<Role>) {
    exists r :: r in roles && HasOrgRole(p, res, r)
  }

  predicate TakesPart(p: Principal, res: Resource, parts: set<MemberRole>, roles: set<Role>) {
    InClassAs(p, res, parts) || (res.kind == ClassKind && InOrgAs(p, res, roles))
  }

  /** What the actions are about, as far as decisions can tell them apart. */
  datatype Activity =
    | OwnSets | Pricing | Everyday | Supporting | Founding | Hosting | Playing | Reading | Watching | Teaching
    | Updating | Ending | Progress | OrgViewing | OrgManaging | Reserved

  function ActivityOf(action: Action): Activity {
    match action
    case StudySetCreate | StudySetRead | StudySetUpdate | StudySetDelete | StudySetPublish | StudySetImport
      | StudySetExport => OwnSets
    case StudySetSetPrice => Pricing
    case ClassJoin | DashboardViewSelf | WalletRead | OrderCreate => Everyday
    case UserList | OrderListAll | AuditRead => Supporting
    case ClassCreate => Founding
    case LiveHost => Hosting
    case LiveJoin | QuizAttempt => Playing
    case ClassRead => Reading
    case ClassViewDashboard | MemberList | ContentView => Watching
    case MemberAdd | MemberRemove | MemberUpdateRole | ContentAssign | ContentUnassign | ContentUpload => Teaching
    case ClassUpdate => Updating
    case ClassDelete | ClassResetInvite => Ending
    case MemberViewProgress => Progress
    case OrgRead | OrgViewDashboard => OrgViewing
    case OrgUpdate | OrgInviteMember => OrgManaging
    case _ => Reserved
  }

  /** What a principal who is no administrator may do. */
  predicate Entitled(p: Principal, activity: Activity, res: Resource) {
    match activity
    case OwnSets => res.kind == StudySet && Mine(p, res) && (Ranks(p, Teacher) || Ranks(p, Student))
    case Pricing => res.kind == StudySet && Mine(p, res) && Ranks(p, Teacher)
    case Everyday => Ranks(p, Teacher) || Ranks(p, Student)
    case Supporting => Ranks(p, PlatformSupport)
    case Founding => Ranks(p, Teacher) || TakesPart(p, res, {}, {OrgAdmin})
    case Hosting => Ranks(p, Teacher) || TakesPart(p, res, {Owner, TeacherMember}, {OrgAdmin, OrgTeacher})
    case Playing => Ranks(p, Student) || TakesPart(p, res, {StudentMember}, {OrgStudent})
    case Reading =>
      Ranks(p, PlatformSupport)
        || TakesPart(p, res, {Owner, TeacherMember, StudentMember}, {OrgAdmin, OrgTeacher, OrgStudent})
    case Watching => TakesPart(p, res, {Owner, TeacherMember, StudentMember}, {OrgAdmin, OrgTeacher, OrgStudent})
    case Teaching => TakesPart(p, res, {Owner, TeacherMember}, {OrgAdmin, OrgTeacher})
    case Updating => TakesPart(p, res, {Owner}, {OrgAdmin})
    case Ending => TakesPart(p, res, {Owner}, {OrgAdmin}) && !TakesPart(p, res, {TeacherMember}, {OrgTeacher})
    case Progress =>
      if TakesPart(p, res, {StudentMember}, {OrgStudent}) then Mine(p, res)
      else TakesPart(p, res, {Owner, TeacherMember}, {OrgAdmin, OrgTeacher})
    case OrgViewing => res.kind == Organization && InOrgAs(p, res, {OrgAdmin, OrgTeacher})
    case OrgManaging => res.kind == Organization && InOrgAs(p, res, {OrgAdmin})
    case Reserved => false
  }

  // ---------------------------------------------------------------- what each policy says

  predicate InClass(p: Principal, res: Resource) {
    res.kind == ClassKind && Holds(ClassInScope, p, res)
  }

  predicate InOrg(p: Principal, res: Resource, kind: Kind) {
    res.kind == kind && Holds(OrgInScope, p, res)
  }

  predicate RoleAllows(role: Role, p: Principal, activity: Activity, res: Resource) {
    match role
    case PlatformAdmin => true
    case PlatformSupport => activity in {Supporting, Reading}
    case Teacher =>
      (activity in {OwnSets, Pricing} && res.kind == StudySet && Mine(p, res))
        || activity in {Founding, Everyday, Hosting}
    case Student =>
      (activity == OwnSets && res.kind == StudySet && Mine(p, res)) || activity in {Everyday, Playing}
    case ClassOwner =>
      activity in {Reading, Watching, Teaching, Updating, Ending, Progress, Hosting} && InClass(p, res)
    case ClassTeacher => activity in {Reading, Watching, Teaching, Progress, Hosting} && InClass(p, res)
    case ClassStudent =>
      (activity in {Reading, Watching, Playing} || (activity == Progress && Mine(p, res))) && InClass(p, res)
    case OrgAdmin =>
      (activity in {OrgViewing, OrgManaging} && InOrg(p, res, Organization))
        || (activity in {Founding, Reading, Watching, Teaching, Updating, Ending, Progress, Hosting}
            && InOrg(p, res, ClassKind))
    case OrgTeacher =>
      (activity == OrgViewing && InOrg(p, res, Organization))
        || (activity in {Reading, Watching, Teaching, Progress, Hosting} && InOrg(p, res, ClassKind))
    case OrgStudent =>
      (activity in {Reading, Watching, Playing} || (activity == Progress && Mine(p, res))) && InOrg(p, res, ClassKind)
    case UnknownRole(_) => false
  }

  /** The denials, for a principal who is no administrator. */
  predicate RoleDenies(role: Role, p: Principal, activity: Activity, res: Resource) {
    match role
    case Teacher => activity == OwnSets && res.kind == StudySet && !Mine(p, res)
    case Student =>
      res.kind == StudySet && ((activity == OwnSets && !Mine(p, res))
                               || (activity == Pricing && Teacher !in ResolvedPlatformRoles(p)))
    case ClassTeacher => activity == Ending && InClass(p, res)
    case ClassStudent => activity == Progress && InClass(p, res) && !Mine(p, res)
    case OrgTeacher => activity == Ending && InOrg(p, res, ClassKind)
    case OrgStudent => activity == Progress && InOrg(p, res, ClassKind) && !Mine(p, res)
    case _ => false
  }

  lemma PlatformSets(action: Action)
    ensures action in OWN_STUDY_SET <==> ActivityOf(action) == OwnSets
    ensures action in {ClassCreate, ClassJoin, LiveHost, DashboardViewSelf} + {WalletRead, OrderCreate} <==>
            ActivityOf(action) in {Founding, Everyday, Hosting}
    ensures action in {ClassJoin, LiveJoin, DashboardViewSelf, QuizAttempt} + {WalletRead, OrderCreate} <==>
            ActivityOf(action) in {Everyday, Playing}
    ensures action in {UserList, ClassRead, OrderListAll, AuditRead} <==> ActivityOf(action) in {Supporting, Reading}
  {
  }

  lemma RunningSet(action: Action)
    ensures action in RUN_CLASS <==> ActivityOf(action) in {Reading, Watching, Teaching, Progress, Hosting}
  {
  }

  lemma ClassSets(action: Action)
    ensures action in ATTEND_CLASS <==> ActivityOf(action) in {Reading, Watching, Playing}
    ensures action in END_CLASS <==> ActivityOf(action) == Ending
  {
  }

  lemma OrgSets(action: Action)
    ensures action in {OrgRead, OrgUpdate, OrgInviteMember, OrgViewDashboard} <==>
            ActivityOf(action) in {OrgViewing, OrgManaging}
    ensures action in {OrgRead, OrgViewDashboard} <==> ActivityOf(action) == OrgViewing
  {
  }

  lemma OwnerSets(action: Action)
    ensures action in OWN_CLASS <==>
            ActivityOf(action) in {Reading, Watching, Teaching, Updating, Ending, Progress, Hosting}
    ensures action in OWN_ORG_CLASSES <==>
            ActivityOf(action) in {Founding, Reading, Watching, Teaching, Updating, Ending, Progress, Hosting}
  {
  }

  predicate Hit(effect: Effect, s: Statement, f: Statement -> bool) {
    s.effect == effect && f(s)
  }

  lemma NextStatement(effect: Effect, s: Statement, rest: seq<Statement>, f: Statement -> bool)
    ensures Says(effect, [s] + rest, f) <==> Hit(effect, s, f) || Says(effect, rest, f)
  {
    var policy := [s] + rest;
    assert policy[0] == s && forall t :: t in policy <==> t == s || t in rest;
  }

  lemma OneStatement(effect: Effect, s: Statement, f: Statement -> bool)
    ensures Says(effect, [s], f) <==> Hit(effect, s, f)
  {
    NextStatement(effect, s, [], f);
    assert [s] + [] == [s];
  }

  lemma TwoStatements(effect: Effect, s: Statement, t: Statement, f: Statement -> bool)
    ensures Says(effect, [s, t], f) <==> Hit(effect, s, f) || Hit(effect, t, f)
  {
    NextStatement(effect, s, [t], f);
    OneStatement(effect, t, f);
    assert [s] + [t] == [s, t];
  }

  lemma ThreeStatements(effect: Effect, s: Statement, t: Statement, u: Statement, f: Statement -> bool)
    ensures Says(effect, [s, t, u], f) <==> Hit(effect, s, f) || Hit(effect, t, f) || Hit(effect, u, f)
  {
    NextStatement(effect, s, [t, u], f);
    TwoStatements(effect, t, u, f);
    assert [s] + [t, u] == [s, t, u];
  }

  lemma FiveStatements(effect: Effect, s: Statement, t: Statement, u: Statement, v: Statement, w: Statement,
      f: Statement -> bool)
    ensures Says(effect, [s, t, u, v, w], f) <==>
            Hit(effect, s, f) || Hit(effect, t, f) || Hit(effect, u, f) || Hit(effect, v, f) || Hit(effect, w, f)
  {
    NextStatement(effect, s, [t, u, v, w], f);
    NextStatement(effect, t, [u, v, w], f);
    ThreeStatements(effect, u, v, w, f);
    assert [s] + [t, u, v, w] == [s, t, u, v, w] && [t] + [u, v, w] == [t, u, v, w];
  }

  ghost predicate Asked(s: Statement, p: Principal, res: Resource, k: nat) {
    k < |s.conditions| ==> Holds(s.conditions[k], p, res)
  }

  lemma ThreeConditions(s: Statement, p: Principal, action: Action, res: Resource)
    requires |s.conditions| <= 3
    ensures Matcher(p, action, res)(s) <==>
            && MatchesAction(s.actions, action) && MatchesResource(s.resources, res)
            && Asked(s, p, res, 0) && Asked(s, p, res, 1) && Asked(s, p, res, 2)
  {
    if Asked(s, p, res, 0) && Asked(s, p, res, 1) && Asked(s, p, res, 2) {
      forall c | c in s.conditions
        ensures Holds(c, p, res)
      {
        var k :| 0 <= k < |s.conditions| && s.conditions[k] == c;
        assert Asked(s, p, res, k);
      }
    }
  }

  lemma NotAdmin(p: Principal, res: Resource)
    requires PlatformAdmin !in ResolvedPlatformRoles(p)
    ensures Holds(WithoutPlatformRole([PlatformAdmin]), p, res)
    ensures Holds(WithoutPlatformRole([Teacher, PlatformAdmin]), p, res) <==> Teacher !in ResolvedPlatformRoles(p)
  {
    assert [Teacher, PlatformAdmin][0] == Teacher;
  }

  /** Exactly these are allowed, and exactly these denied. */
  ghost predicate Means(policy: seq<Statement>, role: Role, p: Principal, action: Action, res: Resource) {
    && (Says(Allow, policy, Matcher(p, action, res)) <==> RoleAllows(role, p, ActivityOf(action), res))
    && (Says(Deny, policy, Matcher(p, action, res)) <==> RoleDenies(role, p, ActivityOf(action), res))
  }

  lemma Unconditional(actions: set<Action>, p: Principal, action: Action, res: Resource)
    ensures Matcher(p, action, res)(Grant(actions, Everything, [])) <==> action in actions
  {
  }

  lemma OwnerOnly(actions: set<Action>, p: Principal, action: Action, res: Resource)
    ensures Matcher(p, action, res)(Grant(actions, STUDY_SETS, [OwnerIsSelf])) <==>
            action in actions && res.kind == StudySet && Mine(p, res)
  {
    ThreeConditions(Grant(actions, STUDY_SETS, [OwnerIsSelf]), p, action, res);
  }

  lemma OthersDenied(actions: set<Action>, p: Principal, action: Action, res: Resource)
    requires PlatformAdmin !in ResolvedPlatformRoles(p)
    ensures Matcher(p, action, res)(Forbid(actions, STUDY_SETS,
                                        [OwnerIsNotSelf, WithoutPlatformRole([PlatformAdmin])])) <==>
            action in actions && res.kind == StudySet && !Mine(p, res)
  {
    ThreeConditions(Forbid(actions, STUDY_SETS, [OwnerIsNotSelf, WithoutPlatformRole([PlatformAdmin])]), p, action,
      res);
    NotAdmin(p, res);
  }

  lemma OnlyTeachers(actions: set<Action>, p: Principal, action: Action, res: Resource)
    requires PlatformAdmin !in ResolvedPlatformRoles(p)
    ensures Matcher(p, action, res)(Forbid(actions, STUDY_SETS, [WithoutPlatformRole([Teacher, PlatformAdmin])])) <==>
            action in actions && res.kind == StudySet && Teacher !in ResolvedPlatformRoles(p)
  {
    ThreeConditions(Forbid(actions, STUDY_SETS, [WithoutPlatformRole([Teacher, PlatformAdmin])]), p, action, res);
    NotAdmin(p, res);
  }

  lemma InScope(actions: set<Action>, kind: Kind, scope: Condition, p: Principal, action: Action, res: Resource)
    ensures Matcher(p, action, res)(Grant(actions, OfKind(kind), [scope])) <==>
            action in actions && res.kind == kind && Holds(scope, p, res)
    ensures Matcher(p, action, res)(Grant(actions, OfKind(kind), [scope, OwnerIsSelf])) <==>
            action in actions && res.kind == kind && Holds(scope, p, res) && Mine(p, res)
  {
    ThreeConditions(Grant(actions, OfKind(kind), [scope]), p, action, res);
    ThreeConditions(Grant(actions, OfKind(kind), [scope, OwnerIsSelf]), p, action, res);
  }

  lemma DeniedInScope(actions: set<Action>, kind: Kind, scope: Condition, p: Principal, action: Action, res: Resource)
    requires PlatformAdmin !in ResolvedPlatformRoles(p)
    ensures Matcher(p, action, res)(Forbid(actions, OfKind(kind), [WithoutPlatformRole([PlatformAdmin]), scope])) <==>
            action in actions && res.kind == kind && Holds(scope, p, res)
    ensures Matcher(p, action, res)(Forbid(actions, OfKind(kind), [WithoutPlatformRole([PlatformAdmin]), scope,
                                             OwnerIsNotSelf])) <==>
            action in actions && res.kind == kind && Holds(scope, p, res) && !Mine(p, res)
  {
    ThreeConditions(Forbid(actions, OfKind(kind), [WithoutPlatformRole([PlatformAdmin]), scope]), p, action, res);
    ThreeConditions(Forbid(actions, OfKind(kind), [WithoutPlatformRole([PlatformAdmin]), scope, OwnerIsNotSelf]), p,
      action, res);
    NotAdmin(p, res);
  }

  lemma AttendingMeans(attend: set<Action>, progress: set<Action>, scope: Condition, p: Principal, action: Action,
      res: Resource)
    requires PlatformAdmin !in ResolvedPlatformRoles(p)
    ensures var policy, f := [Grant(attend, CLASSES, [scope]), Grant(progress, CLASSES, [scope, OwnerIsSelf]),
                              Forbid(progress, CLASSES, [WithoutPlatformRole([PlatformAdmin]), scope, OwnerIsNotSelf])],
              Matcher(p, action, res);
            && (Says(Allow, policy, f) <==> res.kind == ClassKind && Holds(scope, p, res)
                                            && (action in attend || (action in progress && Mine(p, res))))
            && (Says(Deny, policy, f) <==> res.kind == ClassKind && Holds(scope, p, res)
                                           && action in progress && !Mine(p, res))
  {
    var f := Matcher(p, action, res);
    var s, t := Grant(attend, CLASSES, [scope]), Grant(progress, CLASSES, [scope, OwnerIsSelf]);
    var u := Forbid(progress, CLASSES, [WithoutPlatformRole([PlatformAdmin]), scope, OwnerIsNotSelf]);
    ThreeStatements(Allow, s, t, u, f);
    ThreeStatements(Deny, s, t, u, f);
    InScope(attend, ClassKind, scope, p, action, res);
    InScope(progress, ClassKind, scope, p, action, res);
    DeniedInScope(progress, ClassKind, scope, p, action, res);
  }

  lemma TeachingMeans(read: set<Action>, run: set<Action>, end: set<Action>, scope: Condition, p: Principal,
      action: Action, res: Resource)
    requires PlatformAdmin !in ResolvedPlatformRoles(p)
    ensures var policy, f := [Grant(read, ORGS, [scope]), Grant(run, CLASSES, [scope]),
                              Forbid(end, CLASSES, [WithoutPlatformRole([PlatformAdmin]), scope])],
              Matcher(p, action, res);
            && (Says(Allow, policy, f) <==> Holds(scope, p, res) && ((res.kind == Organization && action in read)
                                                                     || (res.kind == ClassKind && action in run)))
            && (Says(Deny, policy, f) <==> Holds(scope, p, res) && res.kind == ClassKind && action in end)
  {
    var f := Matcher(p, action, res);
    var s, t := Grant(read, ORGS, [scope]), Grant(run, CLASSES, [scope]);
    var u := Forbid(end, CLASSES, [WithoutPlatformRole([PlatformAdmin]), scope]);
    ThreeStatements(Allow, s, t, u, f);
    ThreeStatements(Deny, s, t, u, f);
    InScope(read, Organization, scope, p, action, res);
    InScope(run, ClassKind, scope, p, action, res);
    DeniedInScope(end, ClassKind, scope, p, action, res);
  }

  lemma RunningMeans(run: set<Action>, end: set<Action>, scope: Condition, p: Principal, action: Action, res: Resource)
    requires PlatformAdmin !in ResolvedPlatformRoles(p)
    ensures var policy, f := [Grant(run, CLASSES, [scope]),
                              Forbid(end, CLASSES, [WithoutPlatformRole([PlatformAdmin]), scope])],
              Matcher(p, action, res);
            && (Says(Allow, policy, f) <==> Holds(scope, p, res) && res.kind == ClassKind && action in run)
            && (Says(Deny, policy, f) <==> Holds(scope, p, res) && res.kind == ClassKind && action in end)
  {
    var f, s := Matcher(p, action, res), Grant(run, CLASSES, [scope]);
    var t := Forbid(end, CLASSES, [WithoutPlatformRole([PlatformAdmin]), scope]);
    TwoStatements(Allow, s, t, f);
    TwoStatements(Deny, s, t, f);
    InScope(run, ClassKind, scope, p, action, res);
    DeniedInScope(end, ClassKind, scope, p, action, res);
  }

  lemma OwningMeans(org: set<Action>, own: set<Action>, scope: Condition, p: Principal, action: Action, res: Resource)
    ensures var policy, f := [Grant(org, ORGS, [scope]), Grant(own, CLASSES, [scope])], Matcher(p, action, res);
            && (Says(Allow, policy, f) <==> Holds(scope, p, res) && ((res.kind == Organization && action in org)
                                                                     || (res.kind == ClassKind && action in own)))
            && !Says(Deny, policy, f)
    ensures var policy, f := [Grant(own, CLASSES, [scope])], Matcher(p, action, res);
            && (Says(Allow, policy, f) <==> Holds(scope, p, res) && res.kind == ClassKind && action in own)
            && !Says(Deny, policy, f)
  {
    var f, s, t := Matcher(p, action, res), Grant(org, ORGS, [scope]), Grant(own, CLASSES, [scope]);
    TwoStatements(Allow, s, t, f);
    TwoStatements(Deny, s, t, f);
    OneStatement(Allow, t, f);
    OneStatement(Deny, t, f);
    InScope(org, Organization, scope, p, action, res);
    InScope(own, ClassKind, scope, p, action, res);
  }

  lemma SupportMeans(p: Principal, action: Action, res: Resource)
    ensures Means(PLATFORM_SUPPORT_POLICY, PlatformSupport, p, action, res)
  {
    PlatformSets(action);
    var f, s := Matcher(p, action, res), Grant({UserList, ClassRead, OrderListAll, AuditRead}, Everything, []);
    OneStatement(Allow, s, f);
    OneStatement(Deny, s, f);
    Unconditional({UserList, ClassRead, OrderListAll, AuditRead}, p, action, res);
  }

  lemma AuthoringMeans(own: set<Action>, price: set<Action>, free: set<Action>, buy: set<Action>, p: Principal,
      action: Action, res: Resource)
    requires PlatformAdmin !in ResolvedPlatformRoles(p)
    ensures var policy, f := [Grant(own, STUDY_SETS, [OwnerIsSelf]),
                              Forbid(own, STUDY_SETS, [OwnerIsNotSelf, WithoutPlatformRole([PlatformAdmin])]),
                              Grant(price, STUDY_SETS, [OwnerIsSelf]), Grant(free, Everything, []),
                              Grant(buy, Everything, [])],
              Matcher(p, action, res);
            && (Says(Allow, policy, f) <==> (action in own + price && res.kind == StudySet && Mine(p, res))
                                            || action in free + buy)
            && (Says(Deny, policy, f) <==> action in own && res.kind == StudySet && !Mine(p, res))
  {
    var f := Matcher(p, action, res);
    var s, t := Grant(own, STUDY_SETS, [OwnerIsSelf]),
      Forbid(own, STUDY_SETS, [OwnerIsNotSelf, WithoutPlatformRole([PlatformAdmin])]);
    var u, v, w := Grant(price, STUDY_SETS, [OwnerIsSelf]), Grant(free, Everything, []), Grant(buy, Everything, []);
    FiveStatements(Allow, s, t, u, v, w, f);
    FiveStatements(Deny, s, t, u, v, w, f);
    OwnerOnly(own, p, action, res);
    OthersDenied(own, p, action, res);
    OwnerOnly(price, p, action, res);
    Unconditional(free, p, action, res);
    Unconditional(buy, p, action, res);
  }

  lemma LearningMeans(own: set<Action>, price: set<Action>, free: set<Action>, buy: set<Action>, p: Principal,
      action: Action, res: Resource)
    requires PlatformAdmin !in ResolvedPlatformRoles(p)
    ensures var policy, f := [Grant(own, STUDY_SETS, [OwnerIsSelf]),
                              Forbid(own, STUDY_SETS, [OwnerIsNotSelf, WithoutPlatformRole([PlatformAdmin])]),
                              Forbid(price, STUDY_SETS, [WithoutPlatformRole([Teacher, PlatformAdmin])]),
                              Grant(free, Everything, []), Grant(buy, Everything, [])],
              Matcher(p, action, res);
            && (Says(Allow, policy, f) <==> (action in own && res.kind == StudySet && Mine(p, res))
                                            || action in free + buy)
            && (Says(Deny, policy, f) <==> res.kind == StudySet
                                           && ((action in own && !Mine(p, res))
                                               || (action in price && Teacher !in ResolvedPlatformRoles(p))))
  {
    var f := Matcher(p, action, res);
    var s, t := Grant(own, STUDY_SETS, [OwnerIsSelf]),
      Forbid(own, STUDY_SETS, [OwnerIsNotSelf, WithoutPlatformRole([PlatformAdmin])]);
    var u := Forbid(price, STUDY_SETS, [WithoutPlatformRole([Teacher, PlatformAdmin])]);
    var v, w := Grant(free, Everything, []), Grant(buy, Everything, []);
    FiveStatements(Allow, s, t, u, v, w, f);
    FiveStatements(Deny, s, t, u, v, w, f);
    OwnerOnly(own, p, action, res);
    OthersDenied(own, p, action, res);
    OnlyTeachers(price, p, action, res);
    Unconditional(free, p, action, res);
    Unconditional(buy, p, action, res);
  }

  lemma TeacherMeans(p: Principal, action: Action, res: Resource)
    requires PlatformAdmin !in ResolvedPlatformRoles(p)
    ensures Means(TEACHER_POLICY, Teacher, p, action, res)
  {
    PlatformSets(action);
    AuthoringMeans(OWN_STUDY_SET, {StudySetSetPrice}, {ClassCreate, ClassJoin, LiveHost, DashboardViewSelf},
      {WalletRead, OrderCreate}, p, action, res);
  }

  lemma StudentMeans(p: Principal, action: Action, res: Resource)
    requires PlatformAdmin !in ResolvedPlatformRoles(p)
    ensures Means(STUDENT_POLICY, Student, p, action, res)
  {
    PlatformSets(action);
    LearningMeans(OWN_STUDY_SET, {StudySetSetPrice}, {ClassJoin, LiveJoin, DashboardViewSelf, QuizAttempt},
      {WalletRead, OrderCreate}, p, action, res);
  }

  lemma OwnerMeans(p: Principal, action: Action, res: Resource)
    ensures Means(CLASS_OWNER_POLICY, ClassOwner, p, action, res)
  {
    OwnerSets(action);
    OwningMeans({}, OWN_CLASS, ClassInScope, p, action, res);
  }

  lemma ClassTeacherMeans(p: Principal, action: Action, res: Resource)
    requires PlatformAdmin !in ResolvedPlatformRoles(p)
    ensures Means(CLASS_TEACHER_POLICY, ClassTeacher, p, action, res)
  {
    RunningSet(action);
    ClassSets(action);
    RunningMeans(RUN_CLASS, END_CLASS, ClassInScope, p, action, res);
  }

  lemma ClassStudentMeans(p: Principal, action: Action, res: Resource)
    requires PlatformAdmin !in ResolvedPlatformRoles(p)
    ensures Means(CLASS_STUDENT_POLICY, ClassStudent, p, action, res)
  {
    ClassSets(action);
    AttendingMeans(ATTEND_CLASS, {MemberViewProgress}, ClassInScope, p, action, res);
  }

  lemma OrgAdminMeans(p: Principal, action: Action, res: Resource)
    ensures Means(ORG_ADMIN_POLICY, OrgAdmin, p, action, res)
  {
    OrgSets(action);
    OwnerSets(action);
    OwningMeans({OrgRead, OrgUpdate, OrgInviteMember, OrgViewDashboard}, OWN_ORG_CLASSES, OrgInScope, p, action, res);
  }

  lemma OrgTeacherMeans(p: Principal, action: Action, res: Resource)
    requires PlatformAdmin !in ResolvedPlatformRoles(p)
    ensures Means(ORG_TEACHER_POLICY, OrgTeacher, p, action, res)
  {
    OrgSets(action);
    RunningSet(action);
    ClassSets(action);
    TeachingMeans({OrgRead, OrgViewDashboard}, RUN_CLASS, END_CLASS, OrgInScope, p, action, res);
  }

  lemma OrgStudentMeans(p: Principal, action: Action, res: Resource)
    requires PlatformAdmin !in ResolvedPlatformRoles(p)
    ensures Means(ORG_STUDENT_POLICY, OrgStudent, p, action, res)
  {
    ClassSets(action);
    AttendingMeans(ATTEND_CLASS, {MemberViewProgress}, OrgInScope, p, action, res);
  }

  // ---------------------------------------------------------------- what they say together

  ghost predicate HasMeaning(policies: Policies, role: Role, p: Principal, action: Action, res: Resource) {
    role in policies && Means(policies[role], role, p, action, res)
  }

  /** The policies of all roles but the administrator's, each with its meaning. */
  ghost predicate Described(policies: Policies, p: Principal, action: Action, res: Resource) {
    && (forall role: Role :: role != PlatformAdmin && !role.UnknownRole? ==> HasMeaning(policies, role, p, action, res))
    && forall role :: role in policies ==> !role.UnknownRole?
  }

  lemma SupportDescribed(policies: Policies, p: Principal, action: Action, res: Resource)
    requires policies == ManagedPolicies()
    ensures HasMeaning(policies, PlatformSupport, p, action, res)
  {
    SupportMeans(p, action, res);
  }

  lemma TeacherDescribed(policies: Policies, p: Principal, action: Action, res: Resource)
    requires PlatformAdmin !in ResolvedPlatformRoles(p) && policies == ManagedPolicies()
    ensures HasMeaning(policies, Teacher, p, action, res)
  {
    TeacherMeans(p, action, res);
  }

  lemma StudentDescribed(policies: Policies, p: Principal, action: Action, res: Resource)
    requires PlatformAdmin !in ResolvedPlatformRoles(p) && policies == ManagedPolicies()
    ensures HasMeaning(policies, Student, p, action, res)
  {
    StudentMeans(p, action, res);
  }

  lemma ClassDescribed(policies: Policies, p: Principal, action: Action, res: Resource)
    requires PlatformAdmin !in ResolvedPlatformRoles(p) && policies == ManagedPolicies()
    ensures HasMeaning(policies, ClassOwner, p, action, res) && HasMeaning(policies, ClassTeacher, p, action, res)
    ensures HasMeaning(policies, ClassStudent, p, action, res)
  {
    OwnerMeans(p, action, res);
    ClassTeacherMeans(p, action, res);
    ClassStudentMeans(p, action, res);
  }

  lemma OrgDescribed(policies: Policies, p: Principal, action: Action, res: Resource)
    requires PlatformAdmin !in ResolvedPlatformRoles(p) && policies == ManagedPolicies()
    ensures HasMeaning(policies, OrgAdmin, p, action, res) && HasMeaning(policies, OrgTeacher, p, action, res)
    ensures HasMeaning(policies, OrgStudent, p, action, res)
  {
    OrgAdminMeans(p, action, res);
    OrgTeacherMeans(p, action, res);
    OrgStudentMeans(p, action, res);
  }

  lemma NoPolicyForOthers(policies: Policies)
    requires policies == ManagedPolicies()
    ensures forall role :: role in policies ==> !role.UnknownRole?
  {
  }

  lemma Together(policies: Policies, p: Principal, action: Action, res: Resource)
    requires HasMeaning(policies, PlatformSupport, p, action, res) && HasMeaning(policies, Teacher, p, action, res)
    requires HasMeaning(policies, Student, p, action, res)
    requires HasMeaning(policies, ClassOwner, p, action, res) && HasMeaning(policies, ClassTeacher, p, action, res)
    requires HasMeaning(policies, ClassStudent, p, action, res)
    requires HasMeaning(policies, OrgAdmin, p, action, res) && HasMeaning(policies, OrgTeacher, p, action, res)
    requires HasMeaning(policies, OrgStudent, p, action, res)
    requires forall role :: role in policies ==> !role.UnknownRole?
    ensures Described(policies, p, action, res)
  {
  }

  lemma ManagedDescribed(policies: Policies, p: Principal, action: Action, res: Resource)
    requires PlatformAdmin !in ResolvedPlatformRoles(p) && policies == ManagedPolicies()
    ensures Described(policies, p, action, res)
  {
    SupportDescribed(policies, p, action, res);
    TeacherDescribed(policies, p, action, res);
    StudentDescribed(policies, p, action, res);
    ClassDescribed(policies, p, action, res);
    OrgDescribed(policies, p, action, res);
    NoPolicyForOthers(policies);
    Together(policies, p, action, res);
  }

  lemma RoleSpeaks(policies: Policies, role: Role, p: Principal, action: Action, res: Resource)
    requires Described(policies, p, action, res) && role != PlatformAdmin
    ensures Speaks(policies, Allow, role, Matcher(p, action, res)) <==> RoleAllows(role, p, ActivityOf(action), res)
    ensures Speaks(policies, Deny, role, Matcher(p, action, res)) <==> RoleDenies(role, p, ActivityOf(action), res)
  {
    assert !role.UnknownRole? ==> HasMeaning(policies, role, p, action, res);
  }

  function Allowing(p: Principal, activity: Activity, res: Resource): Role -> bool {
    role => RoleAllows(role, p, activity, res)
  }

  function Denying(p: Principal, activity: Activity, res: Resource): Role -> bool {
    role => RoleDenies(role, p, activity, res)
  }

  predicate Some(p: Principal, res: Resource, speaks: Role -> bool) {
    exists r :: r in EffectiveRoles(p, res) && speaks(r)
  }

  lemma RolesDecide(policies: Policies, p: Principal, action: Action, res: Resource)
    requires Described(policies, p, action, res) && PlatformAdmin !in EffectiveRoles(p, res)
    ensures Decisions.May(policies, p, action, res) <==>
            Some(p, res, Allowing(p, ActivityOf(action), res)) && !Some(p, res, Denying(p, ActivityOf(action), res))
  {
    forall r | r in EffectiveRoles(p, res)
      ensures Speaks(policies, Allow, r, Matcher(p, action, res)) <==> Allowing(p, ActivityOf(action), res)(r)
      ensures Speaks(policies, Deny, r, Matcher(p, action, res)) <==> Denying(p, ActivityOf(action), res)(r)
    {
      RoleSpeaks(policies, r, p, action, res);
    }
  }

  // ---------------------------------------------------------------- the table

  lemma RolesInPlace(p: Principal, res: Resource)
    requires Decisions.WellPlaced(p)
    ensures forall r: Role :: r.Platform() ==> (r in EffectiveRoles(p, res) <==> Ranks(p, r))
    ensures forall r: Role :: r.Org() ==> (r in EffectiveRoles(p, res) <==> HasOrgRole(p, res, r))
    ensures forall r: Role :: r.Class() && (res.classId <= 0 || res.classId == p.classId) ==>
              (r in EffectiveRoles(p, res) <==> ClassMemberRole(p.classRole) == [r])
    ensures forall r: Role :: r in EffectiveRoles(p, res) ==> !r.UnknownRole?
  {
    forall r: Role | r in EffectiveRoles(p, res)
      ensures r.Platform() ==> Ranks(p, r)
      ensures r.Org() ==> HasOrgRole(p, res, r)
      ensures r.Class() ==> ClassMemberRole(p.classRole) == [r]
      ensures !r.UnknownRole?
    {
      Decisions.RoleInItsPlace(p, res, r);
    }
  }

  /** Some role speaks: from the platform, from the class or from the organization. */
  predicate Voiced(p: Principal, res: Resource, speaks: Role -> bool) {
    || (Ranks(p, PlatformSupport) && speaks(PlatformSupport))
    || (Ranks(p, Teacher) && speaks(Teacher))
    || (Ranks(p, Student) && speaks(Student))
    || (p.classRole == Owner && speaks(ClassOwner))
    || (p.classRole == TeacherMember && speaks(ClassTeacher))
    || (p.classRole == StudentMember && speaks(ClassStudent))
    || (HasOrgRole(p, res, OrgAdmin) && speaks(OrgAdmin))
    || (HasOrgRole(p, res, OrgTeacher) && speaks(OrgTeacher))
    || (HasOrgRole(p, res, OrgStudent) && speaks(OrgStudent))
  }

  lemma VoicedBySome(p: Principal, res: Resource, speaks: Role -> bool)
    requires Decisions.WellPlaced(p) && PlatformAdmin !in EffectiveRoles(p, res)
    requires forall r: Role :: r.Class() && speaks(r) ==> p.classId == res.classId
    ensures Some(p, res, speaks) <==> Voiced(p, res, speaks)
  {
    RolesInPlace(p, res);
  }

  ghost predicate AsVoiced(p: Principal, activity: Activity, res: Resource) {
    Entitled(p, activity, res) <==>
    Voiced(p, res, Allowing(p, activity, res)) && !Voiced(p, res, Denying(p, activity, res))
  }

  lemma PlatformVoiced(p: Principal, activity: Activity, res: Resource)
    requires activity in {OwnSets, Pricing, Everyday, Supporting}
    ensures AsVoiced(p, activity, res)
  {
    match activity
    case OwnSets =>
    case Pricing =>
    case Everyday =>
    case Supporting =>
  }

  lemma OrgVoiced(p: Principal, activity: Activity, res: Resource)
    requires activity in {OrgViewing, OrgManaging, Reserved}
    ensures AsVoiced(p, activity, res)
  {
    match activity
    case OrgViewing =>
    case OrgManaging =>
    case Reserved =>
  }

  lemma HostingVoiced(p: Principal, activity: Activity, res: Resource)
    requires activity in {Founding, Hosting}
    ensures AsVoiced(p, activity, res)
  {
    match activity
    case Founding =>
    case Hosting =>
  }

  lemma PlayingVoiced(p: Principal, res: Resource)
    ensures AsVoiced(p, Playing, res)
  {
  }

  lemma ReadingVoiced(p: Principal, activity: Activity, res: Resource)
    requires activity in {Reading, Watching}
    ensures AsVoiced(p, activity, res)
  {
    match activity
    case Reading =>
    case Watching =>
  }

  lemma TeachingVoiced(p: Principal, activity: Activity, res: Resource)
    requires activity in {Teaching, Updating}
    ensures AsVoiced(p, activity, res)
  {
    match activity
    case Teaching =>
    case Updating =>
  }

  lemma EndingVoiced(p: Principal, res: Resource)
    ensures AsVoiced(p, Ending, res)
  {
  }

  lemma ProgressVoiced(p: Principal, res: Resource)
    ensures AsVoiced(p, Progress, res)
  {
  }

  lemma EntitledIsVoiced(p: Principal, activity: Activity, res: Resource)
    ensures AsVoiced(p, activity, res)
  {
    match activity
    case OwnSets | Pricing | Everyday | Supporting => PlatformVoiced(p, activity, res);
    case OrgViewing | OrgManaging | Reserved => OrgVoiced(p, activity, res);
    case Founding | Hosting => HostingVoiced(p, activity, res);
    case Playing => PlayingVoiced(p, res);
    case Reading | Watching => ReadingVoiced(p, activity, res);
    case Teaching | Updating => TeachingVoiced(p, activity, res);
    case Ending => EndingVoiced(p, res);
    case Progress => ProgressVoiced(p, res);
  }

  /**
   The decision for every action, known or unknown, and every principal whose roles are in their places: an
   administrator may do everything, and everybody else what the table says.
   */
  lemma AccessDecided(p: Principal, action: Action, res: Resource)
    requires Decisions.WellPlaced(p)
    ensures MayDo(p, action, res) <==> Ranks(p, PlatformAdmin) || Entitled(p, ActivityOf(action), res)
  {
    var activity := ActivityOf(action);
    assert PlatformAdmin in ResolvedPlatformRoles(p) <==> Ranks(p, PlatformAdmin);
    if Ranks(p, PlatformAdmin) {
      ManagedDecisions.AdminDecides(p, action, res);
    } else {
      ManagedDescribed(ManagedPolicies(), p, action, res);
      Decisions.AdminRoleIsPlatforms(p, res);
      RolesDecide(ManagedPolicies(), p, action, res);
      VoicedBySome(p, res, Allowing(p, activity, res));
      VoicedBySome(p, res, Denying(p, activity, res));
      EntitledIsVoiced(p, activity, res);
    }
  }
}
