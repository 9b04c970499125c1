# hQuizlet: verified model of budgets, grants, quizzes, videos, sessions and backups

A Dafny model of the parts of hQuizlet whose behaviour is hardest to see from any single function, with proofs of what
holds over every input, every run and every interleaving. `dafny verify dfyconfig.toml` checks all of it.

- **Request budgets.** `TokenBucket`, `RateLimiter`: the gateway's lazily refilled token bucket and the bounded map
  that holds it. `FailureWindow`: the fixed-window counter of wrong join codes. `LoginGuard`: the doubling login
  locks, and `LoginLadder` what those who log in see of them. Each map is a class whose methods are tied to a function
  of the old map; the theorems are about whole runs of timed calls.
- **Identity and access.** `Authz` has the policy table and the deny-overrides evaluator. `PolicyShape` collects what
  the table looks like, `Decisions` proves what every table of that shape guarantees, and `ManagedDecisions` states it
  of the table at hand; `AccessTable` tells the decision for every action without the policies, and `MisplacedRoles`
  which platform lists let grants combine. `ResourceNames` justifies comparing kinds instead of resource-name texts.
  `Grants` and `GrantStore` are the grant table and the service operations on it; `GrantEffects` is what each
  operation does to who holds what, at every later time, and `GrantTheorems` joins both: what a reachable grant table
  guarantees about decisions. `OrgRoles` and `Decimal` are the headers that carry roles between services, and
  `RoleHeaders` what they carry.
- **Quiz engine.** `Xorshift`, `FisherYates`, `Questions`: one generator threaded through an in-place shuffle and
  through every question of a quiz. `GoldenVectors` proves the outputs that the engine's own tests pin.
- **Class videos.** `VideoPipeline` is the state machine of uploads, conversion workers and clean-up workers with a
  stop possible after every step. `VideoService` has the operations themselves, each proved to take only those steps.
  `BoundedReader` is the reader that stops an upload at the size limit.
- **Sessions.** `Sessions`: issue, refresh, revoke, disable, prune, with token verification as the observation.
- **Backup jobs.** `SnapshotHistory` and `NeonBackup`: the Neon snapshots and their retention, where each command may
  fail or be the worker's last, with or without effect. `BackupQuota`: the storage reservation. `EnvMerge`,
  `EnvForms`: installing backup settings into an environment file, and which payloads are accepted.

`Chains` (runs of a step relation), `Strings`, `Sets` and `Options` are shared.

What the proofs found about the code:

- Eviction after ten idle minutes is unobservable exactly for the rules that refill within ten minutes; the hourly
  registration rule is not one of them (`TokenBucket.EvictionInvisibleExactlyWhen`, `RegistrationIsForgottenEarly`).
- The comment on the last eviction pass speaks of the least recently seen keys; the code removes arbitrary ones
  (`services/gateway/ratelimit.go:108-131`). It is sure to take the least recently seen ones only when it takes every
  key or all were seen at the same time (`RateLimiter.LeastRecentlySeenExactlyWhen`, `LaterKeyGoesFirst`).
- The failure window lets through up to 2·limit − 1 failures within less than one window, and no fewer
  (`FailureWindow.FailuresPerWindowIsTight`).
- The 64-bit product of a login lock is in range up to 28 doublings for an (account, address) key and up to 24 for an
  account. Beyond that the lock is right for some counts only, which are listed (`LoginGuard.AddressLockIsRightWhen`,
  `AccountLockIsRightWhen`). Attempts that do not overlap never come near (`FailuresBounded`). Overlapping ones can,
  but no key opens within its window (`LockedUntilWindowEnds`); what they can lose is a lock that should outlast the
  window (`LastLockIsLost`).
- No policy names reading or updating oneself, viewing quiz answers or results and eight administrative actions, so
  only administrators are allowed them; every other known action is open to somebody else
  (`ManagedDecisions.OutOfReachExactly`).
- "One grant alone decides" holds for exactly those platform lists that hold no organization role, or whose holder is
  a platform administrator anyway (`MisplacedRoles.NothingByCombinationExactlyWhen`). Reachable grant tables keep such
  roles out if the table before the migration did. The header parser does not tell roles apart: an administrator's
  role listed in an organization counts for everything that belongs to it (`ManagedDecisions.MisplacedAdministrator`).
- A resource type that goes on after a slash from a policy's type is covered by that policy, too
  (`ResourceNames.TextMatchesExactly`).
- An upload whose INSERT took effect although it was reported as failed takes the object away from under the new row.
  A row's object is in the store exactly if the video is published or its upload has not taken the object back; a row
  that has lost it can only be marked failed (`VideoPipeline.VideosKeepTheirObjects`, `AnswerLost`,
  `WithoutObjectForGood`).
- A refresh ignores whether the old session could be revoked: the old token stays valid exactly when it could not.
  When the new session cannot be stored the old one is spent all the same (`Sessions.RefreshHandsOver`).
- Disabling an account by its flag alone would bring back, when it is enabled again, every session that has not
  expired meanwhile; the audited statement, which also revokes them, brings back none (`Sessions.FlagAloneForgets`,
  `RejectedForever`).
- A Neon worker that stops between a retention DROP and the next write of its state file never records another
  snapshot while `keep` stays as it is. An attempt without faults succeeds exactly when that has not happened and the
  settings and the state file are acceptable (`SnapshotHistory.JammedForGood`, `JamIsReachable`,
  `NeonBackup.Worker.BackupOnce`).
- The organization service's `itoa` prints only a sign for the smallest 64-bit number (`Decimal.Itoa`).

Assumptions of the model: each request of the login guard and the join-code guard comes in the order of its clock
reading, and so do the calls of one key in `TokenBucket` and those of `RateLimiter.AnswersAsUnbounded`; the other
theorems on runs of the limiter take the readings in any order, as the limiter reads the clock just before its lock. The
role table before the first migration refers to known users and used ids; what is said of decisions of reachable states
and of the role header also takes its roles to sit at the scopes they are meant for. New tokens, snapshot names and
object bases are distinct from earlier ones; only the modelled code changes the modelled tables, files and databases,
except where a step says otherwise.

## Model

| member | source | states |
|---|---|---|
| TokenBucket.LevelIsLeastHeadroom | services/gateway/ratelimit.go:91-100 | A bucket that is capped, refilled and charged call by call holds the least headroom over all stretches that end now. |
| TokenBucket.StoredBucketIsLevel | services/gateway/ratelimit.go:86-100 | The bucket stored by lazy refill, topped up when next asked, equals the continuously refilled bucket, and refused calls cost nothing. |
| TokenBucket.AllowedExactlyWhenAffordable | services/gateway/ratelimit.go:86-105 | A call is allowed if and only if, for every earlier start of a stretch, capacity plus refill covers the calls allowed in it and one more. |
| TokenBucket.StretchWithinBudget | services/gateway/ratelimit.go:36-51 | In any stretch of a key's calls, at most burst + rate × duration are allowed. |
| TokenBucket.BurstOfNewCaller | services/gateway/ratelimit.go:36-44 | Of the calls that a new caller makes at one instant exactly the first `burst` are allowed, or the first `limit` if the rule names no burst. |
| TokenBucket.EmptyBucketRefills | services/gateway/ratelimit.go:46-51 | With nothing left the next call is allowed once `limit` tokens in a window have earned one: after e seconds if and only if e · limit ≥ window. |
| TokenBucket.FullBucketStaysFull | services/gateway/ratelimit.go:91-94 | What is earned while the bucket is full is lost. |
| TokenBucket.WaitIsRight | services/gateway/ratelimit.go:97-105 | A refused caller who waits as long as told is allowed next, and no earlier unless told the least wait of a second. |
| TokenBucket.EvictionInvisibleExactlyWhen | services/gateway/ratelimit.go:110-122 | Dropping a bucket idle beyond ten minutes changes no later answer if and only if the rule's full refill takes at most ten minutes. |
| TokenBucket.RegistrationIsForgottenEarly | services/gateway/ratelimit.go:220-221 | The login rule and the broad address rule meet that condition; five registrations an hour do not. |
| TokenBucket.RulesInNumbers | services/gateway/ratelimit.go:218-227 | Ten logins at once and one every six seconds, five registrations and one every twelve minutes, 120 requests and fifteen a second. |
| RateLimiter.MemoryLimiter.Allow | services/gateway/ratelimit.go:78-106 | Inactive rules allow without touching the map; otherwise eviction happens only for a new key, and exactly the asked bucket becomes the refilled, charged one. |
| RateLimiter.MemoryLimiter.EvictLocked | services/gateway/ratelimit.go:110-132 | Below the ceiling nothing goes; else idle buckets go; if that is not enough a tenth of the ceiling, or one, goes. Afterwards there is room for a new key. |
| RateLimiter.EvictionTakes | services/gateway/ratelimit.go:110-132 | In numbers: at the ceiling exactly the buckets not asked for in 600 seconds go, and if that makes no room a tenth of the ceiling, rounded down, or one. |
| RateLimiter.Check | services/gateway/ratelimit.go:339-357 | Switched off it allows and changes nothing; else it asks the limiter under the rule's own key, and in shadow mode reports "allowed" whatever the answer. |
| RateLimiter.LeastRecentlySeenExactlyWhen | services/gateway/ratelimit.go:108-131 | When the last pass has to run, every outcome takes only the least recently seen keys if and only if it takes all keys or all were seen at the same time. |
| RateLimiter.LaterKeyGoesFirst | services/gateway/ratelimit.go:123-131 | With room for two keys, the one seen first may stay and the later one go. |
| RateLimiter.PrefixedKeysMeetOneRule | services/gateway/ratelimit.go:343-345 | In a run of calls made with the rule's name in front of the key, each key meets one rule, as the budget theorem asks. |
| RateLimiter.BucketKeyNamesOneRule | services/gateway/ratelimit.go:343-345 | Keys prefixed with bar-free rule names never meet in one bucket, so a bucket sees one rule only. |
| RateLimiter.MapNeverOutgrows | services/gateway/ratelimit.go:110-132 | In every run of calls the map stays within its ceiling. |
| RateLimiter.StoredBucketsSound | services/gateway/ratelimit.go:86-100 | In every run, whatever the order of the clock readings, a stored bucket was seen by its key's own last call, never later than its refill, and holds between nothing and a full load. |
| RateLimiter.KeyWithinBudget | services/gateway/ratelimit.go:78-132 | In any run of the whole map, a key that is not evicted in a stretch gets at most burst + rate × duration calls allowed in it, for any interval that holds its clock readings in whatever order, and whatever happens to the other keys. |
| RateLimiter.KeyWithinRule | services/gateway/ratelimit.go:36-51 | The same bound in the rule's own numbers: so many calls at once, and `limit` more in each window. |
| RateLimiter.GrantedToCounts | services/gateway/ratelimit.go:97-100 | What these bounds limit is the number of the key's allowed calls in the stretch. |
| RateLimiter.AnswersAsUnbounded | services/gateway/ratelimit.go:86-122 | In every run in which dropping idle keys makes room, each call under a rule that refills within the idle time is answered as by a limiter that never evicts, whatever rules the other keys meet. |
| FailureWindow.FailureTracker.Blocked | services/gateway/ratelimit.go:163-182 | A key is blocked exactly while its unexpired window holds the limit, for the rest of the window and at least a second; no limit or window means never. |
| FailureWindow.FailureTracker.RecordFailure | services/gateway/ratelimit.go:185-208 | The new map: an entry counted up or started over, expired entries swept only to make room for a new key, and a new key dropped when the map stays full. |
| FailureWindow.CountStaysWithinLimit | services/gateway/ratelimit.go:163-208 | If each failure follows its own "not blocked" with no other record of the key in between, a tracked key never counts past the limit. |
| FailureWindow.OneMoreFailure | services/gateway/ratelimit.go:185-208 | A failure counts as one more in the running window or as the first of a new one; it is off the record only if its key is new in a full map of running windows, and the map never outgrows its ceiling. |
| FailureWindow.FailureSparesOthers | services/gateway/ratelimit.go:185-208 | No other key ever gets another answer for it, whatever is swept. |
| FailureWindow.BlockedWhileWindowLasts | services/gateway/ratelimit.go:163-182 | A key is blocked if and only if its running window holds the limit, for what is left of it and at least a second. |
| FailureWindow.FailuresPerWindow | services/gateway/ratelimit.go:163-208 | Then any interval shorter than the window holds at most 2·limit − 1 recorded failures of a key. |
| FailureWindow.FailuresPerWindowIsTight | services/gateway/ratelimit.go:163-208 | For every limit and window of two or more time units a run reaches that bound. |
| LoginGuard.Guard.Blocked | services/auth/internal/http/login_guard.go:57-77 | The first locked key, account with address before account, decides the wait, which is at least a second; an e-mail that is empty once normalized is never blocked. |
| LoginGuard.Guard.RecordFailure | services/auth/internal/http/login_guard.go:80-91 | Dead entries are pruned if the map is large, then the two keys of the attempt are counted up with their own limits and lock bases. |
| LoginGuard.Guard.RecordLocked | services/auth/internal/http/login_guard.go:105-123 | Exactly one entry changes: counted up or started over, and from the limit on locked until the later of the old and the new end, in wrapping 64-bit nanoseconds. |
| LoginGuard.Guard.RecordSuccess | services/auth/internal/http/login_guard.go:94-103 | Both keys of the account go, and no other. |
| LoginGuard.Guard.Prune | services/auth/internal/http/login_guard.go:127-136 | In a large map exactly the entries go whose window is over and whose lock has run out. |
| LoginGuard.AddressLockIsRightWhen | services/auth/internal/http/login_guard.go:111-116 | For every count of failures past the limit: the product of 30 seconds is in range if and only if there are at most 28, and the lock is the true, capped doubling if and only if the count is one of those or of ten larger ones. |
| LoginGuard.AccountLockIsRightWhen | services/auth/internal/http/login_guard.go:111-116 | The same for five minutes: in range up to 24, right for those and thirteen larger counts. |
| LoginGuard.LockedUntilWindowEnds | services/auth/internal/http/login_guard.go:105-123 | In every timed run, overlapping attempts included, a key with five failures beyond its limit (an account with two) is locked until its window is over. |
| LoginGuard.ManyAtOnce | services/auth/internal/http/login_guard.go:80-123 | Overlapping attempts reach any count within one window. |
| LoginGuard.LastLockIsLost | services/auth/internal/http/login_guard.go:111-121 | A run of 51 overlapping attempts whose last lock should end at minute 16 and for which nothing is locked at minute 15. |
| LoginGuard.PruningIsUnobservable | services/auth/internal/http/login_guard.go:125-136 | For every timed run of questions, failures and successes a guard that prunes answers as one that never does. |
| LoginGuard.BumpKeepsPace | services/auth/internal/http/login_guard.go:105-123 | Because each lock must run out before the next failure, the locks so far bound the number of failures in one window. |
| LoginGuard.NextKeepsInv | services/auth/internal/http/handler.go:337-365 | Asking, failing, succeeding and passing time keep every entry paced when attempts on one account do not overlap. |
| LoginGuard.FailuresBounded | services/auth/internal/http/login_guard.go:105-123 | In every such run an (account, address) entry stays at 9 failures or fewer and an account entry at 21 or fewer, and every lock up to there is the plain doubling: no overflow, no cap. |
| LoginLadder.FailureLocks | services/auth/internal/http/login_guard.go:80-123 | After a failed attempt the address waits from its fifth failure on, 30 seconds doubling, and the account from its twentieth on, five minutes doubling, both up to 15 minutes; before that nobody waits. |
| LoginLadder.FailureSparesOthers | services/auth/internal/http/login_guard.go:80-123 | Other accounts never wait for it, nor other addresses of the account below its limit. |
| LoginLadder.SuccessForgets | services/auth/internal/http/login_guard.go:94-103 | A success leaves nothing on record for the account and this address, and everything else as it was. |
| LoginLadder.WaitIsRight | services/auth/internal/http/login_guard.go:57-77 | The lock that has been met is over after the wait that is answered and, unless that is the least one of a second, not before. |
| LoginLadder.NobodyIsLocked | services/auth/internal/http/login_guard.go:57-103 | Nothing is ever counted or held against an empty name. |
| LoginLadder.PrunedKeys | services/auth/internal/http/login_guard.go:127-136 | From ten thousand keys on exactly those go whose window is over and that are not locked; below that none. |
| Authz.Can | packages/authz/evaluator.go:7-38 | The nested loops answer "some effective role's policy allows and none denies" under the managed table; `AccessTable.AccessDecided` says what that comes to. |
| Authz.EffectiveActions | packages/authz/evaluator.go:88-112 | Exactly the known actions that would be allowed are listed, in their fixed order. |
| Authz.KnownActionsAreListed | packages/authz/evaluator.go:89-105 | No known action is left out of that list. |
| AccessTable.AccessDecided | packages/authz/evaluator.go:7-85 | For every action, resource and principal with roles in their places: an administrator may do everything, anybody else exactly what a table over ownership, class membership, organization roles and platform roles says, denials included. |
| PolicyShape.ManagedPoliciesShape | packages/authz/roles.go:55-194 | The table has the shape the theorems need: denials spare administrators, grants look only at ownership and their own scope, grants and denials of one policy never meet. |
| ManagedDecisions.AdminDecides | packages/authz/evaluator.go:7-38 | A principal that resolves to a platform administrator may do everything, whatever else it holds. |
| ManagedDecisions.AdministrationDecided | packages/authz/roles.go:55-194 | The actions no policy names, unknown ones included, are allowed if and only if the administrator's role is among the effective ones, for every principal; with roles in their places, if and only if the principal resolves to a platform administrator. |
| ManagedDecisions.MisplacedAdministrator | packages/authz/principal.go:79-107 | An administrator's role listed in one organization opens the administration of everything that belongs to it. |
| ManagedDecisions.OutOfReachExactly | packages/authz/roles.go:55-194 | An action is out of reach for every other well-placed principal if and only if it is one of these. |
| ManagedDecisions.OneGrantDecides | packages/authz/principal.go:86-107 | Without organization roles in the platform list, whatever is allowed is already allowed to one platform role, class role or organization role alone. |
| ManagedDecisions.MisplacedRolesCombine | packages/authz/evaluator.go:7-85 | With an organization role in the platform list, two grants that allow nothing alone allow a class update together. |
| MisplacedRoles.NothingByCombinationExactlyWhen | packages/authz/principal.go:79-107 | For every legacy role and platform list: one grant alone decides every request of every principal that has them if and only if the list holds no organization role, or it or the legacy role makes an administrator. |
| ManagedDecisions.ClassRoleDecides | packages/authz/evaluator.go:40-85 | A class role changes no decision unless the principal's class is the resource's and is a real one. |
| ManagedDecisions.OrgRolesDecide | packages/authz/principal.go:79-107 | Roles held in one organization change no decision about another's resources. |
| ManagedDecisions.StudySetDecided | packages/authz/roles.go:56-110 | Short of an administrator, the own-study-set actions on a study set are allowed exactly to its owner, who must be a teacher or a student. |
| Decisions.NoPrivilegeByCombination | packages/authz/evaluator.go:7-38 | The same as "one grant decides", for every table of the managed shape. |
| ResourceNames.MatchResource | packages/authz/resource.go:27-45 | The pattern loop finds a match exactly when some pattern's text covers the resource's name. |
| ResourceNames.TextMatchesExactly | packages/authz/resource.go:17-45 | For the typed patterns of the table and every resource type, the texts match if and only if the type is the pattern's or goes on from it after a slash. |
| ResourceNames.TextMatchesKind | packages/authz/resource.go:17-45 | For the patterns of the table and the types the program has, matching the texts is comparing the kinds, whatever the ids. |
| ResourceNames.NamesOfResources | packages/authz/resource.go:17-25 | Names of study sets, classes and organizations as the services write them. |
| ResourceNames.NamesOfKinds | packages/authz/resource.go:17-25 | Without an id a name stands for all of its kind, without a kind for everything. |
| OrgRoles.ParseOrgRoles | packages/authz/principal.go:40-71 | The loop computes the parsed header: blank entries, entries without a colon inside and ids that are no positive 64-bit number are skipped, repeats dropped. |
| OrgRoles.EntryForms | packages/authz/principal.go:46-66 | Exactly these entries are understood: a positive 64-bit number, the first colon and a role, both trimmed. |
| OrgRoles.UnderstoodAreGrouped | packages/authz/principal.go:40-71 | Of any header the understood entries are kept, grouped by organization in first-occurrence order, and nothing else. |
| OrgRoles.FirstOccurrencesAre | packages/authz/principal.go:40-71 | What "first-occurrence order without repeats" means: the same items, none twice, by first place. |
| OrgRoles.HeaderRoundTrip | packages/authz/principal.go:40-76 | Parsing the joined entries of positive organizations with trimmed, comma-free roles gives exactly those organizations, each with its roles in first-occurrence order. |
| OrgRoles.ParsePlatformRoles | packages/authz/principal.go:21-37 | The loop computes the trimmed, non-blank parts of the header in order. |
| OrgRoles.RolesRoundTrip | packages/authz/principal.go:21-37 | Parsing the joined list of trimmed, comma-free roles gives back exactly the list. |
| OrgRoles.ParsingSettles | packages/authz/principal.go:21-37 | For any header, joining and parsing what was parsed changes nothing. |
| Strings.Stripped | packages/authz/principal.go:41-47 | Trimming takes white space from both ends, and all that is there. |
| OrgRoles.NonBlankParts | packages/authz/principal.go:21-37 | The roles are the trimmed parts that are not blank. |
| OrgRoles.FormattedEntry | packages/authz/principal.go:73-76 | One formatted entry is trimmed, holds no comma and parses back to itself. |
| Decimal.ParseFormatted | packages/authz/principal.go:73-76 | A printed non-negative 64-bit id reads back as itself. |
| Decimal.NumberForms | packages/authz/principal.go:54-57 | Exactly the digit texts in the 64-bit range, with a sign or without, are numbers. |
| Decimal.DigitsCount | packages/authz/principal.go:54-57 | One more digit makes a number ten times as large and adds what the digit stands for. |
| Decimal.Itoa | services/auth/internal/service/organizations.go:177-197 | The backwards digit loop prints the decimal form if and only if the number is not the smallest 64-bit one, of which it prints the sign only. |
| GrantStore.Store.ListPlatformRoleKeys | services/auth/internal/repository/iam.go:25-45 | The row loop lists exactly the roles of the user's unexpired platform rows. |
| GrantStore.Store.ListOrgRoleEntries | services/auth/internal/repository/iam.go:49-71 | The row loop lists exactly the entries of the user's unexpired organization rows. |
| RoleHeaders.HeaderRolesAreCurrentRows | packages/authz/principal.go:40-76 | In every state reachable from a table with roles at their scopes, listing, formatting, joining and parsing gives a service exactly the roles of the user's current organization rows. |
| RoleHeaders.RoleTexts | packages/authz/roles.go:5-21 | The texts of the platform and organization roles. |
| GrantStore.Store.LoadPlatformRoles | services/auth/internal/service/permissions.go:73-98 | Current rows win; the legacy role is consulted only for users without any platform row, expired ones included. |
| GrantStore.Store.CreateAssignmentAudited | services/auth/internal/repository/iam_mutations.go:32-57 | An unknown user is refused without a trace; else one row for that role and scope exists, with the given expiry whether new or renewed, and all others stay. |
| GrantStore.Store.DeleteAssignmentAudited | services/auth/internal/repository/iam_mutations.go:59-83 | An unknown id is refused without a trace; else the row goes, and with the user's last current administrator row the legacy flag. |
| GrantStore.Store.AssignRole | services/auth/internal/service/iam.go:138-188 | Refusals in the source's order, authority first, then the fields, then the user; otherwise the one row is stored. |
| GrantStore.Store.ValidateOrgScopeAssignment | services/auth/internal/service/organizations.go:96-130 | Accepted exactly when organization roles and organization scope come together for an existing organization, with the field at fault otherwise. |
| GrantStore.Store.RevokeRole | services/auth/internal/service/iam.go:191-212 | Authority first, then the row must exist; otherwise it is deleted. |
| GrantStore.Store.Register | services/auth/internal/service/service.go:57-85 | A new account and, unless interrupted between the two statements, its first role. |
| GrantStore.Store.Migrate | services/auth/internal/migration/migration.go:104-131 | Administrators without an administrator row and then others without any platform row get one, then only the best row of each grant is left. |
| GrantEffects.AssignmentTakesEffect | services/auth/internal/service/iam.go:138-188 | An assignment succeeds if and only if an administrator makes it for an existing user and a role and scope that belong together; then the user holds that role there at once and for good, nobody else's roles change, and a refused one changes nothing. |
| GrantEffects.RefusalNamesItsCause | services/auth/internal/service/iam.go:138-168 | Who asks is looked at first, then the request, then the user: a refusal names the first of these that is wrong. |
| GrantEffects.FaultNamesItsField | services/auth/internal/service/iam.go:138-168 | A faulty request names a field if and only if that is the first field at fault: user, role, kind of scope or organization. |
| GrantEffects.GrantTakesEffect | services/auth/internal/repository/iam_mutations.go:32-57 | A grant, new or renewed, is held until exactly the expiry given, and every other one as long as before. |
| GrantEffects.RevocationTakesOneGrant | services/auth/internal/repository/iam_mutations.go:59-83 | A revocation takes exactly the role of its row from its user, and an administrator's legacy flag. |
| GrantEffects.RevocationTakesEffectWhen | services/auth/internal/service/iam.go:191-212 | A revocation succeeds if and only if an administrator asks for it and the row exists; it takes that grant away and no other, and a refused one changes nothing and says why. |
| GrantEffects.OrganizationsComeFromAdmins | services/auth/internal/service/organizations.go:54-94 | An organization appears if and only if an administrator creates it, and nothing else changes. |
| GrantEffects.RegistrationTakesEffect | services/auth/internal/service/service.go:57-85 | A new user resolves to a teacher or a student as registered, to a student if interrupted, and nobody else's roles change. |
| GrantEffects.LegacyRoleSpeaks | services/auth/internal/service/permissions.go:73-98 | In any table, a user without a current platform row resolves to an administrator if and only if the legacy role says so and there is no platform row at all, and otherwise to a student alone. |
| GrantEffects.MigrationTakesEffect | services/auth/internal/migration/migration.go:104-131 | After the migration a user has a row for a role if and only if there was one or the backfill is for it, and backfilled roles do not expire. |
| GrantEffects.ReachableAccess | packages/authz/evaluator.go:7-85 | In every state reachable from a table with roles at their scopes, what any identity may do is decided by that table of decisions, an unexpired administrator grant apart. |
| GrantEffects.CleanupKeepsTheBest | services/auth/internal/migration/migration.go:131 | Of duplicate rows one is left: without expiry if there is such a one, then the one made last, then the one with the highest id. |
| GrantTheorems.MigrationEstablishesInv | services/auth/internal/migration/migration.go:104-131 | One migration over any table of known users and used ids makes grants unique and gives every legacy administrator a row. |
| GrantTheorems.RepeatedMigrationAddsStudentsOnly | services/auth/internal/migration/migration.go:104-131 | From then on re-running it keeps every row as it is and adds only Student rows, to users without any platform row. |
| GrantTheorems.AcceptedAssignmentFits | services/auth/internal/service/iam.go:138-188 | An accepted assignment is an organization role of an existing organization, or one of the four platform roles on the platform. |
| GrantTheorems.NextKeepsInv | services/auth/internal/repository/iam_mutations.go:32-83 | Register, assign, revoke, new organizations, passing time and migration re-runs keep the table's invariant. |
| GrantTheorems.MigrationKeepsFitting | services/auth/internal/migration/migration.go:104-131 | After the migration all roles sit at the scopes they are meant for if and only if they did before. |
| GrantTheorems.NextKeepsFitting | services/auth/internal/service/iam.go:138-188 | Once they do, every step keeps them there. |
| GrantTheorems.RolesAreCurrentGrants | services/auth/internal/service/permissions.go:63-98 | Under the invariant the resolved platform roles are exactly the user's unexpired platform grants, or Student when there is none. |
| GrantTheorems.AdminExactlyWhileGranted | services/auth/internal/service/permissions.go:73-98 | In every reachable state a user resolves to an administrator if and only if an unexpired administrator grant exists: neither expiry nor revocation revives the legacy role. |
| GrantTheorems.ReachableDecisionsNeedOneGrant | packages/authz/evaluator.go:7-38 | In every state reachable from a table with roles at their scopes, whatever a user may do, one of its grants alone allows. |
| GrantTheorems.ReachableStudySetDecision | packages/authz/roles.go:56-110 | In every state reachable from a table with roles at their scopes, a non-administrator works on exactly its own study sets, as a current teacher or student or as a user without platform grants. |
| GrantTheorems.AdminsComeFromAdmins | services/auth/internal/service/iam.go:138-188 | One step makes a user an administrator only by an assignment from someone who is one. |
| GrantTheorems.NoAdminFromNothing | services/auth/internal/service/iam.go:67-75 | Once nobody is an administrator, nobody ever will be again, in any run. |
| GrantTheorems.RevocationTakesEffect | services/auth/internal/repository/iam_mutations.go:59-83 | Deleting an administrator row ends the user's administration at once and clears the legacy flag. |
| Xorshift.ScrambleNeverZero | crates/quiz-core/src/lib.rs:77-84 | The three shifts never lead from a live state into the dead state 0. |
| Xorshift.ScrambleInjective | crates/quiz-core/src/lib.rs:77-84 | Two states never lead to the same one. |
| Xorshift.StatesRecur | crates/quiz-core/src/lib.rs:77-84 | From every state the generator comes back to it within 2^64 steps: its states form cycles. |
| Xorshift.StateNeverZero | crates/quiz-core/src/lib.rs:69-84 | Whatever the seed, the generator never gets stuck. |
| Xorshift.SeedsCount | crates/quiz-core/src/lib.rs:69-84 | After any number of draws two seeds are in the same state if and only if they are the same seed, or 0 and 1. |
| Xorshift.IndexIsRemainder | crates/quiz-core/src/lib.rs:87-89 | The index is what is left of the number drawn after taking away a multiple of n. |
| FisherYates.ShuffledPermutes | crates/quiz-core/src/lib.rs:101-113 | Whatever the index choices, the result is a permutation of the input. |
| FisherYates.ShuffledInjective | crates/quiz-core/src/lib.rs:108-111 | On distinct items different index choices give different results. |
| FisherYates.ShuffledSurjective | crates/quiz-core/src/lib.rs:108-111 | Every permutation is the result of some index choices. |
| FisherYates.ChoicesMatchPermutations | crates/quiz-core/src/lib.rs:108-111 | On distinct items index choices and permutations correspond one to one. |
| FisherYates.ShuffleCommutesWithMap | crates/quiz-core/src/lib.rs:101-113 | Shuffling labels is labelling the shuffled items, so the order depends on seed and length only. |
| FisherYates.LastItemIsDrawn | crates/quiz-core/src/lib.rs:108-111 | The first number drawn, modulo the length, chooses the item in the last place. |
| FisherYates.ShuffleInPlace | crates/quiz-core/src/lib.rs:108-111 | The in-place swaps realise the shuffle of the generator's choices and consume one number for each position but the first. |
| FisherYates.SeededShuffle | crates/quiz-core/src/lib.rs:101-113 | The result is the shuffle by the effective seed, a permutation of the items. |
| GoldenVectors.SeedOneOrder | crates/quiz-core/src/lib.rs:299-304 | The pinned order of eight items for seed 1. |
| GoldenVectors.Seed42Order | crates/quiz-core/src/lib.rs:307-312 | The pinned order of eight items for seed 42. |
| Questions.GenerateQuestions | crates/quiz-core/src/lib.rs:154-217 | Fewer than two cards give no quiz; otherwise the deck is shuffled by one seed and the questions are drawn one after another from a second generator. |
| Questions.QuizSize | crates/quiz-core/src/lib.rs:154-157 | Fewer than two cards make no quiz; otherwise there are as many questions as cards. |
| Questions.QuestionsTakeTurns | crates/quiz-core/src/lib.rs:154-217 | Over distinct ids question k is drawn from the second generator after k · (n − 2 + min(4, n) − 1) numbers: the questions take turns. |
| GoldenVectors.FirstOfQuiz | crates/quiz-core/src/lib.rs:466-479 | The quiz over four cards for seed 1 begins with card 1, as pinned, and with these four choices. |
| Questions.QuizCoversDeck | crates/quiz-core/src/lib.rs:154-217 | A quiz asks about every card exactly as often as it is in the deck. |
| Questions.ChoicesOfQuestion | crates/quiz-core/src/lib.rs:173-205 | The choices are the card's definition and definitions of other cards, no card used twice. |
| Questions.CorrectIndexIsRight | crates/quiz-core/src/lib.rs:196-213 | The index lies within the choices and points at the first place of the card's definition. |
| Questions.OneRightChoice | crates/quiz-core/src/lib.rs:196-213 | When definitions are distinct no other choice is right. |
| Questions.QuestionsAreFair | crates/quiz-core/src/lib.rs:154-217 | In a quiz over distinct ids every question has min(4, n) choices, the right one and others' definitions, with the index at the right one. |
| BoundedReader.Bounded.ReadInto | services/class/internal/http/private_videos.go:176-192 | One call passes on what the source gives while it lasts, and read plus remaining stays the limit; the byte after the limit is an error. |
| BoundedReader.OneByteBeyond | services/class/internal/http/private_videos.go:176-192 | Never more than one byte beyond the limit is read, and exactly then the upload is too large. |
| BoundedReader.RequestIsRight | services/class/internal/http/private_videos.go:176-192 | A byte is asked of the source wherever there is room for one, never more than fits, and exactly one at the limit. |
| BoundedReader.ReceivedIsPrefix | services/class/internal/http/private_videos.go:171-192 | Over every sequence of reads what has been passed on is a prefix of the source with nothing skipped. |
| BoundedReader.UploadEnds | services/class/internal/http/private_videos.go:171-192 | An end of file means the whole source was passed on and fits; the size error means exactly the limit was passed on and the source is longer. |
| BoundedReader.EndingIsDecidedBySize | services/class/internal/http/private_videos.go:171-192 | Which of the two it is depends on the size alone, however the source cuts its answers. |
| BoundedReader.Drain | services/class/internal/http/private_videos.go:112-125 | The storing side's loop receives exactly that. |
| VideoPipeline.NextKeepsInv | services/class/internal/http/video_processing.go:43-89 | Every step of every process, lost locks, late writes and inserts reported as failed included, keeps rows, objects and queue consistent. |
| VideoPipeline.VideosKeepTheirObjects | services/class/internal/http/video_processing.go:77-89 | In every run a row's object is in the store if and only if the video is published or its upload has not taken the object back, which it does only after an insert reported as failed. |
| VideoPipeline.WithoutObjectForGood | services/class/internal/http/video_processing.go:59-77 | In every run a row without its object, not being converted, stays without it and unpublished: at most it is marked failed. |
| VideoPipeline.AnswerLost | services/class/internal/http/private_videos.go:119-165 | Such rows come about: a run in which the insert takes effect, its answer is lost and the object is taken back. |
| VideoPipeline.NothingInUseIsCondemned | services/class/internal/http/video_cleanup.go:26-62 | In every run no key that a row uses is queued for deletion or held by a clean-up worker. |
| VideoPipeline.EveryObjectIsAccountedFor | services/class/internal/http/private_videos.go:112-165 | In every run a stored object belongs to a row, is queued, or comes from an upload that was not, or not yet, inserted as far as its process knows. |
| VideoPipeline.PublishedForGood | services/class/internal/http/video_processing.go:77-89 | A published video's row never changes again. |
| VideoService.Service.Upload | services/class/internal/http/private_videos.go:107-166 | Store, insert, and take back on any error: the result for each fault, an insert reported as failed included, by the pipeline's steps. |
| VideoService.UploadLeaves | services/class/internal/http/private_videos.go:112-165 | Fault by fault: an accepted upload leaves its object and a waiting row, a refused one nothing unless its clean-up fails, and one inserted unheard its row, with or without the object. |
| VideoService.Service.ProcessNextVideo | services/class/internal/http/video_processing.go:43-89 | The oldest waiting video is published and its source queued, or marked failed when its source is missing or the output cannot be stored, or left as it was when stopped or not committed, by the pipeline's steps. |
| VideoService.PublishedPlays | services/class/internal/http/video_processing.go:77-89 | A published row points at the converted object, the same base with the other ending, and waits for nothing more; nor does a failed one. |
| VideoService.Service.CleanupVideos | services/class/internal/http/video_cleanup.go:26-62 | Up to 25 queued objects and entries go in order; the first fault ends the pass and keeps the rest, by the pipeline's steps. |
| VideoService.ConversionPass | services/class/internal/http/video_processing.go:43-89 | Claiming, storing and settling a waiting video is a run of the pipeline, so it keeps its invariant. |
| Sessions.Service.VerifiedIdentity | services/auth/internal/service/service.go:181-217 | Unknown, disabled, revoked and expired sessions are told apart in the source's order; otherwise the session's user. |
| Sessions.Service.Refresh | services/auth/internal/service/service.go:128-137 | Only for a verified token: the old session is revoked, unless that statement fails, and a new one is stored, unless that fails. |
| Sessions.Service.SetUserDisabledAudited | services/auth/internal/repository/iam_mutations.go:85-111 | The flag of an existing user is set, and disabling revokes all its sessions. |
| Sessions.RejectedForever | services/auth/internal/service/service.go:181-217 | A session once rejected as revoked, expired or of a disabled user is rejected in every later state of every run, even after the account is enabled again. |
| Sessions.DisablingEndsAllSessions | services/auth/internal/repository/iam_mutations.go:85-111 | Disabling ends every session the account has, for good. |
| Sessions.RefreshHandsOver | services/auth/internal/service/service.go:128-137 | After a refresh the new token stands for the same user if it was stored; the old one is as good as before exactly if its revocation failed, and rejected for good otherwise. |
| Sessions.FlagAloneForgets | services/auth/internal/repository/iam.go:376-388 | For every table: setting only the flag and clearing it later brings back exactly the sessions that were good and have not expired since. |
| Sessions.RevocationRemembers | services/auth/internal/repository/iam_mutations.go:85-111 | With the revocation none comes back. |
| Sessions.GoodUnlessEnded | services/auth/internal/service/service.go:128-217 | One operation leaves a good session good if and only if it is not its own refresh or logout, its user's logout or disabling, or the time running out; others' operations never matter. |
| Sessions.GoodUntilEnded | services/auth/internal/service/service.go:128-217 | In every run a good session stays good until the first of these, and is spent from then on. |
| Sessions.NewSessionLasts | services/auth/internal/service/service.go:181-217 | A new session stands for its user for exactly its time, and changes no other verdict. |
| Sessions.PruningForgetsExpired | services/auth/internal/repository/repository.go:134-140 | Pruning turns expired sessions into unknown ones and changes no other verdict. |
| Sessions.Service.PruneExpiredSessions | services/auth/internal/repository/repository.go:134-140 | Exactly the expired sessions are deleted. |
| Sessions.RevokedOnce | services/auth/internal/repository/repository.go:117-132 | The moment of a revocation is the first one's and is never rewritten. |
| Sessions.VerdictsToldApart | services/auth/internal/service/service.go:181-217 | Unknown comes before disabled, that before revoked, and that before expired; only what is none of these is verified. |
| SnapshotHistory.NextKeepsInv | infra/scripts/neon-backup.py:160-213 | Every step of the worker, stopping included, and every change to others' databases keep record and server consistent. |
| SnapshotHistory.EveryDropIsOurs | infra/scripts/neon-backup.py:190-211 | In every run each dropped database is the unrecorded one being built or the oldest recorded one, with our marker and not the latest; the admin database never is. |
| SnapshotHistory.GuardedAnyway | infra/scripts/neon-backup.py:201-211 | Whatever the state file says, retention drops neither the admin database nor the latest snapshot, nor one without this owner's mark. |
| SnapshotHistory.NewestSnapshotsAreUsable | infra/scripts/neon-backup.py:160-213 | Wherever the worker was interrupted, at most keep + 1 snapshots are recorded, the newest min(keep, n) exist with the whole dump, and the latest is the last of them. |
| SnapshotHistory.InterruptedRetentionJams | infra/scripts/neon-backup.py:201-213 | Stopping between a retention DROP and the state write leaves a recorded name without a database, due for removal. |
| SnapshotHistory.JammedForGood | infra/scripts/neon-backup.py:160-165 | From such a state no run ever changes the record again. |
| SnapshotHistory.JamIsReachable | infra/scripts/neon-backup.py:160-213 | For every number of snapshots to keep, a run from the worker's first start ends there. |
| NeonBackup.Worker.LoadState | infra/scripts/neon-backup.py:147-157 | An existing record is read as it is if and only if target, owner and names are the worker's; a missing one is created empty, unless the write fails. |
| NeonBackup.Worker.RetireOldest | infra/scripts/neon-backup.py:204-213 | A snapshot that fails a guard stays, on the server and in the record; one that passes them is dropped and then forgotten, unless a command fails. |
| NeonBackup.Worker.Prune | infra/scripts/neon-backup.py:201-213 | On success the record is the newest `keep`; a jammed record makes it fail without any change; without faults it fails only then. |
| NeonBackup.Worker.BackupOnce | infra/scripts/neon-backup.py:160-198 | For every fate of every command: the commands given are the attempt's plan, or its beginning and perhaps the drop of a database made in vain; a killed worker gives no more; only the history's steps are taken, databases outside the history are untouched, success leaves the newest min(keep, n) ending in the new, usable one, and a faultless attempt succeeds if and only if settings and state file are acceptable and retention is not jammed. |
| NeonBackup.ThirdOfTwo | infra/scripts/neon-backup.py:160-213 | The plan where two snapshots are kept and a third is made: dump, look through it, create, mark, restore, count, analyze, record, and then retire the first. |
| NeonBackup.FirstOfAll | infra/scripts/neon-backup.py:147-198 | The very first attempt writes its state file before it does anything else. |
| NeonBackup.OwnersOfSnapshots | infra/scripts/neon-backup.py:150 | An owner is accepted if and only if it is 32 hexadecimal digits. |
| NeonBackup.NamesOfTheWorker | infra/scripts/neon-backup.py:17 | A recorded name is accepted if and only if it is the prefix, 14 digits, an underscore and 8 hexadecimal digits. |
| NeonBackup.MarkerNamesOwner | infra/scripts/neon-backup.py:168 | Different owners never leave the same mark on a database. |
| BackupQuota.EncryptedSizeIsExact | infra/scripts/backup-quota.py:51-54 | The formula equals the header and the tagged 64 KiB blocks of the encrypted format, for every size. |
| BackupQuota.ReservationIsMonotone | infra/scripts/backup-quota.py:83-89 | A longer enumeration never reserves less. |
| BackupQuota.DestinationNamesOneObject | infra/scripts/backup-quota.py:90-95 | Objects of different buckets or paths never share a destination. |
| BackupQuota.ValidPathsLeadDown | infra/scripts/backup-quota.py:81-84 | A path is accepted if and only if it is relative and leads, as a file system follows it, down from the bucket's directory part by part. |
| BackupQuota.SourceForms | infra/scripts/backup-quota.py:76-77 | A bucket name is accepted if and only if it is a letter or digit, something of letters, digits, dots and dashes, and a letter or digit. |
| BackupQuota.ReservationsAdd | infra/scripts/backup-quota.py:86-100 | Reservations add up over any division of the enumeration. |
| BackupQuota.ListedInOrder | infra/scripts/backup-quota.py:75-85 | The enumeration goes source by source, each in the order of its listing, with its own name, path and size. |
| BackupQuota.ExactFit | infra/scripts/backup-quota.py:86-91 | One byte fits into 1000 when 951 are used and not when 952 are, as the job's tests pin. |
| BackupQuota.EmptyObjectsTakeRoom | infra/scripts/backup-quota.py:86-91 | Of two empty objects the first fits into what 950 of 1000 bytes leave and both do not, as the job's tests pin. |
| BackupQuota.SizesAtBoundaries | infra/scripts/backup-quota.py:51-54 | The sizes for 0, 1, 65536 and 65537 bytes that the job's tests pin. |
| BackupQuota.CyclesStart | infra/scripts/backup-quota.py:65-72 | A cycle starts with a limit from 1 to 9.5 GB and a measured bucket below it. |
| BackupQuota.GrowthIsNotClean | infra/scripts/backup-quota.py:97-104 | A copy after which the object is seen one byte larger is not a success. |
| BackupQuota.Cycle.Upload | infra/scripts/backup-quota.py:77-104 | One object: reserved before it is copied, never stored beyond the limit even if the copy fails midway, and growth never passes unnoticed. |
| BackupQuota.Cycle.Backup | infra/scripts/backup-quota.py:65-104 | The bucket stays within the reservation and that within the limit, counting in a copy that failed midway; what is copied is a prefix of the whole enumeration, and a cycle without storage faults succeeds if and only if settings, sources and objects are valid and everything fits. |
| EnvMerge.MergeLines | infra/scripts/install-backup-env.py:59-69 | The two loops compute the merged lines. |
| EnvMerge.MergedAssigns | infra/scripts/install-backup-env.py:59-69 | Afterwards each payload variable is assigned exactly once, to its new value, and every other one as before. |
| EnvMerge.MergedOthers | infra/scripts/install-backup-env.py:59-69 | Lines that assign no payload variable stay, in order. |
| EnvMerge.MergedKeepsPlaces | infra/scripts/install-backup-env.py:61-69 | Old lines keep their places and replaced variables stand where they were first assigned; only new ones are appended. |
| EnvMerge.MergeTwice | infra/scripts/install-backup-env.py:59-69 | Installing the same payload again changes nothing. |
| EnvMerge.ReadPayload | infra/scripts/install-backup-env.py:33-40 | The payload is read exactly when every line that is not ignored assigns an allowed variable for the first time. |
| EnvMerge.Install | infra/scripts/install-backup-env.py:33-69 | Lines are produced exactly when the payload is well formed and complete and no line holds another encryption secret. |
| EnvMerge.SecretsStay | infra/scripts/install-backup-env.py:52-58 | An accepted installation leaves a secret that is set as it was, assigned once. |
| EnvMerge.CompleteSetsSecrets | infra/scripts/install-backup-env.py:41-48 | An accepted payload sets both encryption secrets, so the previous row covers them. |
| EnvForms.InstalledExactlyWhen | infra/scripts/install-backup-env.py:33-58 | A payload is accepted if and only if its lines are ignorable or assign allowed variables, none twice, it is complete, and no value that the file gives a secret is set and different. |
| EnvForms.InstalledServes | infra/scripts/install-backup-env.py:41-69 | After an accepted installation the file itself gives every setting the jobs need, each once: credentials, bucket, account or endpoint, two secrets of 32 characters or more, r2, enabled. |
| EnvForms.EnoughIsComplete | infra/scripts/install-backup-env.py:41-50 | Nothing more is asked of a payload than what the jobs find in the file afterwards. |
| EnvForms.BackupSettingsOnly | infra/scripts/install-backup-env.py:9-22 | A payload reaches no setting but those of the backups and the database address. |
| EnvForms.JobSettingsAllowed | infra/scripts/install-backup-env.py:9-18 | Everything that the two jobs read can be set by a payload. |
| EnvForms.AssignmentForms | infra/scripts/install-backup-env.py:23 | A line assigns a variable if and only if it is a name of capital letters, digits and underscores, an equals sign and the value. |
| EnvForms.IgnoredForms | infra/scripts/install-backup-env.py:34-35 | A line is ignored if and only if it is blank or a comment after blanks. |
| EnvForms.BlankCharacters | infra/scripts/install-backup-env.py:35-42 | What counts as blank. |
| EnvForms.EffectiveOf | infra/scripts/install-backup-env.py:41-42 | The value that counts is the text without the blanks around it, and then without the quotes. |

## Left out

- HTTP handlers, proxies, CORS, JSON, logging, metrics, SQL text and row locking: tables are maps, transactions are steps.
- The admin pages' listing queries, audit rows, profile editing and e-mail or display-name validation are not modelled.
- `score_answer` and `score_session` of the quiz engine: expressions without state.
- The Go quiz engine, the live quiz and the study service are not part of this model.
- The video DELETE request and the table's triggers, so no row ever leaves the pipeline; playback tickets and their signature.
- The gateway's token cache: decisions are about a freshly verified identity.
- Password hashing, token generation and HMAC: tokens are opaque and new ones fresh.
- rclone, pg_dump, SFTP and FFmpeg internals: each command happens as a whole or not at all, except that a copy may add part of an object.
- Files: the atomic replacement of the state file and of the environment file is one step; `utf-8-sig` marks and symlink checks are outside.
- TokenBucket.StretchWithinBudget: tokens and times are exact reals; floating-point rounding and the truncation of the reported wait to nanoseconds are not modelled.
- RateLimiter.AnswersAsUnbounded: for calls that take the lock in the order of their clock readings.
- RateLimiter.KeyWithinBudget: for a stretch in which the key is not evicted; an evicted key starts with a full bucket again.
- LoginGuard.FailuresBounded: addresses hold no bar, as the handler passes a parsed address or nothing.
- LoginGuard.Guard.Blocked: how an e-mail is trimmed and lower-cased is a parameter of the guard.
- LoginGuard.AddressLockIsRightWhen: the conversion of a power of two beyond 2^63 to an integer is platform behaviour; from 63 on the model takes the value amd64 gives.
- FailureWindow.FailuresPerWindow: the tracker's `reset` is not part of the runs.
- AccessTable.AccessDecided: for principals with class and organization roles in their places, as every identity of a reachable table has them.
- Authz.Can: roles, actions and condition names are enumerations, so unknown strings appear only as one unknown role; the table's patterns are single ones, and service-wide action patterns, which no policy uses, are absent.
- GrantStore.Store.AssignRole: assigns without expiry, as the source does; rows with one come from outside.
- GrantStore.Store.LoadPlatformRoles: database errors end the request and are not modelled.
- OrgRoles.HeaderRoundTrip: text is a sequence of characters, not of bytes.
- Questions.OneRightChoice: ids are numbers and definitions texts; nothing is said of decks with repeated definitions beyond the first right place.
- VideoService.Service.ProcessNextVideo: within one call nothing else runs; interleavings, lost locks and late writes are steps of the pipeline.
- Sessions.RejectedForever: operations are sequential and the clock never runs backwards.
- SnapshotHistory.NewestSnapshotsAreUsable: for a number of snapshots to keep that does not change, and with nobody else dropping or altering recorded databases.
- NeonBackup.Worker.BackupOnce: the loop with its waiting times and the digest that stands for the target are left out.
- BackupQuota.Cycle.Backup: assumes, as the job does, that it is the bucket's only writer and that a copy adds at most the encrypted size of the object as listed.
