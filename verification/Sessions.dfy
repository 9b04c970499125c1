/** Login sessions: how they are made, revoked, pruned and verified. */
module Sessions {
  import opened Options

  type Token = string

  datatype Session = Session(user: int, expires: int, revoked: Option<int>)

  /** users maps an id to whether the account is disabled; issued are all tokens handed out so far. */
  datatype Db = Db(users: map<int, bool>, sessions: map<Token, Session>, issued: set<Token>, nextUser: int, now: int)

  datatype Verdict = Verified(user: int) | NoSession | DisabledUser | RevokedSession | ExpiredSession

  /** What verification answers for a token, in the order in which it looks. */
  function Verify(db: Db, token: Token): Verdict {
    if token == "" || token !in db.sessions || db.sessions[token].user !in db.users then NoSession
    else
      var s := db.sessions[token];
      if db.users[s.user] then DisabledUser
      else if s.revoked.Some? then RevokedSession
      else if s.expires <= db.now then ExpiredSession
      else Verified(s.user)
  }

  function RevokedAt(s: Session, now: int): Session {
    if s.revoked.Some? then s else s.(revoked := Some(now))
  }

  function WithSession(db: Db, user: int, token: Token, ttl: int): Db {
    db.(sessions := db.sessions[token := Session(user, db.now + ttl, None)], issued := db.issued + {token})
  }

  /** What is left of an attempt to issue a session: nothing when storing it fails. */
  function Issued(db: Db, user: int, token: Token, ttl: int, stored: bool): Db {
    if stored then WithSession(db, user, token, ttl) else db
  }

  function WithoutSession(db: Db, token: Token): Db {
    if token in db.sessions then db.(sessions := db.sessions[token := RevokedAt(db.sessions[token], db.now)]) else db
  }

  function WithoutSessionsOf(db: Db, user: int): Db {
    db.(sessions := map t | t in db.sessions :: if db.sessions[t].user == user then RevokedAt(db.sessions[t], db.now)
      else db.sessions[t])
  }

  function AccountSet(db: Db, user: int, disabled: bool): Db {
    if user !in db.users then db
    else
      var flagged := db.(users := db.users[user := disabled]);
      if disabled then WithoutSessionsOf(flagged, user) else flagged
  }

  function Pruned(db: Db): Db {
    db.(sessions := map t | t in db.sessions && db.sessions[t].expires > db.now :: db.sessions[t])
  }

  // ---------------------------------------------------------------- the service

  class Service {
    var users: map<int, bool>
    var sessions: map<Token, Session>
    ghost var issued: set<Token>
    var nextUser: int
    var now: int
    const ttl: int

    ghost function View(): Db
      reads this
    {
      Db(users, sessions, issued, nextUser, now)
    }

    method VerifiedIdentity(token: Token) returns (verdict: Verdict)
      ensures verdict == Verify(View(), token)
    {
      if token == "" {
        return NoSession;
      }
      if token !in sessions || sessions[token].user !in users {
        return NoSession;
      }
      var s := sessions[token];
      if users[s.user] {
        return DisabledUser;
      }
      if s.revoked.Some? {
        return RevokedSession;
      }
      if s.expires <= now {
        return ExpiredSession;
      }
      return Verified(s.user);
    }

    method NewSession(user: int, token: Token, stored: bool)
      modifies this
      ensures View() == Issued(old(View()), user, token, ttl, stored)
    {
      if !stored {
        return;
      }
      sessions := sessions[token := Session(user, now + ttl, None)];
      issued := issued + {token};
    }

    method DeleteSession(token: Token)
      modifies this
      ensures View() == WithoutSession(old(View()), token)
    {
      if token in sessions {
        var s := sessions[token];
        sessions := sessions[token := s.(revoked := if s.revoked.Some? then s.revoked else Some(now))];
      }
    }

    method DeleteAllSessions(user: int)
      modifies this
      ensures View() == WithoutSessionsOf(old(View()), user)
    {
      sessions := map t | t in sessions.Keys :: if sessions[t].user == user then RevokedAt(sessions[t], now)
        else sessions[t];
    }

    method PruneExpiredSessions()
      modifies this
      ensures View() == Pruned(old(View()))
    {
      sessions := map t | t in sessions.Keys && sessions[t].expires > now :: sessions[t];
    }

    /** A login with the right password: refused when the account is disabled, and failed when nothing is stored. */
    method Login(user: int, token: Token, stored: bool) returns (ok: bool)
      modifies this
      ensures ok <==> user in old(users) && !old(users)[user] && stored
      ensures View() == if ok then WithSession(old(View()), user, token, ttl) else old(View())
    {
      if user !in users || users[user] {
        return false;
      }
      NewSession(user, token, stored);
      return stored;
    }

    method Register(token: Token, stored: bool) returns (user: int)
      modifies this
      ensures user == old(nextUser)
      ensures View() == Issued(old(View()).(users := old(users)[user := false], nextUser := user + 1), user, token,
                ttl, stored)
    {
      user := nextUser;
      users := users[user := false];
      nextUser := nextUser + 1;
      NewSession(user, token, stored);
    }

    /** The old session is revoked, unless that statement fails, and a new one takes its place, if it can be stored. */
    method Refresh(token: Token, newToken: Token, revokeFails: bool, stored: bool) returns (ok: bool)
      modifies this
      ensures ok <==> Verify(old(View()), token).Verified? && stored
      ensures View() == if !Verify(old(View()), token).Verified? then old(View())
                        else Refreshed(old(View()), token, newToken, revokeFails, stored, ttl)
    {
      var verdict := VerifiedIdentity(token);
      if !verdict.Verified? {
        return false;
      }
      if !revokeFails {
        DeleteSession(token);
      }
      NewSession(verdict.user, newToken, stored);
      return stored;
    }

    method LogoutAll(token: Token) returns (ok: bool)
      modifies this
      ensures ok <==> Verify(old(View()), token).Verified?
      ensures View() == if ok then WithoutSessionsOf(old(View()), old(sessions)[token].user) else old(View())
    {
      var verdict := VerifiedIdentity(token);
      if !verdict.Verified? {
        return false;
      }
      DeleteAllSessions(verdict.user);
      return true;
    }

    method SetUserDisabledAudited(user: int, disabled: bool) returns (ok: bool)
      modifies this
      ensures ok <==> user in old(users)
      ensures View() == AccountSet(old(View()), user, disabled)
    {
      if user !in users {
        return false;
      }
      users := users[user := disabled];
      if disabled {
        DeleteAllSessions(user);
      }
      return true;
    }
  }

  function Refreshed(db: Db, token: Token, newToken: Token, revokeFails: bool, stored: bool, ttl: int): Db
    requires Verify(db, token).Verified?
  {
    Issued(if revokeFails then db else WithoutSession(db, token), db.sessions[token].user, newToken, ttl, stored)
  }

  // ---------------------------------------------------------------- runs

  datatype Op =
    | Register(token: Token, stored: bool)
    | Login(user: int, token: Token, stored: bool)
    | Refresh(token: Token, newToken: Token, revokeFails: bool, stored: bool)
    | Logout(token: Token)
    | LogoutAll(token: Token)
    | SetDisabled(user: int, disabled: bool)
    | Prune
    | Elapse(seconds: nat)

  /** Tokens are random: a new session never gets one that was handed out before. */
  predicate Fresh(db: Db, token: Token) {
    token != "" && token !in db.issued
  }

  ghost predicate Next(db: Db, op: Op, ttl: int, db': Db) {
    match op
    case Register(token, stored) =>
      && Fresh(db, token)
      && db' == Issued(db.(users := db.users[db.nextUser := false], nextUser := db.nextUser + 1), db.nextUser, token,
        ttl, stored)
    case Login(user, token, stored) =>
      Fresh(db, token) && db' == if user in db.users && !db.users[user] then Issued(db, user, token, ttl, stored)
        else db
    case Refresh(token, newToken, revokeFails, stored) =>
      && Fresh(db, newToken)
      && db' == if Verify(db, token).Verified? then Refreshed(db, token, newToken, revokeFails, stored, ttl) else db
    case Logout(token) => db' == WithoutSession(db, token)
    case LogoutAll(token) => db' == if Verify(db, token).Verified? then WithoutSessionsOf(db, db.sessions[token].user)
      else db
    case SetDisabled(user, disabled) => db' == AccountSet(db, user, disabled)
    case Prune => db' == Pruned(db)
    case Elapse(seconds) => db' == db.(now := db.now + seconds)
  }

  ghost predicate Run(states: seq<Db>, ops: seq<Op>, ttl: int) {
    && |states| == |ops| + 1
    && states[0].sessions == map[] && states[0].users == map[]
    && forall n :: 0 <= n < |ops| ==> StepAt(states, ops, ttl, n)
  }

  ghost predicate StepAt(states: seq<Db>, ops: seq<Op>, ttl: int, n: nat)
    requires |states| == |ops| + 1 && n < |ops|
  {
    Next(states[n], ops[n], ttl, states[n + 1])
  }

  /** A disabled account has no session left that could come back to life. */
  ghost predicate Inv(db: Db) {
    && (forall u :: u in db.users ==> u < db.nextUser)
    && forall t :: t in db.sessions ==> SessionInv(db, t)
  }

  ghost predicate SessionInv(db: Db, t: Token)
    requires t in db.sessions
  {
    && t in db.issued && db.sessions[t].user in db.users
    && (db.users[db.sessions[t].user] ==> db.sessions[t].revoked.Some?)
  }

  lemma NextKeepsInv(db: Db, op: Op, ttl: int, db': Db)
    requires Inv(db) && Next(db, op, ttl, db')
    ensures Inv(db')
  {
    forall t | t in db'.sessions
      ensures SessionInv(db', t)
    {
      assert t in db.sessions ==> SessionInv(db, t);
      assert op.Refresh? && Verify(db, op.token).Verified? ==> SessionInv(db, op.token);
    }
  }

  lemma {:induction false} RunKeepsInv(states: seq<Db>, ops: seq<Op>, ttl: int, n: nat)
    requires Run(states, ops, ttl) && n < |states|
    ensures Inv(states[n])
  {
    if n > 0 {
      RunKeepsInv(states, ops, ttl, n - 1);
      assert StepAt(states, ops, ttl, n - 1);
      NextKeepsInv(states[n - 1], ops[n - 1], ttl, states[n]);
    }
  }

  /** The token is spent: its session is revoked, expired or already pruned. */
  ghost predicate Spent(db: Db, t: Token) {
    t in db.issued && (t in db.sessions ==> db.sessions[t].revoked.Some? || db.sessions[t].expires <= db.now)
  }

  lemma NextKeepsSpent(db: Db, op: Op, ttl: int, db': Db, t: Token)
    requires Spent(db, t) && Next(db, op, ttl, db')
    ensures Spent(db', t)
  {
  }

  lemma {:induction false} SpentForever(states: seq<Db>, ops: seq<Op>, ttl: int, m: nat, n: nat, t: Token)
    requires Run(states, ops, ttl) && m <= n < |states| && Spent(states[m], t)
    ensures Spent(states[n], t)
  {
    if m < n {
      SpentForever(states, ops, ttl, m, n - 1, t);
      assert StepAt(states, ops, ttl, n - 1);
      NextKeepsSpent(states[n - 1], ops[n - 1], ttl, states[n], t);
    }
  }

  /**
   A session once rejected as revoked, expired or owned by a disabled user is rejected ever after, even when the
   account is enabled again.
   */
  lemma RejectedForever(states: seq<Db>, ops: seq<Op>, ttl: int, m: nat, n: nat, t: Token)
    requires Run(states, ops, ttl) && m <= n < |states|
    requires Verify(states[m], t) in {DisabledUser, RevokedSession, ExpiredSession}
    ensures !Verify(states[n], t).Verified?
  {
    RunKeepsInv(states, ops, ttl, m);
    assert SessionInv(states[m], t);
    SpentForever(states, ops, ttl, m, n, t);
  }

  /** Disabling an account spends every session it has, for good. */
  lemma DisablingEndsAllSessions(states: seq<Db>, ops: seq<Op>, ttl: int, m: nat, n: nat, t: Token)
    requires Run(states, ops, ttl) && m < n < |states|
    requires t in states[m].sessions && ops[m] == SetDisabled(states[m].sessions[t].user, true)
    ensures !Verify(states[n], t).Verified?
  {
    RunKeepsInv(states, ops, ttl, m);
    assert SessionInv(states[m], t);
    assert StepAt(states, ops, ttl, m);
    SpentForever(states, ops, ttl, m + 1, n, t);
  }

  /**
   A refresh gives the new token to the same user if it could be stored. The old one goes on exactly if its revocation
   failed, even when nothing was stored; otherwise it is rejected ever after.
   */
  lemma RefreshHandsOver(states: seq<Db>, ops: seq<Op>, ttl: int, m: nat, n: nat, t: Token, newToken: Token,
      revokeFails: bool, stored: bool)
    requires Run(states, ops, ttl) && m < n < |states| && ttl > 0
    requires ops[m] == Refresh(t, newToken, revokeFails, stored) && Verify(states[m], t).Verified?
    ensures Verify(states[m + 1], newToken) == if stored then Verify(states[m], t) else NoSession
    ensures Verify(states[m + 1], t) == if revokeFails then Verify(states[m], t) else RevokedSession
    ensures !revokeFails ==> !Verify(states[n], t).Verified?
  {
    RunKeepsInv(states, ops, ttl, m);
    assert SessionInv(states[m], t);
    assert newToken in states[m].sessions ==> SessionInv(states[m], newToken);
    assert StepAt(states, ops, ttl, m);
    if !revokeFails {
      SpentForever(states, ops, ttl, m + 1, n, t);
    }
  }

  // ---------------------------------------------------------------- what goes on

  /** What ends a good session: its own refresh or logout, its user's logout or disabling, or the time. */
  ghost predicate Ends(db: Db, op: Op, t: Token)
    requires t in db.sessions
  {
    match op
    case Refresh(token, _, revokeFails, _) => token == t && !revokeFails
    case Logout(token) => token == t
    case LogoutAll(token) => Verify(db, token) == Verified(db.sessions[t].user)
    case SetDisabled(user, disabled) => disabled && user == db.sessions[t].user
    case Elapse(seconds) => db.now + seconds >= db.sessions[t].expires
    case Register(_, _) => false
    case Login(_, _, _) => false
    case Prune => false
  }

  /** Every other operation, whoever it is for, leaves a good session as good as it was. */
  lemma GoodUnlessEnded(db: Db, op: Op, ttl: int, db': Db, t: Token)
    requires Inv(db) && Next(db, op, ttl, db') && Verify(db, t).Verified?
    ensures Verify(db', t).Verified? <==> !Ends(db, op, t)
    ensures !Ends(db, op, t) ==> Verify(db', t) == Verify(db, t) && db'.sessions[t] == db.sessions[t]
    ensures Ends(db, op, t) ==> Spent(db', t)
  {
    assert SessionInv(db, t);
  }

  ghost predicate EndedBetween(states: seq<Db>, ops: seq<Op>, t: Token, m: nat, n: nat)
    requires |states| == |ops| + 1 && n <= |ops|
  {
    exists k :: m <= k < n && t in states[k].sessions && Ends(states[k], ops[k], t)
  }

  /** In every run a good session is good until the first of these, and from then on never again. */
  lemma {:induction false} GoodUntilEnded(states: seq<Db>, ops: seq<Op>, ttl: int, m: nat, n: nat, t: Token)
    requires Run(states, ops, ttl) && m <= n < |states| && Verify(states[m], t).Verified?
    ensures Verify(states[n], t) == Verify(states[m], t) <==> !EndedBetween(states, ops, t, m, n)
    ensures Verify(states[n], t).Verified? <==> !EndedBetween(states, ops, t, m, n)
    ensures EndedBetween(states, ops, t, m, n) ==> Spent(states[n], t)
  {
    if m < n {
      GoodUntilEnded(states, ops, ttl, m, n - 1, t);
      RunKeepsInv(states, ops, ttl, n - 1);
      assert StepAt(states, ops, ttl, n - 1);
      if EndedBetween(states, ops, t, m, n - 1) {
        NextKeepsSpent(states[n - 1], ops[n - 1], ttl, states[n], t);
      } else {
        GoodUnlessEnded(states[n - 1], ops[n - 1], ttl, states[n], t);
      }
    }
  }

  /** When a session was revoked is recorded once: at the operation that revoked it, and never rewritten. */
  lemma RevokedOnce(db: Db, op: Op, ttl: int, db': Db, t: Token)
    requires Inv(db) && Next(db, op, ttl, db') && t in db.sessions && t in db'.sessions
    ensures db'.sessions[t] == db.sessions[t]
            || (db.sessions[t].revoked == None && db'.sessions[t] == db.sessions[t].(revoked := Some(db.now)))
  {
    assert SessionInv(db, t);
  }

  /** A new session is its user's, and good for exactly so many seconds; no other session takes notice. */
  lemma NewSessionLasts(db: Db, user: int, token: Token, ttl: int, seconds: nat, t: Token)
    requires user in db.users && !db.users[user] && Fresh(db, token)
    ensures var db' := WithSession(db, user, token, ttl);
            && Verify(db'.(now := db.now + seconds), token)
               == (if seconds < ttl then Verified(user) else ExpiredSession)
            && (t != token ==> Verify(db', t) == Verify(db, t))
  {
  }

  /** Pruning forgets exactly the expired sessions. */
  lemma PruningForgetsExpired(db: Db, t: Token)
    ensures Verify(Pruned(db), t) ==
            if t in db.sessions && db.sessions[t].expires <= db.now then NoSession else Verify(db, t)
    ensures t in Pruned(db).sessions <==> t in db.sessions && db.now < db.sessions[t].expires
  {
  }

  /** A disabled account comes before a revoked session, and that before an expired one. */
  lemma VerdictsToldApart(db: Db, t: Token)
    ensures var found := t != "" && t in db.sessions && db.sessions[t].user in db.users;
            && (Verify(db, t) == NoSession <==> !found)
            && (Verify(db, t) == DisabledUser <==> found && db.users[db.sessions[t].user])
            && (found && !db.users[db.sessions[t].user] ==>
                  && (Verify(db, t) == RevokedSession <==> db.sessions[t].revoked != None)
                  && (Verify(db, t).Verified? <==> db.sessions[t].revoked == None && db.now < db.sessions[t].expires)
                  && (Verify(db, t).Verified? ==> Verify(db, t).user == db.sessions[t].user))
  {
  }

  /** An account set disabled by its flag alone, with no session revoked. */
  function Flagged(db: Db, user: int): Db {
    db.(users := db.users[user := true])
  }

  /**
   The flag alone shuts the account's sessions out only as long as it is set: enabling the account again brings back
   every one that was good before and has not expired since.
   */
  lemma FlagAloneForgets(db: Db, user: int, seconds: nat, t: Token)
    requires user in db.users && !db.users[user]
    ensures var off := Flagged(db, user); var on := AccountSet(off.(now := off.now + seconds), user, false);
            && (t in db.sessions && db.sessions[t].user == user ==> !Verify(off, t).Verified?)
            && (Verify(on, t).Verified? <==> Verify(db, t).Verified? && db.sessions[t].expires > db.now + seconds)
  {
  }

  /** With the revocation none comes back. */
  lemma RevocationRemembers(db: Db, user: int, seconds: nat, t: Token)
    requires user in db.users && t in db.sessions && db.sessions[t].user == user
    ensures var off := AccountSet(db, user, true);
            !Verify(AccountSet(off.(now := off.now + seconds), user, false), t).Verified?
  {
  }
}
