/** What those who log in see of the guard: after how many failures they wait, how long, and what a success undoes. */
module LoginLadder {
  import opened Options
  import opened LoginGuard

  const SECONDS := 1_000_000_000

  /** The locks of a ladder that begins with `first`: each twice the one before, up to a quarter of an hour. */
  function Ladder(first: int, step: nat): (lock: int)
    requires 0 < first <= 900 * SECONDS
    ensures first <= lock <= 900 * SECONDS
  {
    if step == 0 then first
    else
      var twice := 2 * Ladder(first, step - 1);
      if twice < 900 * SECONDS then twice else 900 * SECONDS
  }

  lemma TwiceAsMuch(x: int, y: int)
    ensures x * (2 * y) == 2 * (x * y)
  {
  }

  lemma {:induction false} LadderIsCapped(first: int, step: nat)
    requires 0 < first <= 900 * SECONDS
    ensures Ladder(first, step) == if first * Pow2(step) > 900 * SECONDS then 900 * SECONDS else first * Pow2(step)
  {
    if step > 0 {
      LadderIsCapped(first, step - 1);
      TwiceAsMuch(first, Pow2(step - 1));
    }
  }

  /** Wherever the lock is right, it is the ladder's. */
  lemma LocksAreLadders(step: nat)
    ensures AddressLockFits(step) ==> LockFor(LOCK_BASE, step) == Ladder(30 * SECONDS, step)
    ensures AccountLockFits(step) ==> LockFor(ACCOUNT_LOCK_BASE, step) == Ladder(300 * SECONDS, step)
  {
    AddressLockIsRightWhen(step);
    LadderIsCapped(30 * SECONDS, step);
    AccountLockIsRightWhen(step);
    LadderIsCapped(300 * SECONDS, step);
  }

  /** The failures counted for a key in the quarter of an hour that is still running. */
  function FailuresSoFar(m: Entries, key: string, now: int): nat {
    if key in m && now - m[key].windowStart < 900 * SECONDS then m[key].failures else 0
  }

  // ---------------------------------------------------------------- one failure

  /** A key that is not locked counts one more failure, and from its limit on is locked for its step of the ladder. */
  lemma OneMoreFailure(m: Entries, key: string, now: int, limit: nat, base: int)
    requires !LockedAt(m, key, now) && limit >= 1
    ensures var m', n := Record(m, key, now, limit, base), FailuresSoFar(m, key, now) + 1;
            && FailuresSoFar(m', key, now) == n
            && (n < limit ==> !LockedAt(m', key, now))
            && (n >= limit && LockFor(base, n - limit) > 0 ==>
                  && LockedAt(m', key, now)
                  && m'[key].lockedUntil.value == now + LockFor(base, n - limit))
            && forall other :: other != key ==> Lookup(m', other) == Lookup(m, other)
  {
  }

  /**
   After a failed attempt the address waits from its fifth failure on, for half a minute at first, and the whole account
   from its twentieth on, for five minutes at first; each wait is twice the one before, up to a quarter of an hour. For
   the numbers of failures that are listed as wrapping to a short lock this does not hold.
   */
  lemma FailureLocks(m: Entries, email: string, ip: string, now: int)
    requires email != ""
    requires !LockedAt(m, AccountIPKey(email, ip), now) && !LockedAt(m, AccountKey(email), now)
    requires FailuresSoFar(m, AccountIPKey(email, ip), now) >= 4 ==>
               AddressLockFits(FailuresSoFar(m, AccountIPKey(email, ip), now) - 4)
    requires FailuresSoFar(m, AccountKey(email), now) >= 19 ==>
               AccountLockFits(FailuresSoFar(m, AccountKey(email), now) - 19)
    ensures var f := FailuresSoFar(m, AccountIPKey(email, ip), now) + 1;
            var g := FailuresSoFar(m, AccountKey(email), now) + 1;
            BlockedFor(Failed(m, email, ip, now), email, ip, now) ==
            if f >= 5 then Some(Ladder(30 * SECONDS, f - 5)) else if g >= 20 then Some(Ladder(300 * SECONDS, g - 20))
            else None
  {
    var a, b := AccountIPKey(email, ip), AccountKey(email);
    var f, g := FailuresSoFar(m, a, now) + 1, FailuresSoFar(m, b, now) + 1;
    KeysApart(email, ip, email, ip);
    var once := Record(m, a, now, 5, LOCK_BASE);
    OneMoreFailure(m, a, now, 5, LOCK_BASE);
    OneMoreFailure(once, b, now, 20, ACCOUNT_LOCK_BASE);
    LocksAreLadders(if f >= 5 then f - 5 else 0);
    LocksAreLadders(if g >= 20 then g - 20 else 0);
  }

  /** Others wait as before: on other accounts, and on the same one from elsewhere as long as it is below its limit. */
  lemma FailureSparesOthers(m: Entries, email: string, ip: string, now: int, other: string, from: string, later: int)
    requires '|' !in ip && '|' !in from && !LockedAt(m, AccountKey(email), now) && now <= later
    requires other != email || (from != ip && FailuresSoFar(m, AccountKey(email), now) + 1 < 20)
    ensures BlockedFor(Failed(m, email, ip, now), other, from, later) == BlockedFor(m, other, from, later)
  {
    KeysApart(email, ip, other, from);
    KeysApart(other, from, email, ip);
    KeysApart(email, ip, email, ip);
    if email != "" {
      var once := Record(m, AccountIPKey(email, ip), now, 5, LOCK_BASE);
      OneMoreFailure(once, AccountKey(email), now, 20, ACCOUNT_LOCK_BASE);
    }
  }

  // ---------------------------------------------------------------- success and time

  /** A success wipes out what the account and this address of it have on record; all other waits stay as they are. */
  lemma SuccessForgets(m: Entries, email: string, ip: string, other: string, from: string, now: int)
    requires email != "" && '|' !in ip && '|' !in from
    ensures var m' := Cleared(m, email, ip);
            && FailuresSoFar(m', AccountIPKey(email, ip), now) == 0 && FailuresSoFar(m', AccountKey(email), now) == 0
            && BlockedFor(m', email, ip, now) == None
            && (other != email ==> BlockedFor(m', other, from, now) == BlockedFor(m, other, from, now))
            && (from != ip ==>
                  FailuresSoFar(m', AccountIPKey(email, from), now) == FailuresSoFar(m, AccountIPKey(email, from), now))
  {
    KeysApart(email, ip, other, from);
    KeysApart(other, from, email, ip);
    KeysApart(email, ip, email, from);
    KeysApart(email, from, email, ip);
  }

  /** Nothing is ever held against an empty name. */
  lemma NobodyIsLocked(m: Entries, ip: string, now: int)
    ensures BlockedFor(m, "", ip, now) == None && Failed(m, "", ip, now) == m && Cleared(m, "", ip) == m
  {
  }

  /** Which of the two locks a blocked caller has met. */
  function MetKey(m: Entries, email: string, ip: string, now: int): string {
    if LockedAt(m, AccountIPKey(email, ip), now) then AccountIPKey(email, ip) else AccountKey(email)
  }

  /**
   The answer is the time that is left of the lock: it is over after that wait and, unless it is the least there is,
   not before.
   */
  lemma WaitIsRight(m: Entries, email: string, ip: string, now: int, later: int)
    requires BlockedFor(m, email, ip, now).Some? && now <= later
    ensures var wait, key := BlockedFor(m, email, ip, now).value, MetKey(m, email, ip, now);
            && wait >= SECONDS && LockedAt(m, key, now)
            && (later >= now + wait ==> !LockedAt(m, key, later))
            && (later < now + wait && wait > SECONDS ==> LockedAt(m, key, later))
  {
  }

  /** With fewer than ten thousand keys nothing is pruned; otherwise what goes is what no longer counts for anything. */
  lemma PrunedKeys(m: Entries, now: int, key: string)
    requires key in m
    ensures key !in Pruned(m, now) <==> |m| >= 10_000 && FailuresAreOver(m[key], now) && !LockedAt(m, key, now)
    ensures key in Pruned(m, now) ==> Pruned(m, now)[key] == m[key]
  {
  }

  predicate FailuresAreOver(e: Entry, now: int) {
    e.windowStart + 900 * SECONDS <= now
  }
}
