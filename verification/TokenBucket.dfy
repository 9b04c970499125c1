/**
 The gateway's request budget: a lazily refilled token bucket per key, kept in a bounded map.
 Time and tokens are exact reals, in seconds and requests.
 */
module TokenBucket {
  import opened Options

  const IDLE_TTL := 600.0

  datatype Rule = Rule(name: string, limit: int, window: real, burst: int) {
    predicate Active() {
      limit > 0 && window > 0.0
    }

    function Capacity(): (c: int)
      ensures c >= 1
    {
      if burst > 0 then burst else if limit > 0 then limit else 1
    }

    function Rate(): (r: real)
      ensures Active() ==> r > 0.0
    {
      if window <= 0.0 then 1.0 else limit as real / window
    }

    function AsBudget(): (b: Budget)
      ensures b.full >= 1 && (Active() ==> b.rate > 0.0)
    {
      Budget(Capacity(), Rate())
    }
  }

  /** A rule's two numbers: how many tokens a bucket holds, and how many it earns per second. */
  datatype Budget = Budget(full: int, rate: real)

  datatype Bucket = Bucket(tokens: real, last: real, seen: real)

  datatype Decision = Allowed | Denied(wait: real)

  // ---------------------------------------------------------------- one request on one key

  ghost predicate Sound(q: Budget) {
    q.full >= 1 && q.rate > 0.0
  }

  function Earned(rate: real, seconds: real): real {
    seconds * rate
  }

  /** The bucket a request meets: a full one for an unknown key, otherwise the stored one topped up. */
  function Refilled(slot: Option<Bucket>, q: Budget, now: real): Bucket {
    var full := q.full as real;
    match slot
    case None => Bucket(full, now, now)
    case Some(b) =>
      var elapsed := now - b.last;
      if elapsed > 0.0 then
        var topped := b.tokens + Earned(q.rate, elapsed);
        Bucket(if topped < full then topped else full, now, now)
      else
        b.(seen := now)
  }

  /** The seconds a denied caller is told to wait: the time to the next whole token, at least one. */
  function RetryAfter(tokens: real, q: Budget): real
    requires q.rate > 0.0
  {
    var wait := (1.0 - tokens) / q.rate;
    if wait < 1.0 then 1.0 else wait
  }

  function Decide(b: Bucket, q: Budget): Decision
    requires q.rate > 0.0
  {
    if b.tokens >= 1.0 then Allowed else Denied(RetryAfter(b.tokens, q))
  }

  function Charged(b: Bucket): Bucket {
    if b.tokens >= 1.0 then b.(tokens := b.tokens - 1.0) else b
  }

  // ---------------------------------------------------------------- a run of requests on one key

  ghost predicate Sorted(times: seq<real>) {
    forall i, j :: 0 <= i < j < |times| ==> times[i] <= times[j]
  }

  /** What is stored for the key after the first n requests. */
  ghost function SlotAt(q: Budget, start: Option<Bucket>, times: seq<real>, n: nat): Option<Bucket>
    requires n <= |times|
    decreases n, 0
  {
    if n == 0 then start else Some(Charged(Met(q, start, times, n - 1)))
  }

  /** The bucket that request n meets. */
  ghost function Met(q: Budget, start: Option<Bucket>, times: seq<real>, n: nat): Bucket
    requires n < |times|
    decreases n, 1
  {
    Refilled(SlotAt(q, start, times, n), q, times[n])
  }

  ghost function Answers(q: Budget, start: Option<Bucket>, times: seq<real>): seq<Decision>
    requires Sound(q)
  {
    seq(|times|, n requires 0 <= n < |times| => Decide(Met(q, start, times, n), q))
  }

  ghost predicate AllowedAt(q: Budget, start: Option<Bucket>, times: seq<real>, n: nat)
    requires n < |times|
  {
    Met(q, start, times, n).tokens >= 1.0
  }

  /** How many of the requests i, ..., j-1 were allowed. */
  ghost function Granted(q: Budget, start: Option<Bucket>, times: seq<real>, i: nat, j: nat): nat
    requires j <= |times|
  {
    if j <= i then 0
    else Granted(q, start, times, i, j - 1) + if AllowedAt(q, start, times, j - 1) then 1 else 0
  }

  // The same run on a clock that counts earned tokens instead of seconds. Here the refill rate is one.

  ghost function Credit(rate: real, times: seq<real>): (clock: seq<real>)
    ensures |clock| == |times| && forall n :: 0 <= n < |times| ==> clock[n] == Earned(rate, times[n])
  {
    seq(|times|, n requires 0 <= n < |times| => Earned(rate, times[n]))
  }

  /** The tokens met at credit c by a request that comes after the first n. */
  ghost function Level(full: real, clock: seq<real>, n: nat, c: real): real
    requires n <= |clock|
  {
    if n == 0 then full
    else
      var topped := Level(full, clock, n - 1, clock[n - 1]) - Cost(full, clock, n - 1) as real + (c - clock[n - 1]);
      if topped < full then topped else full
  }

  ghost function Cost(full: real, clock: seq<real>, n: nat): nat
    requires n < |clock|
  {
    if Level(full, clock, n, clock[n]) >= 1.0 then 1 else 0
  }

  ghost function Spent(full: real, clock: seq<real>, i: nat, j: nat): nat
    requires j <= |clock|
  {
    if j <= i then 0 else Spent(full, clock, i, j - 1) + Cost(full, clock, j - 1)
  }

  /** What a stretch that begins with request i may still spend at credit c, after the requests before n. */
  ghost function Headroom(full: real, clock: seq<real>, i: nat, n: nat, c: real): real
    requires i <= n <= |clock|
  {
    full + (if i < n then c - clock[i] else 0.0) - Spent(full, clock, i, n) as real
  }

  /**
   The lazily refilled bucket holds exactly the smallest headroom over all stretches that end now, which is
   the level of a bucket refilled continuously, capped at its capacity and charged for allowed requests only.
   */
  lemma {:induction false} LevelIsLeastHeadroom(full: real, clock: seq<real>, n: nat, c: real)
    requires full >= 1.0 && Sorted(clock) && n <= |clock|
    requires n > 0 ==> clock[n - 1] <= c
    ensures 0.0 <= Level(full, clock, n, c) <= full
    ensures forall i :: 0 <= i <= n ==> Level(full, clock, n, c) <= Headroom(full, clock, i, n, c)
    ensures exists i :: 0 <= i <= n && Level(full, clock, n, c) == Headroom(full, clock, i, n, c)
  {
    assert Headroom(full, clock, n, n, c) == full;
    if n > 0 {
      var b := clock[n - 1];
      LevelIsLeastHeadroom(full, clock, n - 1, b);
      var before := Level(full, clock, n - 1, b);
      forall i | 0 <= i < n
        ensures Headroom(full, clock, i, n, c)
                  == Headroom(full, clock, i, n - 1, b) - Cost(full, clock, n - 1) as real + (c - b)
      {
      }
      var k :| 0 <= k <= n - 1 && before == Headroom(full, clock, k, n - 1, b);
      assert Level(full, clock, n, c) == Headroom(full, clock, n, n, c)
        || Level(full, clock, n, c) == Headroom(full, clock, k, n, c);
    }
  }

  lemma EarnedIsLinear(rate: real, s: real, t: real)
    ensures Earned(rate, t - s) == Earned(rate, t) - Earned(rate, s)
    ensures rate > 0.0 && s <= t ==> Earned(rate, s) <= Earned(rate, t)
    ensures rate > 0.0 && s < t ==> Earned(rate, s) < Earned(rate, t)
  {
  }

  lemma CreditSorted(rate: real, times: seq<real>)
    requires rate > 0.0 && Sorted(times)
    ensures Sorted(Credit(rate, times))
  {
    forall i, j | 0 <= i < j < |times|
      ensures Credit(rate, times)[i] <= Credit(rate, times)[j]
    {
      EarnedIsLinear(rate, times[i], times[j]);
    }
  }

  /** The stored bucket, topped up on demand, is the unit-rate bucket on the credit clock. */
  lemma {:induction false} StoredBucketIsLevel(q: Budget, times: seq<real>, n: nat, t: real)
    requires Sound(q) && Sorted(times) && n <= |times|
    requires n > 0 ==> times[n - 1] <= t
    ensures Refilled(SlotAt(q, None, times, n), q, t) ==
            Bucket(Level(q.full as real, Credit(q.rate, times), n, Earned(q.rate, t)), t, t)
  {
    if n > 0 {
      var u := times[n - 1];
      StoredBucketIsLevel(q, times, n - 1, u);
      CreditSorted(q.rate, times);
      LevelIsLeastHeadroom(q.full as real, Credit(q.rate, times), n - 1, Earned(q.rate, u));
      EarnedIsLinear(q.rate, u, t);
    }
  }

  lemma {:induction false} GrantedIsSpent(q: Budget, times: seq<real>, i: nat, j: nat)
    requires Sound(q) && Sorted(times) && j <= |times|
    ensures Granted(q, None, times, i, j) == Spent(q.full as real, Credit(q.rate, times), i, j)
  {
    if i < j {
      GrantedIsSpent(q, times, i, j - 1);
      StoredBucketIsLevel(q, times, j - 1, times[j - 1]);
    }
  }

  /** Whether one more request at times[n] stays within the budget of the stretch that begins with request i. */
  ghost predicate Affordable(q: Budget, times: seq<real>, i: nat, n: nat)
    requires i < n < |times|
  {
    (Granted(q, None, times, i, n) + 1) as real <= q.full as real + Earned(q.rate, times[n] - times[i])
  }

  /**
   A request is allowed exactly when no stretch of requests ending with it goes over its budget: the bucket
   neither exceeds a budget nor refuses a request that every budget could afford.
   */
  lemma {:induction false} AllowedExactlyWhenAffordable(q: Budget, times: seq<real>, n: nat)
    requires Sound(q) && Sorted(times) && n < |times|
    ensures AllowedAt(q, None, times, n) <==> forall i :: 0 <= i < n ==> Affordable(q, times, i, n)
  {
    var full, clock, c := q.full as real, Credit(q.rate, times), Earned(q.rate, times[n]);
    StoredBucketIsLevel(q, times, n, times[n]);
    CreditSorted(q.rate, times);
    LevelIsLeastHeadroom(full, clock, n, c);
    forall i | 0 <= i < n
      ensures Affordable(q, times, i, n) <==> Headroom(full, clock, i, n, c) >= 1.0
    {
      GrantedIsSpent(q, times, i, n);
      EarnedIsLinear(q.rate, times[i], times[n]);
    }
    var k :| 0 <= k <= n && Level(full, clock, n, c) == Headroom(full, clock, k, n, c);
  }

  /** At most capacity + rate * duration requests are allowed in any stretch of a key's run. */
  lemma {:induction false} StretchWithinBudget(q: Budget, times: seq<real>, i: nat, j: nat)
    requires Sound(q) && Sorted(times) && i < j <= |times|
    ensures Granted(q, None, times, i, j) as real <= q.full as real + Earned(q.rate, times[j - 1] - times[i])
  {
    var full, clock := q.full as real, Credit(q.rate, times);
    var c := Earned(q.rate, times[j - 1]);
    GrantedIsSpent(q, times, i, j);
    CreditSorted(q.rate, times);
    LevelIsLeastHeadroom(full, clock, j - 1, c);
    assert Level(full, clock, j - 1, c) <= Headroom(full, clock, i, j - 1, c);
    EarnedIsLinear(q.rate, times[i], times[j - 1]);
  }

  // ---------------------------------------------------------------- what a rule's numbers mean

  /** How many calls a rule lets through at once: its burst, or its limit if it names no burst. */
  function AtOnce(rule: Rule): int {
    if rule.burst > 0 then rule.burst else rule.limit
  }

  /** Of the calls that a new caller makes at one instant, exactly the first `AtOnce` are allowed. */
  lemma {:induction false} BurstOfNewCaller(rule: Rule, t: real, times: seq<real>, n: nat)
    requires rule.Active() && n < |times| && forall k :: 0 <= k < |times| ==> times[k] == t
    ensures Met(rule.AsBudget(), None, times, n) ==
            Bucket(if n < AtOnce(rule) then (AtOnce(rule) - n) as real else 0.0, t, t)
    ensures AllowedAt(rule.AsBudget(), None, times, n) <==> n < AtOnce(rule)
  {
    if n > 0 {
      BurstOfNewCaller(rule, t, times, n - 1);
    }
  }

  lemma EarnedByRule(rule: Rule, e: real)
    requires rule.Active()
    ensures Earned(rule.Rate(), e) * rule.window == e * rule.limit as real
  {
    assert rule.Rate() * rule.window == rule.limit as real;
    assert Earned(rule.Rate(), e) * rule.window == e * (rule.Rate() * rule.window);
  }

  lemma Scaled(x: real, y: real, w: real)
    requires w > 0.0
    ensures x >= y <==> x * w >= y * w
  {
  }

  lemma SumScaled(x: real, y: real, z: real, w: real)
    requires w > 0.0 && x <= y + z
    ensures x * w <= y * w + z * w
  {
    Scaled(y + z, x, w);
    assert (y + z) * w == y * w + z * w;
  }

  /** With nothing left, the next call is allowed once the rule has earned a token: `limit` of them in a window. */
  lemma EmptyBucketRefills(rule: Rule, b: Bucket, e: real)
    requires rule.Active() && b.tokens == 0.0 && e > 0.0
    ensures Decide(Refilled(Some(b), rule.AsBudget(), b.last + e), rule.AsBudget()) == Allowed <==>
            e * rule.limit as real >= rule.window
  {
    EarnedByRule(rule, e);
    Scaled(Earned(rule.Rate(), e), 1.0, rule.window);
  }

  /** A full bucket does not grow: what is earned while nobody asks is lost. */
  lemma FullBucketStaysFull(rule: Rule, b: Bucket, now: real)
    requires rule.Active() && b.tokens == AtOnce(rule) as real && b.last <= now
    ensures Refilled(Some(b), rule.AsBudget(), now).tokens == AtOnce(rule) as real
  {
    EarnedIsLinear(rule.Rate(), b.last, now);
  }

  lemma EarnedWithin(rate: real, e: real, missing: real)
    requires rate > 0.0
    ensures Earned(rate, e) >= missing <==> e >= missing / rate
  {
    Scaled(e, missing / rate, rate);
    assert missing / rate * rate == missing;
  }

  /**
   Whoever waits as long as told is allowed next, if nobody else uses the key meanwhile; whoever is told to wait longer
   than the least there is, a second, is not allowed earlier.
   */
  lemma WaitIsRight(q: Budget, b: Bucket, e: real)
    requires Sound(q) && 0.0 <= b.tokens < 1.0 && e > 0.0
    ensures Decide(b, q).Denied? && Decide(b, q).wait >= 1.0
    ensures e >= Decide(b, q).wait ==> Decide(Refilled(Some(b), q, b.last + e), q) == Allowed
    ensures e < Decide(b, q).wait && Decide(b, q).wait > 1.0 ==>
              Decide(Refilled(Some(b), q, b.last + e), q).Denied?
  {
    EarnedWithin(q.rate, e, 1.0 - b.tokens);
  }

  // ---------------------------------------------------------------- forgetting an idle key

  /** Dropping a bucket idle for longer than the TTL never changes a later answer. */
  ghost predicate EvictionInvisible(q: Budget)
    requires Sound(q)
  {
    forall past: seq<real>, future: seq<real> :: Forgotten(past, future) ==>
      Answers(q, SlotAt(q, None, past, |past|), future) == Answers(q, None, future)
  }

  /** A run, a pause longer than the TTL, and another run. */
  ghost predicate Forgotten(past: seq<real>, future: seq<real>) {
    Sorted(past) && Sorted(future) && |past| > 0 && |future| > 0 && future[0] - past[|past| - 1] > IDLE_TTL
  }

  lemma {:induction false} SameStartSameRun(q: Budget, a: Option<Bucket>, b: Option<Bucket>, times: seq<real>, n: nat)
    requires n < |times|
    requires Refilled(a, q, times[0]) == Refilled(b, q, times[0])
    ensures Met(q, a, times, n) == Met(q, b, times, n)
  {
    if n > 0 {
      SameStartSameRun(q, a, b, times, n - 1);
    }
  }

  lemma IdleBucketIsFull(q: Budget, past: seq<real>, now: real)
    requires Sound(q) && q.full as real <= Earned(q.rate, IDLE_TTL)
    requires Sorted(past) && |past| > 0 && now - past[|past| - 1] > IDLE_TTL
    ensures Refilled(SlotAt(q, None, past, |past|), q, now) == Refilled(None, q, now)
  {
    var n := |past|;
    var u := past[n - 1];
    StoredBucketIsLevel(q, past, n, now);
    CreditSorted(q.rate, past);
    LevelIsLeastHeadroom(q.full as real, Credit(q.rate, past), n - 1, Earned(q.rate, u));
    EarnedIsLinear(q.rate, IDLE_TTL, now - u);
    EarnedIsLinear(q.rate, u, now);
  }

  lemma FullRefillForgets(q: Budget, past: seq<real>, future: seq<real>)
    requires Sound(q) && q.full as real <= Earned(q.rate, IDLE_TTL) && Forgotten(past, future)
    ensures Answers(q, SlotAt(q, None, past, |past|), future) == Answers(q, None, future)
  {
    IdleBucketIsFull(q, past, future[0]);
    forall n | 0 <= n < |future|
      ensures Met(q, SlotAt(q, None, past, |past|), future, n) == Met(q, None, future, n)
    {
      SameStartSameRun(q, SlotAt(q, None, past, |past|), None, future, n);
    }
  }

  /** A burst at one instant is allowed one token at a time, as long as whole tokens are there. */
  lemma {:induction false} Burst(q: Budget, start: Option<Bucket>, t: real, times: seq<real>, n: nat)
    requires n < |times|
    requires forall k :: 0 <= k < |times| ==> times[k] == t
    requires forall k :: 0 <= k < n ==> AllowedAt(q, start, times, k)
    ensures Met(q, start, times, n).tokens == Refilled(start, q, t).tokens - n as real
    ensures Met(q, start, times, n).last >= t
  {
    if n > 0 {
      Burst(q, start, t, times, n - 1);
      assert AllowedAt(q, start, times, n - 1);
    }
  }

  /** A full bucket serves a burst of its capacity. */
  lemma {:induction false} FullBurst(q: Budget, t: real, times: seq<real>, n: nat)
    requires Sound(q) && n < |times| == q.full
    requires forall k :: 0 <= k < |times| ==> times[k] == t
    ensures forall k :: 0 <= k <= n ==> AllowedAt(q, None, times, k)
    ensures Met(q, None, times, n) == Bucket((q.full - n) as real, t, t)
  {
    if n == 0 {
      assert Met(q, None, times, 0) == Bucket(q.full as real, t, t);
    } else {
      FullBurst(q, t, times, n - 1);
      assert AllowedAt(q, None, times, n - 1);
      assert AllowedAt(q, None, times, n);
    }
  }

  /** A bucket short of full refuses some request of a burst of its capacity. */
  lemma ShortBurst(q: Budget, start: Option<Bucket>, t: real, times: seq<real>) returns (k: nat)
    requires Sound(q) && |times| == q.full && Refilled(start, q, t).tokens < q.full as real
    requires forall k :: 0 <= k < |times| ==> times[k] == t
    ensures k < q.full && !AllowedAt(q, start, times, k)
  {
    if !AllowedAt(q, start, times, q.full - 1) {
      k := q.full - 1;
    } else if i :| 0 <= i < q.full - 1 && !AllowedAt(q, start, times, i) {
      k := i;
    } else {
      Burst(q, start, t, times, q.full - 1);
      assert false;
    }
  }

  lemma DrainedByBurst(q: Budget, past: seq<real>)
    requires Sound(q) && |past| == q.full && forall k :: 0 <= k < |past| ==> past[k] == 0.0
    ensures SlotAt(q, None, past, q.full) == Some(Bucket(0.0, 0.0, 0.0))
  {
    FullBurst(q, 0.0, past, q.full - 1);
  }

  lemma SlowRefillRemembers(q: Budget, t: real)
    requires Sound(q) && t > IDLE_TTL && q.full as real > Earned(q.rate, t)
    ensures !EvictionInvisible(q)
  {
    var past := seq(q.full, _ => 0.0);
    var future := seq(q.full, _ => t);
    DrainedByBurst(q, past);
    var drained := SlotAt(q, None, past, |past|);
    var k := ShortBurst(q, drained, t, future);
    FullBurst(q, t, future, q.full - 1);
    assert AllowedAt(q, None, future, k);
    assert Answers(q, drained, future)[k] != Answers(q, None, future)[k];
    assert Forgotten(past, future);
  }

  lemma MomentBeforeFull(rate: real, full: real) returns (t: real)
    requires rate > 0.0 && full > Earned(rate, IDLE_TTL)
    ensures t > IDLE_TTL && full > Earned(rate, t)
  {
    var gap := full - Earned(rate, IDLE_TTL);
    var extra := gap / (2.0 * rate);
    t := IDLE_TTL + extra;
    assert extra * rate == gap / 2.0;
    EarnedIsLinear(rate, IDLE_TTL, t);
  }

  /** Evicting idle keys is unobservable exactly for the rules whose empty bucket refills within the TTL. */
  lemma EvictionInvisibleExactlyWhen(q: Budget)
    requires Sound(q)
    ensures EvictionInvisible(q) <==> q.full as real <= q.rate * IDLE_TTL
  {
    assert Earned(q.rate, IDLE_TTL) == q.rate * IDLE_TTL;
    if q.full as real <= Earned(q.rate, IDLE_TTL) {
      forall past: seq<real>, future: seq<real> | Forgotten(past, future)
        ensures Answers(q, SlotAt(q, None, past, |past|), future) == Answers(q, None, future)
      {
        FullRefillForgets(q, past, future);
      }
    } else {
      var t := MomentBeforeFull(q.rate, q.full as real);
      SlowRefillRemembers(q, t);
    }
  }

  const AUTH_LOGIN := Rule("auth.login.ip", 10, 60.0, 0)
  const AUTH_REGISTER := Rule("auth.register.ip", 5, 3600.0, 0)
  const DEFAULT_IP := Rule("api.ip", 900, 60.0, 120)

  /**
   Ten logins at once and then one every six seconds; five registrations and then one every twelve minutes; 120 requests
   and then fifteen a second.
   */
  lemma RulesInNumbers()
    ensures AtOnce(AUTH_LOGIN) == 10 && AUTH_LOGIN.Rate() * 6.0 == 1.0
    ensures AtOnce(AUTH_REGISTER) == 5 && AUTH_REGISTER.Rate() * 720.0 == 1.0
    ensures AtOnce(DEFAULT_IP) == 120 && DEFAULT_IP.Rate() == 15.0
  {
  }

  /** The hourly registration rule is the one that idle eviction resets early. */
  lemma RegistrationIsForgottenEarly()
    ensures EvictionInvisible(AUTH_LOGIN.AsBudget()) && EvictionInvisible(DEFAULT_IP.AsBudget())
    ensures !EvictionInvisible(AUTH_REGISTER.AsBudget())
  {
    EvictionInvisibleExactlyWhen(AUTH_LOGIN.AsBudget());
    EvictionInvisibleExactlyWhen(DEFAULT_IP.AsBudget());
    EvictionInvisibleExactlyWhen(AUTH_REGISTER.AsBudget());
  }
}
