/** The bounded map of token buckets shared by every rule of the gateway. */
module RateLimiter {
  import opened Options
  import opened Sets
  import opened Strings
  import opened TokenBucket

  type Buckets = map<string, Bucket>

  function Lookup(m: Buckets, key: string): Option<Bucket> {
    if key in m then Some(m[key]) else None
  }

  predicate Idle(b: Bucket, now: real) {
    now - b.seen > IDLE_TTL
  }

  function WithoutIdle(m: Buckets, now: real): Buckets {
    map key | key in m && !Idle(m[key], now) :: m[key]
  }

  /** How many arbitrary keys go when dropping the idle ones was not enough. */
  function Surplus(maxKeys: nat): (n: nat)
    ensures n >= 1
  {
    if maxKeys / 10 >= 1 then maxKeys / 10 else 1
  }

  ghost predicate Evicted(before: Buckets, after: Buckets, now: real, maxKeys: nat) {
    if |before| < maxKeys then after == before
    else
      var kept := WithoutIdle(before, now);
      if |kept| < maxKeys then after == kept
      else after.Keys <= kept.Keys && |after| + Surplus(maxKeys) == |kept| && forall key :: key in after ==>
        after[key] == kept[key]
  }

  /** One call of Allow, seen from outside: the answer, the caller's bucket and what happens to the others. */
  ghost predicate AllowStep(before: Buckets, after: Buckets, maxKeys: nat, key: string, rule: Rule, now: real,
      answer: Decision) {
    if !rule.Active() then answer == Allowed && after == before
    else
      var met := Refilled(Lookup(before, key), rule.AsBudget(), now);
      && answer == Decide(met, rule.AsBudget())
      && Lookup(after, key) == Some(Charged(met))
      && if key in before then after == before[key := Charged(met)] else Evicted(before, after - {key}, now, maxKeys)
  }

  class MemoryLimiter {
    var buckets: Buckets
    const maxKeys: nat

    ghost predicate Valid()
      reads this
    {
      maxKeys > 0 && |buckets| <= maxKeys
    }

    constructor (limit: int)
      ensures Valid() && buckets == map[]
      ensures maxKeys == if limit <= 0 then 100_000 else limit
    {
      maxKeys := if limit <= 0 then 100_000 else limit;
      buckets := map[];
    }

    method Allow(key: string, rule: Rule, now: real) returns (answer: Decision)
      requires Valid()
      modifies this
      ensures Valid()
      ensures AllowStep(old(buckets), buckets, maxKeys, key, rule, now, answer)
    {
      if !rule.Active() {
        return Allowed;
      }
      var q := rule.AsBudget();
      var b;
      if key !in buckets {
        EvictLocked(now);
        b := Bucket(q.full as real, now, now);
      } else {
        b := buckets[key];
        var elapsed := now - b.last;
        if elapsed > 0.0 {
          var topped := b.tokens + Earned(q.rate, elapsed);
          b := b.(tokens := if topped < q.full as real then topped else q.full as real, last := now);
        }
        b := b.(seen := now);
      }
      ghost var others := buckets;
      if b.tokens >= 1.0 {
        buckets := buckets[key := b.(tokens := b.tokens - 1.0)];
        answer := Allowed;
      } else {
        buckets := buckets[key := b];
        answer := Denied(RetryAfter(b.tokens, q));
      }
      assert key !in others ==> buckets - {key} == others;
      assert |buckets| <= |others| + 1;
    }

    method EvictLocked(now: real)
      requires Valid()
      modifies this
      ensures Valid() && |buckets| < maxKeys
      ensures Evicted(old(buckets), buckets, now, maxKeys)
    {
      if |buckets| < maxKeys {
        return;
      }
      DropIdle(now);
      if |buckets| < maxKeys {
        return;
      }
      DropArbitrary(maxKeys / 10);
    }

    method DropIdle(now: real)
      modifies this
      ensures buckets == WithoutIdle(old(buckets), now)
      ensures |buckets| <= |old(buckets)|
    {
      var keys := buckets.Keys;
      while keys != {}
        invariant keys <= buckets.Keys <= old(buckets).Keys
        invariant forall key :: key in buckets ==> buckets[key] == old(buckets)[key]
        invariant forall key :: key in old(buckets) && key !in keys ==>
                    (key in buckets <==> !Idle(old(buckets)[key], now))
        invariant |buckets| <= |old(buckets)|
        decreases keys
      {
        var key :| key in keys;
        if Idle(buckets[key], now) {
          SmallerWithout(buckets, key);
          buckets := buckets - {key};
        }
        keys := keys - {key};
      }
    }

    method DropArbitrary(target: nat)
      requires |buckets| >= 1 && |buckets| >= target
      modifies this
      ensures buckets.Keys <= old(buckets).Keys && forall key :: key in buckets ==> buckets[key] == old(buckets)[key]
      ensures |buckets| + (if target >= 1 then target else 1) == |old(buckets)|
    {
      var removed := 0;
      while true
        invariant buckets.Keys <= old(buckets).Keys && forall key :: key in buckets ==>
                    buckets[key] == old(buckets)[key]
        invariant |buckets| + removed == |old(buckets)|
        invariant removed == 0 || removed < target
        decreases |buckets|
      {
        NonEmptyMap(buckets);
        var key :| key in buckets;
        SmallerWithout(buckets, key);
        buckets := buckets - {key};
        removed := removed + 1;
        if removed >= target {
          return;
        }
      }
    }
  }

  // ---------------------------------------------------------------- which keys an eviction takes

  /** Nothing that is gone was seen later than something that has stayed. */
  ghost predicate LeastRecentlySeen(before: Buckets, after: Buckets) {
    forall gone, kept :: gone in before && gone !in after && kept in after ==> before[gone].seen <= after[kept].seen
  }

  ghost predicate SeenTogether(m: Buckets) {
    forall a, b :: a in m && b in m ==> m[a].seen == m[b].seen
  }

  lemma {:induction false} SubsetOfSize(s: set<string>, n: nat) returns (t: set<string>)
    requires n <= |s|
    ensures t <= s && |t| == n
    decreases |s|
  {
    if n == |s| {
      t := s;
    } else {
      var x := Pick(s);
      t := SubsetOfSize(s - {x}, n);
    }
  }

  /** An eviction that keeps the older of two keys and takes the later one. */
  lemma OlderKeyCanStay(before: Buckets, now: real, maxKeys: nat, older: string, later: string) returns (after: Buckets)
    requires var kept := WithoutIdle(before, now);
             && maxKeys <= |kept| && Surplus(maxKeys) < |kept|
             && older in kept && later in kept && kept[older].seen < kept[later].seen
    ensures Evicted(before, after, now, maxKeys) && older in after && later !in after
  {
    var kept := WithoutIdle(before, now);
    var others := kept.Keys - {older, later};
    assert kept.Keys == others + {older, later};
    var some := SubsetOfSize(others, |kept| - Surplus(maxKeys) - 1);
    var chosen := some + {older};
    after := map key | key in chosen :: kept[key];
    assert after.Keys == chosen;
    assert WithoutIdle(before, now).Keys <= before.Keys;
    SubsetSize(kept.Keys, before.Keys);
  }

  /**
   The last eviction pass takes arbitrary keys. It is sure to take the least recently seen ones only when it takes
   every key there is, or when all were seen at the same time.
   */
  lemma LeastRecentlySeenExactlyWhen(before: Buckets, now: real, maxKeys: nat)
    requires maxKeys <= |WithoutIdle(before, now)|
    ensures (forall after :: Evicted(before, after, now, maxKeys) ==> LeastRecentlySeen(before, after))
            <==> |WithoutIdle(before, now)| <= Surplus(maxKeys) || SeenTogether(WithoutIdle(before, now))
  {
    var kept := WithoutIdle(before, now);
    SubsetSize(kept.Keys, before.Keys);
    if |kept| > Surplus(maxKeys) && !SeenTogether(kept) {
      var a, b :| a in kept && b in kept && kept[a].seen < kept[b].seen;
      var after := OlderKeyCanStay(before, now, maxKeys, a, b);
      assert !LeastRecentlySeen(before, after);
    }
    forall after | Evicted(before, after, now, maxKeys) && (|kept| <= Surplus(maxKeys) || SeenTogether(kept))
      ensures LeastRecentlySeen(before, after)
    {
      assert after.Keys <= kept.Keys;
      assert |kept| <= Surplus(maxKeys) ==> |after| == 0;
      assert forall key :: key in before && key !in kept ==> Idle(before[key], now);
      assert forall key :: key in kept ==> !Idle(kept[key], now) && kept[key] == before[key];
    }
  }

  /**
   What an eviction comes to: nothing while there is room; else exactly the buckets not asked for in ten minutes; and
   if that makes no room, a tenth of the ceiling besides, or one bucket when that is nothing.
   */
  lemma EvictionTakes(before: Buckets, after: Buckets, now: real, maxKeys: nat)
    requires Evicted(before, after, now, maxKeys)
    ensures |before| < maxKeys ==> after == before
    ensures forall key :: key in after ==> key in before && after[key] == before[key]
    ensures |before| >= maxKeys ==> forall key :: key in after ==> now <= before[key].seen + 600.0
    ensures var recent := set key | key in before && now <= before[key].seen + 600.0; var gone := |recent| - |after|;
            |before| >= maxKeys ==>
              if |recent| < maxKeys then after.Keys == recent
              else 10 * gone <= maxKeys < 10 * gone + 10 || (gone == 1 && maxKeys < 10)
  {
    var kept := WithoutIdle(before, now);
    assert kept.Keys == set key | key in before && now <= before[key].seen + 600.0;
  }

  /** For example with room for two keys: the one seen at second 0 may stay, and the one seen at second 1 go. */
  lemma LaterKeyGoesFirst()
    ensures var first, second := Bucket(0.0, 0.0, 0.0), Bucket(0.0, 1.0, 1.0);
            Evicted(map["a" := first, "b" := second], map["a" := first], 2.0, 2)
  {
    var m := map["a" := Bucket(0.0, 0.0, 0.0), "b" := Bucket(0.0, 1.0, 1.0)];
    assert WithoutIdle(m, 2.0) == m && |m.Keys| == |{"a", "b"}| == 2;
  }

  lemma SmallerWithout(m: Buckets, key: string)
    requires key in m
    ensures |m - {key}| == |m| - 1
  {
    assert (m - {key}).Keys == m.Keys - {key};
  }

  lemma NonEmptyMap(m: Buckets)
    requires |m| > 0
    ensures exists key :: key in m
  {
    assert m.Keys != {};
  }

  /**
   The gateway's entry point: nothing is limited when the limiter is off, and in shadow mode requests are
   charged but never refused. The bucket is named after the rule as well as the caller.
   */
  method Check(limiter: MemoryLimiter, enabled: bool, shadow: bool, key: string, rule: Rule, now: real)
      returns (answer: Decision)
    requires limiter.Valid()
    modifies limiter
    ensures limiter.Valid()
    ensures !enabled ==> answer == Allowed && limiter.buckets == old(limiter.buckets)
    ensures enabled ==> exists raw ::
              && AllowStep(old(limiter.buckets), limiter.buckets, limiter.maxKeys, BucketKey(rule.name, key), rule,
                now, raw)
              && answer == if shadow then Allowed else raw
  {
    if !enabled {
      return Allowed;
    }
    answer := limiter.Allow(BucketKey(rule.name, key), rule, now);
    if shadow {
      answer := Allowed;
    }
  }

  function BucketKey(ruleName: string, key: string): string {
    ruleName + "|" + key
  }

  /** Rules whose names hold no bar never share a bucket, whatever the callers' keys are. */
  lemma BucketKeyNamesOneRule(name1: string, key1: string, name2: string, key2: string)
    requires '|' !in name1 && '|' !in name2
    requires BucketKey(name1, key1) == BucketKey(name2, key2)
    ensures name1 == name2 && key1 == key2
  {
    FirstSeparatorSplits(name1, key1, name2, key2, '|');
  }

  // ---------------------------------------------------------------- whole runs over all keys

  datatype Call = Call(key: string, rule: Rule, now: real, answer: Decision)

  /**
   A run of Allow from the empty map: the calls in the order in which they take the lock, and the map before each of
   them and at the end. Each reads the clock before it takes the lock, so the readings may be out of order.
   */
  ghost predicate Run(maps: seq<Buckets>, calls: seq<Call>, maxKeys: nat) {
    && maxKeys > 0
    && |maps| == |calls| + 1
    && maps[0] == map[]
    && forall n :: 0 <= n < |calls| ==> CallStep(maps, calls, maxKeys, n)
  }

  /** The calls take the lock in the order of their readings. */
  ghost predicate Ordered(calls: seq<Call>) {
    forall i, j :: 0 <= i < j < |calls| ==> calls[i].now <= calls[j].now
  }

  ghost predicate CallStep(maps: seq<Buckets>, calls: seq<Call>, maxKeys: nat, n: nat)
    requires |maps| == |calls| + 1 && n < |calls|
  {
    AllowStep(maps[n], maps[n + 1], maxKeys, calls[n].key, calls[n].rule, calls[n].now, calls[n].answer)
  }

  ghost predicate OneRule(calls: seq<Call>, key: string, rule: Rule) {
    forall n :: 0 <= n < |calls| && calls[n].key == key ==> calls[n].rule == rule
  }

  /** Once the key has a bucket in this stretch, no eviction takes it. */
  ghost predicate NotEvicted(maps: seq<Buckets>, calls: seq<Call>, key: string, i: nat, j: nat)
    requires |maps| == |calls| + 1 && i <= j <= |calls|
  {
    forall x, y :: i <= x < y <= j && calls[x].key == key ==> key in maps[y]
  }

  ghost function GrantedTo(calls: seq<Call>, key: string, i: nat, j: nat): nat
    requires j <= |calls|
  {
    if j <= i then 0
    else GrantedTo(calls, key, i, j - 1) + if calls[j - 1].key == key && calls[j - 1].answer.Allowed? then 1 else 0
  }

  /** It counts the calls of the key in the stretch that were allowed. */
  lemma {:induction false} GrantedToCounts(calls: seq<Call>, key: string, i: nat, j: nat)
    requires j <= |calls|
    ensures GrantedTo(calls, key, i, j) == |set n | i <= n < j && calls[n].key == key && calls[n].answer == Allowed|
  {
    var allowed := set n | i <= n < j && calls[n].key == key && calls[n].answer == Allowed;
    if j <= i {
      assert allowed == {};
    } else {
      GrantedToCounts(calls, key, i, j - 1);
      var before := set n | i <= n < j - 1 && calls[n].key == key && calls[n].answer == Allowed;
      assert allowed == before + if calls[j - 1].key == key && calls[j - 1].answer == Allowed then {j - 1} else {};
    }
  }

  lemma CallStaysInBounds(before: Buckets, after: Buckets, maxKeys: nat, call: Call)
    requires AllowStep(before, after, maxKeys, call.key, call.rule, call.now, call.answer)
    requires maxKeys > 0 && |before| <= maxKeys
    ensures |after| <= maxKeys
  {
    if call.rule.Active() && call.key !in before {
      assert (after - {call.key}).Keys == after.Keys - {call.key};
      assert WithoutIdle(before, call.now).Keys <= before.Keys;
      SubsetSize(WithoutIdle(before, call.now).Keys, before.Keys);
    } else if call.rule.Active() {
      assert after.Keys == before.Keys;
    }
  }

  lemma {:induction false} MapNeverOutgrows(maps: seq<Buckets>, calls: seq<Call>, maxKeys: nat, n: nat)
    requires Run(maps, calls, maxKeys) && n < |maps|
    ensures |maps[n]| <= maxKeys
  {
    if n > 0 {
      MapNeverOutgrows(maps, calls, maxKeys, n - 1);
      assert CallStep(maps, calls, maxKeys, n - 1);
      CallStaysInBounds(maps[n - 1], maps[n], maxKeys, calls[n - 1]);
    }
  }

  /** The last of the first n calls for the key. */
  ghost predicate LastCall(calls: seq<Call>, key: string, n: nat, x: nat)
    requires n <= |calls|
  {
    x < n && calls[x].key == key && forall y :: x < y < n ==> calls[y].key != key
  }

  /** Every stored bucket was last seen by its key's last call, and holds between nothing and a full load. */
  lemma {:induction false} StoredBucketsSound(maps: seq<Buckets>, calls: seq<Call>, maxKeys: nat, key: string,
      rule: Rule, n: nat)
    requires Run(maps, calls, maxKeys) && OneRule(calls, key, rule) && rule.Active() && n < |maps|
    ensures key in maps[n] ==> 0.0 <= maps[n][key].tokens <= rule.Capacity() as real
    ensures key in maps[n] ==> exists x: nat :: LastCall(calls, key, n, x) && maps[n][key].seen == calls[x].now
    ensures key in maps[n] ==>
              maps[n][key].seen <= maps[n][key].last && (Ordered(calls) ==> maps[n][key].seen == maps[n][key].last)
  {
    if n > 0 {
      StoredBucketsSound(maps, calls, maxKeys, key, rule, n - 1);
      assert CallStep(maps, calls, maxKeys, n - 1);
      var call := calls[n - 1];
      if call.key == key {
        assert call.rule == rule;
        TokensStaySound(Lookup(maps[n - 1], key), rule.AsBudget(), call.now);
        assert LastCall(calls, key, n, n - 1);
      } else if key in maps[n] {
        OtherKeyUntouched(maps[n - 1], maps[n], maxKeys, call, key);
        var x: nat :| LastCall(calls, key, n - 1, x) && maps[n - 1][key].seen == calls[x].now;
        assert LastCall(calls, key, n, x);
      }
    }
  }

  lemma TokensStaySound(slot: Option<Bucket>, q: Budget, now: real)
    requires Sound(q) && (slot.Some? ==> 0.0 <= slot.value.tokens <= q.full as real)
    ensures 0.0 <= Charged(Refilled(slot, q, now)).tokens <= q.full as real
  {
    if slot.Some? {
      EarnedIsLinear(q.rate, slot.value.last, now);
    }
  }

  lemma OtherKeyUntouched(before: Buckets, after: Buckets, maxKeys: nat, call: Call, key: string)
    requires AllowStep(before, after, maxKeys, call.key, call.rule, call.now, call.answer)
    requires key != call.key && key in after
    ensures key in before && after[key] == before[key]
  {
    assert key in after - {call.key};
  }

  /** The part of a bucket's time that lies before the end of the interval. */
  ghost function Until(last: real, finish: real): real {
    if last < finish then last else finish
  }

  /** What was granted since `start` plus what is left is covered by one full bucket and the refill since then. */
  ghost predicate Covered(slot: Option<Bucket>, granted: nat, q: Budget, start: real, finish: real) {
    granted == 0 ||
    (slot.Some? && start <= slot.value.last
      && granted as real + slot.value.tokens <= q.full as real + Earned(q.rate, Until(slot.value.last, finish) - start))
  }

  /** One call of the key within the interval; its reading may lie before that of an earlier call. */
  lemma ChargeKeepsCover(slot: Option<Bucket>, granted: nat, q: Budget, start: real, finish: real, now: real)
    requires Sound(q) && Covered(slot, granted, q, start, finish) && start <= now <= finish
    requires slot.Some? ==> 0.0 <= slot.value.tokens <= q.full as real
    ensures var met := Refilled(slot, q, now);
            Covered(Some(Charged(met)), granted + if met.tokens >= 1.0 then 1 else 0, q, start, finish)
  {
    var met := Refilled(slot, q, now);
    EarnedIsLinear(q.rate, start, Until(met.last, finish));
    if slot.Some? {
      EarnedIsLinear(q.rate, slot.value.last, now);
      EarnedIsLinear(q.rate, start, Until(slot.value.last, finish));
    }
  }

  lemma CallKeepsCover(before: Buckets, after: Buckets, maxKeys: nat, call: Call, key: string, rule: Rule,
      granted: nat, start: real, finish: real)
    requires AllowStep(before, after, maxKeys, call.key, call.rule, call.now, call.answer)
    requires rule.Active() && Covered(Lookup(before, key), granted, rule.AsBudget(), start, finish)
    requires key in before ==> 0.0 <= before[key].tokens <= rule.Capacity() as real
    requires if call.key == key then call.rule == rule && start <= call.now <= finish else granted > 0 ==> key in after
    ensures Covered(Lookup(after, key), granted + if call.key == key && call.answer.Allowed? then 1 else 0,
              rule.AsBudget(), start, finish)
  {
    if call.key == key {
      ChargeKeepsCover(Lookup(before, key), granted, rule.AsBudget(), start, finish, call.now);
    } else if granted > 0 {
      OtherKeyUntouched(before, after, maxKeys, call, key);
    }
  }

  /** The key's readings in this stretch lie within the interval, in whatever order. */
  ghost predicate ReadWithin(calls: seq<Call>, key: string, i: nat, j: nat, start: real, finish: real)
    requires j <= |calls|
  {
    start <= finish && forall x :: i <= x < j && calls[x].key == key ==> start <= calls[x].now <= finish
  }

  lemma {:induction false} KeyStaysCovered(maps: seq<Buckets>, calls: seq<Call>, maxKeys: nat, key: string,
      rule: Rule, i: nat, j: nat, start: real, finish: real)
    requires Run(maps, calls, maxKeys) && OneRule(calls, key, rule) && rule.Active()
    requires i <= j <= |calls| && NotEvicted(maps, calls, key, i, j) && ReadWithin(calls, key, i, j, start, finish)
    ensures Covered(Lookup(maps[j], key), GrantedTo(calls, key, i, j), rule.AsBudget(), start, finish)
  {
    if i < j {
      KeyStaysCovered(maps, calls, maxKeys, key, rule, i, j - 1, start, finish);
      StoredBucketsSound(maps, calls, maxKeys, key, rule, j - 1);
      assert CallStep(maps, calls, maxKeys, j - 1);
      if GrantedTo(calls, key, i, j - 1) > 0 {
        GrantedWasCalled(calls, key, i, j - 1);
      }
      CallKeepsCover(maps[j - 1], maps[j], maxKeys, calls[j - 1], key, rule, GrantedTo(calls, key, i, j - 1), start,
        finish);
    }
  }

  lemma {:induction false} GrantedWasCalled(calls: seq<Call>, key: string, i: nat, j: nat)
    requires j <= |calls| && GrantedTo(calls, key, i, j) > 0
    ensures exists x :: i <= x < j && calls[x].key == key
  {
    if calls[j - 1].key != key {
      GrantedWasCalled(calls, key, i, j - 1);
    }
  }

  /**
   In any stretch of a run over all keys, a key that keeps its bucket is granted at most capacity + rate * duration
   requests, where the duration is that of any interval which holds its readings.
   */
  lemma KeyWithinBudget(maps: seq<Buckets>, calls: seq<Call>, maxKeys: nat, key: string, rule: Rule, i: nat, j: nat,
      start: real, finish: real)
    requires Run(maps, calls, maxKeys) && OneRule(calls, key, rule) && rule.Active()
    requires i <= j <= |calls| && NotEvicted(maps, calls, key, i, j) && ReadWithin(calls, key, i, j, start, finish)
    ensures GrantedTo(calls, key, i, j) as real <= rule.Capacity() as real + Earned(rule.Rate(), finish - start)
  {
    KeyStaysCovered(maps, calls, maxKeys, key, rule, i, j, start, finish);
    StoredBucketsSound(maps, calls, maxKeys, key, rule, j);
    EarnedIsLinear(rule.Rate(), start, finish);
    if GrantedTo(calls, key, i, j) > 0 {
      var last := Until(maps[j][key].last, finish);
      EarnedIsLinear(rule.Rate(), start, last);
      EarnedIsLinear(rule.Rate(), last, finish);
    }
  }

  /** The same in the rule's own numbers: so many calls at once, and `limit` more in each window. */
  lemma KeyWithinRule(maps: seq<Buckets>, calls: seq<Call>, maxKeys: nat, key: string, rule: Rule, i: nat, j: nat,
      start: real, finish: real)
    requires Run(maps, calls, maxKeys) && OneRule(calls, key, rule) && rule.limit > 0 && rule.window > 0.0
    requires i <= j <= |calls| && NotEvicted(maps, calls, key, i, j) && ReadWithin(calls, key, i, j, start, finish)
    ensures var atOnce := if rule.burst > 0 then rule.burst else rule.limit;
            GrantedTo(calls, key, i, j) as real * rule.window
              <= atOnce as real * rule.window + rule.limit as real * (finish - start)
  {
    var atOnce, granted := if rule.burst > 0 then rule.burst else rule.limit, GrantedTo(calls, key, i, j) as real;
    KeyWithinBudget(maps, calls, maxKeys, key, rule, i, j, start, finish);
    EarnedByRule(rule, finish - start);
    SumScaled(granted, atOnce as real, Earned(rule.Rate(), finish - start), rule.window);
  }

  // ---------------------------------------------------------------- against a limiter without bounds

  /** Each key meets one rule only. */
  ghost predicate RulePerKey(calls: seq<Call>) {
    forall i, j :: 0 <= i < |calls| && 0 <= j < |calls| && calls[i].key == calls[j].key ==>
      calls[i].rule == calls[j].rule
  }

  /** A call as the gateway makes it: under the rule's own name, of which there is one rule. */
  ghost predicate Prefixed(call: Call, rules: map<string, Rule>) {
    && '|' !in call.rule.name && call.rule.name in rules && rules[call.rule.name] == call.rule
    && exists client :: call.key == BucketKey(call.rule.name, client)
  }

  /** Keys with the rule's name in front meet one rule only. */
  lemma PrefixedKeysMeetOneRule(calls: seq<Call>, rules: map<string, Rule>)
    requires forall n :: 0 <= n < |calls| ==> Prefixed(calls[n], rules)
    ensures RulePerKey(calls)
    ensures forall n :: 0 <= n < |calls| ==> OneRule(calls, calls[n].key, calls[n].rule)
  {
    forall i, j | 0 <= i < |calls| && 0 <= j < |calls| && calls[i].key == calls[j].key
      ensures calls[i].rule == calls[j].rule
    {
      var a :| calls[i].key == BucketKey(calls[i].rule.name, a);
      var b :| calls[j].key == BucketKey(calls[j].rule.name, b);
      BucketKeyNamesOneRule(calls[i].rule.name, a, calls[j].rule.name, b);
    }
  }

  /** The bucket a call meets when nothing is ever evicted. */
  ghost function MetUnbounded(calls: seq<Call>, n: nat): Bucket
    requires n < |calls|
    decreases n, 1
  {
    Refilled(Lookup(Unbounded(calls, n), calls[n].key), calls[n].rule.AsBudget(), calls[n].now)
  }

  /** The buckets after n calls when nothing is ever evicted. */
  ghost function Unbounded(calls: seq<Call>, n: nat): Buckets
    requires n <= |calls|
    decreases n, 0
  {
    if n == 0 then map[]
    else if !calls[n - 1].rule.Active() then Unbounded(calls, n - 1)
    else Unbounded(calls, n - 1)[calls[n - 1].key := Charged(MetUnbounded(calls, n - 1))]
  }

  /** Where the key is new, dropping the idle keys makes room for it. */
  ghost predicate IdleSuffices(maps: seq<Buckets>, calls: seq<Call>, maxKeys: nat, n: nat)
    requires |maps| == |calls| + 1 && n < |calls|
  {
    calls[n].rule.Active() && calls[n].key !in maps[n] ==>
      |maps[n]| < maxKeys || |WithoutIdle(maps[n], calls[n].now)| < maxKeys
  }

  /** A rule whose empty bucket is full again within the idle time. */
  ghost predicate QuickRefill(q: Budget) {
    Sound(q) && q.full as real <= Earned(q.rate, IDLE_TTL)
  }

  /** The stored bucket of the key is that of the unbounded map, or is missing after having been idle for too long. */
  ghost predicate MissingOnlyIfIdle(m: Buckets, all: Buckets, key: string, now: real) {
    && (key in m ==> key in all && all[key] == m[key])
    && (key in all ==> 0.0 <= all[key].tokens && all[key].last == all[key].seen <= now)
    && (key in all && key !in m ==> Idle(all[key], now))
  }

  lemma SameMet(m: Buckets, all: Buckets, key: string, q: Budget, now: real)
    requires MissingOnlyIfIdle(m, all, key, now) && QuickRefill(q)
    ensures Refilled(Lookup(m, key), q, now) == Refilled(Lookup(all, key), q, now)
    ensures var b := Charged(Refilled(Lookup(all, key), q, now)); 0.0 <= b.tokens && b.last == b.seen == now
  {
    if key in all {
      EarnedIsLinear(q.rate, IDLE_TTL, now - all[key].last);
      EarnedIsLinear(q.rate, 0.0, now - all[key].last);
    }
  }

  /** A call for another key, under whatever rule, can only drop the bucket if it is idle. */
  lemma OtherCallKeepsBucket(m: Buckets, after: Buckets, maxKeys: nat, call: Call, key: string)
    requires AllowStep(m, after, maxKeys, call.key, call.rule, call.now, call.answer) && call.key != key && key in m
    requires call.rule.Active() && call.key !in m ==> |m| < maxKeys || |WithoutIdle(m, call.now)| < maxKeys
    ensures if key in after then after[key] == m[key] else Idle(m[key], call.now)
  {
    if call.rule.Active() && call.key !in m {
      var left := after - {call.key};
      assert left == m || left == WithoutIdle(m, call.now);
      assert key in after <==> key in left;
    }
  }

  lemma {:induction false} MissingStaysIdle(maps: seq<Buckets>, calls: seq<Call>, maxKeys: nat, key: string,
      rule: Rule, n: nat, now: real)
    requires Run(maps, calls, maxKeys) && Ordered(calls) && n <= |calls| && OneRule(calls, key, rule)
    requires rule.Active() && QuickRefill(rule.AsBudget())
    requires forall x :: 0 <= x < n ==> IdleSuffices(maps, calls, maxKeys, x)
    requires n > 0 ==> calls[n - 1].now <= now
    ensures MissingOnlyIfIdle(maps[n], Unbounded(calls, n), key, now)
  {
    if n > 0 {
      var m, after, all, call := maps[n - 1], maps[n], Unbounded(calls, n - 1), calls[n - 1];
      MissingStaysIdle(maps, calls, maxKeys, key, rule, n - 1, call.now);
      assert CallStep(maps, calls, maxKeys, n - 1) && IdleSuffices(maps, calls, maxKeys, n - 1);
      if call.key == key {
        assert call.rule == rule;
        SameMet(m, all, key, rule.AsBudget(), call.now);
      } else if key in m {
        OtherCallKeepsBucket(m, after, maxKeys, call, key);
      } else if key in after {
        OtherKeyUntouched(m, after, maxKeys, call, key);
      }
    }
  }

  /**
   As long as dropping idle keys always makes room, a key whose own rule refills within the idle time is answered as
   by a limiter that never forgets, whatever the rules of the other keys.
   */
  lemma AnswersAsUnbounded(maps: seq<Buckets>, calls: seq<Call>, maxKeys: nat, n: nat)
    requires Run(maps, calls, maxKeys) && Ordered(calls) && n < |calls| && calls[n].rule.Active()
    requires OneRule(calls, calls[n].key, calls[n].rule) && QuickRefill(calls[n].rule.AsBudget())
    requires forall x :: 0 <= x < n ==> IdleSuffices(maps, calls, maxKeys, x)
    ensures calls[n].answer == Decide(MetUnbounded(calls, n), calls[n].rule.AsBudget())
  {
    assert CallStep(maps, calls, maxKeys, n);
    MissingStaysIdle(maps, calls, maxKeys, calls[n].key, calls[n].rule, n, calls[n].now);
    SameMet(maps[n], Unbounded(calls, n), calls[n].key, calls[n].rule.AsBudget(), calls[n].now);
  }
}
