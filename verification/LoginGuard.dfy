/**
 The failed-login guard: failures per (account, address) and per account, with a lock that doubles.
 Time is in nanoseconds.
 */
module LoginGuard {
  import opened Options

  const SECOND := 1_000_000_000
  const MINUTE := 60 * SECOND
  const ACCOUNT_IP_LIMIT := 5
  const ACCOUNT_LIMIT := 20
  const WINDOW := 15 * MINUTE
  const LOCK_BASE := 30 * SECOND
  const ACCOUNT_LOCK_BASE := 5 * MINUTE
  const LOCK_MAX := 15 * MINUTE
  const MAX_KEYS := 10_000
  const INT64_LIMIT := 0x8000_0000_0000_0000

  datatype Entry = Entry(failures: nat, windowStart: int, lockedUntil: Option<int>)

  type Entries = map<string, Entry>

  function AccountIPKey(email: string, ip: string): string {
    "acct-ip|" + email + "|" + ip
  }

  function AccountKey(email: string): string {
    "acct|" + email
  }

  function Pow2(n: nat): (p: nat)
    ensures p >= 1
  {
    if n == 0 then 1 else 2 * Pow2(n - 1)
  }

  /** Two's complement wrap-around of a 64-bit product. */
  function WrapInt64(x: int): int {
    (x + INT64_LIMIT) % (2 * INT64_LIMIT) - INT64_LIMIT
  }

  /** The doubling lock as the 64-bit product computes it; a factor beyond the range converts to the least value. */
  function LockFor(base: int, over: nat): int {
    var factor := if over < 63 then Pow2(over) else -INT64_LIMIT;
    var lock := WrapInt64(base * factor);
    if lock > LOCK_MAX then LOCK_MAX else lock
  }

  predicate LockedAt(m: Entries, key: string, now: int) {
    key in m && m[key].lockedUntil.Some? && now < m[key].lockedUntil.value
  }

  function WaitFor(m: Entries, key: string, now: int): int
    requires LockedAt(m, key, now)
  {
    var wait := m[key].lockedUntil.value - now;
    if wait < SECOND then SECOND else wait
  }

  /** The wait reported by Blocked: that of the first locked key. */
  function BlockedFor(m: Entries, email: string, ip: string, now: int): Option<int> {
    if email == "" then None
    else if LockedAt(m, AccountIPKey(email, ip), now) then Some(WaitFor(m, AccountIPKey(email, ip), now))
    else if LockedAt(m, AccountKey(email), now) then Some(WaitFor(m, AccountKey(email), now))
    else None
  }

  function Bumped(slot: Option<Entry>, now: int, limit: nat, window: int, base: int): Entry {
    var e := if slot.None? || now - slot.value.windowStart >= window then Entry(0, now, None) else slot.value;
    var failures := e.failures + 1;
    if failures < limit then e.(failures := failures)
    else
      var until := now + LockFor(base, failures - limit);
      Entry(failures, e.windowStart, if e.lockedUntil.None? || until > e.lockedUntil.value then Some(until)
        else e.lockedUntil)
  }

  function Lookup(m: Entries, key: string): Option<Entry> {
    if key in m then Some(m[key]) else None
  }

  predicate Dead(e: Entry, now: int) {
    now - e.windowStart >= WINDOW && (e.lockedUntil.None? || e.lockedUntil.value <= now)
  }

  function Pruned(m: Entries, now: int): Entries {
    if |m| < MAX_KEYS then m else map key | key in m && !Dead(m[key], now) :: m[key]
  }

  function Record(m: Entries, key: string, now: int, limit: nat, base: int): Entries {
    m[key := Bumped(Lookup(m, key), now, limit, WINDOW, base)]
  }

  /** Both counters after one failed attempt. */
  function Failed(m: Entries, email: string, ip: string, now: int): Entries {
    if email == "" then m
    else Record(Record(m, AccountIPKey(email, ip), now, ACCOUNT_IP_LIMIT, LOCK_BASE), AccountKey(email), now,
      ACCOUNT_LIMIT, ACCOUNT_LOCK_BASE)
  }

  function Cleared(m: Entries, email: string, ip: string): Entries {
    if email == "" then m else m - {AccountIPKey(email, ip), AccountKey(email)}
  }

  class Guard {
    /** What makes one address of its spellings: trimmed and in lower case. */
    const normalize: string -> string
    var entries: Entries

    constructor (normalize: string -> string)
      ensures entries == map[] && this.normalize == normalize
    {
      this.normalize, entries := normalize, map[];
    }

    method Blocked(address: string, ip: string, now: int) returns (blocked: bool, wait: int)
      ensures blocked <==> BlockedFor(entries, normalize(address), ip, now).Some?
      ensures wait == if blocked then BlockedFor(entries, normalize(address), ip, now).value else 0
    {
      var email := normalize(address);
      if email == "" {
        return false, 0;
      }
      var keys := [AccountIPKey(email, ip), AccountKey(email)];
      assert keys[0] == AccountIPKey(email, ip) && keys[1] == AccountKey(email);
      for i := 0 to 2
        invariant forall k :: 0 <= k < i ==> !LockedAt(entries, keys[k], now)
      {
        var key := keys[i];
        if key !in entries || entries[key].lockedUntil.None? || now >= entries[key].lockedUntil.value {
          continue;
        }
        wait := entries[key].lockedUntil.value - now;
        if wait < SECOND {
          wait := SECOND;
        }
        return true, wait;
      }
      assert !LockedAt(entries, keys[0], now) && !LockedAt(entries, keys[1], now);
      return false, 0;
    }

    method RecordFailure(address: string, ip: string, now: int)
      modifies this`entries
      ensures entries == After(old(entries), Failure(normalize(address), ip, now), true)
    {
      var email := normalize(address);
      if email == "" {
        return;
      }
      Prune(now);
      RecordLocked(AccountIPKey(email, ip), now, ACCOUNT_IP_LIMIT, WINDOW, LOCK_BASE);
      RecordLocked(AccountKey(email), now, ACCOUNT_LIMIT, WINDOW, ACCOUNT_LOCK_BASE);
    }

    method RecordSuccess(address: string, ip: string)
      modifies this`entries
      ensures entries == Cleared(old(entries), normalize(address), ip)
    {
      var email := normalize(address);
      if email == "" {
        return;
      }
      entries := entries - {AccountIPKey(email, ip)};
      entries := entries - {AccountKey(email)};
    }

    method RecordLocked(key: string, now: int, limit: nat, window: int, base: int)
      modifies this`entries
      ensures entries == old(entries)[key := Bumped(Lookup(old(entries), key), now, limit, window, base)]
    {
      var entry := if key !in entries || now - entries[key].windowStart >= window then Entry(0, now, None)
        else entries[key];
      entry := entry.(failures := entry.failures + 1);
      if entry.failures >= limit {
        var lock := WrapInt64(base * if entry.failures - limit < 63 then Pow2(entry.failures - limit)
          else -INT64_LIMIT);
        if lock > LOCK_MAX {
          lock := LOCK_MAX;
        }
        var until := now + lock;
        if entry.lockedUntil.None? || until > entry.lockedUntil.value {
          entry := entry.(lockedUntil := Some(until));
        }
      }
      entries := entries[key := entry];
    }

    method Prune(now: int)
      modifies this`entries
      ensures entries == Pruned(old(entries), now)
    {
      if |entries| < MAX_KEYS {
        return;
      }
      var keys := entries.Keys;
      while keys != {}
        invariant keys <= entries.Keys <= old(entries).Keys
        invariant forall key :: key in entries ==> entries[key] == old(entries)[key]
        invariant forall key :: key in old(entries) && key !in keys ==>
                    (key in entries <==> !Dead(old(entries)[key], now))
        decreases keys
      {
        var key :| key in keys;
        if now - entries[key].windowStart >= WINDOW
          && (entries[key].lockedUntil.None? || entries[key].lockedUntil.value <= now) {
          entries := entries - {key};
        }
        keys := keys - {key};
      }
    }
  }

  // ---------------------------------------------------------------- the lock

  lemma {:induction false} Pow2Monotone(m: nat, n: nat)
    requires m <= n
    ensures Pow2(m) <= Pow2(n)
  {
    if m < n {
      Pow2Monotone(m, n - 1);
    }
  }

  lemma PowersOfTwo()
    ensures Pow2(4) == 16 && Pow2(24) == 0x100_0000 && Pow2(25) == 0x200_0000
    ensures Pow2(28) == 0x1000_0000 && Pow2(29) == 0x2000_0000
  {
    assert Pow2(4) == 16;
    assert Pow2(8) == 16 * Pow2(4);
    assert Pow2(12) == 16 * Pow2(8);
    assert Pow2(16) == 16 * Pow2(12);
    assert Pow2(20) == 16 * Pow2(16);
    assert Pow2(24) == 16 * Pow2(20);
    assert Pow2(28) == 16 * Pow2(24);
  }

  lemma InRangeUnwrapped(x: int)
    requires -INT64_LIMIT <= x < INT64_LIMIT
    ensures WrapInt64(x) == x
  {
  }

  lemma Scaled(base: int, x: nat, y: nat)
    requires base > 0 && x <= y
    ensures 0 <= base * x <= base * y
    ensures base * (2 * x - 1) == base * x + base * (x - 1)
  {
  }

  lemma UnwrappedLock(base: int, over: nat)
    requires base > 0 && over < 63 && base * Pow2(over) < INT64_LIMIT
    ensures LockFor(base, over) == if base * Pow2(over) > LOCK_MAX then LOCK_MAX else base * Pow2(over)
  {
    Scaled(base, 0, Pow2(over));
    InRangeUnwrapped(base * Pow2(over));
  }

  /** The doubling lock as it is meant: capped, and never wrapping around. */
  function TrueLock(base: int, over: nat): int {
    if base * Pow2(over) > LOCK_MAX then LOCK_MAX else base * Pow2(over)
  }

  /** The 64-bit product of a lock's base with a power of two. */
  function Product(base: int, over: nat): int {
    WrapInt64(base * Pow2(over))
  }

  lemma WrapShifted(x: int, turns: int)
    ensures WrapInt64(x + turns * (2 * INT64_LIMIT)) == WrapInt64(x)
  {
  }

  lemma WrapDoubles(x: int)
    ensures WrapInt64(2 * x) == WrapInt64(2 * WrapInt64(x))
  {
    var turns := (x + INT64_LIMIT) / (2 * INT64_LIMIT);
    assert WrapInt64(x) == x - turns * (2 * INT64_LIMIT);
    WrapShifted(2 * x, -2 * turns);
  }

  lemma ProductDoubles(base: int, over: nat)
    ensures Product(base, over + 1) == WrapInt64(2 * Product(base, over))
  {
    WrapDoubles(base * Pow2(over));
    assert base * Pow2(over + 1) == 2 * (base * Pow2(over));
  }

  /** Doubling in 64 bits. */
  function Twice(x: int): int {
    if 2 * x >= INT64_LIMIT then 2 * x - 2 * INT64_LIMIT else if 2 * x < -INT64_LIMIT then 2 * x + 2 * INT64_LIMIT
      else 2 * x
  }

  lemma TwiceWraps(x: int)
    requires -INT64_LIMIT <= x < INT64_LIMIT
    ensures Twice(x) == WrapInt64(2 * x)
  {
  }

  predicate Doubling(table: seq<int>) {
    forall i :: 0 <= i < |table| - 1 ==> table[i + 1] == Twice(table[i])
  }

  lemma {:induction false} ProductsFrom(base: int, first: nat, table: seq<int>, i: nat)
    requires Doubling(table) && i < |table| && Product(base, first) == table[0]
    ensures Product(base, first + i) == table[i]
  {
    if i > 0 {
      ProductsFrom(base, first, table, i - 1);
      ProductDoubles(base, first + i - 1);
      TwiceWraps(Product(base, first + i - 1));
    }
  }

  lemma {:induction false} ProductStaysZero(base: int, first: nat, over: nat)
    requires Product(base, first) == 0 && first <= over
    ensures Product(base, over) == 0
  {
    if first < over {
      ProductStaysZero(base, first, over - 1);
      ProductDoubles(base, over - 1);
    }
  }

  /** The products of the (account, address) lock from the 28th doubling on, until nothing is left of them. */
  const ADDRESS_PRODUCTS := [
    8_053_063_680_000_000_000, -2_340_616_713_709_551_616, -4_681_233_427_419_103_232, 9_084_277_218_871_345_152,
    -278_189_635_966_861_312, -556_379_271_933_722_624, -1_112_758_543_867_445_248, -2_225_517_087_734_890_496,
    -4_451_034_175_469_780_992, -8_902_068_350_939_561_984, 642_607_371_830_427_648, 1_285_214_743_660_855_296,
    2_570_429_487_321_710_592, 5_140_858_974_643_421_184, -8_165_026_124_422_709_248, 2_116_691_824_864_133_120,
    4_233_383_649_728_266_240, 8_466_767_299_456_532_480, -1_513_209_474_796_486_656, -3_026_418_949_592_973_312,
    -6_052_837_899_185_946_624, 6_341_068_275_337_658_368, -5_764_607_523_034_234_880, 6_917_529_027_641_081_856,
    -4_611_686_018_427_387_904, -9_223_372_036_854_775_808, 0]

  /** The products of the account lock from the 24th doubling on. */
  const ACCOUNT_PRODUCTS := [
    5_033_164_800_000_000_000, -8_380_414_473_709_551_616, 1_685_915_126_290_448_384, 3_371_830_252_580_896_768,
    6_743_660_505_161_793_536, -4_959_423_063_385_964_544, 8_527_897_946_937_622_528, -1_390_948_179_834_306_560,
    -2_781_896_359_668_613_120, -5_563_792_719_337_226_240, 7_319_158_635_035_099_136, -3_808_426_803_639_353_344,
    -7_616_853_607_278_706_688, 3_213_036_859_152_138_240, 6_426_073_718_304_276_480, -5_594_596_637_100_998_656,
    7_257_550_799_507_554_304, -3_931_642_474_694_443_008, -7_863_284_949_388_886_016, 2_720_174_174_931_779_584,
    5_440_348_349_863_559_168, -7_566_047_373_982_433_280, 3_314_649_325_744_685_056, 6_629_298_651_489_370_112,
    -5_188_146_770_730_811_392, 8_070_450_532_247_928_832, -2_305_843_009_213_693_952, -4_611_686_018_427_387_904,
    -9_223_372_036_854_775_808, 0]

  /** The doublings after which the (account, address) lock is what it should be. */
  predicate AddressLockFits(over: nat) {
    over <= 28 || over == 31 || 38 <= over <= 41 || 43 <= over <= 45 || over == 49 || over == 51
  }

  /** The doublings after which the account lock is what it should be. */
  predicate AccountLockFits(over: nat) {
    over <= 24 || 26 <= over <= 28 || over == 30 || over == 34 || 37 <= over <= 38 || over == 40
    || 43 <= over <= 44 || 46 <= over <= 47 || over == 49
  }

  lemma AddressProductsDouble()
    ensures Doubling(ADDRESS_PRODUCTS)
  {
    assert forall i :: 0 <= i < 13 ==> ADDRESS_PRODUCTS[i + 1] == Twice(ADDRESS_PRODUCTS[i]);
    assert forall i :: 13 <= i < |ADDRESS_PRODUCTS| - 1 ==> ADDRESS_PRODUCTS[i + 1] == Twice(ADDRESS_PRODUCTS[i]);
  }

  lemma AddressProductsFit()
    ensures forall i :: 0 <= i < |ADDRESS_PRODUCTS| ==> (ADDRESS_PRODUCTS[i] >= LOCK_MAX <==> AddressLockFits(28 + i))
  {
  }

  lemma AddressProducts(over: nat)
    requires 28 <= over < 28 + |ADDRESS_PRODUCTS|
    ensures Product(LOCK_BASE, over) == ADDRESS_PRODUCTS[over - 28]
  {
    PowersOfTwo();
    AddressProductsDouble();
    ProductsFrom(LOCK_BASE, 28, ADDRESS_PRODUCTS, over - 28);
  }

  lemma AccountProductsDouble()
    ensures Doubling(ACCOUNT_PRODUCTS)
  {
    assert forall i :: 0 <= i < 15 ==> ACCOUNT_PRODUCTS[i + 1] == Twice(ACCOUNT_PRODUCTS[i]);
    assert forall i :: 15 <= i < |ACCOUNT_PRODUCTS| - 1 ==> ACCOUNT_PRODUCTS[i + 1] == Twice(ACCOUNT_PRODUCTS[i]);
  }

  lemma AccountProductsFit()
    ensures forall i :: 0 <= i < |ACCOUNT_PRODUCTS| ==> (ACCOUNT_PRODUCTS[i] >= LOCK_MAX <==> AccountLockFits(24 + i))
  {
  }

  lemma AccountProducts(over: nat)
    requires 24 <= over < 24 + |ACCOUNT_PRODUCTS|
    ensures Product(ACCOUNT_LOCK_BASE, over) == ACCOUNT_PRODUCTS[over - 24]
  {
    PowersOfTwo();
    AccountProductsDouble();
    ProductsFrom(ACCOUNT_LOCK_BASE, 24, ACCOUNT_PRODUCTS, over - 24);
  }

  /** The product leaves the 64-bit range from the `last + 1`-th doubling on. */
  lemma InRangeUpTo(base: int, last: nat, over: nat)
    requires base > 0 && base * Pow2(last) < INT64_LIMIT <= base * Pow2(last + 1)
    ensures base * Pow2(over) < INT64_LIMIT <==> over <= last
  {
    if over <= last {
      Pow2Monotone(over, last);
      Scaled(base, Pow2(over), Pow2(last));
    } else {
      Pow2Monotone(last + 1, over);
      Scaled(base, Pow2(last + 1), Pow2(over));
    }
  }

  /** The least 64-bit number, which every larger factor converts to, takes an even base to 0. */
  lemma NothingIsLeft(base: int)
    requires base % 2 == 0
    ensures WrapInt64(base * -INT64_LIMIT) == 0
  {
    assert base * -INT64_LIMIT == 0 + -(base / 2) * (2 * INT64_LIMIT);
    WrapShifted(0, -(base / 2));
  }

  /** Beyond the range the lock is right only if the wrapped product happens to be large again. */
  lemma WrappedLockFits(base: int, over: nat)
    requires base > 0 && base * Pow2(over) >= INT64_LIMIT && base % 2 == 0
    ensures LockFor(base, over) == TrueLock(base, over) <==> over < 63 && Product(base, over) >= LOCK_MAX
  {
    if over >= 63 {
      NothingIsLeft(base);
    }
  }

  lemma AddressRangeEnds()
    ensures LOCK_BASE * Pow2(28) < INT64_LIMIT <= LOCK_BASE * Pow2(29)
  {
    PowersOfTwo();
  }

  lemma AddressProductLarge(over: nat)
    requires over > 28
    ensures over < 63 && Product(LOCK_BASE, over) >= LOCK_MAX <==> AddressLockFits(over)
  {
    AddressProductsFit();
    AddressProducts(if over < 54 then over else 54);
    if over >= 54 {
      ProductStaysZero(LOCK_BASE, 54, over);
    }
  }

  lemma AddressInRange(over: nat)
    ensures LOCK_BASE * Pow2(over) < INT64_LIMIT <==> over <= 28
  {
    AddressRangeEnds();
    InRangeUpTo(LOCK_BASE, 28, over);
  }

  lemma AddressLockInRange(over: nat)
    requires over <= 28
    ensures LOCK_BASE * Pow2(over) < INT64_LIMIT && LockFor(LOCK_BASE, over) == TrueLock(LOCK_BASE, over)
  {
    AddressInRange(over);
    UnwrappedLock(LOCK_BASE, over);
  }

  lemma AddressLockBeyond(over: nat)
    requires over > 28
    ensures LOCK_BASE * Pow2(over) >= INT64_LIMIT
    ensures LockFor(LOCK_BASE, over) == TrueLock(LOCK_BASE, over) <==> AddressLockFits(over)
  {
    AddressInRange(over);
    AddressProductLarge(over);
    WrappedLockFits(LOCK_BASE, over);
  }

  /** Exactly which (account, address) locks are right, among all numbers of failures past the limit. */
  lemma AddressLockIsRightWhen(over: nat)
    ensures LOCK_BASE * Pow2(over) < INT64_LIMIT <==> over <= 28
    ensures LockFor(LOCK_BASE, over) == TrueLock(LOCK_BASE, over) <==> AddressLockFits(over)
  {
    if over <= 28 {
      AddressLockInRange(over);
    } else {
      AddressLockBeyond(over);
    }
  }

  lemma AccountRangeEnds()
    ensures ACCOUNT_LOCK_BASE * Pow2(24) < INT64_LIMIT <= ACCOUNT_LOCK_BASE * Pow2(25)
  {
    PowersOfTwo();
  }

  lemma AccountProductLarge(over: nat)
    requires over > 24
    ensures over < 63 && Product(ACCOUNT_LOCK_BASE, over) >= LOCK_MAX <==> AccountLockFits(over)
  {
    AccountProductsFit();
    AccountProducts(if over < 53 then over else 53);
    if over >= 53 {
      ProductStaysZero(ACCOUNT_LOCK_BASE, 53, over);
    }
  }

  lemma AccountInRange(over: nat)
    ensures ACCOUNT_LOCK_BASE * Pow2(over) < INT64_LIMIT <==> over <= 24
  {
    AccountRangeEnds();
    InRangeUpTo(ACCOUNT_LOCK_BASE, 24, over);
  }

  lemma AccountLockInRange(over: nat)
    requires over <= 24
    ensures ACCOUNT_LOCK_BASE * Pow2(over) < INT64_LIMIT
    ensures LockFor(ACCOUNT_LOCK_BASE, over) == TrueLock(ACCOUNT_LOCK_BASE, over)
  {
    AccountInRange(over);
    UnwrappedLock(ACCOUNT_LOCK_BASE, over);
  }

  lemma AccountLockBeyond(over: nat)
    requires over > 24
    ensures ACCOUNT_LOCK_BASE * Pow2(over) >= INT64_LIMIT
    ensures LockFor(ACCOUNT_LOCK_BASE, over) == TrueLock(ACCOUNT_LOCK_BASE, over) <==> AccountLockFits(over)
  {
    AccountInRange(over);
    AccountProductLarge(over);
    WrappedLockFits(ACCOUNT_LOCK_BASE, over);
  }

  /** The same for the account lock, whose base is ten times as long. */
  lemma AccountLockIsRightWhen(over: nat)
    ensures ACCOUNT_LOCK_BASE * Pow2(over) < INT64_LIMIT <==> over <= 24
    ensures LockFor(ACCOUNT_LOCK_BASE, over) == TrueLock(ACCOUNT_LOCK_BASE, over) <==> AccountLockFits(over)
  {
    if over <= 24 {
      AccountLockInRange(over);
    } else {
      AccountLockBeyond(over);
    }
  }

  // ---------------------------------------------------------------- pruning is unobservable

  /** The two maps agree on every key, except that either may have lost entries that are dead by now. */
  ghost predicate SameForNow(a: Entries, b: Entries, now: int) {
    forall key :: key in a || key in b ==>
      Lookup(a, key) == Lookup(b, key) || ((key !in a || Dead(a[key], now)) && (key !in b || Dead(b[key], now)))
  }

  lemma SameAnswers(a: Entries, b: Entries, email: string, ip: string, now: int)
    requires SameForNow(a, b, now)
    ensures BlockedFor(a, email, ip, now) == BlockedFor(b, email, ip, now)
  {
    forall key
      ensures LockedAt(a, key, now) == LockedAt(b, key, now)
      ensures LockedAt(a, key, now) ==> WaitFor(a, key, now) == WaitFor(b, key, now)
    {
    }
  }

  lemma SameAfterRecord(a: Entries, b: Entries, key: string, now: int, limit: nat, base: int)
    requires SameForNow(a, b, now)
    ensures SameForNow(Record(a, key, now, limit, base), Record(b, key, now, limit, base), now)
  {
    var a', b' := Record(a, key, now, limit, base), Record(b, key, now, limit, base);
    assert Bumped(Lookup(a, key), now, limit, WINDOW, base) == Bumped(Lookup(b, key), now, limit, WINDOW, base);
    forall k | k in a' || k in b'
      ensures Lookup(a', k) == Lookup(b', k) || ((k !in a' || Dead(a'[k], now)) && (k !in b' || Dead(b'[k], now)))
    {
      if k != key {
        assert Lookup(a', k) == Lookup(a, k) && Lookup(b', k) == Lookup(b, k);
      }
    }
  }

  datatype Event = Asked(email: string, ip: string, at: int) | Failure(email: string, ip: string, at: int)
      | Success(email: string, ip: string, at: int)

  function After(m: Entries, e: Event, pruning: bool): Entries {
    match e
    case Asked(_, _, _) => m
    case Failure(email, ip, at) => if email == "" then m
      else Failed(if pruning then Pruned(m, at) else m, email, ip, at)
    case Success(email, ip, _) => Cleared(m, email, ip)
  }

  /** The waits answered to the Asked events of a run. */
  function Answers(m: Entries, run: seq<Event>, pruning: bool): seq<Option<int>>
    decreases run
  {
    if run == [] then []
    else
      (if run[0].Asked? then [BlockedFor(m, run[0].email, run[0].ip, run[0].at)] else [])
      + Answers(After(m, run[0], pruning), run[1..], pruning)
  }

  ghost predicate Timed(run: seq<Event>, since: int) {
    (|run| > 0 ==> since <= run[0].at) && forall i :: 0 < i < |run| ==> run[i - 1].at <= run[i].at
  }

  lemma SameLater(a: Entries, b: Entries, now: int, later: int)
    requires SameForNow(a, b, now) && now <= later
    ensures SameForNow(a, b, later)
  {
  }

  lemma SameAfterEvent(a: Entries, b: Entries, e: Event)
    requires SameForNow(a, b, e.at)
    ensures SameForNow(After(a, e, true), After(b, e, false), e.at)
  {
    match e
    case Asked(_, _, _) =>
    case Failure(email, ip, at) =>
      var p := Pruned(a, at);
      assert SameForNow(p, b, at);
      if email != "" {
        SameAfterRecord(p, b, AccountIPKey(email, ip), at, ACCOUNT_IP_LIMIT, LOCK_BASE);
        SameAfterRecord(Record(p, AccountIPKey(email, ip), at, ACCOUNT_IP_LIMIT, LOCK_BASE),
          Record(b, AccountIPKey(email, ip), at, ACCOUNT_IP_LIMIT, LOCK_BASE),
                        AccountKey(email), at, ACCOUNT_LIMIT, ACCOUNT_LOCK_BASE);
      }
    case Success(email, ip, _) =>
      if email != "" {
        var gone := {AccountIPKey(email, ip), AccountKey(email)};
        forall k
          ensures Lookup(a - gone, k) == if k in gone then None else Lookup(a, k)
          ensures Lookup(b - gone, k) == if k in gone then None else Lookup(b, k)
        {
        }
      }
  }

  /** A guard that prunes and one that never does give the same answers in every run. */
  lemma {:induction false} PruningIsUnobservable(a: Entries, b: Entries, run: seq<Event>, since: int)
    requires SameForNow(a, b, since) && Timed(run, since)
    ensures Answers(a, run, true) == Answers(b, run, false)
    decreases run
  {
    if run != [] {
      SameLater(a, b, since, run[0].at);
      SameAnswers(a, b, run[0].email, run[0].ip, run[0].at);
      SameAfterEvent(a, b, run[0]);
      PruningIsUnobservable(After(a, run[0], true), After(b, run[0], false), run[1..], run[0].at);
    }
  }

  // ---------------------------------------------------------------- every run, overlapping attempts included

  /** The entries of a guard that starts empty and meets these events. */
  function EntriesAfter(run: seq<Event>): Entries {
    if run == [] then map[] else After(EntriesAfter(run[..|run| - 1]), run[|run| - 1], true)
  }

  /** Once a key has failed `doublings` times beyond its limit, it is locked at least as long as its window lasts. */
  ghost predicate Shut(e: Entry, limit: nat, doublings: nat, now: int) {
    && e.windowStart <= now
    && (e.failures >= limit + doublings ==> e.lockedUntil.Some? && e.lockedUntil.value >= e.windowStart + WINDOW)
  }

  ghost predicate AllShut(m: Entries, now: int) {
    && (forall email, ip ::
          AccountIPKey(email, ip) in m ==> Shut(m[AccountIPKey(email, ip)], ACCOUNT_IP_LIMIT, 5, now))
    && forall email :: AccountKey(email) in m ==> Shut(m[AccountKey(email)], ACCOUNT_LIMIT, 2, now)
  }

  lemma BumpKeepsShut(slot: Option<Entry>, now: int, limit: nat, base: int, doublings: nat)
    requires limit >= 1 && LockFor(base, doublings) >= WINDOW
    requires slot.Some? ==> Shut(slot.value, limit, doublings, now)
    ensures Shut(Bumped(slot, now, limit, WINDOW, base), limit, doublings, now)
  {
  }

  lemma FullLocks()
    ensures LockFor(LOCK_BASE, 5) == WINDOW && LockFor(ACCOUNT_LOCK_BASE, 2) == WINDOW
  {
    AddressLockIsRightWhen(5);
    AccountLockIsRightWhen(2);
    assert Pow2(2) == 4 && Pow2(5) == 8 * Pow2(2);
  }

  lemma FailureKeepsShut(m: Entries, email: string, ip: string, now: int)
    requires AllShut(m, now)
    ensures AllShut(Failed(m, email, ip, now), now)
  {
    FullLocks();
    var k1, k2 := AccountIPKey(email, ip), AccountKey(email);
    KeysDiffer(email, ip, email);
    BumpKeepsShut(Lookup(m, k1), now, ACCOUNT_IP_LIMIT, LOCK_BASE, 5);
    BumpKeepsShut(Lookup(m, k2), now, ACCOUNT_LIMIT, ACCOUNT_LOCK_BASE, 2);
    var after := Failed(m, email, ip, now);
    forall e, i | AccountIPKey(e, i) in after
      ensures Shut(after[AccountIPKey(e, i)], ACCOUNT_IP_LIMIT, 5, now)
    {
      KeysDiffer(e, i, email);
    }
    forall e | AccountKey(e) in after
      ensures Shut(after[AccountKey(e)], ACCOUNT_LIMIT, 2, now)
    {
      KeysDiffer(email, ip, e);
    }
  }

  lemma KeysDiffer(email1: string, ip1: string, email2: string)
    ensures AccountIPKey(email1, ip1) != AccountKey(email2)
  {
    assert AccountIPKey(email1, ip1)[4] == '-' && AccountKey(email2)[4] == '|';
  }

  lemma {:induction false} TimedSince(run: seq<Event>, since: int, n: nat)
    requires Timed(run, since) && n < |run|
    ensures since <= run[n].at
  {
    if n > 0 {
      TimedSince(run, since, n - 1);
    }
  }

  lemma {:induction false} RunKeepsShut(run: seq<Event>, since: int, now: int)
    requires Timed(run, since) && since <= now && (run != [] ==> run[|run| - 1].at <= now)
    ensures AllShut(EntriesAfter(run), now)
  {
    if run != [] {
      var n := |run| - 1;
      var m, last := EntriesAfter(run[..n]), run[n];
      TimedSince(run, since, n);
      RunKeepsShut(run[..n], since, last.at);
      if last.Failure? {
        FailureKeepsShut(Pruned(m, last.at), last.email, last.ip, last.at);
      }
    }
  }

  /**
   Whatever the order of questions and failures, a wrapped product opens no key within its window: from five failures
   beyond the limit on (two for the account) the key is locked until its window is over.
   */
  lemma LockedUntilWindowEnds(run: seq<Event>, since: int, email: string, ip: string, now: int)
    requires Timed(run, since) && since <= now && (run != [] ==> run[|run| - 1].at <= now)
    ensures var m, key := EntriesAfter(run), AccountIPKey(email, ip);
            key in m && m[key].failures >= ACCOUNT_IP_LIMIT + 5 && now < m[key].windowStart + WINDOW ==>
              LockedAt(m, key, now)
    ensures var m, key := EntriesAfter(run), AccountKey(email);
            key in m && m[key].failures >= ACCOUNT_LIMIT + 2 && now < m[key].windowStart + WINDOW ==>
              LockedAt(m, key, now)
  {
    RunKeepsShut(run, since, now);
  }

  /** Attempts that overlap: all were let through before the first one failed. */
  function AtOnce(email: string, ip: string, at: int, n: nat): seq<Event> {
    seq(n, _ => Failure(email, ip, at))
  }

  /**
   An entry after n failures at one time; a lock in force does not get longer any more once it has its full length.
   */
  ghost predicate Counted(e: Entry, at: int, n: nat, limit: nat, doublings: nat) {
    && e.failures == n && e.windowStart == at
    && (e.lockedUntil.Some? ==> e.lockedUntil.value <= at + LOCK_MAX)
    && (n >= limit + doublings ==> e.lockedUntil == Some(at + LOCK_MAX))
  }

  lemma OneMoreCounted(slot: Option<Entry>, at: int, n: nat, limit: nat, base: int, doublings: nat)
    requires limit >= 1 && LockFor(base, doublings) == LOCK_MAX
    requires if n == 0 then slot == None else slot.Some? && Counted(slot.value, at, n, limit, doublings)
    ensures Counted(Bumped(slot, at, limit, WINDOW, base), at, n + 1, limit, doublings)
  {
  }

  ghost predicate BothCounted(m: Entries, email: string, ip: string, at: int, n: nat) {
    var k1, k2 := AccountIPKey(email, ip), AccountKey(email);
    if n == 0 then m == map[]
    else m.Keys == {k1, k2} && Counted(m[k1], at, n, ACCOUNT_IP_LIMIT, 5) && Counted(m[k2], at, n, ACCOUNT_LIMIT, 2)
  }

  lemma NothingToPrune(m: Entries, email: string, ip: string, at: int, n: nat, now: int)
    requires BothCounted(m, email, ip, at, n)
    ensures Pruned(m, now) == m
  {
    if n > 0 {
      assert |m.Keys| == |{AccountIPKey(email, ip), AccountKey(email)}| <= 2;
    }
  }

  lemma FailedOnceMore(m: Entries, email: string, ip: string, at: int, n: nat)
    requires BothCounted(m, email, ip, at, n)
    ensures BothCounted(Failed(m, email, ip, at), email, ip, at, n + 1) || email == ""
  {
    var k1, k2 := AccountIPKey(email, ip), AccountKey(email);
    FullLocks();
    KeysDiffer(email, ip, email);
    OneMoreCounted(Lookup(m, k1), at, n, ACCOUNT_IP_LIMIT, LOCK_BASE, 5);
    OneMoreCounted(Lookup(m, k2), at, n, ACCOUNT_LIMIT, ACCOUNT_LOCK_BASE, 2);
  }

  /** Any number of failures can be reached within one window. */
  lemma {:induction false} ManyAtOnce(email: string, ip: string, at: int, n: nat)
    requires email != ""
    ensures Timed(AtOnce(email, ip, at, n), at)
    ensures BothCounted(EntriesAfter(AtOnce(email, ip, at, n)), email, ip, at, n)
  {
    if n > 0 {
      var run := AtOnce(email, ip, at, n);
      assert run[..n - 1] == AtOnce(email, ip, at, n - 1);
      ManyAtOnce(email, ip, at, n - 1);
      NothingToPrune(EntriesAfter(run[..n - 1]), email, ip, at, n - 1, at);
      FailedOnceMore(EntriesAfter(run[..n - 1]), email, ip, at, n - 1);
    }
  }

  /** A negative lock leaves the one in force as it is. */
  lemma NegativeLockIsLost(e: Entry, now: int, n: nat, limit: nat, base: int, doublings: nat)
    requires Counted(e, 0, n, limit, doublings) && n >= limit + doublings && 0 <= now < WINDOW
    requires LockFor(base, n + 1 - limit) < 0
    ensures Bumped(Some(e), now, limit, WINDOW, base).lockedUntil == Some(LOCK_MAX)
  {
  }

  /** Both products are negative after 51 failures, where both locks should have their full length. */
  lemma LocksAt51()
    ensures LockFor(LOCK_BASE, 51 - ACCOUNT_IP_LIMIT) < 0 && LockFor(ACCOUNT_LOCK_BASE, 51 - ACCOUNT_LIMIT) < 0
    ensures TrueLock(LOCK_BASE, 51 - ACCOUNT_IP_LIMIT) == TrueLock(ACCOUNT_LOCK_BASE, 51 - ACCOUNT_LIMIT) == LOCK_MAX
  {
    AddressProducts(46);
    AccountProducts(31);
    AddressLockIsRightWhen(46);
    AccountLockIsRightWhen(31);
  }

  /**
   After the window the wrapped product does show: of 51 attempts that were all let through, 50 fail at once and one a
   minute later. Its two locks should last until minute 16, but both products are negative and minute 15 is free.
   */
  lemma LastLockIsLost(email: string, ip: string)
    requires email != ""
    ensures var run := AtOnce(email, ip, 0, 50) + [Failure(email, ip, MINUTE)];
            && Timed(run, 0) && BlockedFor(EntriesAfter(run), email, ip, 15 * MINUTE) == None
    ensures MINUTE + TrueLock(LOCK_BASE, 51 - ACCOUNT_IP_LIMIT) == 16 * MINUTE
    ensures MINUTE + TrueLock(ACCOUNT_LOCK_BASE, 51 - ACCOUNT_LIMIT) == 16 * MINUTE
  {
    var run := AtOnce(email, ip, 0, 50) + [Failure(email, ip, MINUTE)];
    assert run[..50] == AtOnce(email, ip, 0, 50);
    var m := EntriesAfter(run[..50]);
    ManyAtOnce(email, ip, 0, 50);
    NothingToPrune(m, email, ip, 0, 50, MINUTE);
    KeysDiffer(email, ip, email);
    LocksAt51();
    NegativeLockIsLost(m[AccountIPKey(email, ip)], MINUTE, 50, ACCOUNT_IP_LIMIT, LOCK_BASE, 5);
    NegativeLockIsLost(m[AccountKey(email)], MINUTE, 50, ACCOUNT_LIMIT, ACCOUNT_LOCK_BASE, 2);
  }

  // ---------------------------------------------------------------- one attempt at a time per account

  /** An attempt that was let through and has not been recorded yet. */
  datatype Attempt = Attempt(ip: string, asked: int)

  datatype System = System(entries: Entries, pending: map<string, Attempt>, now: int)

  datatype Action =
    | Begin(email: string, ip: string)
    | Fail(email: string)
    | Succeed(email: string)
    | GiveUp(email: string)

  /**
   One step of the login handler at time `s'.now`: an attempt starts when none on that account is under way and
   Blocked says no; it ends as a recorded failure, a success, or an error that is not recorded.
   */
  ghost predicate Next(s: System, a: Action, s': System) {
    && s.now <= s'.now
    && match a
       case Begin(email, ip) =>
         && email !in s.pending && '|' !in ip
         && BlockedFor(s.entries, email, ip, s'.now).None?
         && s'.entries == s.entries && s'.pending == s.pending[email := Attempt(ip, s'.now)]
       case Fail(email) =>
         && email in s.pending && s'.pending == s.pending - {email}
         && s'.entries == After(s.entries, Failure(email, s.pending[email].ip, s'.now), true)
       case Succeed(email) =>
         && email in s.pending && s'.pending == s.pending - {email}
         && s'.entries == After(s.entries, Success(email, s.pending[email].ip, s'.now), true)
       case GiveUp(email) =>
         && email in s.pending && s'.pending == s.pending - {email}
         && s'.entries == s.entries
  }

  ghost predicate Run(states: seq<System>, actions: seq<Action>) {
    && |states| == |actions| + 1
    && states[0].entries == map[] && states[0].pending == map[]
    && forall n :: 0 <= n < |actions| ==> StepAt(states, actions, n)
  }

  ghost predicate StepAt(states: seq<System>, actions: seq<Action>, n: nat)
    requires |states| == |actions| + 1 && n < |actions|
  {
    Next(states[n], actions[n], states[n + 1])
  }

  /** The time a chain of locks from `base` up to its `over`-th doubling keeps the key closed. */
  ghost function LockedTime(base: int, over: nat): int {
    base * (Pow2(over + 1) - 1)
  }

  /** The failure number at which the locks so far have outlasted the window. */
  ghost predicate LastFailure(limit: nat, base: int, top: nat) {
    && 1 < limit <= top && base > 0
    && LockedTime(base, top - limit) >= WINDOW
    && base * Pow2(top - limit) <= LOCK_MAX
  }

  ghost predicate Paced(e: Entry, limit: nat, base: int, top: nat, now: int) {
    && 1 <= e.failures <= top && e.windowStart <= now
    && (e.failures < limit ==> e.lockedUntil.None?)
    && (e.failures >= limit ==>
      && e.lockedUntil.Some?
      && e.lockedUntil.value >= e.windowStart + LockedTime(base, e.failures - limit))
  }

  ghost predicate Open(m: Entries, key: string, asked: int) {
    key in m && m[key].lockedUntil.Some? ==> m[key].lockedUntil.value <= asked
  }

  ghost predicate Inv(s: System) {
    && (forall email, ip :: AccountIPKey(email, ip) in s.entries ==>
      Paced(s.entries[AccountIPKey(email, ip)], ACCOUNT_IP_LIMIT, LOCK_BASE, 9, s.now))
    && (forall email :: AccountKey(email) in s.entries ==>
      Paced(s.entries[AccountKey(email)], ACCOUNT_LIMIT, ACCOUNT_LOCK_BASE, 21, s.now))
    && forall email :: email in s.pending && email != "" ==> PendingOpen(s, email)
  }

  ghost predicate PendingOpen(s: System, email: string)
    requires email in s.pending
  {
    && '|' !in s.pending[email].ip && s.pending[email].asked <= s.now
    && Open(s.entries, AccountIPKey(email, s.pending[email].ip), s.pending[email].asked)
    && Open(s.entries, AccountKey(email), s.pending[email].asked)
  }

  lemma LockedTimeMonotone(base: int, n: nat)
    requires base > 0
    ensures forall m: nat :: m >= n ==> LockedTime(base, n) <= LockedTime(base, m)
  {
    forall m: nat | m >= n
      ensures LockedTime(base, n) <= LockedTime(base, m)
    {
      Pow2Monotone(n + 1, m + 1);
      Scaled(base, Pow2(n + 1) - 1, Pow2(m + 1) - 1);
    }
  }

  lemma BelowCap(base: int, over: nat, most: nat)
    requires base > 0 && base * Pow2(most) <= LOCK_MAX && over <= most <= 62
    ensures LockFor(base, over) == base * Pow2(over) <= LOCK_MAX
  {
    Pow2Monotone(over, most);
    Scaled(base, Pow2(over), Pow2(most));
    UnwrappedLock(base, over);
  }

  lemma LastLock(base: int, over: nat)
    requires base > 0
    ensures LockedTime(base, over) == base * Pow2(over) + base * (Pow2(over) - 1)
  {
    Scaled(base, Pow2(over), Pow2(over));
  }

  lemma UncappedLock(limit: nat, base: int, top: nat, over: nat)
    requires LastFailure(limit, base, top) && over <= top - limit <= 62
    ensures LockFor(base, over) == base * Pow2(over) <= LOCK_MAX
    ensures LockedTime(base, over) == base * Pow2(over) + base * (Pow2(over) - 1)
  {
    BelowCap(base, over, top - limit);
    LastLock(base, over);
  }

  /** An open key stays paced when it fails once more, because each lock must run out before the next failure. */
  lemma BumpKeepsPace(slot: Option<Entry>, asked: int, now: int, limit: nat, base: int, top: nat)
    requires LastFailure(limit, base, top) && top - limit <= 62
    requires slot.Some? ==>
               && Paced(slot.value, limit, base, top, now)
               && (slot.value.lockedUntil.Some? ==> slot.value.lockedUntil.value <= asked)
    requires asked <= now
    ensures Paced(Bumped(slot, now, limit, WINDOW, base), limit, base, top, now)
  {
    if slot.Some? && now - slot.value.windowStart < WINDOW && slot.value.failures + 1 >= limit {
      var e := slot.value;
      var over := e.failures + 1 - limit;
      assert e.failures < top by {
        LockedTimeMonotone(base, top - limit);
      }
      UncappedLock(limit, base, top, over);
    }
  }

  lemma AllowedTops()
    ensures LastFailure(ACCOUNT_IP_LIMIT, LOCK_BASE, 9)
    ensures LastFailure(ACCOUNT_LIMIT, ACCOUNT_LOCK_BASE, 21)
  {
    PowersOfTwo();
    assert Pow2(5) == 2 * Pow2(4);
    assert Pow2(1) == 2 && Pow2(2) == 4;
  }

  lemma KeysApart(email1: string, ip1: string, email2: string, ip2: string)
    ensures AccountIPKey(email1, ip1) != AccountKey(email2)
    ensures AccountKey(email1) == AccountKey(email2) ==> email1 == email2
    ensures '|' !in ip1 && '|' !in ip2 && AccountIPKey(email1, ip1) == AccountIPKey(email2, ip2) ==>
              email1 == email2 && ip1 == ip2
  {
    assert AccountIPKey(email1, ip1)[4] == '-' && AccountKey(email2)[4] == '|';
    assert AccountKey(email1)[5..] == email1 && AccountKey(email2)[5..] == email2;
    if '|' !in ip1 && '|' !in ip2 && AccountIPKey(email1, ip1) == AccountIPKey(email2, ip2) {
      LastBar(email1, ip1, email2, ip2);
      LastBar(email2, ip2, email1, ip1);
      assert AccountIPKey(email1, ip1)[8..8 + |email1|] == email1
        && AccountIPKey(email2, ip2)[8..8 + |email2|] == email2;
      assert AccountIPKey(email1, ip1)[9 + |email1|..] == ip1 && AccountIPKey(email2, ip2)[9 + |email2|..] == ip2;
    }
  }

  lemma LastBar(email1: string, ip1: string, email2: string, ip2: string)
    requires '|' !in ip2 && AccountIPKey(email1, ip1) == AccountIPKey(email2, ip2)
    ensures |email1| <= |email2|
  {
    var key := AccountIPKey(email1, ip1);
    assert key[8 + |email1|] == '|';
    assert key[9 + |email2|..] == ip2;
  }

  lemma FailKeepsOthersOpen(s: System, email: string, s': System, e: string)
    requires Inv(s) && Next(s, Fail(email), s') && email != ""
    requires e in s'.pending && e != ""
    ensures PendingOpen(s', e)
  {
    var ip := s.pending[email].ip;
    assert PendingOpen(s, email);
    assert PendingOpen(s, e);
    KeysApart(e, s.pending[e].ip, email, ip);
    KeysApart(email, ip, e, s.pending[e].ip);
  }

  lemma FailKeepsAddressPaced(s: System, email: string, s': System)
    requires Inv(s) && Next(s, Fail(email), s') && email != ""
    ensures Paced(s'.entries[AccountIPKey(email, s.pending[email].ip)], ACCOUNT_IP_LIMIT, LOCK_BASE, 9, s'.now)
  {
    AllowedTops();
    var key := AccountIPKey(email, s.pending[email].ip);
    assert PendingOpen(s, email);
    KeysDiffer(email, s.pending[email].ip, email);
    BumpKeepsPace(Lookup(Pruned(s.entries, s'.now), key), s.pending[email].asked, s'.now, ACCOUNT_IP_LIMIT, LOCK_BASE,
      9);
  }

  lemma FailKeepsAccountPaced(s: System, email: string, s': System)
    requires Inv(s) && Next(s, Fail(email), s') && email != ""
    ensures Paced(s'.entries[AccountKey(email)], ACCOUNT_LIMIT, ACCOUNT_LOCK_BASE, 21, s'.now)
  {
    AllowedTops();
    assert PendingOpen(s, email);
    KeysDiffer(email, s.pending[email].ip, email);
    BumpKeepsPace(Lookup(Pruned(s.entries, s'.now), AccountKey(email)), s.pending[email].asked, s'.now, ACCOUNT_LIMIT,
      ACCOUNT_LOCK_BASE, 21);
  }

  lemma FailKeepsInv(s: System, email: string, s': System)
    requires Inv(s) && Next(s, Fail(email), s') && email != ""
    ensures Inv(s')
  {
    var ip := s.pending[email].ip;
    FailKeepsAddressPaced(s, email, s');
    FailKeepsAccountPaced(s, email, s');
    forall e, i | AccountIPKey(e, i) in s'.entries
      ensures Paced(s'.entries[AccountIPKey(e, i)], ACCOUNT_IP_LIMIT, LOCK_BASE, 9, s'.now)
    {
      KeysApart(e, i, email, ip);
    }
    forall e | AccountKey(e) in s'.entries
      ensures Paced(s'.entries[AccountKey(e)], ACCOUNT_LIMIT, ACCOUNT_LOCK_BASE, 21, s'.now)
    {
      KeysApart(email, ip, e, ip);
    }
    forall e | e in s'.pending && e != ""
      ensures PendingOpen(s', e)
    {
      FailKeepsOthersOpen(s, email, s', e);
    }
  }

  lemma NextKeepsInv(s: System, a: Action, s': System)
    requires Inv(s) && Next(s, a, s')
    ensures Inv(s')
  {
    if a.Fail? && a.email != "" {
      FailKeepsInv(s, a.email, s');
    } else {
      assert s'.entries.Keys <= s.entries.Keys;
      forall e | e in s'.pending && e != ""
        ensures PendingOpen(s', e)
      {
        assert e in s.pending ==> PendingOpen(s, e);
      }
    }
  }

  lemma {:induction false} RunKeepsInv(states: seq<System>, actions: seq<Action>, n: nat)
    requires Run(states, actions) && n < |states|
    ensures Inv(states[n])
  {
    if n > 0 {
      RunKeepsInv(states, actions, n - 1);
      assert StepAt(states, actions, n - 1);
      NextKeepsInv(states[n - 1], actions[n - 1], states[n]);
    }
  }

  lemma AddressLockBelowTop(over: nat)
    requires over <= 9 - ACCOUNT_IP_LIMIT
    ensures LockFor(LOCK_BASE, over) == LOCK_BASE * Pow2(over) < LOCK_MAX
  {
    PowersOfTwo();
    Pow2Monotone(over, 4);
    Scaled(LOCK_BASE, Pow2(over), Pow2(4));
    UnwrappedLock(LOCK_BASE, over);
  }

  lemma AccountLockBelowTop(over: nat)
    requires over <= 21 - ACCOUNT_LIMIT
    ensures LockFor(ACCOUNT_LOCK_BASE, over) == ACCOUNT_LOCK_BASE * Pow2(over) < LOCK_MAX
  {
    assert Pow2(1) == 2;
    Pow2Monotone(over, 1);
    Scaled(ACCOUNT_LOCK_BASE, Pow2(over), Pow2(1));
    UnwrappedLock(ACCOUNT_LOCK_BASE, over);
  }

  lemma LocksBelowTops()
    ensures forall over: nat :: over <= 9 - ACCOUNT_IP_LIMIT ==>
              LockFor(LOCK_BASE, over) == LOCK_BASE * Pow2(over) < LOCK_MAX
    ensures forall over: nat :: over <= 21 - ACCOUNT_LIMIT ==>
              LockFor(ACCOUNT_LOCK_BASE, over) == ACCOUNT_LOCK_BASE * Pow2(over) < LOCK_MAX
  {
    forall over: nat | over <= 9 - ACCOUNT_IP_LIMIT
      ensures LockFor(LOCK_BASE, over) == LOCK_BASE * Pow2(over) < LOCK_MAX
    {
      AddressLockBelowTop(over);
    }
    forall over: nat | over <= 21 - ACCOUNT_LIMIT
      ensures LockFor(ACCOUNT_LOCK_BASE, over) == ACCOUNT_LOCK_BASE * Pow2(over) < LOCK_MAX
    {
      AccountLockBelowTop(over);
    }
  }

  /**
   When attempts on one account never overlap, an (account, address) entry stops at 9 failures and an account
   entry at 21, so every lock computed is the plain doubling: it neither wraps around nor meets its cap.
   */
  lemma FailuresBounded(states: seq<System>, actions: seq<Action>, n: nat, email: string, ip: string)
    requires Run(states, actions) && n < |states|
    ensures var k := AccountIPKey(email, ip); k in states[n].entries ==> states[n].entries[k].failures <= 9
    ensures var k := AccountKey(email); k in states[n].entries ==> states[n].entries[k].failures <= 21
    ensures forall over: nat :: over <= 9 - ACCOUNT_IP_LIMIT ==>
              LockFor(LOCK_BASE, over) == LOCK_BASE * Pow2(over) < LOCK_MAX
    ensures forall over: nat :: over <= 21 - ACCOUNT_LIMIT ==>
              LockFor(ACCOUNT_LOCK_BASE, over) == ACCOUNT_LOCK_BASE * Pow2(over) < LOCK_MAX
  {
    RunKeepsInv(states, actions, n);
    LocksBelowTops();
  }
}
