/** The xorshift64 generator of the quiz engine. */
module Xorshift {
  function Mixed(x: bv64, y: bv64): bv64 {
    x ^ y
  }

  function Left13(x: bv64): bv64 {
    Mixed(x, x << 13)
  }

  function Right7(x: bv64): bv64 {
    Mixed(x, x >> 7)
  }

  function Left17(x: bv64): bv64 {
    Mixed(x, x << 17)
  }

  /** One step of the generator. */
  function Scramble(state: bv64): bv64 {
    Left17(Right7(Left13(state)))
  }

  // ---------------------------------------------------------------- nothing is lost

  function ShiftLeft13(x: bv64): bv64 {
    x << 13
  }

  function ShiftRight7(x: bv64): bv64 {
    x >> 7
  }

  function ShiftLeft17(x: bv64): bv64 {
    x << 17
  }

  lemma ZeroXor(a: bv64, b: bv64)
    ensures Mixed(a, b) == 0 ==> a == b
  {
  }

  lemma Regrouped(x: bv64, y: bv64, sx: bv64, sy: bv64)
    requires x ^ sx == y ^ sy
    ensures x ^ y == sx ^ sy
  {
  }

  lemma SameDifference(x: bv64, y: bv64, sx: bv64, sy: bv64)
    requires Mixed(x, sx) == Mixed(y, sy)
    ensures Mixed(x, y) == Mixed(sx, sy)
  {
    Regrouped(x, y, sx, sy);
  }

  // Nothing but zero equals its own shift.

  lemma FixedByLeft13(d: bv64)
    ensures d == ShiftLeft13(d) ==> d == 0
  {
    assert (d << 13) << 13 == d << 26;
    assert (d << 26) << 26 == d << 52;
    assert (d << 52) << 52 == 0;
  }

  lemma FixedByRight7(d: bv64)
    ensures d == ShiftRight7(d) ==> d == 0
  {
    assert (d >> 7) >> 7 == d >> 14;
    assert (d >> 14) >> 14 == d >> 28;
    assert (d >> 28) >> 28 == d >> 56;
    assert (d >> 56) >> 56 == 0;
  }

  lemma FixedByLeft17(d: bv64)
    ensures d == ShiftLeft17(d) ==> d == 0
  {
    assert (d << 17) << 17 == d << 34;
    assert (d << 34) << 34 == 0;
  }

  // Mixing a word with its own shift is injective.

  lemma Left13Distributes(x: bv64, y: bv64, d: bv64)
    requires Mixed(x, y) == Mixed(ShiftLeft13(x), ShiftLeft13(y)) && d == Mixed(x, y)
    ensures d == ShiftLeft13(d)
  {
  }

  lemma Left13Difference(x: bv64, y: bv64)
    requires Mixed(x, ShiftLeft13(x)) == Mixed(y, ShiftLeft13(y))
    ensures Mixed(x, y) == Mixed(ShiftLeft13(x), ShiftLeft13(y))
  {
    SameDifference(x, y, ShiftLeft13(x), ShiftLeft13(y));
  }

  lemma Left13Injective(x: bv64, y: bv64)
    requires Left13(x) == Left13(y)
    ensures x == y
  {
    Left13Difference(x, y);
    Left13Distributes(x, y, Mixed(x, y));
    FixedByLeft13(Mixed(x, y));
    ZeroXor(x, y);
  }

  lemma Right7Distributes(x: bv64, y: bv64, d: bv64)
    requires Mixed(x, y) == Mixed(ShiftRight7(x), ShiftRight7(y)) && d == Mixed(x, y)
    ensures d == ShiftRight7(d)
  {
  }

  lemma Right7Difference(x: bv64, y: bv64)
    requires Mixed(x, ShiftRight7(x)) == Mixed(y, ShiftRight7(y))
    ensures Mixed(x, y) == Mixed(ShiftRight7(x), ShiftRight7(y))
  {
    SameDifference(x, y, ShiftRight7(x), ShiftRight7(y));
  }

  lemma Right7Injective(x: bv64, y: bv64)
    requires Right7(x) == Right7(y)
    ensures x == y
  {
    Right7Difference(x, y);
    Right7Distributes(x, y, Mixed(x, y));
    FixedByRight7(Mixed(x, y));
    ZeroXor(x, y);
  }

  lemma Left17Distributes(x: bv64, y: bv64, d: bv64)
    requires Mixed(x, y) == Mixed(ShiftLeft17(x), ShiftLeft17(y)) && d == Mixed(x, y)
    ensures d == ShiftLeft17(d)
  {
  }

  lemma Left17Difference(x: bv64, y: bv64)
    requires Mixed(x, ShiftLeft17(x)) == Mixed(y, ShiftLeft17(y))
    ensures Mixed(x, y) == Mixed(ShiftLeft17(x), ShiftLeft17(y))
  {
    SameDifference(x, y, ShiftLeft17(x), ShiftLeft17(y));
  }

  lemma Left17Injective(x: bv64, y: bv64)
    requires Left17(x) == Left17(y)
    ensures x == y
  {
    Left17Difference(x, y);
    Left17Distributes(x, y, Mixed(x, y));
    FixedByLeft17(Mixed(x, y));
    ZeroXor(x, y);
  }

  /** Two states never lead to the same one. */
  lemma ScrambleInjective(x: bv64, y: bv64)
    ensures Scramble(x) == Scramble(y) <==> x == y
  {
    if Scramble(x) == Scramble(y) {
      Left17Injective(Right7(Left13(x)), Right7(Left13(y)));
      Right7Injective(Left13(x), Left13(y));
      Left13Injective(x, y);
    }
  }

  /** A generator started outside the dead state 0 never falls into it. */
  lemma ScrambleNeverZero(state: bv64)
    requires state != 0
    ensures Scramble(state) != 0
  {
    assert Scramble(0) == 0;
    ScrambleInjective(state, 0);
  }

  /** Seeds are never 0: a zero seed is replaced by 1. */
  function EffectiveSeed(seed: bv64): (s: bv64)
    ensures s != 0
  {
    if seed == 0 then 1 else seed
  }

  /** The generator state after n numbers. */
  function StateAfter(state: bv64, n: nat): bv64 {
    if n == 0 then state else Scramble(StateAfter(state, n - 1))
  }

  /** Whatever the seed, the generator never reaches the state that would repeat forever. */
  lemma {:induction false} StateNeverZero(seed: bv64, n: nat)
    ensures StateAfter(EffectiveSeed(seed), n) != 0
  {
    if n > 0 {
      StateNeverZero(seed, n - 1);
      ScrambleNeverZero(StateAfter(EffectiveSeed(seed), n - 1));
    }
  }

  // ---------------------------------------------------------------- every state recurs

  const STATES := 0x1_0000_0000_0000_0000

  lemma {:induction false} MeetingMeansReturning(state: bv64, i: nat, j: nat)
    requires i <= j && StateAfter(state, i) == StateAfter(state, j)
    ensures StateAfter(state, j - i) == state
  {
    if i > 0 {
      ScrambleInjective(StateAfter(state, i - 1), StateAfter(state, j - 1));
      MeetingMeansReturning(state, i - 1, j - 1);
    }
  }

  lemma {:induction false} AtMost(s: set<nat>, n: nat)
    requires forall x :: x in s ==> x < n
    ensures |s| <= n
  {
    if n == 0 {
      assert s == {};
    } else {
      AtMost(s - {n - 1}, n - 1);
    }
  }

  ghost predicate Repeats(f: nat -> nat, n: nat) {
    exists i: nat, j: nat :: i < j < n && f(i) == f(j)
  }

  lemma {:induction false} ValuesWithoutRepeat(f: nat -> nat, n: nat)
    requires !Repeats(f, n)
    ensures |set k: nat | k < n :: f(k)| == n
  {
    if n > 0 {
      ValuesWithoutRepeat(f, n - 1);
      assert (set k: nat | k < n :: f(k)) == (set k: nat | k < n - 1 :: f(k)) + {f(n - 1)};
      assert f(n - 1) !in (set k: nat | k < n - 1 :: f(k));
    }
  }

  /** Among more values than there are numbers below the limit, two are the same. */
  lemma Pigeonhole(f: nat -> nat, limit: nat) returns (i: nat, j: nat)
    requires forall k :: f(k) < limit
    ensures i < j <= limit && f(i) == f(j)
  {
    if !Repeats(f, limit + 1) {
      ValuesWithoutRepeat(f, limit + 1);
      AtMost(set k: nat | k < limit + 1 :: f(k), limit);
    }
    i, j :| i < j < limit + 1 && f(i) == f(j);
  }

  function Number(x: bv64): nat {
    x as nat
  }

  lemma NumberInjective(x: bv64, y: bv64)
    requires Number(x) == Number(y)
    ensures x == y
  {
    assert (x as nat) as bv64 == x;
  }

  lemma NumberInRange(x: bv64)
    ensures Number(x) < STATES
  {
  }

  function NumberAfter(state: bv64): nat -> nat {
    (k: nat) => Number(StateAfter(state, k))
  }

  lemma SameNumberReturns(state: bv64, i: nat, j: nat)
    requires i <= j && NumberAfter(state)(i) == NumberAfter(state)(j)
    ensures StateAfter(state, j - i) == state
  {
    NumberInjective(StateAfter(state, i), StateAfter(state, j));
    MeetingMeansReturning(state, i, j);
  }

  lemma NumbersInRange(state: bv64)
    ensures forall k :: NumberAfter(state)(k) < STATES
  {
    forall k
      ensures NumberAfter(state)(k) < STATES
    {
      NumberInRange(StateAfter(state, k));
    }
  }

  /** From every state the generator comes back to it: its states form cycles. */
  lemma StatesRecur(state: bv64) returns (period: nat)
    ensures 1 <= period <= STATES && StateAfter(state, period) == state
  {
    NumbersInRange(state);
    var i, j := Pigeonhole(NumberAfter(state), STATES);
    SameNumberReturns(state, i, j);
    period := j - i;
  }

  function Remainder(v: nat, n: nat): (j: nat)
    requires n > 0
    ensures j < n
  {
    v % n
  }

  /** The index below n that a number stands for. */
  function IndexOf(x: bv64, n: nat): (j: nat)
    requires n > 0
    ensures j < n
  {
    Remainder(x as nat, n)
  }

  lemma Divided(v: nat, n: nat) returns (q: nat)
    requires n > 0
    ensures v == q * n + Remainder(v, n)
  {
    q := v / n;
  }

  /** The index is what is left of the number after taking away a multiple of n. */
  lemma IndexIsRemainder(x: bv64, n: nat) returns (q: nat)
    requires n > 0
    ensures Number(x) == q * n + IndexOf(x, n)
  {
    q := Divided(Number(x), n);
  }

  // ---------------------------------------------------------------- every seed counts

  lemma {:induction false} ApartForGood(x: bv64, y: bv64, n: nat)
    ensures StateAfter(x, n) == StateAfter(y, n) <==> x == y
  {
    if n > 0 {
      ApartForGood(x, y, n - 1);
      ScrambleInjective(StateAfter(x, n - 1), StateAfter(y, n - 1));
    }
  }

  /** After any number of draws two seeds are in the same state only if they are the same, or 0 and 1. */
  lemma SeedsCount(a: bv64, b: bv64, n: nat)
    ensures StateAfter(EffectiveSeed(a), n) == StateAfter(EffectiveSeed(b), n) <==>
            a == b || (a == 0 && b == 1) || (a == 1 && b == 0)
  {
    ApartForGood(EffectiveSeed(a), EffectiveSeed(b), n);
  }

  lemma {:induction false} DrawsAdd(state: bv64, m: nat, n: nat)
    ensures StateAfter(StateAfter(state, m), n) == StateAfter(state, m + n)
  {
    if n > 0 {
      DrawsAdd(state, m, n - 1);
    }
  }

  class Generator {
    var state: bv64

    constructor (seed: bv64)
      ensures state == EffectiveSeed(seed)
    {
      state := EffectiveSeed(seed);
    }

    method Next() returns (x: bv64)
      modifies this
      ensures state == x == Scramble(old(state))
    {
      x := state;
      x := Left13(x);
      x := Right7(x);
      x := Left17(x);
      state := x;
    }

    method NextIndex(n: nat) returns (j: nat)
      requires n > 0
      modifies this
      ensures state == Scramble(old(state)) && j == IndexOf(state, n) < n
    {
      var x := Next();
      j := IndexOf(x, n);
    }
  }
}
