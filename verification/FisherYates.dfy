/** The shuffle from the back: which results it can have, and how the index choices determine them. */
module FisherYates {
  import opened Xorshift

  function Swapped<T>(s: seq<T>, i: nat, j: nat): (t: seq<T>)
    requires i < |s| && j < |s|
    ensures |t| == |s|
  {
    s[i := s[j]][j := s[i]]
  }

  /** One index for each position from 1 up, none beyond its position. */
  ghost predicate Picks(n: nat, picks: seq<nat>) {
    |picks| + 1 == (if n == 0 then 1 else n) && forall k :: 0 <= k < |picks| ==> picks[k] <= k + 1
  }

  /** The shuffle as a function of its index choices: the last position is settled first. */
  ghost function Shuffled<T>(s: seq<T>, picks: seq<nat>): (t: seq<T>)
    requires Picks(|s|, picks)
    ensures |t| == |s|
    decreases |s|
  {
    if |s| <= 1 then s
    else
      var i := |s| - 1;
      var t := Swapped(s, i, picks[i - 1]);
      Shuffled(t[..i], picks[..i - 1]) + [t[i]]
  }

  lemma SwapPermutes<T>(s: seq<T>, i: nat, j: nat)
    requires i < |s| && j < |s|
    ensures multiset(Swapped(s, i, j)) == multiset(s)
  {
  }

  lemma SplitLast<T>(s: seq<T>, i: nat)
    requires i + 1 == |s|
    ensures s == s[..i] + [s[i]] && multiset(s) == multiset(s[..i]) + multiset{s[i]}
  {
    assert s == s[..i] + [s[i]];
  }

  /** Whatever the choices, the result is a permutation of the input. */
  lemma {:induction false} ShuffledPermutes<T>(s: seq<T>, picks: seq<nat>)
    requires Picks(|s|, picks)
    ensures multiset(Shuffled(s, picks)) == multiset(s)
    decreases |s|
  {
    if |s| > 1 {
      var i := |s| - 1;
      var t := Swapped(s, i, picks[i - 1]);
      SwapPermutes(s, i, picks[i - 1]);
      SplitLast(t, i);
      ShuffledPermutes(t[..i], picks[..i - 1]);
    }
  }

  ghost predicate Distinct<T>(s: seq<T>) {
    forall i, j :: 0 <= i < j < |s| ==> s[i] != s[j]
  }

  lemma SwapKeepsDistinct<T>(s: seq<T>, i: nat, j: nat)
    requires Distinct(s) && j <= i < |s|
    ensures Distinct(Swapped(s, i, j)[..i])
  {
  }

  /** On distinct items two different lists of choices never give the same result. */
  lemma {:induction false} ShuffledInjective<T>(s: seq<T>, p: seq<nat>, q: seq<nat>)
    requires Distinct(s) && Picks(|s|, p) && Picks(|s|, q)
    requires Shuffled(s, p) == Shuffled(s, q)
    ensures p == q
    decreases |s|
  {
    if |s| > 1 {
      var i := |s| - 1;
      var t, u := Swapped(s, i, p[i - 1]), Swapped(s, i, q[i - 1]);
      assert Shuffled(s, p)[i] == t[i] == s[p[i - 1]] && Shuffled(s, q)[i] == u[i] == s[q[i - 1]];
      assert p[i - 1] == q[i - 1];
      assert Shuffled(s, p)[..i] == Shuffled(t[..i], p[..i - 1]) && Shuffled(s, q)[..i] == Shuffled(u[..i], q[..i - 1]);
      SwapKeepsDistinct(s, i, p[i - 1]);
      ShuffledInjective(t[..i], p[..i - 1], q[..i - 1]);
      assert p == p[..i - 1] + [p[i - 1]] && q == q[..i - 1] + [q[i - 1]];
    }
  }

  lemma CancelOne<T>(a: multiset<T>, b: multiset<T>, x: T)
    requires a + multiset{x} == b + multiset{x}
    ensures a == b
  {
    assert a == (a + multiset{x}) - multiset{x};
    assert b == (b + multiset{x}) - multiset{x};
  }

  lemma BringToEnd<T>(s: seq<T>, result: seq<T>) returns (j: nat)
    requires multiset(s) == multiset(result) && |s| == |result| > 0
    ensures j < |s| && Swapped(s, |s| - 1, j)[|s| - 1] == result[|s| - 1]
    ensures multiset(Swapped(s, |s| - 1, j)[..|s| - 1]) == multiset(result[..|s| - 1])
  {
    var i := |s| - 1;
    assert result[i] in multiset(s);
    var k :| 0 <= k < |s| && s[k] == result[i];
    SwapPermutes(s, i, k);
    SplitLast(Swapped(s, i, k), i);
    SplitLast(result, i);
    CancelOne(multiset(Swapped(s, i, k)[..i]), multiset(result[..i]), result[i]);
    j := k;
  }

  lemma SameSize<T>(s: seq<T>, result: seq<T>)
    requires multiset(s) == multiset(result)
    ensures |s| == |result|
    ensures |s| <= 1 ==> s == result
  {
    assert |s| == |multiset(s)| == |multiset(result)| == |result|;
    if |s| == 1 {
      assert s[0] in multiset(result);
    }
  }

  /** Every permutation of the input is the result of some choices. */
  lemma {:induction false} ShuffledSurjective<T>(s: seq<T>, result: seq<T>) returns (picks: seq<nat>)
    requires multiset(s) == multiset(result)
    ensures Picks(|s|, picks) && Shuffled(s, picks) == result
    decreases |s|
  {
    SameSize(s, result);
    if |s| <= 1 {
      picks := [];
    } else {
      var i := |s| - 1;
      var j := BringToEnd(s, result);
      var rest := ShuffledSurjective(Swapped(s, i, j)[..i], result[..i]);
      picks := rest + [j];
      assert picks[..i - 1] == rest && picks[i - 1] == j;
      assert result == result[..i] + [result[i]];
    }
  }

  /** On distinct items the lists of choices and the permutations correspond one to one. */
  lemma ChoicesMatchPermutations<T>(s: seq<T>, result: seq<T>)
    requires Distinct(s)
    ensures multiset(result) == multiset(s) <==> exists p :: Picks(|s|, p) && Shuffled(s, p) == result
    ensures forall p, q :: Picks(|s|, p) && Picks(|s|, q) && Shuffled(s, p) == result && Shuffled(s, q) == result ==>
              p == q
  {
    if multiset(result) == multiset(s) {
      var p := ShuffledSurjective(s, result);
    }
    forall p | Picks(|s|, p) && Shuffled(s, p) == result
      ensures multiset(result) == multiset(s)
    {
      ShuffledPermutes(s, p);
    }
    forall p, q | Picks(|s|, p) && Picks(|s|, q) && Shuffled(s, p) == result && Shuffled(s, q) == result
      ensures p == q
    {
      ShuffledInjective(s, p, q);
    }
  }

  // ---------------------------------------------------------------- driven by the generator

  /** How many numbers a shuffle of n items consumes. */
  function Draws(n: nat): nat {
    if n == 0 then 0 else n - 1
  }

  /** The choices made from a generator state: position n - 1 is drawn first. */
  ghost function Drawn(state: bv64, n: nat): (picks: seq<nat>)
    ensures Picks(n, picks)
  {
    seq(Draws(n), k requires 0 <= k < Draws(n) => IndexOf(StateAfter(state, n - 1 - k), k + 2))
  }

  lemma DrawnAt(start: bv64, n: nat, i: nat)
    requires 1 <= i < n
    ensures Drawn(start, n)[i - 1] == IndexOf(Scramble(StateAfter(start, n - 1 - i)), i + 1)
    ensures StateAfter(start, n - i) == Scramble(StateAfter(start, n - 1 - i))
  {
    var k := i - 1;
    assert n - 1 - k == (n - 1 - i) + 1;
    assert StateAfter(start, n - 1 - k) == Scramble(StateAfter(start, n - 1 - i));
  }

  lemma LastItem<T>(items: seq<T>, picks: seq<nat>)
    requires |items| >= 2 && Picks(|items|, picks)
    ensures Shuffled(items, picks)[|items| - 1] == items[picks[|items| - 2]]
  {
  }

  /** The first number drawn chooses the last item: the one at what is left of it modulo the length. */
  lemma LastItemIsDrawn<T>(items: seq<T>, start: bv64) returns (q: nat, index: nat)
    requires |items| >= 2
    ensures Number(StateAfter(start, 1)) == q * |items| + index && index < |items|
    ensures Shuffled(items, Drawn(start, |items|))[|items| - 1] == items[index]
  {
    var n := |items|;
    DrawnAt(start, n, n - 1);
    index := IndexOf(StateAfter(start, 1), n);
    q := IndexIsRemainder(StateAfter(start, 1), n);
    LastItem(items, Drawn(start, n));
  }

  /** Positions above i are settled; the rest of the shuffle still leads to the goal. */
  ghost predicate Settled<T>(contents: seq<T>, picks: seq<nat>, goal: seq<T>, i: nat)
    requires Picks(|contents|, picks) && i < |contents|
  {
    goal == Shuffled(contents[..i + 1], picks[..i]) + contents[i + 1..]
  }

  lemma SettleOne<T>(contents: seq<T>, picks: seq<nat>, goal: seq<T>, i: nat)
    requires Picks(|contents|, picks) && 1 <= i < |contents| && Settled(contents, picks, goal, i)
    ensures Settled(Swapped(contents, i, picks[i - 1]), picks, goal, i - 1)
  {
    var j := picks[i - 1];
    var head, after := contents[..i + 1], Swapped(contents, i, j);
    assert picks[..i][i - 1] == j && picks[..i][..i - 1] == picks[..i - 1];
    assert Swapped(head, i, j) == after[..i + 1];
    assert after[..i + 1][..i] == after[..i];
    assert after[i..] == [after[i]] + contents[i + 1..];
  }

  lemma NothingSettled<T>(contents: seq<T>, picks: seq<nat>)
    requires Picks(|contents|, picks) && |contents| > 0
    ensures Settled(contents, picks, Shuffled(contents, picks), |contents| - 1)
  {
    assert contents[..|contents|] == contents && picks[..|picks|] == picks;
  }

  lemma AllSettled<T>(contents: seq<T>, picks: seq<nat>, goal: seq<T>)
    requires Picks(|contents|, picks) && |contents| > 0 && Settled(contents, picks, goal, 0)
    ensures goal == contents
  {
    assert contents[..1] + contents[1..] == contents;
  }

  method SwapElements<T>(a: array<T>, i: nat, j: nat)
    requires i < a.Length && j < a.Length
    modifies a
    ensures a[..] == Swapped(old(a[..]), i, j)
  {
    a[i], a[j] := a[j], a[i];
  }

  /** Position i gets the item that the next number chooses. */
  method DrawAndSwap<T>(a: array<T>, rng: Generator, i: nat, ghost picks: seq<nat>, ghost goal: seq<T>)
    requires Picks(a.Length, picks) && 1 <= i < a.Length && Settled(a[..], picks, goal, i)
    requires picks[i - 1] == IndexOf(Scramble(rng.state), i + 1)
    modifies a, rng
    ensures rng.state == Scramble(old(rng.state))
    ensures Settled(a[..], picks, goal, i - 1)
  {
    SettleOne(a[..], picks, goal, i);
    var j := rng.NextIndex(i + 1);
    SwapElements(a, i, j);
  }

  /** One round of the loop, when the generator has been going since `start`. */
  method DrawFor<T>(a: array<T>, rng: Generator, i: nat, ghost start: bv64, ghost goal: seq<T>)
    requires 1 <= i < a.Length && rng.state == StateAfter(start, a.Length - 1 - i)
    requires Settled(a[..], Drawn(start, a.Length), goal, i)
    modifies a, rng
    ensures rng.state == StateAfter(start, a.Length - i)
    ensures Settled(a[..], Drawn(start, a.Length), goal, i - 1)
  {
    DrawnAt(start, a.Length, i);
    DrawAndSwap(a, rng, i, Drawn(start, a.Length), goal);
  }

  method ShuffleInPlace<T>(a: array<T>, rng: Generator)
    modifies a, rng
    ensures a[..] == Shuffled(old(a[..]), Drawn(old(rng.state), a.Length))
    ensures rng.state == StateAfter(old(rng.state), Draws(a.Length))
  {
    if a.Length <= 1 {
      return;
    }
    ghost var start, picks := rng.state, Drawn(rng.state, a.Length);
    ghost var goal := Shuffled(a[..], picks);
    var i := a.Length - 1;
    NothingSettled(a[..], picks);
    while i >= 1
      invariant 0 <= i < a.Length
      invariant rng.state == StateAfter(start, a.Length - 1 - i)
      invariant Settled(a[..], picks, goal, i)
    {
      DrawFor(a, rng, i, start, goal);
      i := i - 1;
    }
    AllSettled(a[..], picks, goal);
  }

  /** The shuffle that the engine offers: the same items, in an order fixed by the seed. */
  method SeededShuffle<T>(items: seq<T>, seed: bv64) returns (result: seq<T>)
    ensures result == Shuffled(items, Drawn(EffectiveSeed(seed), |items|))
    ensures multiset(result) == multiset(items)
  {
    if |items| <= 1 {
      return items;
    }
    var a := new T[|items|](i requires 0 <= i < |items| => items[i]);
    assert a[..] == items;
    var rng := new Generator(seed);
    ShuffleInPlace(a, rng);
    ShuffledPermutes(items, Drawn(EffectiveSeed(seed), |items|));
    return a[..];
  }

  // ---------------------------------------------------------------- relabelling

  function Mapped<A, B>(f: A -> B, s: seq<A>): seq<B> {
    seq(|s|, i requires 0 <= i < |s| => f(s[i]))
  }

  /** Shuffling labels is labelling the shuffled items. */
  lemma {:induction false} ShuffleCommutesWithMap<A, B>(f: A -> B, s: seq<A>, picks: seq<nat>)
    requires Picks(|s|, picks)
    ensures Shuffled(Mapped(f, s), picks) == Mapped(f, Shuffled(s, picks))
    decreases |s|
  {
    if |s| > 1 {
      var i := |s| - 1;
      var t := Swapped(s, i, picks[i - 1]);
      assert Swapped(Mapped(f, s), i, picks[i - 1]) == Mapped(f, t);
      assert Mapped(f, t)[..i] == Mapped(f, t[..i]);
      ShuffleCommutesWithMap(f, t[..i], picks[..i - 1]);
    }
  }
}
