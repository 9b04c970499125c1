/**
 The numbers that the generator, the shuffle and the quiz come to for fixed seeds, as the engine's own tests pin them.
 */
module GoldenVectors {
  import opened Xorshift
  import opened FisherYates
  import opened Questions

  /** Going on from a state that is known. */
  lemma OneMore(state: bv64, n: nat, before: bv64, after: bv64)
    requires StateAfter(state, n) == before && Scramble(before) == after
    ensures StateAfter(state, n + 1) == after
  {
  }

  lemma SameUpToEight<T>(s: seq<T>, t: seq<T>)
    requires |s| == |t| <= 8
    requires (|s| > 0 ==> s[0] == t[0]) && (|s| > 1 ==> s[1] == t[1]) && (|s| > 2 ==> s[2] == t[2])
    requires (|s| > 3 ==> s[3] == t[3]) && (|s| > 4 ==> s[4] == t[4]) && (|s| > 5 ==> s[5] == t[5])
    requires (|s| > 6 ==> s[6] == t[6]) && (|s| > 7 ==> s[7] == t[7])
    ensures s == t
  {
  }

  /** The shuffle settles its last item and goes on with the rest. */
  lemma Settle<T>(s: seq<T>, picks: seq<nat>, j: nat, rest: seq<T>, last: T, result: seq<T>)
    requires Picks(|rest|, picks) && Shuffled(rest, picks) == result
    requires |s| >= 2 && j < |s| && Swapped(s, |s| - 1, j) == rest + [last]
    ensures Picks(|s|, picks + [j]) && Shuffled(s, picks + [j]) == result + [last]
  {
    assert (rest + [last])[..|s| - 1] == rest && (picks + [j])[..|picks|] == picks;
  }

  lemma SeedOneSteps()
    ensures Scramble(0x1) == 0x40822041
    ensures Scramble(0x40822041) == 0x100041060c011441
    ensures Scramble(0x100041060c011441) == 0x9b1e842f6e862629
    ensures Scramble(0x9b1e842f6e862629) == 0xf554f503555d8025
    ensures Scramble(0xf554f503555d8025) == 0x860c1fb090599265
    ensures Scramble(0x860c1fb090599265) == 0xf6b05302e5531801
    ensures Scramble(0xf6b05302e5531801) == 0xa2460108ebbd9e71
  {
  }

  lemma SeedOneStates()
    ensures StateAfter(0x1, 1) == 0x40822041
    ensures StateAfter(0x1, 2) == 0x100041060c011441
    ensures StateAfter(0x1, 3) == 0x9b1e842f6e862629
    ensures StateAfter(0x1, 4) == 0xf554f503555d8025
    ensures StateAfter(0x1, 5) == 0x860c1fb090599265
    ensures StateAfter(0x1, 6) == 0xf6b05302e5531801
    ensures StateAfter(0x1, 7) == 0xa2460108ebbd9e71
  {
    SeedOneSteps();
    OneMore(0x1, 0, 0x1, 0x40822041);
    OneMore(0x1, 1, 0x40822041, 0x100041060c011441);
    OneMore(0x1, 2, 0x100041060c011441, 0x9b1e842f6e862629);
    OneMore(0x1, 3, 0x9b1e842f6e862629, 0xf554f503555d8025);
    OneMore(0x1, 4, 0xf554f503555d8025, 0x860c1fb090599265);
    OneMore(0x1, 5, 0x860c1fb090599265, 0xf6b05302e5531801);
    OneMore(0x1, 6, 0xf6b05302e5531801, 0xa2460108ebbd9e71);
  }

  lemma SeedOneIndices()
    ensures IndexOf(0xa2460108ebbd9e71, 2) == 1
    ensures IndexOf(0xf6b05302e5531801, 3) == 1
    ensures IndexOf(0x860c1fb090599265, 4) == 1
    ensures IndexOf(0xf554f503555d8025, 5) == 0
    ensures IndexOf(0x9b1e842f6e862629, 6) == 3
    ensures IndexOf(0x100041060c011441, 7) == 6
    ensures IndexOf(0x40822041, 8) == 1
  {
  }

  lemma SeedOnePicks()
    ensures Drawn(0x1, 8) == [1, 1, 1, 0, 3, 6, 1]
  {
    SeedOneStates();
    SeedOneIndices();
    SameUpToEight(Drawn(0x1, 8), [1, 1, 1, 0, 3, 6, 1]);
  }

  lemma SeedOne2()
    ensures Shuffled([4, 2], [1]) == [4, 2]
  {
    SameUpToEight(Swapped([4, 2], 1, 1), [4] + [2]);
    Settle([4, 2], [], 1, [4], 2, [4]);
    SameUpToEight([] + [1], [1]);
    SameUpToEight([4] + [2], [4, 2]);
  }

  lemma SeedOne3()
    ensures Shuffled([4, 5, 2], [1, 1]) == [4, 2, 5]
  {
    SeedOne2();
    SameUpToEight(Swapped([4, 5, 2], 2, 1), [4, 2] + [5]);
    Settle([4, 5, 2], [1], 1, [4, 2], 5, [4, 2]);
    SameUpToEight([1] + [1], [1, 1]);
    SameUpToEight([4, 2] + [5], [4, 2, 5]);
  }

  lemma SeedOne4()
    ensures Shuffled([4, 7, 2, 5], [1, 1, 1]) == [4, 2, 5, 7]
  {
    SeedOne3();
    SameUpToEight(Swapped([4, 7, 2, 5], 3, 1), [4, 5, 2] + [7]);
    Settle([4, 7, 2, 5], [1, 1], 1, [4, 5, 2], 7, [4, 2, 5]);
    SameUpToEight([1, 1] + [1], [1, 1, 1]);
    SameUpToEight([4, 2, 5] + [7], [4, 2, 5, 7]);
  }

  lemma SeedOne5()
    ensures Shuffled([0, 7, 2, 5, 4], [1, 1, 1, 0]) == [4, 2, 5, 7, 0]
  {
    SeedOne4();
    SameUpToEight(Swapped([0, 7, 2, 5, 4], 4, 0), [4, 7, 2, 5] + [0]);
    Settle([0, 7, 2, 5, 4], [1, 1, 1], 0, [4, 7, 2, 5], 0, [4, 2, 5, 7]);
    SameUpToEight([1, 1, 1] + [0], [1, 1, 1, 0]);
    SameUpToEight([4, 2, 5, 7] + [0], [4, 2, 5, 7, 0]);
  }

  lemma SeedOne6()
    ensures Shuffled([0, 7, 2, 3, 4, 5], [1, 1, 1, 0, 3]) == [4, 2, 5, 7, 0, 3]
  {
    SeedOne5();
    SameUpToEight(Swapped([0, 7, 2, 3, 4, 5], 5, 3), [0, 7, 2, 5, 4] + [3]);
    Settle([0, 7, 2, 3, 4, 5], [1, 1, 1, 0], 3, [0, 7, 2, 5, 4], 3, [4, 2, 5, 7, 0]);
    SameUpToEight([1, 1, 1, 0] + [3], [1, 1, 1, 0, 3]);
    SameUpToEight([4, 2, 5, 7, 0] + [3], [4, 2, 5, 7, 0, 3]);
  }

  lemma SeedOne7()
    ensures Shuffled([0, 7, 2, 3, 4, 5, 6], [1, 1, 1, 0, 3, 6]) == [4, 2, 5, 7, 0, 3, 6]
  {
    SeedOne6();
    SameUpToEight(Swapped([0, 7, 2, 3, 4, 5, 6], 6, 6), [0, 7, 2, 3, 4, 5] + [6]);
    Settle([0, 7, 2, 3, 4, 5, 6], [1, 1, 1, 0, 3], 6, [0, 7, 2, 3, 4, 5], 6, [4, 2, 5, 7, 0, 3]);
    SameUpToEight([1, 1, 1, 0, 3] + [6], [1, 1, 1, 0, 3, 6]);
    SameUpToEight([4, 2, 5, 7, 0, 3] + [6], [4, 2, 5, 7, 0, 3, 6]);
  }

  lemma SeedOne8()
    ensures Shuffled([0, 1, 2, 3, 4, 5, 6, 7], [1, 1, 1, 0, 3, 6, 1]) == [4, 2, 5, 7, 0, 3, 6, 1]
  {
    SeedOne7();
    SameUpToEight(Swapped([0, 1, 2, 3, 4, 5, 6, 7], 7, 1), [0, 7, 2, 3, 4, 5, 6] + [1]);
    Settle([0, 1, 2, 3, 4, 5, 6, 7], [1, 1, 1, 0, 3, 6], 1, [0, 7, 2, 3, 4, 5, 6], 1, [4, 2, 5, 7, 0, 3, 6]);
    SameUpToEight([1, 1, 1, 0, 3, 6] + [1], [1, 1, 1, 0, 3, 6, 1]);
    SameUpToEight([4, 2, 5, 7, 0, 3, 6] + [1], [4, 2, 5, 7, 0, 3, 6, 1]);
  }

  /** The pinned order for seed 1. */
  lemma SeedOneOrder()
    ensures Shuffled([0, 1, 2, 3, 4, 5, 6, 7], Drawn(EffectiveSeed(1), 8)) == [4, 2, 5, 7, 0, 3, 6, 1]
  {
    SeedOnePicks();
    SeedOne8();
  }

  lemma Seed42Steps()
    ensures Scramble(0x2a) == 0xa95514aaa
    ensures Scramble(0xa95514aaa) == 0xa00aaafdf80202bf
    ensures Scramble(0xa00aaafdf80202bf) == 0x8b13399cd1d1497a
    ensures Scramble(0x8b13399cd1d1497a) == 0x283b88fe5fdff568
    ensures Scramble(0x283b88fe5fdff568) == 0x4e915fe38b341082
    ensures Scramble(0x4e915fe38b341082) == 0x8c17f2b433701823
    ensures Scramble(0x8c17f2b433701823) == 0x9ec2fe1aa5b290d3
  {
  }

  lemma Seed42States()
    ensures StateAfter(0x2a, 1) == 0xa95514aaa
    ensures StateAfter(0x2a, 2) == 0xa00aaafdf80202bf
    ensures StateAfter(0x2a, 3) == 0x8b13399cd1d1497a
    ensures StateAfter(0x2a, 4) == 0x283b88fe5fdff568
    ensures StateAfter(0x2a, 5) == 0x4e915fe38b341082
    ensures StateAfter(0x2a, 6) == 0x8c17f2b433701823
    ensures StateAfter(0x2a, 7) == 0x9ec2fe1aa5b290d3
  {
    Seed42Steps();
    OneMore(0x2a, 0, 0x2a, 0xa95514aaa);
    OneMore(0x2a, 1, 0xa95514aaa, 0xa00aaafdf80202bf);
    OneMore(0x2a, 2, 0xa00aaafdf80202bf, 0x8b13399cd1d1497a);
    OneMore(0x2a, 3, 0x8b13399cd1d1497a, 0x283b88fe5fdff568);
    OneMore(0x2a, 4, 0x283b88fe5fdff568, 0x4e915fe38b341082);
    OneMore(0x2a, 5, 0x4e915fe38b341082, 0x8c17f2b433701823);
    OneMore(0x2a, 6, 0x8c17f2b433701823, 0x9ec2fe1aa5b290d3);
  }

  lemma Seed42Indices()
    ensures IndexOf(0x9ec2fe1aa5b290d3, 2) == 1
    ensures IndexOf(0x8c17f2b433701823, 3) == 0
    ensures IndexOf(0x4e915fe38b341082, 4) == 2
    ensures IndexOf(0x283b88fe5fdff568, 5) == 1
    ensures IndexOf(0x8b13399cd1d1497a, 6) == 0
    ensures IndexOf(0xa00aaafdf80202bf, 7) == 3
    ensures IndexOf(0xa95514aaa, 8) == 2
  {
  }

  lemma Seed42Picks()
    ensures Drawn(0x2a, 8) == [1, 0, 2, 1, 0, 3, 2]
  {
    Seed42States();
    Seed42Indices();
    SameUpToEight(Drawn(0x2a, 8), [1, 0, 2, 1, 0, 3, 2]);
  }

  lemma Seed422()
    ensures Shuffled([6, 4], [1]) == [6, 4]
  {
    SameUpToEight(Swapped([6, 4], 1, 1), [6] + [4]);
    Settle([6, 4], [], 1, [6], 4, [6]);
    SameUpToEight([] + [1], [1]);
    SameUpToEight([6] + [4], [6, 4]);
  }

  lemma Seed423()
    ensures Shuffled([5, 4, 6], [1, 0]) == [6, 4, 5]
  {
    Seed422();
    SameUpToEight(Swapped([5, 4, 6], 2, 0), [6, 4] + [5]);
    Settle([5, 4, 6], [1], 0, [6, 4], 5, [6, 4]);
    SameUpToEight([1] + [0], [1, 0]);
    SameUpToEight([6, 4] + [5], [6, 4, 5]);
  }

  lemma Seed424()
    ensures Shuffled([5, 4, 7, 6], [1, 0, 2]) == [6, 4, 5, 7]
  {
    Seed423();
    SameUpToEight(Swapped([5, 4, 7, 6], 3, 2), [5, 4, 6] + [7]);
    Settle([5, 4, 7, 6], [1, 0], 2, [5, 4, 6], 7, [6, 4, 5]);
    SameUpToEight([1, 0] + [2], [1, 0, 2]);
    SameUpToEight([6, 4, 5] + [7], [6, 4, 5, 7]);
  }

  lemma Seed425()
    ensures Shuffled([5, 1, 7, 6, 4], [1, 0, 2, 1]) == [6, 4, 5, 7, 1]
  {
    Seed424();
    SameUpToEight(Swapped([5, 1, 7, 6, 4], 4, 1), [5, 4, 7, 6] + [1]);
    Settle([5, 1, 7, 6, 4], [1, 0, 2], 1, [5, 4, 7, 6], 1, [6, 4, 5, 7]);
    SameUpToEight([1, 0, 2] + [1], [1, 0, 2, 1]);
    SameUpToEight([6, 4, 5, 7] + [1], [6, 4, 5, 7, 1]);
  }

  lemma Seed426()
    ensures Shuffled([0, 1, 7, 6, 4, 5], [1, 0, 2, 1, 0]) == [6, 4, 5, 7, 1, 0]
  {
    Seed425();
    SameUpToEight(Swapped([0, 1, 7, 6, 4, 5], 5, 0), [5, 1, 7, 6, 4] + [0]);
    Settle([0, 1, 7, 6, 4, 5], [1, 0, 2, 1], 0, [5, 1, 7, 6, 4], 0, [6, 4, 5, 7, 1]);
    SameUpToEight([1, 0, 2, 1] + [0], [1, 0, 2, 1, 0]);
    SameUpToEight([6, 4, 5, 7, 1] + [0], [6, 4, 5, 7, 1, 0]);
  }

  lemma Seed427()
    ensures Shuffled([0, 1, 7, 3, 4, 5, 6], [1, 0, 2, 1, 0, 3]) == [6, 4, 5, 7, 1, 0, 3]
  {
    Seed426();
    SameUpToEight(Swapped([0, 1, 7, 3, 4, 5, 6], 6, 3), [0, 1, 7, 6, 4, 5] + [3]);
    Settle([0, 1, 7, 3, 4, 5, 6], [1, 0, 2, 1, 0], 3, [0, 1, 7, 6, 4, 5], 3, [6, 4, 5, 7, 1, 0]);
    SameUpToEight([1, 0, 2, 1, 0] + [3], [1, 0, 2, 1, 0, 3]);
    SameUpToEight([6, 4, 5, 7, 1, 0] + [3], [6, 4, 5, 7, 1, 0, 3]);
  }

  lemma Seed428()
    ensures Shuffled([0, 1, 2, 3, 4, 5, 6, 7], [1, 0, 2, 1, 0, 3, 2]) == [6, 4, 5, 7, 1, 0, 3, 2]
  {
    Seed427();
    SameUpToEight(Swapped([0, 1, 2, 3, 4, 5, 6, 7], 7, 2), [0, 1, 7, 3, 4, 5, 6] + [2]);
    Settle([0, 1, 2, 3, 4, 5, 6, 7], [1, 0, 2, 1, 0, 3], 2, [0, 1, 7, 3, 4, 5, 6], 2, [6, 4, 5, 7, 1, 0, 3]);
    SameUpToEight([1, 0, 2, 1, 0, 3] + [2], [1, 0, 2, 1, 0, 3, 2]);
    SameUpToEight([6, 4, 5, 7, 1, 0, 3] + [2], [6, 4, 5, 7, 1, 0, 3, 2]);
  }

  /** The pinned order for seed 42. */
  lemma Seed42Order()
    ensures Shuffled([0, 1, 2, 3, 4, 5, 6, 7], Drawn(EffectiveSeed(42), 8)) == [6, 4, 5, 7, 1, 0, 3, 2]
  {
    Seed42Picks();
    Seed428();
  }

  lemma QuizSteps()
    ensures Scramble(0x6c576fac43fd007c) == 0xc4992a768ecd657c
    ensures Scramble(0xc4992a768ecd657c) == 0x48a4ac143d4a20b6
    ensures Scramble(0x48a4ac143d4a20b6) == 0x134860b6b1405977
    ensures Scramble(0x134860b6b1405977) == 0x88705c74f106405
    ensures Scramble(0x88705c74f106405) == 0xce1581d2c20de58d
  {
  }

  lemma QuizStates()
    ensures StateAfter(0x6c576fac43fd007c, 1) == 0xc4992a768ecd657c
    ensures StateAfter(0x6c576fac43fd007c, 2) == 0x48a4ac143d4a20b6
    ensures StateAfter(0x6c576fac43fd007c, 3) == 0x134860b6b1405977
    ensures StateAfter(0x6c576fac43fd007c, 4) == 0x88705c74f106405
    ensures StateAfter(0x6c576fac43fd007c, 5) == 0xce1581d2c20de58d
  {
    QuizSteps();
    OneMore(0x6c576fac43fd007c, 0, 0x6c576fac43fd007c, 0xc4992a768ecd657c);
    OneMore(0x6c576fac43fd007c, 1, 0xc4992a768ecd657c, 0x48a4ac143d4a20b6);
    OneMore(0x6c576fac43fd007c, 2, 0x48a4ac143d4a20b6, 0x134860b6b1405977);
    OneMore(0x6c576fac43fd007c, 3, 0x134860b6b1405977, 0x88705c74f106405);
    OneMore(0x6c576fac43fd007c, 4, 0x88705c74f106405, 0xce1581d2c20de58d);
  }

  // ---------------------------------------------------------------- the quiz for seed 1

  const D1 := "def-1"
  const D2 := "def-2"
  const D3 := "def-3"
  const D4 := "def-4"

  const C1 := Card(1, "term-1", D1)
  const C2 := Card(2, "term-2", D2)
  const C3 := Card(3, "term-3", D3)
  const C4 := Card(4, "term-4", D4)
  const CARDS := [C1, C2, C3, C4]

  lemma QuizSeed()
    ensures DistractorSeed(1) == 0x6c576fac43fd007c
  {
  }

  lemma QuizIndices()
    ensures IndexOf(0x9b1e842f6e862629, 2) == 1 && IndexOf(0x100041060c011441, 3) == 2 && IndexOf(0x40822041, 4) == 1
    ensures IndexOf(0x48a4ac143d4a20b6, 2) == 0 && IndexOf(0xc4992a768ecd657c, 3) == 1
    ensures IndexOf(0xce1581d2c20de58d, 2) == 1 && IndexOf(0x88705c74f106405, 3) == 1
    ensures IndexOf(0x134860b6b1405977, 4) == 3
  {
  }

  lemma DeckPicks()
    ensures Drawn(1, 4) == [1, 2, 1]
  {
    SeedOneStates();
    QuizIndices();
    SameUpToEight(Drawn(1, 4), [1, 2, 1]);
  }

  lemma PoolPicks()
    ensures Drawn(0x6c576fac43fd007c, 3) == [0, 1]
  {
    QuizStates();
    QuizIndices();
    SameUpToEight(Drawn(0x6c576fac43fd007c, 3), [0, 1]);
  }

  lemma ChoicePicks()
    ensures Drawn(0x48a4ac143d4a20b6, 4) == [1, 1, 3]
  {
    QuizSteps();
    OneMore(0x48a4ac143d4a20b6, 0, 0x48a4ac143d4a20b6, 0x134860b6b1405977);
    OneMore(0x48a4ac143d4a20b6, 1, 0x134860b6b1405977, 0x88705c74f106405);
    OneMore(0x48a4ac143d4a20b6, 2, 0x88705c74f106405, 0xce1581d2c20de58d);
    QuizIndices();
    SameUpToEight(Drawn(0x48a4ac143d4a20b6, 4), [1, 1, 3]);
  }

  lemma Deck2()
    ensures Shuffled([C1, C4], [1]) == [C1, C4]
  {
    SameUpToEight(Swapped([C1, C4], 1, 1), [C1] + [C4]);
    Settle([C1, C4], [], 1, [C1], C4, [C1]);
    SameUpToEight([] + [1], [1]);
    SameUpToEight([C1] + [C4], [C1, C4]);
  }

  lemma Deck3()
    ensures Shuffled([C1, C4, C3], [1, 2]) == [C1, C4, C3]
  {
    Deck2();
    SameUpToEight(Swapped([C1, C4, C3], 2, 2), [C1, C4] + [C3]);
    Settle([C1, C4, C3], [1], 2, [C1, C4], C3, [C1, C4]);
    SameUpToEight([1] + [2], [1, 2]);
    SameUpToEight([C1, C4] + [C3], [C1, C4, C3]);
  }

  lemma Deck4()
    ensures Shuffled([C1, C2, C3, C4], [1, 2, 1]) == [C1, C4, C3, C2]
  {
    Deck3();
    SameUpToEight(Swapped([C1, C2, C3, C4], 3, 1), [C1, C4, C3] + [C2]);
    Settle([C1, C2, C3, C4], [1, 2], 1, [C1, C4, C3], C2, [C1, C4, C3]);
    SameUpToEight([1, 2] + [1], [1, 2, 1]);
    SameUpToEight([C1, C4, C3] + [C2], [C1, C4, C3, C2]);
  }

  lemma Pool2()
    ensures Shuffled([D2, D4], [0]) == [D4, D2]
  {
    SameUpToEight(Swapped([D2, D4], 1, 0), [D4] + [D2]);
    Settle([D2, D4], [], 0, [D4], D2, [D4]);
    SameUpToEight([] + [0], [0]);
    SameUpToEight([D4] + [D2], [D4, D2]);
  }

  lemma Pool3()
    ensures Shuffled([D2, D3, D4], [0, 1]) == [D4, D2, D3]
  {
    Pool2();
    SameUpToEight(Swapped([D2, D3, D4], 2, 1), [D2, D4] + [D3]);
    Settle([D2, D3, D4], [0], 1, [D2, D4], D3, [D4, D2]);
    SameUpToEight([0] + [1], [0, 1]);
    SameUpToEight([D4, D2] + [D3], [D4, D2, D3]);
  }

  lemma Choices2()
    ensures Shuffled([D1, D2], [1]) == [D1, D2]
  {
    SameUpToEight(Swapped([D1, D2], 1, 1), [D1] + [D2]);
    Settle([D1, D2], [], 1, [D1], D2, [D1]);
    SameUpToEight([] + [1], [1]);
    SameUpToEight([D1] + [D2], [D1, D2]);
  }

  lemma Choices3()
    ensures Shuffled([D1, D4, D2], [1, 1]) == [D1, D2, D4]
  {
    Choices2();
    SameUpToEight(Swapped([D1, D4, D2], 2, 1), [D1, D2] + [D4]);
    Settle([D1, D4, D2], [1], 1, [D1, D2], D4, [D1, D2]);
    SameUpToEight([1] + [1], [1, 1]);
    SameUpToEight([D1, D2] + [D4], [D1, D2, D4]);
  }

  lemma Choices4()
    ensures Shuffled([D1, D4, D2, D3], [1, 1, 3]) == [D1, D2, D4, D3]
  {
    Choices3();
    SameUpToEight(Swapped([D1, D4, D2, D3], 3, 3), [D1, D4, D2] + [D3]);
    Settle([D1, D4, D2, D3], [1, 1], 3, [D1, D4, D2], D3, [D1, D2, D4]);
    SameUpToEight([1, 1] + [3], [1, 1, 3]);
    SameUpToEight([D1, D2, D4] + [D3], [D1, D2, D4, D3]);
  }

  lemma OthersOfFirst()
    ensures Others(CARDS, C1) == [C2, C3, C4]
  {
    assert CARDS[1..] == [C2, C3, C4];
    NoneLeftOut([C2, C3, C4], C1);
  }

  lemma OtherDefinitions()
    ensures Mapped(Definition, [C2, C3, C4]) == [D2, D3, D4]
  {
    var cards, texts := [C2, C3, C4], Mapped(Definition, [C2, C3, C4]);
    assert cards[0] == C2 && cards[1] == C3 && cards[2] == C4;
    assert texts[0] == Definition(cards[0]) && texts[1] == Definition(cards[1]) && texts[2] == Definition(cards[2]);
  }

  lemma FirstChoices()
    ensures Choices(CARDS, C1, 4, 0x6c576fac43fd007c) == [D1, D2, D4, D3]
  {
    OthersOfFirst();
    OtherDefinitions();
    PoolPicks();
    ChoicePicks();
    Pool3();
    QuizStates();
    assert Listed(CARDS, C1, 4, 0x6c576fac43fd007c) == [D1, D4, D2, D3];
    Choices4();
  }

  /** The first question of the pinned quiz: seed 1 over four cards begins with card 1, with these choices. */
  lemma FirstOfQuiz(quiz: seq<Question>)
    requires IsQuiz(CARDS, EffectiveSeed(1), DistractorSeed(1), quiz)
    ensures |quiz| == 4 && quiz[0] == Question(C1, [D1, D2, D4, D3], 0)
  {
    QuizSeed();
    DeckPicks();
    Deck4();
    FirstChoices();
    assert quiz[0] == Asked(CARDS, C1, 4, DistractorSeed(1)) by {
      assert quiz[0] == QuestionAt(CARDS, [C1, C4, C3, C2], 4, DistractorSeed(1), 0);
    }
  }
}
