/** Multiple-choice questions from a deck, with one generator threaded through all of them. */
module Questions {
  import opened Xorshift
  import opened FisherYates

  datatype Card = Card(id: nat, term: string, definition: string)

  datatype Question = Question(card: Card, choices: seq<string>, correctIndex: nat)

  function Min(a: nat, b: nat): nat {
    if a <= b then a else b
  }

  function Definition(card: Card): string {
    card.definition
  }

  /** The cards with another id, in deck order. */
  function Others(cards: seq<Card>, card: Card): (others: seq<Card>)
    ensures |others| <= |cards|
    ensures forall c :: c in others <==> c in cards && c.id != card.id
  {
    if cards == [] then []
    else (if cards[0].id != card.id then [cards[0]] else []) + Others(cards[1..], card)
  }

  /** The first place of x in s, or 0. */
  function PositionOf(s: seq<string>, x: string): (k: nat)
    ensures x in s ==> k < |s| && s[k] == x && x !in s[..k]
    ensures x !in s ==> k == 0
  {
    if x !in s then 0 else if s[0] == x then 0
    else
      assert s == [s[0]] + s[1..];
      1 + PositionOf(s[1..], x)
  }

  function DistractorSeed(seed: bv64): bv64 {
    EffectiveSeed(EffectiveSeed(seed) * 6364136223846793005 + 1442695040888963407)
  }

  // ---------------------------------------------------------------- one question, as a function

  ghost function Pool(cards: seq<Card>, card: Card, state: bv64): seq<string> {
    var definitions := Mapped(Definition, Others(cards, card));
    Shuffled(definitions, Drawn(state, |definitions|))
  }

  ghost function Listed(cards: seq<Card>, card: Card, numChoices: nat, state: bv64): seq<string>
    requires numChoices >= 1
  {
    var pool := Pool(cards, card, state);
    [card.definition] + pool[..Min(numChoices - 1, |pool|)]
  }

  /** The generator after the pool has been shuffled. */
  ghost function AfterPool(cards: seq<Card>, card: Card, state: bv64): bv64 {
    StateAfter(state, Draws(|Others(cards, card)|))
  }

  ghost function Choices(cards: seq<Card>, card: Card, numChoices: nat, state: bv64): seq<string>
    requires numChoices >= 1
  {
    var listed := Listed(cards, card, numChoices, state);
    Shuffled(listed, Drawn(AfterPool(cards, card, state), |listed|))
  }

  ghost function Asked(cards: seq<Card>, card: Card, numChoices: nat, state: bv64): Question
    requires numChoices >= 1
  {
    var choices := Choices(cards, card, numChoices, state);
    Question(card, choices, PositionOf(choices, card.definition))
  }

  ghost function AfterQuestion(cards: seq<Card>, card: Card, numChoices: nat, state: bv64): bv64
    requires numChoices >= 1
  {
    StateAfter(AfterPool(cards, card, state), Draws(|Listed(cards, card, numChoices, state)|))
  }

  /** The generator before question k of the shuffled deck. */
  ghost function StateBefore(cards: seq<Card>, deck: seq<Card>, numChoices: nat, state: bv64, k: nat): bv64
    requires numChoices >= 1 && k <= |deck|
  {
    if k == 0 then state else AfterQuestion(cards, deck[k - 1], numChoices,
      StateBefore(cards, deck, numChoices, state, k - 1))
  }

  ghost function QuestionAt(cards: seq<Card>, deck: seq<Card>, numChoices: nat, start: bv64, k: nat): Question
    requires numChoices >= 1 && k < |deck|
  {
    Asked(cards, deck[k], numChoices, StateBefore(cards, deck, numChoices, start, k))
  }

  /** The first k questions. */
  ghost function FirstQuestions(cards: seq<Card>, deck: seq<Card>, numChoices: nat, start: bv64,
      k: nat): (quiz: seq<Question>)
    requires numChoices >= 1 && k <= |deck|
    ensures |quiz| == k && forall i :: 0 <= i < k ==> quiz[i] == QuestionAt(cards, deck, numChoices, start, i)
  {
    if k == 0 then []
    else
      var last := QuestionAt(cards, deck, numChoices, start, k - 1);
      FirstQuestions(cards, deck, numChoices, start, k - 1) + [last]
  }

  /** The quiz made by two generator states: one that orders the deck and one that all questions share. */
  ghost predicate IsQuiz(cards: seq<Card>, order: bv64, start: bv64, quiz: seq<Question>) {
    if |cards| < 2 then quiz == []
    else
      quiz == FirstQuestions(cards, Shuffled(cards, Drawn(order, |cards|)), Min(4, |cards|), start, |cards|)
  }

  // ---------------------------------------------------------------- the engine

  method ShuffledCopy(s: seq<string>, rng: Generator) returns (t: seq<string>)
    modifies rng
    ensures t == Shuffled(s, Drawn(old(rng.state), |s|))
    ensures rng.state == StateAfter(old(rng.state), Draws(|s|))
  {
    var a := new string[|s|](i requires 0 <= i < |s| => s[i]);
    assert a[..] == s;
    ShuffleInPlace(a, rng);
    t := a[..];
  }

  method AskAbout(cards: seq<Card>, card: Card, numChoices: nat, rng: Generator) returns (q: Question)
    requires numChoices >= 1
    modifies rng
    ensures q == Asked(cards, card, numChoices, old(rng.state))
    ensures rng.state == AfterQuestion(cards, card, numChoices, old(rng.state))
  {
    var pool := ShuffledCopy(Mapped(Definition, Others(cards, card)), rng);
    var distractors := pool[..Min(numChoices - 1, |pool|)];
    var choices := ShuffledCopy([card.definition] + distractors, rng);
    q := Question(card, choices, PositionOf(choices, card.definition));
  }

  method GenerateQuestions(cards: seq<Card>, seed: bv64) returns (quiz: seq<Question>)
    ensures IsQuiz(cards, EffectiveSeed(seed), DistractorSeed(seed), quiz)
  {
    quiz := GenerateFrom(cards, EffectiveSeed(seed), DistractorSeed(seed));
  }

  method GenerateFrom(cards: seq<Card>, order: bv64, start: bv64) returns (quiz: seq<Question>)
    requires order != 0 && start != 0
    ensures IsQuiz(cards, order, start, quiz)
  {
    if |cards| < 2 {
      return [];
    }
    var deck := SeededShuffle(cards, order);
    var rng := new Generator(start);
    quiz := AskAboutAll(cards, deck, Min(4, |cards|), rng);
  }

  method AskAboutAll(cards: seq<Card>, deck: seq<Card>, numChoices: nat, rng: Generator) returns (quiz: seq<Question>)
    requires numChoices >= 1
    modifies rng
    ensures quiz == FirstQuestions(cards, deck, numChoices, old(rng.state), |deck|)
  {
    ghost var start := rng.state;
    quiz := [];
    for k := 0 to |deck|
      invariant rng.state == StateBefore(cards, deck, numChoices, start, k)
      invariant quiz == FirstQuestions(cards, deck, numChoices, start, k)
    {
      var q := AskAbout(cards, deck[k], numChoices, rng);
      quiz := quiz + [q];
    }
  }

  // ---------------------------------------------------------------- what a quiz is like

  ghost function CardsOf(quiz: seq<Question>): seq<Card> {
    seq(|quiz|, k requires 0 <= k < |quiz| => quiz[k].card)
  }

  /** Fewer than two cards make no quiz; otherwise there are as many questions as cards. */
  lemma QuizSize(cards: seq<Card>, order: bv64, start: bv64, quiz: seq<Question>)
    requires IsQuiz(cards, order, start, quiz)
    ensures quiz == [] <==> |cards| < 2
    ensures |cards| > 1 ==> |quiz| == |cards|
  {
  }

  /** A quiz asks about every card of the deck exactly as often as it is in the deck. */
  lemma QuizCoversDeck(cards: seq<Card>, order: bv64, start: bv64, quiz: seq<Question>)
    requires |cards| >= 2 && IsQuiz(cards, order, start, quiz)
    ensures multiset(CardsOf(quiz)) == multiset(cards)
  {
    DeckOrder(cards, Shuffled(cards, Drawn(order, |cards|)), order, start, quiz);
    ShuffledPermutes(cards, Drawn(order, |cards|));
  }

  lemma TakeWithin<T>(s: seq<T>, n: nat)
    requires n <= |s|
    ensures multiset(s[..n]) <= multiset(s)
  {
    assert s == s[..n] + s[n..];
  }

  /**
   The choices of a question are the card's own definition and the definitions of other cards, no card used more
   often than it is in the deck; as many as fit.
   */
  lemma ChoicesOfQuestion(cards: seq<Card>, card: Card, numChoices: nat, state: bv64) returns (wrong: seq<Card>)
    requires numChoices >= 1
    ensures multiset(wrong) <= multiset(Others(cards, card)) && |wrong| == Min(numChoices - 1, |Others(cards, card)|)
    ensures multiset(Choices(cards, card, numChoices, state)) == multiset([card.definition] + Mapped(Definition, wrong))
    ensures |Choices(cards, card, numChoices, state)| == 1 + |wrong|
  {
    var others := Others(cards, card);
    var picks := Drawn(state, |others|);
    var n := Min(numChoices - 1, |others|);
    wrong := Shuffled(others, picks)[..n];
    ShuffledPermutes(others, picks);
    TakeWithin(Shuffled(others, picks), n);
    ShuffleCommutesWithMap(Definition, others, picks);
    assert Mapped(Definition, wrong) == Pool(cards, card, state)[..n];
    var listed := Listed(cards, card, numChoices, state);
    ShuffledPermutes(listed, Drawn(AfterPool(cards, card, state), |listed|));
  }

  lemma InBoth<T>(a: seq<T>, b: seq<T>, x: T)
    requires multiset(a) == multiset(b)
    ensures x in a <==> x in b
  {
    assert x in multiset(a) <==> x in multiset(b);
  }

  /** The index points at the card's definition, at its first place among the choices. */
  lemma CorrectIndexIsRight(cards: seq<Card>, card: Card, numChoices: nat, state: bv64)
    requires numChoices >= 1
    ensures var q := Asked(cards, card, numChoices, state);
            q.correctIndex < |q.choices| && q.choices[q.correctIndex] == card.definition
              && card.definition !in q.choices[..q.correctIndex]
  {
    var wrong := ChoicesOfQuestion(cards, card, numChoices, state);
    var listed := [card.definition] + Mapped(Definition, wrong);
    assert listed[0] == card.definition;
    InBoth(Choices(cards, card, numChoices, state), listed, card.definition);
  }

  ghost predicate DistinctIds(cards: seq<Card>) {
    forall i, j :: 0 <= i < j < |cards| ==> cards[i].id != cards[j].id
  }

  /** How many numbers a question over n cards takes: one for each choice that is put in its place, but the first. */
  ghost function NumbersPerQuestion(n: nat): nat
    requires n >= 2
  {
    n - 2 + if n < 4 then n - 1 else 3
  }

  lemma QuestionTakes(cards: seq<Card>, card: Card, state: bv64)
    requires |cards| >= 2 && DistinctIds(cards) && card in cards
    ensures AfterQuestion(cards, card, Min(4, |cards|), state) == StateAfter(state, NumbersPerQuestion(|cards|))
  {
    AllButOne(cards, card);
    var n := |Listed(cards, card, Min(4, |cards|), state)|;
    DrawsAdd(state, Draws(|cards| - 1), Draws(n));
  }

  function Times(k: nat, each: nat): nat {
    if k == 0 then 0 else Times(k - 1, each) + each
  }

  lemma {:induction false} TimesIsProduct(k: nat, each: nat)
    ensures Times(k, each) == k * each
  {
    if k > 0 {
      TimesIsProduct(k - 1, each);
    }
  }

  /** The generator before question k, when every question goes on from there by so many numbers. */
  lemma {:induction false} TurnsAdd<S>(before: nat -> S, go: (S, nat) -> S, each: nat, start: S, limit: nat, k: nat)
    requires k <= limit && before(0) == start == go(start, 0)
    requires forall i :: 0 < i <= limit ==> before(i) == go(before(i - 1), each)
    requires forall m: nat :: go(go(start, m), each) == go(start, m + each)
    ensures before(k) == go(start, Times(k, each))
  {
    if k > 0 {
      TurnsAdd(before, go, each, start, limit, k - 1);
      assert before(k) == go(go(start, Times(k - 1, each)), each);
    }
  }

  ghost function Turns(cards: seq<Card>, deck: seq<Card>, numChoices: nat, start: bv64): nat -> bv64
    requires numChoices >= 1
  {
    (i: nat) => if i <= |deck| then StateBefore(cards, deck, numChoices, start, i) else start
  }

  function Later(): (bv64, nat) -> bv64 {
    (state: bv64, n: nat) => StateAfter(state, n)
  }

  lemma NextTurn(cards: seq<Card>, deck: seq<Card>, numChoices: nat, start: bv64, i: nat)
    requires numChoices >= 1 && 0 < i <= |deck|
    ensures var before := Turns(cards, deck, numChoices, start);
            before(i) == AfterQuestion(cards, deck[i - 1], numChoices, before(i - 1))
  {
  }

  lemma TurnOfQuiz(cards: seq<Card>, deck: seq<Card>, start: bv64, i: nat)
    requires |cards| >= 2 && DistinctIds(cards) && 0 < i <= |deck| && deck[i - 1] in cards
    ensures Turns(cards, deck, Min(4, |cards|), start)(i)
              == Later()(Turns(cards, deck, Min(4, |cards|), start)(i - 1), NumbersPerQuestion(|cards|))
  {
    var before := Turns(cards, deck, Min(4, |cards|), start);
    NextTurn(cards, deck, Min(4, |cards|), start, i);
    QuestionTakes(cards, deck[i - 1], before(i - 1));
  }

  lemma LaterAdds(start: bv64, each: nat)
    ensures forall m: nat :: Later()(Later()(start, m), each) == Later()(start, m + each)
  {
    forall m: nat
      ensures Later()(Later()(start, m), each) == Later()(start, m + each)
    {
      DrawsAdd(start, m, each);
    }
  }

  lemma TurnsOfQuiz(cards: seq<Card>, deck: seq<Card>, start: bv64, k: nat)
    requires |cards| >= 2 && DistinctIds(cards) && k <= |deck| && forall c :: c in deck ==> c in cards
    ensures Turns(cards, deck, Min(4, |cards|), start)(k)
              == Later()(start, Times(k, NumbersPerQuestion(|cards|)))
  {
    var before, each := Turns(cards, deck, Min(4, |cards|), start), NumbersPerQuestion(|cards|);
    forall i | 0 < i <= |deck|
      ensures before(i) == Later()(before(i - 1), each)
    {
      TurnOfQuiz(cards, deck, start, i);
    }
    LaterAdds(start, each);
    TurnsAdd(before, Later(), each, start, |deck|, k);
  }

  lemma AskedInTurn(cards: seq<Card>, deck: seq<Card>, order: bv64, start: bv64, quiz: seq<Question>, k: nat)
    requires |cards| >= 2 && deck == Shuffled(cards, Drawn(order, |cards|)) && k < |cards|
    requires IsQuiz(cards, order, start, quiz)
    ensures |quiz| == |cards| && quiz[k].card == deck[k]
    ensures quiz[k] == Asked(cards, deck[k], Min(4, |cards|), StateBefore(cards, deck, Min(4, |cards|), start, k))
  {
    assert quiz[k] == QuestionAt(cards, deck, Min(4, |cards|), start, k);
  }

  lemma CardsAre(quiz: seq<Question>, deck: seq<Card>)
    requires |quiz| == |deck| && forall k :: 0 <= k < |quiz| ==> quiz[k].card == deck[k]
    ensures CardsOf(quiz) == deck
  {
  }

  /** The cards are asked about in the order of the shuffled deck. */
  lemma DeckOrder(cards: seq<Card>, deck: seq<Card>, order: bv64, start: bv64, quiz: seq<Question>)
    requires |cards| >= 2 && IsQuiz(cards, order, start, quiz) && deck == Shuffled(cards, Drawn(order, |cards|))
    ensures CardsOf(quiz) == deck
  {
    AskedInTurn(cards, deck, order, start, quiz, 0);
    forall k | 0 <= k < |quiz|
      ensures quiz[k].card == deck[k]
    {
      AskedInTurn(cards, deck, order, start, quiz, k);
    }
    CardsAre(quiz, deck);
  }

  /** The questions are drawn one after another: each goes on where the one before it has left the generator. */
  lemma QuestionsTakeTurns(cards: seq<Card>, order: bv64, start: bv64, quiz: seq<Question>, k: nat)
      returns (taken: nat)
    requires |cards| >= 2 && DistinctIds(cards) && IsQuiz(cards, order, start, quiz) && k < |quiz|
    ensures taken == k * NumbersPerQuestion(|cards|)
    ensures quiz[k] == Asked(cards, quiz[k].card, Min(4, |cards|), StateAfter(start, taken))
  {
    var deck, each := Shuffled(cards, Drawn(order, |cards|)), NumbersPerQuestion(|cards|);
    ShuffledPermutes(cards, Drawn(order, |cards|));
    forall c | c in deck
      ensures c in cards
    {
      InBoth(deck, cards, c);
    }
    taken := Times(k, each);
    TimesIsProduct(k, each);
    TurnsOfQuiz(cards, deck, start, k);
    AskedInTurn(cards, deck, order, start, quiz, k);
  }

  ghost predicate DistinctDefinitions(cards: seq<Card>) {
    forall i, j :: 0 <= i < j < |cards| ==> cards[i].definition != cards[j].definition
  }

  lemma {:induction false} NoneLeftOut(cards: seq<Card>, card: Card)
    requires forall c :: c in cards ==> c.id != card.id
    ensures Others(cards, card) == cards
  {
    if cards != [] {
      NoneLeftOut(cards[1..], card);
      assert cards == [cards[0]] + cards[1..];
    }
  }

  lemma {:induction false} AllButOne(cards: seq<Card>, card: Card)
    requires DistinctIds(cards) && card in cards
    ensures |Others(cards, card)| == |cards| - 1
  {
    if cards[0].id == card.id {
      NoneLeftOut(cards[1..], card);
    } else {
      AllButOne(cards[1..], card);
    }
  }

  lemma TwoPlaces<T>(s: seq<T>, x: T, i: nat, j: nat)
    requires i < j < |s| && s[i] == x && s[j] == x
    ensures multiset(s)[x] >= 2
  {
    assert s == s[..i] + [s[i]] + s[i + 1..j] + [s[j]] + s[j + 1..];
  }

  lemma OnePlace<T>(s: seq<T>, x: T, i: nat, j: nat)
    requires multiset(s)[x] == 1 && i < |s| && j < |s| && s[i] == x && s[j] == x
    ensures i == j
  {
    if i < j {
      TwoPlaces(s, x, i, j);
    } else if j < i {
      TwoPlaces(s, x, j, i);
    }
  }

  /** A definition that belongs to one card only is listed once. */
  lemma RightAnswerOnce(cards: seq<Card>, card: Card, wrong: seq<Card>)
    requires DistinctDefinitions(cards) && card in cards && forall c :: c in wrong ==> c in cards && c.id != card.id
    ensures multiset([card.definition] + Mapped(Definition, wrong))[card.definition] == 1
  {
    var w := Mapped(Definition, wrong);
    forall i | 0 <= i < |w|
      ensures w[i] != card.definition
    {
      assert wrong[i] in wrong && wrong[i] != card;
    }
    assert card.definition !in w;
  }

  /** With distinct definitions only one of a question's choices is right. */
  lemma OneRightChoice(cards: seq<Card>, card: Card, numChoices: nat, state: bv64, i: nat)
    requires numChoices >= 1 && DistinctDefinitions(cards) && card in cards
    requires var q := Asked(cards, card, numChoices, state); i < |q.choices| && q.choices[i] == card.definition
    ensures i == Asked(cards, card, numChoices, state).correctIndex
  {
    var q := Asked(cards, card, numChoices, state);
    CorrectIndexIsRight(cards, card, numChoices, state);
    var wrong := ChoicesOfQuestion(cards, card, numChoices, state);
    forall c | c in wrong
      ensures c in cards && c.id != card.id
    {
      assert c in multiset(wrong) && c in multiset(Others(cards, card));
    }
    RightAnswerOnce(cards, card, wrong);
    OnePlace(q.choices, card.definition, i, q.correctIndex);
  }

  /**
   In a deck with distinct ids every question has min(4, n) choices: the card's own definition and those of other
   cards, each used once.
   */
  lemma ChoicesAreFair(cards: seq<Card>, card: Card, numChoices: nat, state: bv64)
    requires DistinctIds(cards) && card in cards && numChoices == Min(4, |cards|)
    ensures |Choices(cards, card, numChoices, state)| == numChoices
    ensures exists wrong :: multiset(wrong) <= multiset(Others(cards, card))
              && multiset(Choices(cards, card, numChoices, state))
                == multiset([card.definition] + Mapped(Definition, wrong))
  {
    AllButOne(cards, card);
    var wrong := ChoicesOfQuestion(cards, card, numChoices, state);
  }

  lemma CardOfQuestion(cards: seq<Card>, order: bv64, start: bv64, quiz: seq<Question>, k: nat) returns (state: bv64)
    requires |cards| >= 2 && IsQuiz(cards, order, start, quiz) && k < |quiz|
    ensures quiz[k].card in cards && quiz[k] == Asked(cards, quiz[k].card, Min(4, |cards|), state)
  {
    var deck := Shuffled(cards, Drawn(order, |cards|));
    state := StateBefore(cards, deck, Min(4, |cards|), start, k);
    ShuffledPermutes(cards, Drawn(order, |cards|));
    InBoth(deck, cards, deck[k]);
    assert quiz[k] == QuestionAt(cards, deck, Min(4, |cards|), start, k);
  }

  /** What is promised of every question of every quiz over cards with distinct ids. */
  ghost predicate Fair(cards: seq<Card>, q: Question) {
    && |q.choices| == Min(4, |cards|)
    && q.correctIndex < |q.choices| && q.choices[q.correctIndex] == q.card.definition
    && (exists wrong :: multiset(wrong) <= multiset(Others(cards, q.card))
         && multiset(q.choices) == multiset([q.card.definition] + Mapped(Definition, wrong)))
    && (DistinctDefinitions(cards) ==> forall i :: 0 <= i < |q.choices| && q.choices[i] == q.card.definition ==>
      i == q.correctIndex)
  }

  lemma AskedIsFair(cards: seq<Card>, card: Card, state: bv64)
    requires |cards| >= 2 && DistinctIds(cards) && card in cards
    ensures Fair(cards, Asked(cards, card, Min(4, |cards|), state))
  {
    var n := Min(4, |cards|);
    var q := Asked(cards, card, n, state);
    ChoicesAreFair(cards, card, n, state);
    CorrectIndexIsRight(cards, card, n, state);
    if DistinctDefinitions(cards) {
      forall i | 0 <= i < |q.choices| && q.choices[i] == card.definition
        ensures i == q.correctIndex
      {
        OneRightChoice(cards, card, n, state, i);
      }
    }
  }

  lemma QuestionsAreFair(cards: seq<Card>, order: bv64, start: bv64, quiz: seq<Question>, k: nat)
    requires |cards| >= 2 && DistinctIds(cards) && IsQuiz(cards, order, start, quiz) && k < |quiz|
    ensures Fair(cards, quiz[k])
  {
    var state := CardOfQuestion(cards, order, start, quiz, k);
    AskedIsFair(cards, quiz[k].card, state);
  }
}
