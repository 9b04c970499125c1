/** Facts about strings that are put together with a separator. */
module Strings {
  predicate HasPrefix(s: string, prefix: string) {
    |prefix| <= |s| && s[..|prefix|] == prefix
  }

  predicate HasSuffix(s: string, suffix: string) {
    |suffix| <= |s| && s[|s| - |suffix|..] == suffix
  }

  lemma SeparatorNotInside(a: string, x: string, b: string, y: string, c: char)
    requires c !in b && a + [c] + x == b + [c] + y
    ensures |b| <= |a|
  {
    var s := a + [c] + x;
    assert s[|a|] == c;
    assert s[..|b|] == b;
  }

  /** The first separator splits a string in only one way. */
  lemma FirstSeparatorSplits(a: string, x: string, b: string, y: string, c: char)
    requires c !in a && c !in b && a + [c] + x == b + [c] + y
    ensures a == b && x == y
  {
    SeparatorNotInside(a, x, b, y, c);
    SeparatorNotInside(b, y, a, x, c);
    var s := a + [c] + x;
    assert s[..|a|] == a && s[..|b|] == b;
    assert s[|a| + 1..] == x && s[|b| + 1..] == y;
  }

  /** The place of the first c in s. */
  function IndexOf(s: string, c: char): (k: nat)
    requires c in s
    ensures k < |s| && s[k] == c && c !in s[..k]
  {
    if s[0] == c then 0
    else
      assert s == [s[0]] + s[1..];
      1 + IndexOf(s[1..], c)
  }

  lemma IndexOfSeparator(a: string, c: char, b: string)
    requires c !in a
    ensures var s := a + [c] + b; c in s && IndexOf(s, c) == |a| && s[..|a|] == a && s[|a| + 1..] == b
  {
    var s := a + [c] + b;
    assert s[|a|] == c;
    var k := IndexOf(s, c);
    assert s == s[..k] + [c] + s[k + 1..];
    FirstSeparatorSplits(a, b, s[..k], s[k + 1..], c);
  }

  function Split(s: string, c: char): seq<string>
    decreases |s|
  {
    if c !in s then [s]
    else [s[..IndexOf(s, c)]] + Split(s[IndexOf(s, c) + 1..], c)
  }

  function Join(parts: seq<string>, c: char): string {
    if parts == [] then "" else if |parts| == 1 then parts[0] else parts[0] + [c] + Join(parts[1..], c)
  }

  lemma SplitOff(part: string, c: char, rest: string)
    requires c !in part
    ensures Split(part + [c] + rest, c) == [part] + Split(rest, c)
  {
    IndexOfSeparator(part, c, rest);
  }

  lemma {:induction false} SplitOfJoin(parts: seq<string>, c: char)
    requires parts != [] && forall p :: p in parts ==> c !in p
    ensures Split(Join(parts, c), c) == parts
  {
    if |parts| > 1 {
      SplitOff(parts[0], c, Join(parts[1..], c));
      SplitOfJoin(parts[1..], c);
      assert parts == [parts[0]] + parts[1..];
    } else {
      assert parts == [parts[0]];
    }
  }

  lemma {:induction false} JoinOfSplit(s: string, c: char)
    ensures Join(Split(s, c), c) == s
    ensures forall p :: p in Split(s, c) ==> c !in p
    decreases |s|
  {
    if c in s {
      var k := IndexOf(s, c);
      assert s == s[..k] + [c] + s[k + 1..];
      JoinOfSplit(s[k + 1..], c);
      var parts := Split(s, c);
      assert parts[0] == s[..k] && parts[1..] == Split(s[k + 1..], c);
    }
  }

  /** White space, as Unicode has it. */
  predicate IsSpace(c: char) {
    c == ' ' || '\t' <= c <= '\r' || c as int == 0x85 || c as int == 0xA0 || c as int == 0x1680
      || 0x2000 <= c as int <= 0x200A
    || c as int == 0x2028 || c as int == 0x2029 || c as int == 0x202F || c as int == 0x205F || c as int == 0x3000
  }

  function StripLeft(s: string, drop: char -> bool): string {
    if s != "" && drop(s[0]) then StripLeft(s[1..], drop) else s
  }

  function StripRight(s: string, drop: char -> bool): string {
    if s != "" && drop(s[|s| - 1]) then StripRight(s[..|s| - 1], drop) else s
  }

  /** The text without the unwanted characters at its ends. */
  function Strip(s: string, drop: char -> bool): string {
    StripRight(StripLeft(s, drop), drop)
  }

  lemma {:induction false} StripRightShape(s: string, drop: char -> bool)
    ensures |StripRight(s, drop)| <= |s|
    ensures StripRight(s, drop) != "" ==>
              !drop(StripRight(s, drop)[|StripRight(s, drop)| - 1]) && StripRight(s, drop)[0] == s[0]
  {
    if s != "" && drop(s[|s| - 1]) {
      StripRightShape(s[..|s| - 1], drop);
    }
  }

  lemma {:induction false} StripLeftShape(s: string, drop: char -> bool)
    ensures |StripLeft(s, drop)| <= |s|
    ensures StripLeft(s, drop) != "" ==> !drop(StripLeft(s, drop)[0])
  {
    if s != "" && drop(s[0]) {
      StripLeftShape(s[1..], drop);
    }
  }

  lemma {:induction false} StrippedLeft(s: string, drop: char -> bool) returns (a: string)
    ensures s == a + StripLeft(s, drop) && forall c :: c in a ==> drop(c)
  {
    if s != "" && drop(s[0]) {
      var rest := StrippedLeft(s[1..], drop);
      a := [s[0]] + rest;
    } else {
      a := "";
    }
  }

  lemma {:induction false} StrippedRight(s: string, drop: char -> bool) returns (b: string)
    ensures s == StripRight(s, drop) + b && forall c :: c in b ==> drop(c)
  {
    if s != "" && drop(s[|s| - 1]) {
      var rest := StrippedRight(s[..|s| - 1], drop);
      b := rest + [s[|s| - 1]];
    } else {
      b := "";
    }
  }

  /** Stripping takes unwanted characters from both ends, as many as there are. */
  lemma Stripped(s: string, drop: char -> bool) returns (a: string, b: string)
    ensures s == a + Strip(s, drop) + b && forall c :: c in a || c in b ==> drop(c)
    ensures Strip(s, drop) != "" ==> !drop(Strip(s, drop)[0]) && !drop(Strip(s, drop)[|Strip(s, drop)| - 1])
  {
    a := StrippedLeft(s, drop);
    b := StrippedRight(StripLeft(s, drop), drop);
    StripLeftShape(s, drop);
    StripRightShape(StripLeft(s, drop), drop);
  }

  lemma {:induction false} StripLeftWithin(s: string, drop: char -> bool, c: char)
    ensures c in StripLeft(s, drop) ==> c in s
  {
    if s != "" && drop(s[0]) {
      StripLeftWithin(s[1..], drop, c);
    }
  }

  lemma {:induction false} StripRightWithin(s: string, drop: char -> bool, c: char)
    ensures c in StripRight(s, drop) ==> c in s
  {
    if s != "" && drop(s[|s| - 1]) {
      StripRightWithin(s[..|s| - 1], drop, c);
    }
  }
}
