/** Decimal notation of 64-bit integers. */
module Decimal {
  import opened Options

  const INT64_MAX := 0x7FFF_FFFF_FFFF_FFFF

  predicate IsDigit(c: char) {
    '0' <= c <= '9'
  }

  function DigitOf(d: nat): (c: char)
    requires d < 10
    ensures IsDigit(c) && ValueOf(c) == d
  {
    '0' + d as char
  }

  function ValueOf(c: char): (d: nat)
    requires IsDigit(c)
    ensures d < 10
  {
    c as int - '0' as int
  }

  function FormatNat(n: nat): (s: string)
    ensures |s| > 0 && forall i :: 0 <= i < |s| ==> IsDigit(s[i])
  {
    if n < 10 then [DigitOf(n)] else FormatNat(n / 10) + [DigitOf(n % 10)]
  }

  function FormatInt(n: int): string {
    if n < 0 then "-" + FormatNat(-n) else FormatNat(n)
  }

  predicate AllDigits(s: string) {
    |s| > 0 && forall i :: 0 <= i < |s| ==> IsDigit(s[i])
  }

  function DigitsValue(s: string): nat
    requires forall i :: 0 <= i < |s| ==> IsDigit(s[i])
  {
    if s == [] then 0 else 10 * DigitsValue(s[..|s| - 1]) + ValueOf(s[|s| - 1])
  }

  /** A base-10 64-bit integer with an optional sign; nothing else is accepted. */
  function ParseInt64(s: string): Option<int> {
    var signed := |s| > 0 && (s[0] == '+' || s[0] == '-');
    var digits := if signed then s[1..] else s;
    if !AllDigits(digits) then None
    else
      var v: int := if signed && s[0] == '-' then 0 - DigitsValue(digits) else DigitsValue(digits);
      if -INT64_MAX - 1 <= v <= INT64_MAX then Some(v) else None
  }

  /** One more digit makes a number ten times as large, and adds what the digit stands for. */
  lemma DigitsCount(s: string, k: nat)
    requires (s == "" || AllDigits(s)) && k < 10
    ensures AllDigits(s + ["0123456789"[k]])
    ensures DigitsValue(s + ["0123456789"[k]]) == 10 * DigitsValue(s) + k
  {
    assert (s + ["0123456789"[k]])[..|s|] == s;
  }

  /** Exactly these texts are numbers: digits within the 64-bit range, with a sign or without. */
  lemma NumberForms(s: string, v: int)
    ensures ParseInt64(s) == Some(v) <==>
            && -0x8000_0000_0000_0000 <= v < 0x8000_0000_0000_0000
            && exists digits :: AllDigits(digits)
                 && (((s == digits || s == "+" + digits) && v == DigitsValue(digits))
                     || (s == "-" + digits && v + DigitsValue(digits) == 0))
  {
    if AllDigits(s) {
      assert IsDigit(s[0]);
    }
    if s != "" {
      assert s == [s[0]] + s[1..];
    }
    if digits :| AllDigits(digits) && (s == "+" + digits || s == "-" + digits) {
      assert s[1..] == digits;
    }
  }

  lemma {:induction false} DigitsRoundTrip(n: nat)
    ensures DigitsValue(FormatNat(n)) == n
  {
    if n >= 10 {
      DigitsRoundTrip(n / 10);
      var s := FormatNat(n);
      assert s[..|s| - 1] == FormatNat(n / 10);
    }
  }

  /** Reading back a printed non-negative id gives the id. */
  lemma ParseFormatted(n: nat)
    requires n <= INT64_MAX
    ensures ParseInt64(FormatInt(n)) == Some(n)
  {
    DigitsRoundTrip(n);
    assert IsDigit(FormatNat(n)[0]);
  }

  const INT64_MIN := -INT64_MAX - 1

  /** Negation of 64-bit numbers: the smallest one is its own negative. */
  function Negated(v: int): int {
    if v == INT64_MIN then v else -v
  }

  /**
   The organization service's printer: digits are written backwards into a 20-byte buffer. The smallest number has no
   positive counterpart, and only its sign is printed.
   */
  method Itoa(v: int) returns (s: string)
    requires INT64_MIN <= v <= INT64_MAX
    ensures s == FormatInt(v) <==> v != INT64_MIN
    ensures v == INT64_MIN ==> s == "-"
  {
    if v == 0 {
      return "0";
    }
    var neg := v < 0;
    var rest := if neg then Negated(v) else v;
    ghost var whole: nat := if rest < 0 then 0 else rest;
    var buf := new char[20](_ => '0');
    var i := 20;
    assert buf[i..] == [];
    FewDigits(whole, 19);
    while rest > 0
      invariant 0 <= i <= 20
      invariant if v == INT64_MIN then rest == v && i == 20 else rest >= 0 && whole == if neg then -v else v
      invariant rest > 0 ==> FormatNat(rest) + buf[i..] == FormatNat(whole)
      invariant rest == 0 ==> buf[i..] == FormatNat(whole)
      invariant rest > 0 ==> |FormatNat(rest)| + 1 <= i
      invariant i >= 1
      decreases rest
    {
      i := i - 1;
      ghost var tail := buf[i + 1..];
      buf[i] := DigitOf(rest % 10);
      assert buf[i..] == [DigitOf(rest % 10)] + tail;
      ghost var shorter := FormatNat(rest / 10);
      assert rest >= 10 ==> FormatNat(rest) == shorter + [DigitOf(rest % 10)];
      assert shorter + [DigitOf(rest % 10)] + tail == shorter + buf[i..];
      rest := rest / 10;
    }
    if neg {
      i := i - 1;
      ghost var tail := buf[i + 1..];
      buf[i] := '-';
      assert buf[i..] == "-" + tail;
    }
    return buf[i..];
  }

  function Pow10(n: nat): nat {
    if n == 0 then 1 else 10 * Pow10(n - 1)
  }

  lemma {:induction false} FewDigitsStep(n: nat, k: nat)
    requires k >= 1 && n < Pow10(k)
    ensures |FormatNat(n)| <= k
  {
    if n >= 10 {
      assert k > 1;
      FewDigitsStep(n / 10, k - 1);
    }
  }

  lemma FewDigits(n: nat, k: nat)
    requires k == 19 && n <= INT64_MAX
    ensures |FormatNat(n)| <= k
  {
    assert Pow10(4) == 10_000;
    assert Pow10(8) == 10_000 * Pow10(4);
    assert Pow10(12) == 10_000 * Pow10(8);
    assert Pow10(16) == 10_000 * Pow10(12);
    assert Pow10(19) == 1_000 * Pow10(16);
    FewDigitsStep(n, k);
  }
}
