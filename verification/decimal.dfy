/** Decimal text of integers, as string interpolation of a C# `int` writes it
    with the invariant number format: an optional '-' followed by the digits
    of the magnitude, without leading zeros. `Parse` reads such text back and
    is the partner the round-trip lemmas relate `Show` to. */
module Decimal {
  import opened Options

  predicate IsDigit(c: char) {
    '0' <= c <= '9'
  }

  predicate AllDigits(s: string) {
    forall i :: 0 <= i < |s| ==> IsDigit(s[i])
  }

  function DigitChar(d: nat): (c: char)
    requires d < 10
    ensures IsDigit(c)
    ensures DigitValue(c) == d
  {
    ('0' as int + d) as char
  }

  function DigitValue(c: char): (d: nat)
    requires IsDigit(c)
    ensures d < 10
  {
    c as int - '0' as int
  }

  /** The digits of a natural number, most significant first. */
  function ShowNat(n: nat): (s: string)
    ensures |s| > 0
    ensures AllDigits(s)
    ensures n > 0 ==> s[0] != '0'
    ensures n == 0 ==> s == "0"
    decreases n
  {
    if n < 10 then [DigitChar(n)] else ShowNat(n / 10) + [DigitChar(n % 10)]
  }

  /** The text of an integer: the magnitude's digits, preceded by '-' when negative. */
  function Show(n: int): (s: string)
    ensures |s| > 0
    ensures s[0] == '-' <==> n < 0
    ensures '&' !in s && '=' !in s
  {
    if n < 0 then "-" + ShowNat(-n) else ShowNat(n)
  }

  /** The value of a string of digits (leading zeros allowed). */
  function ParseDigits(s: string): nat
    requires AllDigits(s)
    decreases |s|
  {
    if s == [] then 0 else ParseDigits(s[..|s| - 1]) * 10 + DigitValue(s[|s| - 1])
  }

  /** Reads an optional '-' and one or more digits; anything else is rejected. */
  function Parse(s: string): (r: Option<int>)
    ensures r.Some? ==> |s| > 0
    ensures r.Some? && r.value < 0 ==> s[0] == '-'
  {
    if |s| > 1 && s[0] == '-' && AllDigits(s[1..]) then Some(-(ParseDigits(s[1..]) as int))
    else if |s| > 0 && AllDigits(s) then Some(ParseDigits(s))
    else None
  }

  /** Text `Show` can produce: no leading zero and no negative zero. */
  predicate Canonical(s: string) {
    if |s| > 0 && s[0] == '-' then |s| > 1 && AllDigits(s[1..]) && s[1] != '0'
    else |s| > 0 && AllDigits(s) && (s[0] == '0' ==> |s| == 1)
  }

  lemma {:induction false} ParseShowNat(n: nat)
    ensures ParseDigits(ShowNat(n)) == n
    decreases n
  {
    var s := ShowNat(n);
    if n < 10 {
      assert s[..|s| - 1] == [];
    } else {
      assert s[..|s| - 1] == ShowNat(n / 10);
      ParseShowNat(n / 10);
    }
  }

  lemma {:induction false} ParseDigitsPositive(s: string)
    requires |s| > 0 && AllDigits(s) && s[0] != '0'
    ensures ParseDigits(s) > 0
    decreases |s|
  {
    if |s| > 1 {
      ParseDigitsPositive(s[..|s| - 1]);
    }
  }

  lemma {:induction false} ShowParseDigits(s: string)
    requires |s| > 0 && AllDigits(s) && (s[0] == '0' ==> |s| == 1)
    ensures ShowNat(ParseDigits(s)) == s
    decreases |s|
  {
    var init := s[..|s| - 1];
    var n := ParseDigits(s);
    if |s| == 1 {
      assert init == [];
    } else {
      ParseDigitsPositive(init);
      ShowParseDigits(init);
      assert n / 10 == ParseDigits(init);
      assert n % 10 == DigitValue(s[|s| - 1]);
      assert s == init + [s[|s| - 1]];
    }
  }

  /** Reading the text of any integer gives that integer back. */
  lemma ParseShow(n: int)
    ensures Parse(Show(n)) == Some(n)
  {
    var s := Show(n);
    if n < 0 {
      assert s[1..] == ShowNat(-n);
      ParseShowNat(-n);
    } else {
      ParseShowNat(n);
    }
  }

  /** Every canonical text is the text of the integer it reads as. */
  lemma ShowParse(s: string)
    requires Canonical(s)
    ensures Parse(s).Some? && Show(Parse(s).value) == s
  {
    if s[0] == '-' {
      ShowParseDigits(s[1..]);
      ParseDigitsPositive(s[1..]);
      assert s == "-" + s[1..];
    } else {
      ShowParseDigits(s);
    }
  }

  /** Distinct integers are written differently. */
  lemma ShowInjective(a: int, b: int)
    ensures Show(a) == Show(b) <==> a == b
  {
    ParseShow(a);
    ParseShow(b);
  }

  /** `Show` only ever writes canonical text. */
  lemma ShowIsCanonical(n: int)
    ensures Canonical(Show(n))
  {
    if n < 0 {
      assert Show(n)[1..] == ShowNat(-n);
    }
  }

  lemma Show500()
    ensures Show(500) == "500"
  {
    assert ShowNat(5) == "5";
    assert ShowNat(50) == ShowNat(5) + "0";
    assert ShowNat(500) == ShowNat(50) + "0";
  }
}
