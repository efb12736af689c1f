/** Decimal text of natural numbers: how Python's `str`/f-strings write an
    `int`, and how `int(...)` reads a run of ASCII digits back. */
module Decimal {
  import opened Wrappers

  predicate IsDigit(c: char) {
    '0' <= c <= '9'
  }

  predicate AllDigits(s: string) {
    forall i | 0 <= i < |s| :: IsDigit(s[i])
  }

  function DigitValue(c: char): (d: nat)
    requires IsDigit(c)
    ensures d < 10
  {
    c as int - '0' as int
  }

  function DigitChar(d: nat): (c: char)
    requires d < 10
    ensures IsDigit(c) && DigitValue(c) == d
  {
    ('0' as int + d) as char
  }

  /** The value of a run of decimal digits, most significant first. */
  function DigitsValue(s: string): nat
    requires AllDigits(s)
    decreases |s|
  {
    if s == [] then 0 else DigitsValue(s[..|s| - 1]) * 10 + DigitValue(s[|s| - 1])
  }

  /** Reads a non-empty run of ASCII digits, most significant first;
      anything else does not read as a number. */
  function ParseDigits(s: string): (r: Option<nat>)
    ensures r.Some? ==> s != [] && IsDigit(s[0]) && IsDigit(s[|s| - 1])
    decreases |s|
  {
    if s == [] || !IsDigit(s[|s| - 1]) then None
    else if |s| == 1 then Some(DigitValue(s[0]))
    else match ParseDigits(s[..|s| - 1])
      case None => None
      case Some(v) => Some(v * 10 + DigitValue(s[|s| - 1]))
  }

  /** A text reads as a number exactly when it is a non-empty run of digits,
      and then it reads as their value. */
  lemma {:induction false} ParseDigitsMeaning(s: string)
    ensures ParseDigits(s).Some? <==> s != [] && AllDigits(s)
    ensures ParseDigits(s).Some? ==> AllDigits(s) && ParseDigits(s).value == DigitsValue(s)
    decreases |s|
  {
    if |s| > 1 {
      var init := s[..|s| - 1];
      ParseDigitsMeaning(init);
      assert AllDigits(s) <==> AllDigits(init) && IsDigit(s[|s| - 1]) by {
        if AllDigits(init) && IsDigit(s[|s| - 1]) {
          forall i | 0 <= i < |s| ensures IsDigit(s[i]) {
            if i < |s| - 1 { assert s[i] == init[i]; }
          }
        }
      }
    }
  }

  /** The shortest decimal text of `n` (no sign, no leading zeros). */
  function DecimalText(n: nat): (s: string)
    ensures |s| > 0 && AllDigits(s)
    ensures 'x' !in s
    decreases n
  {
    if n < 10 then [DigitChar(n)] else DecimalText(n / 10) + [DigitChar(n % 10)]
  }

  /** The digits that DecimalText writes have the value `n`. */
  lemma {:induction false} DigitsValueOfDecimalText(n: nat)
    ensures DigitsValue(DecimalText(n)) == n
  {
    if n >= 10 {
      var s := DecimalText(n);
      assert s[..|s| - 1] == DecimalText(n / 10);
      DigitsValueOfDecimalText(n / 10);
    }
  }

  /** Reading back the text that DecimalText writes gives the number again. */
  lemma ParseDecimalText(n: nat)
    ensures ParseDigits(DecimalText(n)) == Some(n)
  {
    ParseDigitsMeaning(DecimalText(n));
    DigitsValueOfDecimalText(n);
  }
}
