/**
 * Decimal text of unsigned integers, as `u16::to_string` writes a port:
 * at least one digit, no sign, no leading zero. `ParseDecimal` reads such
 * text back and is the inverse the round-trip lemmas are stated against.
 */
module DecimalText {
  import opened Wrappers
  import opened OsText

  predicate IsDigit(c: char)
  {
    '0' <= c <= '9'
  }

  predicate AllDigits(s: string)
  {
    forall i :: 0 <= i < |s| ==> IsDigit(s[i])
  }

  function DigitChar(d: nat): (c: char)
    requires d < 10
    ensures IsDigit(c)
  {
    (48 + d) as char
  }

  function DigitValue(c: char): (d: nat)
    requires IsDigit(c)
    ensures d < 10 && DigitChar(d) == c
  {
    c as int - 48
  }

  /** The decimal text of `n`: only digits, and a leading `0` only for zero itself. */
  function Decimal(n: nat): (s: string)
    ensures 1 <= |s| && AllDigits(s)
    ensures s[0] == '0' ==> s == "0" && n == 0
    decreases n
  {
    if n < 10 then [DigitChar(n)] else Decimal(n / 10) + [DigitChar(n % 10)]
  }

  /** The value of a string of digits, most significant first. */
  function DigitsValue(s: string): nat
    requires AllDigits(s)
  {
    if s == [] then 0 else DigitsValue(s[..|s| - 1]) * 10 + DigitValue(s[|s| - 1])
  }

  /** Reads decimal text; `None` when it is empty or holds a non-digit. */
  function ParseDecimal(s: string): Option<nat>
  {
    if s != [] && AllDigits(s) then Some(DigitsValue(s)) else None
  }

  /** Reading the decimal text of `n` gives back `n`. */
  lemma {:induction false} DecimalRoundTrip(n: nat)
    ensures ParseDecimal(Decimal(n)) == Some(n)
    decreases n
  {
    var s := Decimal(n);
    if n < 10 {
      assert s[..|s| - 1] == [];
    } else {
      DecimalRoundTrip(n / 10);
      assert s[..|s| - 1] == Decimal(n / 10);
      assert DigitValue(s[|s| - 1]) == n % 10;
      assert DigitsValue(s) == (n / 10) * 10 + n % 10;
    }
  }

  /** The leading digit bounds the value of a digit string from below. */
  lemma {:induction false} DigitsValueAtLeastLead(s: string)
    requires s != [] && AllDigits(s)
    ensures DigitsValue(s) >= DigitValue(s[0])
    decreases |s|
  {
    if |s| > 1 {
      var p := s[..|s| - 1];
      assert p[0] == s[0];
      DigitsValueAtLeastLead(p);
    }
  }

  /** Decimal text without a superfluous leading zero is exactly what `Decimal` writes for its value. */
  lemma {:induction false} DecimalOfParsed(s: string)
    requires ParseDecimal(s).Some?
    requires s[0] == '0' ==> |s| == 1
    ensures Decimal(ParseDecimal(s).value) == s
    decreases |s|
  {
    var n := DigitsValue(s);
    var last := DigitValue(s[|s| - 1]);
    assert n == DigitsValue(s[..|s| - 1]) * 10 + last;
    if |s| == 1 {
      assert s[..|s| - 1] == [];
    } else {
      var p := s[..|s| - 1];
      assert p[0] == s[0];
      DigitsValueAtLeastLead(p);
      var v := DigitsValue(p);
      assert v >= 1;
      assert n == v * 10 + last;
      assert n / 10 == v && n % 10 == last;
      DecimalOfParsed(p);
      assert s == p + [s[|s| - 1]];
    }
  }

  /** A digit is never whitespace, so decimal text never is quoted for display. */
  lemma DecimalHasNoWhitespace(n: nat)
    ensures !ContainsWhitespace(Decimal(n))
  {
    var s := Decimal(n);
    forall i | 0 <= i < |s|
      ensures !IsWhitespace(s[i])
    {
      assert IsDigit(s[i]);
    }
  }
}
