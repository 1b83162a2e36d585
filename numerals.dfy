/**
 * Decimal numerals as Python reads and writes them on plain ASCII digit
 * strings: `int(s)` parses, `str(n)` prints.
 */
module Numerals {
  import opened Wrappers

  predicate IsDigit(c: char) {
    '0' <= c <= '9'
  }

  predicate AllDigits(s: string) {
    forall i :: 0 <= i < |s| ==> IsDigit(s[i])
  }

  function DigitValue(c: char): (d: nat)
    requires IsDigit(c)
    ensures d < 10
  {
    c as int - '0' as int
  }

  function DigitChar(d: nat): (c: char)
    requires d < 10
    ensures IsDigit(c) && DigitValue(c) == d
  {
    ('0' as int + d) as char
  }

  /** The value of a digit string, most significant digit first. */
  function DigitsValue(s: string): nat
    requires AllDigits(s)
  {
    if s == [] then 0 else 10 * DigitsValue(s[..|s| - 1]) + DigitValue(s[|s| - 1])
  }

  /** The form `str(n)` produces: digits only, and no leading zero unless the numeral is "0". */
  predicate Canonical(s: string) {
    |s| > 0 && AllDigits(s) && (s[0] == '0' ==> |s| == 1)
  }

  /** `int(s)`: the value of a non-empty digit string, and `None` (a ValueError) for anything else. */
  function ParseInt(s: string): (r: Option<nat>)
    ensures r.Some? <==> |s| > 0 && AllDigits(s)
  {
    if |s| > 0 && AllDigits(s) then Some(DigitsValue(s)) else None
  }

  /** `str(n)` for a natural number. */
  function ToDecimal(n: nat): (s: string)
    ensures Canonical(s)
    ensures s[0] == '0' <==> n == 0
  {
    if n < 10 then [DigitChar(n)] else ToDecimal(n / 10) + [DigitChar(n % 10)]
  }

  /** Parsing what `str` printed gives the number back. */
  lemma {:induction false} ParsePrinted(n: nat)
    ensures ParseInt(ToDecimal(n)) == Some(n)
  {
    var s := ToDecimal(n);
    assert s[..|s| - 1] == if n < 10 then [] else ToDecimal(n / 10);
    if n >= 10 {
      ParsePrinted(n / 10);
    }
    assert DigitsValue(s) == n;
  }

  /** A numeral whose first digit is not zero denotes a positive number. */
  lemma {:induction false} LeadingDigitPositive(s: string)
    requires |s| > 0 && AllDigits(s) && s[0] != '0'
    ensures DigitsValue(s) > 0
  {
    if |s| > 1 {
      var p := s[..|s| - 1];
      assert p[0] == s[0];
      LeadingDigitPositive(p);
    }
  }

  /** Printing what was parsed from a canonical numeral gives the numeral back. */
  lemma {:induction false} PrintParsed(s: string)
    requires Canonical(s)
    ensures ToDecimal(DigitsValue(s)) == s
  {
    var n := DigitsValue(s);
    var last := s[|s| - 1];
    if |s| == 1 {
      assert s[..0] == [];
      assert DigitChar(DigitValue(last)) == last;
    } else {
      var p := s[..|s| - 1];
      assert p[0] == s[0];
      LeadingDigitPositive(p);
      PrintParsed(p);
      assert n / 10 == DigitsValue(p) && n % 10 == DigitValue(last);
      assert DigitChar(DigitValue(last)) == last;
      assert s == p + [last];
    }
  }
}
