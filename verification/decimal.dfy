/** Decimal rendering of integers, as Swift string interpolation `"\(n)"`
    prints an `Int`, together with a parser that undoes it. */
module Decimal {
  import opened Wrappers

  predicate IsDigit(c: char) {
    '0' <= c <= '9'
  }

  predicate AllDigits(s: string) {
    forall i | 0 <= i < |s| :: IsDigit(s[i])
  }

  function DigitChar(d: nat): (c: char)
    requires d < 10
    ensures IsDigit(c)
  {
    ('0' as int + d) as char
  }

  function DigitValue(c: char): (d: nat)
    requires IsDigit(c)
    ensures d < 10
  {
    c as int - '0' as int
  }

  /** The digits of `n`, most significant first, without leading zeros. */
  function NatDigits(n: nat): (s: string)
    ensures 1 <= |s|
    ensures AllDigits(s)
    ensures n < 10 <==> |s| == 1
    ensures s[0] == '0' <==> n == 0
    decreases n
  {
    if n < 10 then [DigitChar(n)] else NatDigits(n / 10) + [DigitChar(n % 10)]
  }

  /** `"\(n)"` for a Swift `Int`: a minus sign for negative values, then the digits. */
  function DecimalString(n: int): (s: string)
    ensures 1 <= |s|
    ensures IsDigit(s[0]) || s[0] == '-'
    ensures forall i | 0 <= i < |s| :: IsDigit(s[i]) || (i == 0 && s[i] == '-')
    ensures n < 0 <==> s[0] == '-'
    ensures CanonicalDecimal(s)
  {
    if n < 0 then "-" + NatDigits(-n) else NatDigits(n)
  }

  /** The shape Swift gives an `Int`: digits without a leading zero (bar
      `"0"` itself), after a minus sign when negative; never `"-0"`. */
  predicate CanonicalDigits(s: string) {
    1 <= |s| && AllDigits(s) && (1 < |s| ==> s[0] != '0')
  }

  predicate CanonicalDecimal(s: string) {
    if 1 <= |s| && s[0] == '-' then CanonicalDigits(s[1..]) && s[1..] != "0"
    else CanonicalDigits(s)
  }

  /** The value of a run of decimal digits. */
  function DigitsValue(s: string): nat
    requires AllDigits(s)
  {
    if |s| == 0 then 0 else DigitsValue(s[..|s| - 1]) * 10 + DigitValue(s[|s| - 1])
  }

  /** Reads an integer written the way Swift prints one; `None` for
      anything else, including leading zeros and `"-0"`. */
  function ParseDecimal(s: string): Option<int> {
    if !CanonicalDecimal(s) then None
    else if s[0] == '-' then Some(-(DigitsValue(s[1..]) as int))
    else Some(DigitsValue(s))
  }

  lemma {:induction false} NatDigitsValue(n: nat)
    ensures DigitsValue(NatDigits(n)) == n
    decreases n
  {
    if n >= 10 {
      var s := NatDigits(n);
      var prefix := NatDigits(n / 10);
      assert s == prefix + [DigitChar(n % 10)];
      assert s[..|s| - 1] == prefix;
      NatDigitsValue(n / 10);
    }
  }

  /** Parsing the rendering of any integer gives that integer back. */
  lemma {:induction false} DecimalRoundTrip(n: int)
    ensures ParseDecimal(DecimalString(n)) == Some(n)
  {
    var s := DecimalString(n);
    if n < 0 {
      assert s[1..] == NatDigits(-n);
      NatDigitsValue(-n);
    } else {
      NatDigitsValue(n);
    }
  }

  /** A run of digits with a nonzero lead is worth at least one. */
  lemma {:induction false} LeadingDigitPositive(s: string)
    requires CanonicalDigits(s) && s[0] != '0'
    ensures 1 <= DigitsValue(s)
    decreases |s|
  {
    if |s| > 1 {
      var front := s[..|s| - 1];
      assert front[0] == s[0];
      LeadingDigitPositive(front);
    }
  }

  /** Printing the value of canonical digits gives those digits back. */
  lemma {:induction false} NatDigitsOfValue(s: string)
    requires CanonicalDigits(s)
    ensures NatDigits(DigitsValue(s)) == s
    decreases |s|
  {
    var last := s[|s| - 1];
    if |s| == 1 {
      assert DigitChar(DigitValue(last)) == last;
    } else {
      var front := s[..|s| - 1];
      assert front[0] == s[0];
      LeadingDigitPositive(front);
      NatDigitsOfValue(front);
      var n := DigitsValue(s);
      assert n / 10 == DigitsValue(front) && n % 10 == DigitValue(last);
      assert DigitChar(DigitValue(last)) == last;
      assert s == front + [last];
    }
  }

  /** The parser accepts exactly the strings Swift prints: a string reads
      as `n` if and only if it is the rendering of `n`. */
  lemma {:induction false} ParseDecimalExact(s: string, n: int)
    ensures ParseDecimal(s) == Some(n) <==> s == DecimalString(n)
  {
    DecimalRoundTrip(n);
    if ParseDecimal(s) == Some(n) {
      if s[0] == '-' {
        NatDigitsOfValue(s[1..]);
        assert s[1..] != "0";
        assert NatDigits(0) == "0";
        assert DigitsValue(s[1..]) != 0;
        assert s == "-" + s[1..];
      } else {
        NatDigitsOfValue(s);
      }
    }
  }

  /** Distinct integers render to distinct strings. */
  lemma DecimalInjective(a: int, b: int)
    requires DecimalString(a) == DecimalString(b)
    ensures a == b
  {
    DecimalRoundTrip(a);
    DecimalRoundTrip(b);
  }
}
