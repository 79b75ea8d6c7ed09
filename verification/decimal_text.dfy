/** Swift's string interpolation of an `Int` (`"\(n)"`), which the platform list
    uses for ranks and protocol counts, together with a reader that undoes it. */
module DecimalText {
  import opened Wrappers

  predicate IsDigit(c: char) {
    '0' <= c <= '9'
  }

  predicate AllDigits(s: string) {
    forall i :: 0 <= i < |s| ==> IsDigit(s[i])
  }

  function DigitChar(d: nat): (c: char)
    requires d < 10
    ensures IsDigit(c) && DigitValue(c) == d
  {
    ('0' as int + d) as char
  }

  function DigitValue(c: char): (d: nat)
    requires IsDigit(c)
    ensures d < 10
  {
    c as int - '0' as int
  }

  /** The decimal digits of `n`, most significant first, without leading zeros. */
  function NatToDigits(n: nat): (s: string)
    ensures 1 <= |s|
    ensures AllDigits(s)
    ensures n == 0 ==> s == "0"
    ensures n > 0 ==> s[0] != '0'
    decreases n
  {
    if n < 10 then [DigitChar(n)] else NatToDigits(n / 10) + [DigitChar(n % 10)]
  }

  /** The number a string of digits denotes. */
  function DigitsValue(s: string): nat
    requires AllDigits(s)
  {
    if |s| == 0 then 0 else 10 * DigitsValue(s[..|s| - 1]) + DigitValue(s[|s| - 1])
  }

  /** The one way Swift writes an `Int`: digits without a leading zero (except
      "0" itself), or a minus sign followed by such digits of a nonzero number. */
  predicate Canonical(s: string) {
    || (1 <= |s| && AllDigits(s) && (s[0] == '0' ==> |s| == 1))
    || (2 <= |s| && s[0] == '-' && AllDigits(s[1..]) && s[1] != '0')
  }

  /** `"\(n)"` for a Swift `Int`: a minus sign for a negative number, then the digits of its magnitude. */
  function IntToString(n: int): (s: string)
    ensures 1 <= |s|
    ensures s[0] == '-' <==> n < 0
    ensures n >= 0 ==> AllDigits(s)
    ensures n < 0 ==> 2 <= |s| && AllDigits(s[1..])
    ensures Canonical(s)
  {
    if n < 0 then "-" + NatToDigits(-n) else NatToDigits(n)
  }

  /** Reads a decimal integer: an optional minus sign followed by at least one digit. */
  function ParseInt(s: string): Option<int> {
    if 2 <= |s| && s[0] == '-' && AllDigits(s[1..]) then Some(-(DigitsValue(s[1..]) as int))
    else if 1 <= |s| && AllDigits(s) then Some(DigitsValue(s))
    else None
  }

  lemma {:induction false} NatToDigitsValue(n: nat)
    ensures DigitsValue(NatToDigits(n)) == n
    decreases n
  {
    if n >= 10 {
      var s := NatToDigits(n);
      assert s[..|s| - 1] == NatToDigits(n / 10);
      NatToDigitsValue(n / 10);
    }
  }

  /** Reading back the text of an `Int` yields that `Int`. */
  lemma IntToStringRoundTrip(n: int)
    ensures ParseInt(IntToString(n)) == Some(n)
  {
    var s := IntToString(n);
    if n < 0 {
      var d := NatToDigits(-n);
      assert s == "-" + d;
      assert s[1..] == d;
      NatToDigitsValue(-n);
      assert ParseInt(s) == Some(-(DigitsValue(d) as int));
    } else {
      assert s == NatToDigits(n);
      NatToDigitsValue(n);
      assert s[0] != '-';
    }
  }

  /** Different numbers never render to the same text. */
  lemma IntToStringInjective(m: int, n: int)
    ensures IntToString(m) == IntToString(n) ==> m == n
  {
    IntToStringRoundTrip(m);
    IntToStringRoundTrip(n);
  }

  /** A digit string that does not start with '0' denotes a positive number. */
  lemma {:induction false} LeadingDigitPositive(s: string)
    requires 1 <= |s| && AllDigits(s) && s[0] != '0'
    ensures DigitsValue(s) > 0
    decreases |s|
  {
    if |s| > 1 {
      var p := s[..|s| - 1];
      assert p[0] == s[0];
      LeadingDigitPositive(p);
    }
  }

  /** A canonical digit string is the rendering of the number it denotes. */
  lemma {:induction false} CanonicalDigitsRender(s: string)
    requires 1 <= |s| && AllDigits(s) && (s[0] == '0' ==> |s| == 1)
    ensures NatToDigits(DigitsValue(s)) == s
    decreases |s|
  {
    var n := DigitsValue(s);
    if |s| == 1 {
      assert s[..|s| - 1] == [];
      assert DigitsValue(s[..|s| - 1]) == 0;
      assert n == DigitValue(s[0]);
      assert NatToDigits(n) == [DigitChar(n)];
    } else {
      var p := s[..|s| - 1];
      assert p[0] == s[0];
      CanonicalDigitsRender(p);
      LeadingDigitPositive(p);
      assert n / 10 == DigitsValue(p) && n % 10 == DigitValue(s[|s| - 1]);
      assert NatToDigits(n) == NatToDigits(n / 10) + [DigitChar(n % 10)];
      assert s == p + [s[|s| - 1]];
    }
  }

  /** The text of an `Int` is determined by the `Int`: the only canonical text
      that reads back as `n` is `IntToString(n)`. */
  lemma CanonicalIsIntToString(s: string, n: int)
    requires Canonical(s) && ParseInt(s) == Some(n)
    ensures s == IntToString(n)
  {
    if 2 <= |s| && s[0] == '-' && AllDigits(s[1..]) {
      var d := s[1..];
      assert d[0] == s[1];
      CanonicalDigitsRender(d);
      LeadingDigitPositive(d);
      assert s == "-" + d;
    } else {
      CanonicalDigitsRender(s);
    }
  }
}
