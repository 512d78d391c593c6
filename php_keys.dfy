/**
 * PHP's rule for array keys given as strings: a string that spells an
 * integer in canonical decimal form ("100", "-7", "0", but not "0100",
 * "+5", " 1" or "1.0") is used as that integer key. `array_key_exists`
 * on `$elgg_levels` relies on it, so `normalizeLevel("100")` resolves.
 */
module PhpKeys {
  import opened Options

  predicate IsDigit(c: char) {
    '0' <= c <= '9'
  }

  function DigitValue(c: char): (d: nat)
    requires IsDigit(c)
  {
    c as int - '0' as int
  }

  function DigitChar(d: nat): (c: char)
    requires d < 10
    ensures IsDigit(c) && DigitValue(c) == d
  {
    ('0' as int + d) as char
  }

  predicate AllDigits(s: string) {
    forall i :: 0 <= i < |s| ==> IsDigit(s[i])
  }

  /** The value of a string of decimal digits, most significant first. */
  function DigitsValue(s: string): (v: nat)
    requires AllDigits(s)
  {
    if s == [] then 0 else DigitsValue(s[..|s| - 1]) * 10 + DigitValue(s[|s| - 1])
  }

  /** A non-negative integer written without sign and without a leading zero (except "0" itself). */
  predicate CanonicalDigits(s: string) {
    |s| > 0 && AllDigits(s) && (s[0] == '0' ==> |s| == 1)
  }

  /** The canonical decimal spelling of `n`. */
  function Decimal(n: nat): (s: string)
    decreases n
  {
    if n < 10 then [DigitChar(n)] else Decimal(n / 10) + [DigitChar(n % 10)]
  }

  /** A digit string never falls below its leading digit. */
  lemma {:induction false} LeadingDigitBound(s: string)
    requires |s| > 0 && AllDigits(s)
    ensures DigitsValue(s) >= DigitValue(s[0])
  {
    if |s| > 1 {
      var p := s[..|s| - 1];
      assert AllDigits(p);
      LeadingDigitBound(p);
      assert p[0] == s[0];
    }
  }

  /**
   * The integer key PHP uses for string `s`, or None when `s` stays a
   * string key. Negative keys are spelled with a minus sign and a
   * non-zero leading digit ("-0" stays a string).
   */
  function IntegerKey(s: string): (r: Option<int>)
    ensures r.Some? && r.value >= 0 ==> CanonicalDigits(s) && r.value == DigitsValue(s)
    ensures r.Some? && r.value < 0 ==> |s| > 0 && s[0] == '-'
    ensures CanonicalDigits(s) ==> r.Some? && r.value >= 0
  {
    if CanonicalDigits(s) then
      Some(DigitsValue(s))
    else if |s| >= 2 && s[0] == '-' && s[1] != '0' && CanonicalDigits(s[1..]) then
      LeadingDigitBound(s[1..]);
      var v: int := DigitsValue(s[1..]);
      Some(-v)
    else
      None
  }

  /** Spelling a number and reading it back gives the number. */
  lemma {:induction false} DecimalRoundTrip(n: nat)
    ensures CanonicalDigits(Decimal(n)) && DigitsValue(Decimal(n)) == n
    decreases n
  {
    if n >= 10 {
      DecimalRoundTrip(n / 10);
      var p := Decimal(n / 10);
      var s := Decimal(n);
      assert s == p + [DigitChar(n % 10)];
      assert s[..|s| - 1] == p;
      assert AllDigits(s) by {
        forall i | 0 <= i < |s| ensures IsDigit(s[i]) {
          if i < |p| { assert s[i] == p[i]; }
        }
      }
      assert s[0] == p[0];
    }
  }

  /** Reading a canonical spelling and spelling the value again gives the same string. */
  lemma {:induction false} CanonicalRoundTrip(s: string)
    requires CanonicalDigits(s)
    ensures Decimal(DigitsValue(s)) == s
    decreases |s|
  {
    if |s| > 1 {
      var p := s[..|s| - 1];
      var d := DigitValue(s[|s| - 1]);
      assert p[0] == s[0];
      assert CanonicalDigits(p);
      LeadingDigitBound(p);
      CanonicalRoundTrip(p);
      var v := DigitsValue(p);
      assert v >= 1;
      assert (v * 10 + d) / 10 == v && (v * 10 + d) % 10 == d;
      assert DigitChar(d) == s[|s| - 1];
      assert s == p + [s[|s| - 1]];
    } else {
      assert DigitChar(DigitValue(s[0])) == s[0];
    }
  }

  /** Every non-negative integer is a key under exactly one spelling: its canonical decimal one. */
  lemma IntegerKeyExactly(s: string, k: nat)
    ensures IntegerKey(s) == Some(k) <==> s == Decimal(k)
  {
    DecimalRoundTrip(k);
    if IntegerKey(s) == Some(k) {
      CanonicalRoundTrip(s);
    }
  }
}
