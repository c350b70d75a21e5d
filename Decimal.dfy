/**
 * Decimal text of application identities.
 *
 * The Go relay turns the `appid` query string into an int64 with
 * `strconv.ParseInt(s, 10, 64)` and later rebuilds a registry key from that
 * value with `strconv.FormatInt(v, 10)`.  The TypeScript relay rebuilds its
 * key with `Number(appid).toString()`.  This module models both conversions
 * and characterises exactly when the rebuilt key equals the original string.
 */
module Decimal {
  import opened Wrappers

  const MinInt64: int := -0x8000_0000_0000_0000
  const MaxInt64: int := 0x7FFF_FFFF_FFFF_FFFF
  /** Integers of at most this magnitude are represented exactly by a JavaScript Number. */
  const MaxSafeMagnitude: int := 0x20_0000_0000_0000

  predicate IsDigit(c: char) {
    '0' <= c <= '9'
  }

  predicate AllDigits(s: string) {
    forall i :: 0 <= i < |s| ==> IsDigit(s[i])
  }

  function DigitValue(c: char): (d: nat)
    requires IsDigit(c)
    ensures d < 10
  {
    c as int - '0' as int
  }

  function DigitChar(d: nat): (c: char)
    requires d < 10
    ensures IsDigit(c) && DigitValue(c) == d
  {
    ('0' as int + d) as char
  }

  /** The value of a string of decimal digits, most significant first. */
  function DigitsValue(s: string): (n: nat)
    requires AllDigits(s)
  {
    if s == [] then 0 else DigitsValue(s[..|s| - 1]) * 10 + DigitValue(s[|s| - 1])
  }

  /** The shortest decimal digits of `n` (a single "0" for zero). */
  function NatDigits(n: nat): (s: string)
    ensures |s| > 0 && AllDigits(s)
    ensures (s[0] == '0') == (n == 0)
  {
    if n < 10 then [DigitChar(n)] else NatDigits(n / 10) + [DigitChar(n % 10)]
  }

  /** `strconv.FormatInt(v, 10)`: a minus sign for negative values, then the shortest digits. */
  function FormatInt(v: int): (r: string)
    ensures |r| > 0
    ensures r[0] == '-' <==> v < 0
    ensures Canonical(r)
  {
    if v < 0 then "-" + NatDigits(-v) else NatDigits(v)
  }

  /**
   * `strconv.ParseInt(s, 10, 64)`: an optional '+' or '-', then one or more
   * ASCII digits (base 10 admits no underscores and no prefix), and the value
   * must fit in an int64.  Go reports a syntax error or a range error; the
   * relay treats both alike, so both are `None` here.
   */
  function ParseInt(s: string): (r: Option<int>)
    ensures r.Some? ==> MinInt64 <= r.value <= MaxInt64
  {
    if s == [] then None
    else
      var body := if s[0] == '+' || s[0] == '-' then s[1..] else s;
      if body == [] || !AllDigits(body) then None
      else
        var v: int := if s[0] == '-' then -(DigitsValue(body) as int) else DigitsValue(body);
        if v < MinInt64 || v > MaxInt64 then None else Some(v)
  }

  /**
   * The strings FormatInt produces: "0", or digits without a leading zero,
   * optionally after a minus sign (but never "-0").
   */
  predicate Canonical(s: string) {
    || (|s| > 0 && s[0] != '-' && AllDigits(s) && (s[0] != '0' || |s| == 1))
    || (|s| > 1 && s[0] == '-' && AllDigits(s[1..]) && s[1] != '0')
  }

  /**
   * `Number(s).toString()` for the strings whose value this model can state
   * exactly: an optional sign, then ASCII digits, with a magnitude a Number
   * holds exactly.  "-0" becomes the Number -0, whose text is "0".  Other
   * strings (surrounding blanks, hexadecimal, exponents, fractions, larger
   * magnitudes, NaN) are not modelled and give `None`.
   */
  function JsDecimalKey(s: string): (r: Option<string>)
    ensures r.Some? <==> ParseInt(s).Some? && -MaxSafeMagnitude <= ParseInt(s).value <= MaxSafeMagnitude
    ensures r.Some? ==> r.value == FormatInt(ParseInt(s).value)
  {
    if s == [] then None
    else
      var body := if s[0] == '+' || s[0] == '-' then s[1..] else s;
      if body == [] || !AllDigits(body) || DigitsValue(body) > MaxSafeMagnitude then None
      else Some(FormatInt(if s[0] == '-' then -(DigitsValue(body) as int) else DigitsValue(body)))
  }

  // ---------------------------------------------------------------------
  // Digit-string lemmas

  lemma {:induction false} DigitsValueOfNatDigits(n: nat)
    ensures DigitsValue(NatDigits(n)) == n
  {
    var s := NatDigits(n);
    if n >= 10 {
      DigitsValueOfNatDigits(n / 10);
      assert s[..|s| - 1] == NatDigits(n / 10);
    }
  }

  lemma {:induction false} LeadingDigitPositive(s: string)
    requires AllDigits(s) && |s| > 0 && s[0] != '0'
    ensures DigitsValue(s) >= 1
  {
    if |s| > 1 {
      LeadingDigitPositive(s[..|s| - 1]);
    }
  }

  lemma {:induction false} NatDigitsOfDigitsValue(s: string)
    requires AllDigits(s) && |s| > 0 && (s[0] != '0' || |s| == 1)
    ensures NatDigits(DigitsValue(s)) == s
  {
    if |s| > 1 {
      var p := s[..|s| - 1];
      LeadingDigitPositive(p);
      NatDigitsOfDigitsValue(p);
      var v := DigitsValue(s);
      assert v / 10 == DigitsValue(p) && v % 10 == DigitValue(s[|s| - 1]);
      assert DigitChar(v % 10) == s[|s| - 1];
      assert s == p + [s[|s| - 1]];
    }
  }

  // ---------------------------------------------------------------------
  // Round trips between ParseInt and FormatInt

  /** Every int64 survives FormatInt followed by ParseInt, and its text is canonical. */
  lemma FormatThenParse(v: int)
    requires MinInt64 <= v <= MaxInt64
    ensures ParseInt(FormatInt(v)) == Some(v)
    ensures Canonical(FormatInt(v))
  {
    var s := FormatInt(v);
    if v < 0 {
      var d := NatDigits(-v);
      DigitsValueOfNatDigits(-v);
      assert s[1..] == d;
    } else {
      DigitsValueOfNatDigits(v);
    }
  }

  /**
   * Re-formatting a parsed identity gives back the very same string exactly
   * when that string is canonical: "+42", "042" and "-0" parse, but their
   * re-formatted text differs.
   */
  lemma ParseThenFormat(s: string)
    requires ParseInt(s).Some?
    ensures FormatInt(ParseInt(s).value) == s <==> Canonical(s)
  {
    var v := ParseInt(s).value;
    if Canonical(s) {
      if s[0] == '-' {
        NatDigitsOfDigitsValue(s[1..]);
        LeadingDigitPositive(s[1..]);
        assert s == "-" + s[1..];
      } else {
        NatDigitsOfDigitsValue(s);
      }
    } else {
      FormatThenParse(v);
    }
  }

  /** The same characterisation for the TypeScript key `Number(s).toString()`. */
  lemma JsKeyIsRawExactlyWhenCanonical(s: string)
    requires JsDecimalKey(s).Some?
    ensures JsDecimalKey(s).value == s <==> Canonical(s)
  {
    var body := if s[0] == '+' || s[0] == '-' then s[1..] else s;
    var v: int := if s[0] == '-' then -(DigitsValue(body) as int) else DigitsValue(body);
    assert MinInt64 <= v <= MaxInt64;
    assert ParseInt(s) == Some(v);
    ParseThenFormat(s);
  }
}
