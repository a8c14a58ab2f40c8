/**
 * JavaScript `parseInt(string)` with no radix argument, over integers: leading white
 * space is skipped, one sign is read, a "0x"/"0X" prefix switches to base 16, and the
 * longest run of digits that follows is the value; no digit at all gives NaN (None).
 */
module Numbers {
  import opened Wrappers

  /** The characters ECMAScript's StrWhiteSpaceChar admits: white space and line terminators. */
  predicate IsStrWhiteSpace(c: char) {
    c == '\t' || c == '\n' || c == '\U{B}' || c == '\U{C}' || c == '\r' || c == ' '
    || c == '\U{A0}' || c == '\U{1680}' || ('\U{2000}' <= c <= '\U{200A}')
    || c == '\U{2028}' || c == '\U{2029}' || c == '\U{202F}' || c == '\U{205F}'
    || c == '\U{3000}' || c == '\U{FEFF}'
  }

  /** `s` without its leading white space. */
  function TrimStart(s: string): (t: string)
    ensures t == [] || !IsStrWhiteSpace(t[0])
    ensures |t| <= |s| && t == s[|s| - |t|..]
    ensures forall i :: 0 <= i < |s| - |t| ==> IsStrWhiteSpace(s[i])
  {
    if s != [] && IsStrWhiteSpace(s[0]) then TrimStart(s[1..]) else s
  }

  /** The value of a digit character in bases up to 36; 36 for a character that is no digit. */
  function DigitValue(c: char): (v: nat)
    ensures v <= 36
  {
    if '0' <= c <= '9' then c as int - '0' as int
    else if 'a' <= c <= 'z' then c as int - 'a' as int + 10
    else if 'A' <= c <= 'Z' then c as int - 'A' as int + 10
    else 36
  }

  /** The longest prefix of `s` made of digits of base `radix`. */
  function DigitPrefix(s: string, radix: nat): (ds: string)
    ensures |ds| <= |s| && ds == s[..|ds|]
    ensures forall i :: 0 <= i < |ds| ==> DigitValue(ds[i]) < radix
    ensures |ds| < |s| ==> radix <= DigitValue(s[|ds|])
  {
    if s != [] && DigitValue(s[0]) < radix then [s[0]] + DigitPrefix(s[1..], radix) else []
  }

  /** The number a digit string denotes in base `radix`, most significant digit first. */
  function DigitsValue(ds: string, radix: nat): nat {
    if ds == [] then 0 else DigitsValue(ds[..|ds| - 1], radix) * radix + DigitValue(ds[|ds| - 1])
  }

  /**
   * `parseInt(s)`; None stands for NaN. After the white space, a leading digit 1-9
   * gives a number that is not negative, and a character that is neither a sign nor
   * a decimal digit gives NaN.
   */
  function ParseInt(s: string): (r: Option<int>)
    ensures var t := TrimStart(s); t != [] && '1' <= t[0] <= '9' ==> r.Some? && r.value >= 0
    ensures var t := TrimStart(s); (t == [] || (10 <= DigitValue(t[0]) && t[0] != '-' && t[0] != '+')) ==> r == None
  {
    ParseSigned(TrimStart(s))
  }

  /** One optional sign, then the magnitude. */
  function ParseSigned(t: string): Option<int> {
    if t != [] && t[0] == '-' then
      match ParseMagnitude(t[1..])
      case None => None
      case Some(v) => Some(-(v as int))
    else if t != [] && t[0] == '+' then ParseMagnitude(t[1..])
    else ParseMagnitude(t)
  }

  /** An optional "0x"/"0X" prefix selecting base 16, then the longest run of digits. */
  function ParseMagnitude(u: string): (r: Option<nat>)
    ensures u != [] && '1' <= u[0] <= '9' ==> r.Some?
    ensures u == [] || 10 <= DigitValue(u[0]) ==> r == None
  {
    var hex := |u| >= 2 && u[0] == '0' && (u[1] == 'x' || u[1] == 'X');
    var radix := if hex then 16 else 10;
    var ds := DigitPrefix(if hex then u[2..] else u, radix);
    if ds == [] then None else Some(DigitsValue(ds, radix))
  }

  /** The decimal digit character for `d`. */
  function DigitChar(d: nat): (c: char)
    requires d < 10
    ensures DigitValue(c) == d
  {
    ('0' as int + d) as char
  }

  /** The shortest decimal spelling of `n`, as `String(n)` gives it. */
  function DecimalString(n: nat): string {
    if n < 10 then [DigitChar(n)] else DecimalString(n / 10) + [DigitChar(n % 10)]
  }

  /** A decimal spelling is non-empty, all decimal digits, and has no leading zero. */
  lemma {:induction false} DecimalStringShape(n: nat)
    ensures var ds := DecimalString(n);
      ds != [] && (forall i :: 0 <= i < |ds| ==> '0' <= ds[i] <= '9') && (ds[0] == '0' ==> n == 0 && |ds| == 1)
  {
    if n >= 10 {
      DecimalStringShape(n / 10);
    }
  }

  lemma {:induction false} DecimalStringValue(n: nat)
    ensures DigitsValue(DecimalString(n), 10) == n
  {
    if n >= 10 {
      DecimalStringValue(n / 10);
      var ds := DecimalString(n);
      assert ds[..|ds| - 1] == DecimalString(n / 10);
    } else {
      assert DecimalString(n)[..0] == [];
    }
  }

  lemma {:induction false} ParseMagnitudeDecimal(n: nat)
    ensures ParseMagnitude(DecimalString(n)) == Some(n)
  {
    var ds := DecimalString(n);
    DecimalStringShape(n);
    DecimalStringValue(n);
    AllDigitsPrefix(ds, 10);
  }

  /** `parseInt` reads back every non-negative decimal spelling. */
  lemma {:induction false} ParseIntDecimal(n: nat)
    ensures ParseInt(DecimalString(n)) == Some(n)
  {
    DecimalStringShape(n);
    UnsignedWhenDigitFirst(DecimalString(n));
    ParseMagnitudeDecimal(n);
  }

  /** ... and after an explicit sign. */
  lemma {:induction false} ParseIntSignedDecimal(n: nat)
    ensures ParseInt("-" + DecimalString(n)) == Some(-(n as int))
    ensures ParseInt("+" + DecimalString(n)) == Some(n)
  {
    var ds := DecimalString(n);
    ParseMagnitudeDecimal(n);
    SignedAfterTrim("-" + ds);
    SignedAfterTrim("+" + ds);
    assert ("-" + ds)[1..] == ds;
    assert ("+" + ds)[1..] == ds;
  }

  lemma {:induction false} SignedAfterTrim(s: string)
    requires s != [] && !IsStrWhiteSpace(s[0])
    ensures ParseInt(s) == ParseSigned(s)
  {}

  lemma {:induction false} AllDigitsPrefix(s: string, radix: nat)
    requires forall i :: 0 <= i < |s| ==> DigitValue(s[i]) < radix
    ensures DigitPrefix(s, radix) == s
  {}

  /** Leading white space is ignored. */
  lemma {:induction false} ParseIntSkipsWhiteSpace(c: char, s: string)
    requires IsStrWhiteSpace(c)
    ensures ParseInt([c] + s) == ParseInt(s)
  {
    assert ([c] + s)[1..] == s;
  }

  /** Parsing stops at the first character that is no digit, as in `parseInt("2x")`. */
  lemma {:induction false} ParseIntStopsAtNonDigit(n: nat, tail: string)
    requires tail == [] || (10 <= DigitValue(tail[0]) && (n != 0 || (tail[0] != 'x' && tail[0] != 'X')))
    ensures ParseInt(DecimalString(n) + tail) == Some(n)
  {
    var ds := DecimalString(n);
    DecimalStringShape(n);
    var u := ds + tail;
    assert u[0] == ds[0];
    UnsignedWhenDigitFirst(u);
    MagnitudeStopsAtNonDigit(n, tail);
  }

  lemma {:induction false} UnsignedWhenDigitFirst(u: string)
    requires u != [] && '0' <= u[0] <= '9'
    ensures ParseInt(u) == ParseMagnitude(u)
  {
    SignedAfterTrim(u);
  }

  lemma {:induction false} MagnitudeStopsAtNonDigit(n: nat, tail: string)
    requires tail == [] || (10 <= DigitValue(tail[0]) && (n != 0 || (tail[0] != 'x' && tail[0] != 'X')))
    ensures ParseMagnitude(DecimalString(n) + tail) == Some(n)
  {
    var ds := DecimalString(n);
    DecimalStringShape(n);
    DecimalStringValue(n);
    DigitPrefixStops(ds, tail, 10);
    var u := ds + tail;
    assert u[0] == ds[0];
    if |u| >= 2 && u[0] == '0' {
      assert |ds| == 1;
      assert u[1] == tail[0];
    }
  }

  lemma {:induction false} DigitPrefixStops(ds: string, tail: string, radix: nat)
    requires forall i :: 0 <= i < |ds| ==> DigitValue(ds[i]) < radix
    requires tail == [] || radix <= DigitValue(tail[0])
    ensures DigitPrefix(ds + tail, radix) == ds
  {
    if ds != [] {
      assert (ds + tail)[1..] == ds[1..] + tail;
      DigitPrefixStops(ds[1..], tail, radix);
    }
  }
}
