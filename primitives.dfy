/**
 * The .NET pieces the control core leans on: 32-bit `int`, a nullable-style
 * `Option`, the names of the job states, and the two conversions between a
 * speed and its text (`Int32.ToString()` and `int.TryParse` with the default
 * `NumberStyles.Integer`).
 */
module Primitives {

  const MinInt32: int := -0x8000_0000
  const MaxInt32: int := 0x7fff_ffff

  /** C#'s `int`. */
  type Int32 = x: int | MinInt32 <= x <= MaxInt32

  datatype Option<T> = None | Some(value: T)

  /** The three job states, spelled as both access surfaces spell them. */
  const Idle: string := "Idle"
  const Running: string := "Running"
  const Error: string := "Error"

  predicate KnownState(s: string) {
    s == Idle || s == Running || s == Error
  }

  // ---------------------------------------------------------------------
  // Characters

  /** White space as `NumberStyles.AllowLeadingWhite`/`AllowTrailingWhite` define it. */
  predicate IsWhite(c: char) {
    c == ' ' || '\t' <= c <= '\r'
  }

  predicate IsDigit(c: char) {
    '0' <= c <= '9'
  }

  predicate IsSign(c: char) {
    c == '-' || c == '+'
  }

  function DigitValue(c: char): (d: nat)
    requires IsDigit(c)
    ensures d < 10
  {
    c as int - '0' as int
  }

  function DigitChar(d: nat): (c: char)
    requires d < 10
    ensures IsDigit(c) && DigitValue(c) == d
  {
    ('0' as int + d) as char
  }

  predicate AllDigits(s: string) {
    forall i :: 0 <= i < |s| ==> IsDigit(s[i])
  }

  // ---------------------------------------------------------------------
  // Int32.ToString()

  /** Decimal digits of `n`, most significant first, no leading zeros. */
  function NatToString(n: nat): string
    decreases n
  {
    (if n < 10 then "" else NatToString(n / 10)) + [DigitChar(n % 10)]
  }

  /** `Int32.ToString()` with the invariant culture's minus sign. */
  function ToDecimalString(n: int): string {
    if n < 0 then "-" + NatToString(-n) else NatToString(n)
  }

  // ---------------------------------------------------------------------
  // int.TryParse(string, out int)

  /** Drops leading white space. */
  function TrimStart(s: string): string
    decreases |s|
  {
    if |s| > 0 && IsWhite(s[0]) then TrimStart(s[1..]) else s
  }

  /** Drops trailing white space. */
  function TrimEnd(s: string): string
    decreases |s|
  {
    if |s| > 0 && IsWhite(s[|s| - 1]) then TrimEnd(s[..|s| - 1]) else s
  }

  /** Value of a non-empty run of decimal digits, most significant first. */
  function DigitsValue(s: string): nat
    requires AllDigits(s)
    decreases |s|
  {
    if s == [] then 0 else 10 * DigitsValue(s[..|s| - 1]) + DigitValue(s[|s| - 1])
  }

  /** An optional sign followed by one or more digits, and nothing else. */
  function ParseSignedDigits(t: string): Option<int> {
    if |t| > 1 && IsSign(t[0]) && AllDigits(t[1..]) then
      var magnitude: int := DigitsValue(t[1..]);
      Some(if t[0] == '-' then -magnitude else magnitude)
    else if |t| > 0 && AllDigits(t) then
      Some(DigitsValue(t))
    else
      None
  }

  /**
   * `int.TryParse(s, out v)`: `Some(v)` when it returns true, `None` when it
   * returns false (malformed text, or a value outside the 32-bit range).
   */
  function TryParseInt(s: string): Option<Int32> {
    match ParseSignedDigits(TrimEnd(TrimStart(s)))
    case Some(v) => if MinInt32 <= v <= MaxInt32 then Some(v) else None
    case None => None
  }

  // ---------------------------------------------------------------------
  // Properties of the two conversions

  lemma {:induction false} NatToStringDigits(n: nat)
    ensures |NatToString(n)| > 0 && AllDigits(NatToString(n))
    ensures DigitsValue(NatToString(n)) == n
    decreases n
  {
    var s := NatToString(n);
    var last := DigitChar(n % 10);
    if n < 10 {
      assert s == [last];
      assert s[..|s| - 1] == [];
    } else {
      var prefix := NatToString(n / 10);
      NatToStringDigits(n / 10);
      assert s == prefix + [last];
      assert s[..|s| - 1] == prefix;
    }
  }

  /**
   * `TrimStart` removes a prefix made only of white space, and what it keeps
   * does not start with white space.
   */
  lemma {:induction false} TrimStartDropsWhite(s: string)
    ensures var r := TrimStart(s);
      && |r| <= |s| && r == s[|s| - |r|..]
      && (forall j :: 0 <= j < |s| - |r| ==> IsWhite(s[j]))
      && (|r| > 0 ==> !IsWhite(r[0]))
    decreases |s|
  {
    if |s| > 0 && IsWhite(s[0]) {
      TrimStartDropsWhite(s[1..]);
    }
  }

  /**
   * `TrimEnd` removes a suffix made only of white space, and what it keeps
   * does not end with white space.
   */
  lemma {:induction false} TrimEndDropsWhite(s: string)
    ensures var r := TrimEnd(s);
      && |r| <= |s| && r == s[..|r|]
      && (forall j :: |r| <= j < |s| ==> IsWhite(s[j]))
      && (|r| > 0 ==> !IsWhite(r[|r| - 1]))
    decreases |s|
  {
    if |s| > 0 && IsWhite(s[|s| - 1]) {
      TrimEndDropsWhite(s[..|s| - 1]);
    }
  }

  /** Text that neither starts nor ends with white space is not trimmed. */
  lemma TrimUnpadded(s: string)
    requires |s| > 0 && !IsWhite(s[0]) && !IsWhite(s[|s| - 1])
    ensures TrimEnd(TrimStart(s)) == s
  {
  }

  /** The sign-and-digits reading of `ToString()`'s output is the number. */
  lemma ParseSignedDigitsOfDecimal(n: int)
    ensures ParseSignedDigits(ToDecimalString(n)) == Some(n)
  {
    var m: nat := if n < 0 then -n else n;
    NatToStringDigits(m);
    var digits := NatToString(m);
    if n < 0 {
      var s := ToDecimalString(n);
      assert s[1..] == digits;
    }
  }

  /** `ToString()`'s output neither starts nor ends with white space. */
  lemma DecimalUnpadded(n: int)
    ensures var s := ToDecimalString(n); |s| > 0 && !IsWhite(s[0]) && !IsWhite(s[|s| - 1])
  {
    var m: nat := if n < 0 then -n else n;
    NatToStringDigits(m);
    var digits := NatToString(m);
    assert !IsWhite(digits[|digits| - 1]);
  }

  /** Text written by `ToString()` reads back as the same number. */
  lemma ParseFormatRoundTrip(n: Int32)
    ensures TryParseInt(ToDecimalString(n)) == Some(n)
  {
    var s := ToDecimalString(n);
    DecimalUnpadded(n);
    TrimUnpadded(s);
    ParseSignedDigitsOfDecimal(n);
  }

  /**
   * A character that is not white space, a digit or a sign anywhere in the
   * text makes the parse fail.
   */
  lemma ParseRejectsForeignChar(s: string, i: nat)
    requires i < |s|
    requires !IsWhite(s[i]) && !IsDigit(s[i]) && !IsSign(s[i])
    ensures TryParseInt(s) == None
  {
    var a := TrimStart(s);
    var t := TrimEnd(a);
    TrimStartDropsWhite(s);
    TrimEndDropsWhite(a);
    var k := |s| - |a|;
    assert i >= k;
    assert s[i] == a[i - k];
    assert i - k < |t|;
    assert t[i - k] == s[i];
  }
}
