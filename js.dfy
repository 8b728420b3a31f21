/** JavaScript value and string primitives that the client code relies on:
    null/undefined, the whitespace set of String.prototype.trim and of the
    regular-expression class \s, the classes \d and \w, Number#toString on
    non-negative integers and String#padStart(2, '0'). */
module Js {

  /** A value that may be null or undefined. */
  datatype Option<+T> = None | Some(value: T)

  /** A Number that is not Infinity: NaN or a finite value. */
  datatype Number = NaN | Num(value: real)

  /** Truncation toward zero (ToIntegerOrInfinity, the first step of ToInt16). */
  function Trunc(x: real): (r: int)
    ensures 0.0 <= x ==> 0 <= r && r as real <= x < r as real + 1.0
    ensures x < 0.0 ==> r <= 0 && r as real - 1.0 < x <= r as real
  {
    if x >= 0.0 then x.Floor else -((-x).Floor)
  }

  /** The characters JavaScript counts as WhiteSpace or LineTerminator
      (ECMA-262 sections 12.2 and 12.3): what trim() strips and \s matches. */
  predicate IsWhitespace(c: char) {
    c in Whitespace
  }

  const Whitespace: set<char> := {
    '\U{9}', '\U{A}', '\U{B}', '\U{C}', '\U{D}', '\U{20}', '\U{A0}', '\U{1680}',
    '\U{2000}', '\U{2001}', '\U{2002}', '\U{2003}', '\U{2004}', '\U{2005}', '\U{2006}', '\U{2007}',
    '\U{2008}', '\U{2009}', '\U{200A}', '\U{2028}', '\U{2029}', '\U{202F}', '\U{205F}', '\U{3000}', '\U{FEFF}'}

  /** The % operator on Numbers: the remainder of truncating division,
      with the sign of the dividend. */
  function Rem(x: real, y: real): (r: real)
    requires y != 0.0
    ensures 0.0 <= x && 0.0 < y ==> 0.0 <= r < y
  {
    var q := Trunc(x / y) as real;
    if 0.0 <= x && 0.0 < y then
      RemBounds(x, y, q);
      x - y * q
    else x - y * q
  }

  /** Multiplying q <= x / y < q + 1 by a positive y. */
  lemma RemBounds(x: real, y: real, q: real)
    requires 0.0 < y && q <= x / y < q + 1.0
    ensures 0.0 <= x - y * q < y
  {
    var v := x / y;
    MulMonotone(y, q, v);
    MulMonotone(y, v, q + 1.0);
    assert y * v == x;
    assert y * (q + 1.0) == y * q + y;
    Between(x, y * q, y);
  }

  lemma MulMonotone(y: real, a: real, b: real)
    requires 0.0 < y && a <= b
    ensures y * a <= y * b && (a < b ==> y * a < y * b)
  {
  }

  lemma Between(x: real, a: real, y: real)
    requires a <= x < a + y
    ensures 0.0 <= x - a < y
  {
  }

  /** Math.floor of a non-negative Number. */
  function FloorNat(x: real): (r: nat)
    requires 0.0 <= x
    ensures r as real <= x < r as real + 1.0
  {
    x.Floor
  }

  /** The regular-expression class \d. */
  predicate IsDigit(c: char) {
    '0' <= c <= '9'
  }

  /** The regular-expression class \w: [A-Za-z0-9_]. */
  predicate IsWordChar(c: char) {
    ('a' <= c <= 'z') || ('A' <= c <= 'Z') || IsDigit(c) || c == '_'
  }

  predicate AllDigits(s: string) {
    forall i :: 0 <= i < |s| ==> IsDigit(s[i])
  }

  /** String.prototype.trim: leading and trailing whitespace removed. */
  function TrimStart(s: string): string {
    if s == [] || !IsWhitespace(s[0]) then s else TrimStart(s[1..])
  }

  function TrimEnd(s: string): string {
    if s == [] || !IsWhitespace(s[|s| - 1]) then s else TrimEnd(s[..|s| - 1])
  }

  function Trim(s: string): string {
    TrimEnd(TrimStart(s))
  }

  /** TrimStart cuts a prefix of whitespace and stops at the first other
      character. */
  lemma {:induction false} TrimStartShape(s: string)
    ensures var r := TrimStart(s);
      |r| <= |s| && r == s[|s| - |r|..] && (r == [] || !IsWhitespace(r[0])) &&
      forall i :: 0 <= i < |s| - |r| ==> IsWhitespace(s[i])
  {
    if s != [] && IsWhitespace(s[0]) {
      TrimStartShape(s[1..]);
    }
  }

  /** TrimEnd cuts a suffix of whitespace and stops at the last other
      character. */
  lemma {:induction false} TrimEndShape(s: string)
    ensures var r := TrimEnd(s);
      |r| <= |s| && r == s[..|r|] && (r == [] || !IsWhitespace(r[|r| - 1])) &&
      forall i :: |r| <= i < |s| ==> IsWhitespace(s[i])
  {
    if s != [] && IsWhitespace(s[|s| - 1]) {
      TrimEndShape(s[..|s| - 1]);
    }
  }

  /** Trim yields the infix of its input that starts at the first and ends at
      the last non-whitespace character: only whitespace was cut away. */
  lemma TrimShape(s: string)
    ensures |TrimStart(s)| <= |s|
    ensures var r, k := Trim(s), |s| - |TrimStart(s)|;
      k + |r| <= |s| && r == s[k..k + |r|] &&
      (forall i :: 0 <= i < k ==> IsWhitespace(s[i])) &&
      (forall i :: k + |r| <= i < |s| ==> IsWhitespace(s[i]))
  {
    var t := TrimStart(s);
    var r := TrimEnd(t);
    var k := |s| - |t|;
    TrimStartShape(s);
    assert t == s[k..];
    TrimEndInfix(s, k);
    assert r == s[k..k + |r|];
  }

  /** A trimmed string neither starts nor ends with whitespace. */
  lemma TrimEnds(s: string)
    ensures Trim(s) == [] || (!IsWhitespace(Trim(s)[0]) && !IsWhitespace(Trim(s)[|Trim(s)| - 1]))
  {
    var t := TrimStart(s);
    var r := TrimEnd(t);
    TrimStartShape(s);
    TrimEndShape(t);
    if r != [] {
      assert r == t[..|r|];
      assert r[0] == t[0];
    }
  }

  /** Trimming the end of a suffix cuts only whitespace at the end. */
  lemma TrimEndInfix(s: string, k: nat)
    requires k <= |s|
    ensures var r := TrimEnd(s[k..]);
      k + |r| <= |s| && r == s[k..k + |r|] && (forall i :: k + |r| <= i < |s| ==> IsWhitespace(s[i]))
  {
    var t := s[k..];
    var r := TrimEnd(t);
    TrimEndShape(t);
    assert r == t[..|r|];
    forall i | k + |r| <= i < |s|
      ensures IsWhitespace(s[i])
    {
      assert s[i] == t[i - k];
    }
  }

  /** Trimming an already trimmed string changes nothing. */
  lemma TrimIdempotent(s: string)
    ensures Trim(Trim(s)) == Trim(s)
  {
    var r := Trim(s);
    TrimShape(s);
    TrimEnds(s);
    if r != [] {
      assert TrimStart(r) == r;
      assert TrimEnd(r) == r;
    }
  }

  function DigitChar(d: nat): (c: char)
    requires d < 10
    ensures IsDigit(c) && c as int - '0' as int == d
  {
    ('0' as int + d) as char
  }

  /** Number.prototype.toString for a non-negative integer: its decimal digits. */
  function NatToString(n: nat): (r: string)
    ensures |r| >= 1 && AllDigits(r)
    ensures |r| == 1 <==> n < 10
  {
    if n < 10 then [DigitChar(n)] else NatToString(n / 10) + [DigitChar(n % 10)]
  }

  /** The value of a string of decimal digits. */
  function ParseDigits(s: string): nat
    requires AllDigits(s)
  {
    if s == [] then 0 else 10 * ParseDigits(s[..|s| - 1]) + (s[|s| - 1] as int - '0' as int)
  }

  /** Reading back the digits of NatToString gives the number. */
  lemma {:induction false} NatToStringRoundTrip(n: nat)
    ensures ParseDigits(NatToString(n)) == n
  {
    if n >= 10 {
      var s := NatToString(n);
      assert s[..|s| - 1] == NatToString(n / 10);
      NatToStringRoundTrip(n / 10);
    }
  }

  /** Leading zeros do not change the value of a digit string. */
  lemma {:induction false} ParseDigitsLeadingZero(s: string)
    requires AllDigits(s)
    ensures ParseDigits("0" + s) == ParseDigits(s)
  {
    if s != [] {
      var t := "0" + s;
      assert t[..|t| - 1] == "0" + s[..|s| - 1];
      ParseDigitsLeadingZero(s[..|s| - 1]);
    }
  }

  /** n.toString().padStart(2, '0'). */
  function Pad2(n: nat): (r: string)
    ensures |r| >= 2 && AllDigits(r)
    ensures n < 100 ==> |r| == 2
  {
    if n < 10 then "0" + NatToString(n) else NatToString(n)
  }

  /** The padded text still reads back as the number. */
  lemma Pad2RoundTrip(n: nat)
    ensures ParseDigits(Pad2(n)) == n
  {
    NatToStringRoundTrip(n);
    if n < 10 {
      ParseDigitsLeadingZero(NatToString(n));
    }
  }
}
