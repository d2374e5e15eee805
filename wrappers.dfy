/** Optional values: JavaScript's `null`/`undefined` versus a present value. */
module Wrappers {

  datatype Option<+T> = None | Some(value: T)

  /** JavaScript truthiness of an optional string: absent and `""` are falsy. */
  predicate Truthy(s: Option<string>) {
    s.Some? && s.value != ""
  }

  /** `x || null` on an optional string: the empty string becomes null. */
  function OrNull(s: Option<string>): (r: Option<string>)
    ensures r.Some? <==> Truthy(s)
    ensures r.Some? ==> r == s
  {
    if Truthy(s) then s else None
  }
}

/**
 * JavaScript string primitives the handlers rely on: the character classes
 * `\s` and `\d` of regular expressions, decimal digit strings, and
 * `toLowerCase`/`toUpperCase` on the ASCII letters (other characters are
 * left as they are).
 */
module JsString {
  import opened Wrappers

  /** `\s` in a JavaScript regular expression: white space and line terminators. */
  predicate IsJsSpace(c: char) {
    || c == '\t' || c == '\n' || c == '\U{B}' || c == '\U{C}' || c == '\r' || c == ' '
    || c == '\U{A0}' || c == '\U{1680}' || ('\U{2000}' <= c <= '\U{200A}')
    || c == '\U{2028}' || c == '\U{2029}' || c == '\U{202F}' || c == '\U{205F}'
    || c == '\U{3000}' || c == '\U{FEFF}'
  }

  /** The characters `.` does not match. */
  predicate IsLineTerminator(c: char) {
    c == '\n' || c == '\r' || c == '\U{2028}' || c == '\U{2029}'
  }

  predicate AllSpace(s: string) {
    forall i :: 0 <= i < |s| ==> IsJsSpace(s[i])
  }

  /** The length of the longest all-space prefix. */
  function SpaceRun(s: string): (k: nat)
    ensures k <= |s| && AllSpace(s[..k])
    ensures k < |s| ==> !IsJsSpace(s[k])
    decreases |s|
  {
    if s == [] || !IsJsSpace(s[0]) then 0
    else
      var k := 1 + SpaceRun(s[1..]);
      assert s[..k] == [s[0]] + s[1..][..k - 1];
      k
  }

  lemma {:induction false} SpaceRunOver(spaces: string, token: string)
    requires AllSpace(spaces) && token != [] && !IsJsSpace(token[0])
    ensures SpaceRun(spaces + token) == |spaces|
    decreases |spaces|
  {
    if spaces == [] {
      assert (spaces + token)[0] == token[0];
    } else {
      assert (spaces + token)[1..] == spaces[1..] + token;
      SpaceRunOver(spaces[1..], token);
    }
  }

  /** `\d` in a JavaScript regular expression without the `u` flag. */
  predicate IsDigit(c: char) {
    '0' <= c <= '9'
  }

  /** The string matches `^\d+$`. */
  predicate IsDigits(s: string) {
    |s| > 0 && forall i :: 0 <= i < |s| ==> IsDigit(s[i])
  }

  /** `Number(digits)`: the decimal value of a digit string (leading zeros allowed). */
  function DecimalValue(s: string): nat
    requires forall i :: 0 <= i < |s| ==> IsDigit(s[i])
    decreases |s|
  {
    if s == [] then 0
    else DecimalValue(s[..|s| - 1]) * 10 + DigitValue(s[|s| - 1])
  }

  /** A leading zero does not change the value: `Number("007") == 7`. */
  lemma {:induction false} DecimalLeadingZero(d: string)
    requires forall i :: 0 <= i < |d| ==> IsDigit(d[i])
    ensures DecimalValue("0" + d) == DecimalValue(d)
    decreases |d|
  {
    if d == [] {
      assert ("0" + d)[..0] == [];
    } else {
      var init := d[..|d| - 1];
      assert ("0" + d)[..|"0" + d| - 1] == "0" + init;
      DecimalLeadingZero(init);
    }
  }

  function DigitValue(c: char): (v: nat)
    requires IsDigit(c)
    ensures v < 10
  {
    (c as int - '0' as int) as nat
  }

  function ToDecimal(n: nat): (s: string)
    decreases n
  {
    if n < 10 then [('0' as int + n) as char]
    else ToDecimal(n / 10) + [('0' as int + n % 10) as char]
  }

  lemma {:induction false} DecimalRoundTrip(n: nat)
    ensures IsDigits(ToDecimal(n)) && DecimalValue(ToDecimal(n)) == n
    decreases n
  {
    if n >= 10 {
      DecimalRoundTrip(n / 10);
      var s := ToDecimal(n / 10);
      var t := ToDecimal(n);
      assert t == s + [('0' as int + n % 10) as char];
      assert t[..|t| - 1] == s;
    }
  }

  /** The length of the longest all-digit prefix. */
  function DigitRun(s: string): (k: nat)
    ensures k <= |s| && forall i :: 0 <= i < k ==> IsDigit(s[i])
    ensures k < |s| ==> !IsDigit(s[k])
  {
    if s == [] || !IsDigit(s[0]) then 0 else 1 + DigitRun(s[1..])
  }

  lemma {:induction false} DigitRunOver(digits: string, rest: string)
    requires forall i :: 0 <= i < |digits| ==> IsDigit(digits[i])
    requires rest == [] || !IsDigit(rest[0])
    ensures DigitRun(digits + rest) == |digits|
    decreases |digits|
  {
    if digits == [] {
      assert digits + rest == rest;
    } else {
      assert (digits + rest)[1..] == digits[1..] + rest;
      DigitRunOver(digits[1..], rest);
    }
  }

  /**
   * `parseInt(s, 10)`: leading white space is skipped, one sign is read,
   * then the longest run of digits is the value; `None` is `NaN`, when no
   * digit follows.
   */
  function ParseInt(s: string): (r: Option<int>)
    ensures r.Some? ==> exists i :: 0 <= i < |s| && IsDigit(s[i])
    ensures r.Some? <==> var t := s[SpaceRun(s)..];
      (|t| > 0 && IsDigit(t[0])) || (|t| > 1 && (t[0] == '-' || t[0] == '+') && IsDigit(t[1]))
  {
    var p := SpaceRun(s);
    var r := ParseSigned(s[p..]);
    assert r.Some? ==> exists i :: 0 <= i < |s| && IsDigit(s[i]) by {
      if r.Some? {
        var i :| 0 <= i < |s[p..]| && IsDigit(s[p..][i]);
        assert s[p + i] == s[p..][i];
      }
    }
    r
  }

  /** What `parseInt` reads once the white space is skipped: an optional sign, then digits. */
  function ParseSigned(t: string): (r: Option<int>)
    ensures r.Some? ==> exists i :: 0 <= i < |t| && IsDigit(t[i])
    ensures r.Some? <==> (|t| > 0 && IsDigit(t[0])) || (|t| > 1 && (t[0] == '-' || t[0] == '+') && IsDigit(t[1]))
  {
    if |t| > 0 && (t[0] == '-' || t[0] == '+') then
      var v := ParseDigits(t[1..]);
      if v.None? then None
      else
        assert IsDigit(t[1]) by { assert t[1] == t[1..][0]; }
        Some(if t[0] == '-' then -(v.value as int) else v.value as int)
    else
      var v := ParseDigits(t);
      if v.None? then None else Some(v.value as int)
  }

  /** The value of the longest run of digits at the start of `u`, if there is one. */
  function ParseDigits(u: string): (r: Option<nat>)
    ensures r.Some? <==> |u| > 0 && IsDigit(u[0])
  {
    var k := DigitRun(u);
    if k == 0 then None else Some(DecimalValue(u[..k]))
  }

  /** A digit string followed by a non-digit reads as its decimal value. */
  lemma ParseDigitsOver(d: string, rest: string)
    requires IsDigits(d) && (rest == [] || !IsDigit(rest[0]))
    ensures ParseDigits(d + rest) == Some(DecimalValue(d))
  {
    DigitRunOver(d, rest);
    assert (d + rest)[..|d|] == d;
  }

  /** The decimal spelling of `n`, after white space and before a non-digit, reads back as `n`. */
  lemma ParseIntDecimal(spaces: string, n: nat, rest: string)
    requires AllSpace(spaces) && (rest == [] || !IsDigit(rest[0]))
    ensures ParseInt(spaces + ToDecimal(n) + rest) == Some(n)
  {
    var d := ToDecimal(n);
    DecimalRoundTrip(n);
    assert spaces + d + rest == spaces + (d + rest);
    assert (d + rest)[0] == d[0];
    ParseIntSkipsSpaces(spaces, d + rest);
    ParseDigitsOver(d, rest);
  }

  /** Leading white space does not change what `parseInt` reads. */
  lemma ParseIntSkipsSpaces(spaces: string, t: string)
    requires AllSpace(spaces) && t != [] && !IsJsSpace(t[0])
    ensures ParseInt(spaces + t) == ParseSigned(t)
  {
    SpaceRunOver(spaces, t);
    assert (spaces + t)[|spaces|..] == t;
  }

  /** One sign between the white space and the digits: `-` negates the value, `+` keeps it. */
  lemma ParseIntSigned(spaces: string, sign: char, n: nat, rest: string)
    requires AllSpace(spaces) && (sign == '-' || sign == '+') && (rest == [] || !IsDigit(rest[0]))
    ensures ParseInt(spaces + [sign] + ToDecimal(n) + rest) == Some(if sign == '-' then -(n as int) else n as int)
  {
    var d := ToDecimal(n);
    DecimalRoundTrip(n);
    ParseIntSignedDigits(spaces, sign, d, rest);
    assert DecimalValue(d) as int == n as int;
  }

  lemma ParseIntSignedDigits(spaces: string, sign: char, d: string, rest: string)
    requires AllSpace(spaces) && (sign == '-' || sign == '+') && IsDigits(d) && (rest == [] || !IsDigit(rest[0]))
    ensures ParseInt(spaces + [sign] + d + rest) == Some(if sign == '-' then -(DecimalValue(d) as int) else DecimalValue(d) as int)
  {
    var t := [sign] + (d + rest);
    ParseSignedDigits(sign, d, rest);
    Regroup(spaces, [sign], d, rest);
    ParseIntSkipsSpaces(spaces, t);
  }

  lemma Regroup(a: string, b: string, c: string, e: string)
    ensures a + b + c + e == a + (b + (c + e))
  {
  }

  lemma ParseSignedDigits(sign: char, d: string, rest: string)
    requires (sign == '-' || sign == '+') && IsDigits(d) && (rest == [] || !IsDigit(rest[0]))
    ensures ([sign] + (d + rest))[0] == sign
    ensures ParseSigned([sign] + (d + rest)) == Some(if sign == '-' then -(DecimalValue(d) as int) else DecimalValue(d) as int)
  {
    var t := [sign] + (d + rest);
    assert t[1..] == d + rest;
    ParseDigitsOver(d, rest);
    ParseSignedOver(t, DecimalValue(d));
  }

  /** A sign followed by digits worth `v`: `-` negates, `+` keeps. */
  lemma ParseSignedOver(t: string, v: nat)
    requires |t| > 0 && (t[0] == '-' || t[0] == '+') && ParseDigits(t[1..]) == Some(v)
    ensures ParseSigned(t) == Some(if t[0] == '-' then -(v as int) else v as int)
  {
  }

  /** A string without any digit is `NaN`. */
  lemma ParseIntNoDigit(s: string)
    requires forall i :: 0 <= i < |s| ==> !IsDigit(s[i])
    ensures ParseInt(s).None?
  {
  }

  function AsciiLower(c: char): (r: char)
    ensures 'A' <= c <= 'Z' ==> r as int == c as int + 32
    ensures !('A' <= c <= 'Z') ==> r == c
  {
    if 'A' <= c <= 'Z' then (c as int + 32) as char else c
  }

  function AsciiUpper(c: char): (r: char)
    ensures 'a' <= c <= 'z' ==> r as int == c as int - 32
    ensures !('a' <= c <= 'z') ==> r == c
  {
    if 'a' <= c <= 'z' then (c as int - 32) as char else c
  }

  function ToLower(s: string): (r: string)
    ensures |r| == |s| && forall i :: 0 <= i < |s| ==> r[i] == AsciiLower(s[i])
  {
    if s == [] then [] else [AsciiLower(s[0])] + ToLower(s[1..])
  }

  function ToUpper(s: string): (r: string)
    ensures |r| == |s| && forall i :: 0 <= i < |s| ==> r[i] == AsciiUpper(s[i])
  {
    if s == [] then [] else [AsciiUpper(s[0])] + ToUpper(s[1..])
  }

  /** Upper-casing forgets the case the input was written in. */
  lemma ToUpperIdempotent(s: string)
    ensures ToUpper(ToUpper(s)) == ToUpper(s)
  {
  }

  /** Lower-casing an upper-cased string gives the lower-cased original. */
  lemma ToLowerOfToUpper(s: string)
    ensures ToLower(ToUpper(s)) == ToLower(s)
  {
  }
}
