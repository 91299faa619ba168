/**
 * The JavaScript string built-ins the handlers rely on, over Dafny strings
 * (sequences of Unicode scalar values): `toLowerCase` (ASCII letters only),
 * `startsWith`, `includes`, `.length` (counted in UTF-16 code units, as JavaScript
 * counts it), truthiness of a string, `String(n)` for a natural number and the
 * one-argument `parseInt`.
 */
module Strings {
  import opened Wrappers

  /** Lower-cases an ASCII upper-case letter and leaves every other character alone. */
  function LowerChar(c: char): (r: char)
    ensures 'A' <= c <= 'Z' ==> 'a' <= r <= 'z'
    ensures !('A' <= c <= 'Z') ==> r == c
  {
    if 'A' <= c <= 'Z' then (c as int + 32) as char else c
  }

  function Lower(s: string): (r: string)
    ensures |r| == |s|
    ensures forall i :: 0 <= i < |s| ==> r[i] == LowerChar(s[i])
  {
    seq(|s|, i requires 0 <= i < |s| => LowerChar(s[i]))
  }

  /** Lower-casing changes no character outside `A`..`Z`; in particular it never creates or removes a `.`. */
  lemma LowerKeepsOthers(s: string, c: char)
    requires !('A' <= c <= 'Z') && !('a' <= c <= 'z')
    ensures c in Lower(s) <==> c in s
  {
    if c in s {
      var i :| 0 <= i < |s| && s[i] == c;
      assert Lower(s)[i] == c;
    }
  }

  lemma LowerIdempotent(s: string)
    ensures Lower(Lower(s)) == Lower(s)
  {
  }

  lemma LowerAppend(a: string, b: string)
    ensures Lower(a + b) == Lower(a) + Lower(b)
  {
  }

  predicate StartsWith(s: string, prefix: string)
  {
    |prefix| <= |s| && s[..|prefix|] == prefix
  }

  predicate EndsWith(s: string, suffix: string)
  {
    |suffix| <= |s| && s[|s| - |suffix|..] == suffix
  }

  /** `s.includes(sub)`: `sub` occurs in `s` at some position. */
  predicate Contains(s: string, sub: string)
  {
    exists i :: 0 <= i <= |s| - |sub| && OccursAt(s, sub, i)
  }

  predicate OccursAt(s: string, sub: string, i: nat)
  {
    i + |sub| <= |s| && s[i..i + |sub|] == sub
  }

  /** A string is truthy in JavaScript exactly when it is not empty; `undefined`/`null` is falsy. */
  predicate Truthy(s: Option<string>)
  {
    s.Some? && s.value != ""
  }

  /** `s || fallback` for an optional string. */
  function OrElse(s: Option<string>, fallback: string): (r: string)
    ensures Truthy(s) ==> r == s.value
    ensures !Truthy(s) ==> r == fallback
  {
    if Truthy(s) then s.value else fallback
  }

  /** `s.length`: characters outside the Basic Multilingual Plane count as two UTF-16 code units. */
  function Utf16Length(s: string): (n: nat)
    ensures |s| <= n <= 2 * |s|
  {
    if s == [] then 0 else (if s[0] as int > 0xFFFF then 2 else 1) + Utf16Length(s[1..])
  }

  // ---------------------------------------------------------------------------
  // Decimal rendering and parseInt

  predicate IsDecimalDigit(c: char)
  {
    '0' <= c <= '9'
  }

  function DigitChar(d: nat): (c: char)
    requires d < 10
    ensures IsDecimalDigit(c) && DigitValue(c) == d
  {
    ('0' as int + d) as char
  }

  /** The value of `c` as a digit in any radix up to 36, or 36 when it is not a digit at all. */
  function DigitValue(c: char): (d: nat)
    ensures d <= 36
    ensures IsDecimalDigit(c) <==> d < 10
  {
    if '0' <= c <= '9' then c as int - '0' as int
    else if 'a' <= c <= 'z' then c as int - 'a' as int + 10
    else if 'A' <= c <= 'Z' then c as int - 'A' as int + 10
    else 36
  }

  predicate IsRadixDigit(c: char, radix: nat)
  {
    DigitValue(c) < radix
  }

  /** `String(n)` for a natural number: its decimal digits, without leading zeros. */
  function NatToString(n: nat): (s: string)
    ensures |s| >= 1
    ensures forall i :: 0 <= i < |s| ==> IsDecimalDigit(s[i])
    ensures n >= 10 ==> s[0] != '0'
    ensures DigitsValue(s, 10) == n
  {
    if n < 10 then [DigitChar(n)]
    else
      var s := NatToString(n / 10) + [DigitChar(n % 10)];
      assert s[..|s| - 1] == NatToString(n / 10);
      s
  }

  /** The value of a string of radix digits, most significant first. */
  function DigitsValue(ds: string, radix: nat): nat
    requires forall i :: 0 <= i < |ds| ==> IsRadixDigit(ds[i], radix)
  {
    if ds == [] then 0
    else
      var prefix := ds[..|ds| - 1];
      assert forall i :: 0 <= i < |prefix| ==> prefix[i] == ds[i];
      var high: nat := DigitsValue(prefix, radix);
      MulNonNegative(high, radix);
      high * radix + DigitValue(ds[|ds| - 1])
  }

  lemma MulNonNegative(a: nat, b: nat)
    ensures a * b >= 0
  {
  }

  /** JavaScript's white space and line terminators, which `parseInt` skips at the front. */
  predicate IsJsSpace(c: char)
  {
    c == '\t' || c == '\n' || c == '\U{B}' || c == '\U{C}' || c == '\r' || c == ' '
    || c == '\U{A0}' || c == '\U{1680}' || ('\U{2000}' <= c <= '\U{200A}')
    || c == '\U{2028}' || c == '\U{2029}' || c == '\U{202F}' || c == '\U{205F}'
    || c == '\U{3000}' || c == '\U{FEFF}'
  }

  function TrimStart(s: string): (r: string)
    ensures |r| <= |s| && r == s[|s| - |r|..]
    ensures r == [] || !IsJsSpace(r[0])
    ensures forall i :: 0 <= i < |s| - |r| ==> IsJsSpace(s[i])
  {
    if s == [] || !IsJsSpace(s[0]) then s else TrimStart(s[1..])
  }

  /** The longest prefix of `s` made of digits of the given radix. */
  function DigitPrefix(s: string, radix: nat): (r: string)
    ensures |r| <= |s| && r == s[..|r|]
    ensures forall i :: 0 <= i < |r| ==> IsRadixDigit(r[i], radix)
    ensures |r| == |s| || !IsRadixDigit(s[|r|], radix)
  {
    if s == [] || !IsRadixDigit(s[0], radix) then [] else [s[0]] + DigitPrefix(s[1..], radix)
  }

  /**
   * `parseInt(s)` with no radix argument: skip leading white space, read an optional
   * sign, then read the digits that follow (see `UnsignedValue`).
   * `None` stands for `NaN`.
   */
  function ParseInt(s: string): Option<int>
  {
    var t := TrimStart(s);
    var negative := |t| > 0 && t[0] == '-';
    var u := if |t| > 0 && (t[0] == '-' || t[0] == '+') then t[1..] else t;
    Signed(UnsignedValue(u), negative)
  }

  /** The magnitude read after the sign, negated when the sign was a minus; `NaN` stays `NaN`. */
  function Signed(magnitude: Option<nat>, negative: bool): (r: Option<int>)
    ensures r.None? <==> magnitude.None?
    ensures r.Some? ==> (if negative then r.value == -(magnitude.value as int) else r.value == magnitude.value as int)
  {
    match magnitude
    case None => None
    case Some(v) => if negative then Some(-(v as int)) else Some(v as int)
  }

  /** After the sign: a `0x`/`0X` prefix selects hexadecimal, then the longest run of digits is read; no digit means `NaN`. */
  function UnsignedValue(u: string): Option<nat>
  {
    var hex := |u| >= 2 && u[0] == '0' && (u[1] == 'x' || u[1] == 'X');
    var radix := if hex then 16 else 10;
    var z := DigitPrefix(if hex then u[2..] else u, radix);
    if z == [] then None else Some(DigitsValue(z, radix))
  }

  lemma {:induction false} DigitPrefixOfDigits(ds: string, rest: string, radix: nat)
    requires forall i :: 0 <= i < |ds| ==> IsRadixDigit(ds[i], radix)
    requires rest == [] || !IsRadixDigit(rest[0], radix)
    ensures DigitPrefix(ds + rest, radix) == ds
  {
    if ds != [] {
      assert (ds + rest)[1..] == ds[1..] + rest;
      DigitPrefixOfDigits(ds[1..], rest, radix);
    }
  }

  lemma UnsignedValueOfDecimal(n: nat, rest: string)
    requires rest == [] || (!IsDecimalDigit(rest[0]) && rest[0] != 'x' && rest[0] != 'X')
    ensures UnsignedValue(NatToString(n) + rest) == Some(n)
  {
    var ds := NatToString(n);
    var u := ds + rest;
    assert !(|u| >= 2 && u[0] == '0' && (u[1] == 'x' || u[1] == 'X')) by {
      assert u[0] == ds[0];
      if |ds| >= 2 {
        assert u[1] == ds[1];
      } else if rest != [] {
        assert u[1] == rest[0];
      }
    }
    DigitPrefixOfDigits(ds, rest, 10);
  }

  /** Text that starts with a digit is read by `UnsignedValue` alone. */
  lemma ParseIntUnsigned(u: string, n: nat)
    requires u != [] && IsDecimalDigit(u[0]) && UnsignedValue(u) == Some(n)
    ensures ParseInt(u) == Some(n as int)
  {
    DigitIsNotSpace(u[0]);
    assert TrimStart(u) == u;
  }

  lemma DigitIsNotSpace(c: char)
    requires IsDecimalDigit(c)
    ensures !IsJsSpace(c) && c != '-' && c != '+'
  {
  }

  /** A leading minus sign negates what `UnsignedValue` reads after it. */
  lemma ParseIntMinus(u: string, n: nat)
    requires UnsignedValue(u) == Some(n)
    ensures ParseInt(['-'] + u) == Some(-(n as int))
  {
    var m := ['-'] + u;
    assert !IsJsSpace(m[0]);
    assert TrimStart(m) == m;
    assert m[1..] == u;
  }

  /**
   * `parseInt` reads back the decimal rendering of a number, whatever text follows it
   * (as in `"48h"`), provided that text does not start with a digit and does not turn
   * a lone `0` into a hexadecimal prefix; a leading minus sign negates it.
   */
  lemma ParseIntOfDecimal(n: nat, rest: string)
    requires rest == [] || (!IsDecimalDigit(rest[0]) && rest[0] != 'x' && rest[0] != 'X')
    ensures ParseInt(NatToString(n) + rest) == Some(n as int)
    ensures ParseInt(['-'] + (NatToString(n) + rest)) == Some(-(n as int))
  {
    UnsignedValueOfDecimal(n, rest);
    NotBlankOrSign(n, rest);
    ParseIntUnsigned(NatToString(n) + rest, n);
    ParseIntMinus(NatToString(n) + rest, n);
  }

  lemma NotBlankOrSign(n: nat, rest: string)
    ensures var u := NatToString(n) + rest; u != [] && IsDecimalDigit(u[0])
  {
    var ds := NatToString(n);
    assert (ds + rest)[0] == ds[0];
  }

  /** Text whose first non-blank character is neither a sign nor a digit has no integer value. */
  lemma ParseIntNoDigits(s: string)
    requires TrimStart(s) != []
    requires var c := TrimStart(s)[0]; c != '-' && c != '+' && !IsDecimalDigit(c)
    ensures ParseInt(s) == None
  {
  }
}
