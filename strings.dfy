/** The few JavaScript string and number primitives the core relies on:
    ASCII case mapping, split/join on a separator, includes, decimal and
    hexadecimal digit conversion, Number-to-string for integers, and parseInt. */
module Strings {
  import opened Wrappers

  predicate IsAsciiLower(c: char) { 'a' <= c <= 'z' }
  predicate IsAsciiUpper(c: char) { 'A' <= c <= 'Z' }

  /** String.prototype.toUpperCase on one character (ASCII letters only). */
  function UpperChar(c: char): (u: char)
    ensures !IsAsciiLower(u)
    ensures u == ' ' <==> c == ' '
  {
    if IsAsciiLower(c) then (c as int - 32) as char else c
  }

  /** String.prototype.toLowerCase on one character (ASCII letters only). */
  function LowerChar(c: char): (l: char)
    ensures !IsAsciiUpper(l)
    ensures l == ' ' <==> c == ' '
  {
    if IsAsciiUpper(c) then (c as int + 32) as char else c
  }

  /** Case mapping changes letters only: both maps agree up to case. */
  lemma CaseMapsAgree(c: char)
    ensures UpperChar(LowerChar(c)) == UpperChar(c)
    ensures LowerChar(UpperChar(c)) == LowerChar(c)
    ensures UpperChar(UpperChar(c)) == UpperChar(c)
    ensures LowerChar(LowerChar(c)) == LowerChar(c)
  {
  }

  function UpperString(s: string): (r: string)
    ensures |r| == |s|
    ensures forall i :: 0 <= i < |s| ==> r[i] == UpperChar(s[i])
  {
    seq(|s|, i requires 0 <= i < |s| => UpperChar(s[i]))
  }

  function LowerString(s: string): (r: string)
    ensures |r| == |s|
    ensures forall i :: 0 <= i < |s| ==> r[i] == LowerChar(s[i])
  {
    seq(|s|, i requires 0 <= i < |s| => LowerChar(s[i]))
  }

  /** String.prototype.split(sep) with a one-character separator: the pieces
      between separators, always at least one (the empty string splits to [""]). */
  function Split(s: string, sep: char): (pieces: seq<string>)
    ensures |pieces| >= 1
    ensures forall k, i :: 0 <= k < |pieces| && 0 <= i < |pieces[k]| ==> pieces[k][i] != sep
  {
    if s == [] then [[]]
    else if s[0] == sep then [[]] + Split(s[1..], sep)
    else
      var rest := Split(s[1..], sep);
      [[s[0]] + rest[0]] + rest[1..]
  }

  /** Array.prototype.join(sep). */
  function Join(pieces: seq<string>, sep: char): string
  {
    if |pieces| == 0 then []
    else if |pieces| == 1 then pieces[0]
    else pieces[0] + [sep] + Join(pieces[1..], sep)
  }

  lemma JoinConsHead(c: char, w: string, rest: seq<string>, sep: char)
    ensures Join([[c] + w] + rest, sep) == [c] + Join([w] + rest, sep)
  {
    var a, b := [[c] + w] + rest, [w] + rest;
    assert a[1..] == rest && b[1..] == rest;
  }

  /** Joining the pieces of a split gives back the string. */
  lemma {:induction false} JoinSplit(s: string, sep: char)
    ensures Join(Split(s, sep), sep) == s
  {
    if s == [] {
    } else if s[0] == sep {
      JoinSplit(s[1..], sep);
      var rest := Split(s[1..], sep);
      assert ([[]] + rest)[1..] == rest;
      assert s == [sep] + s[1..];
    } else {
      JoinSplit(s[1..], sep);
      var rest := Split(s[1..], sep);
      JoinConsHead(s[0], rest[0], rest[1..], sep);
      assert [rest[0]] + rest[1..] == rest;
      assert s == [s[0]] + s[1..];
    }
  }

  /** part occurs in s at position i. */
  predicate OccursAt(s: string, part: string, i: int)
  {
    0 <= i <= |s| - |part| && s[i..i + |part|] == part
  }

  /** String.prototype.includes. */
  function Includes(s: string, part: string): (r: bool)
    ensures r <==> exists i :: OccursAt(s, part, i)
    decreases |s|
  {
    if |part| > |s| then false
    else if s[..|part|] == part then assert OccursAt(s, part, 0); true
    else
      var r := Includes(s[1..], part);
      forall i
        ensures OccursAt(s[1..], part, i) <==> OccursAt(s, part, i + 1)
      {
        if 0 <= i <= |s| - 1 - |part| {
          assert s[1..][i..i + |part|] == s[i + 1..i + 1 + |part|];
        }
      }
      assert !OccursAt(s, part, 0);
      assert forall i :: OccursAt(s, part, i) ==> OccursAt(s[1..], part, i - 1);
      r
  }

  // ---- digits ----

  predicate IsDecimalDigit(c: char) { '0' <= c <= '9' }

  predicate IsHexDigit(c: char) { '0' <= c <= '9' || 'a' <= c <= 'f' || 'A' <= c <= 'F' }

  predicate IsLowerHexDigit(c: char) { '0' <= c <= '9' || 'a' <= c <= 'f' }

  function HexValue(c: char): (v: nat)
    requires IsHexDigit(c)
    ensures v < 16
  {
    if '0' <= c <= '9' then c as int - '0' as int
    else if 'a' <= c <= 'f' then c as int - 'a' as int + 10
    else c as int - 'A' as int + 10
  }

  /** The lower-case digit Number.prototype.toString(16) writes for d. */
  function HexChar(d: nat): (c: char)
    requires d < 16
    ensures IsLowerHexDigit(c) && IsHexDigit(c)
    ensures HexValue(c) == d
  {
    if d < 10 then ('0' as int + d) as char else ('a' as int + d - 10) as char
  }

  /** A hex digit read and written back is its lower-case form. */
  lemma HexCharOfValue(c: char)
    requires IsHexDigit(c)
    ensures HexChar(HexValue(c)) == LowerChar(c)
  {
  }

  function DecimalChar(d: nat): (c: char)
    requires d < 10
    ensures IsDecimalDigit(c)
  {
    ('0' as int + d) as char
  }

  /** Number.prototype.toString(16) of a non-negative integer. */
  function HexString(n: nat): (s: string)
    ensures |s| >= 1
  {
    if n < 16 then [HexChar(n)] else HexString(n / 16) + [HexChar(n % 16)]
  }

  lemma HexStringStep(q: nat, d: nat)
    requires 1 <= q && d < 16
    ensures HexString(16 * q + d) == HexString(q) + [HexChar(d)]
  {
    var n := 16 * q + d;
    assert n / 16 == q && n % 16 == d;
  }

  /** The decimal digits of a non-negative integer, without leading zeros. */
  function DecimalDigits(n: nat): (s: string)
    ensures |s| >= 1 && forall i :: 0 <= i < |s| ==> IsDecimalDigit(s[i])
    ensures s[0] == '0' ==> n == 0
  {
    if n < 10 then [DecimalChar(n)] else DecimalDigits(n / 10) + [DecimalChar(n % 10)]
  }

  /** String(n) for an integer-valued JavaScript number. */
  function DecimalString(n: int): string
  {
    if n < 0 then "-" + DecimalDigits(-n) else DecimalDigits(n)
  }

  // ---- parseInt ----

  /** The white space and line terminators that parseInt skips (ECMAScript
      WhiteSpace and LineTerminator). */
  predicate IsJsWhitespace(c: char)
  {
    c == '\t' || c == '\n' || c == '\U{B}' || c == '\U{C}' || c == '\r' || c == ' '
    || c == '\U{A0}' || c == '\U{1680}' || ('\U{2000}' <= c <= '\U{200A}')
    || c == '\U{2028}' || c == '\U{2029}' || c == '\U{202F}' || c == '\U{205F}'
    || c == '\U{3000}' || c == '\U{FEFF}'
  }

  function TrimStart(s: string): (t: string)
    ensures |t| > 0 ==> !IsJsWhitespace(t[0])
  {
    if s != [] && IsJsWhitespace(s[0]) then TrimStart(s[1..]) else s
  }

  predicate IsRadixDigit(c: char, radix: nat)
  {
    if radix == 16 then IsHexDigit(c) else IsDecimalDigit(c)
  }

  /** The value of a digit in radix 10 or 16. */
  function RadixDigitValue(c: char, radix: nat): (v: nat)
    requires IsRadixDigit(c, radix)
    ensures radix == 16 ==> v < 16
    ensures radix != 16 ==> v < 10
  {
    if radix == 16 then HexValue(c) else c as int - '0' as int
  }

  predicate AllRadixDigits(z: string, radix: nat)
  {
    forall i :: 0 <= i < |z| ==> IsRadixDigit(z[i], radix)
  }

  /** The longest prefix of s made of radix digits. */
  function DigitPrefix(s: string, radix: nat): (z: string)
    ensures AllRadixDigits(z, radix)
  {
    if s != [] && IsRadixDigit(s[0], radix) then [s[0]] + DigitPrefix(s[1..], radix) else []
  }

  function DigitsValue(z: string, radix: nat): nat
    requires AllRadixDigits(z, radix)
  {
    if z == [] then 0
    else DigitsValue(z[..|z| - 1], radix) * radix + RadixDigitValue(z[|z| - 1], radix)
  }

  /** The global parseInt with no radix argument: skip leading white space, take
      an optional sign, switch to radix 16 after a "0x"/"0X" prefix, and read
      the longest run of digits; no digits at all is NaN, written None. */
  function ParseInt(s: string): Option<int>
  {
    var t := TrimStart(s);
    if |t| > 0 && t[0] == '-' then ParseUnsigned(t[1..], -1)
    else if |t| > 0 && t[0] == '+' then ParseUnsigned(t[1..], 1)
    else ParseUnsigned(t, 1)
  }

  /** parseInt after the sign has been taken off. */
  function ParseUnsigned(u: string, sign: int): Option<int>
  {
    var hex := |u| >= 2 && u[0] == '0' && (u[1] == 'x' || u[1] == 'X');
    var radix := if hex then 16 else 10;
    var z := DigitPrefix(if hex then u[2..] else u, radix);
    if z == [] then None else Some(sign * DigitsValue(z, radix))
  }

  lemma {:induction false} DecimalDigitsValue(n: nat)
    ensures DigitsValue(DecimalDigits(n), 10) == n
  {
    var s := DecimalDigits(n);
    if n >= 10 {
      DecimalDigitsValue(n / 10);
      assert s[..|s| - 1] == DecimalDigits(n / 10);
    }
  }

  lemma DigitPrefixOfDigits(d: string, rest: string)
    requires AllRadixDigits(d, 10)
    requires rest == [] || !IsDecimalDigit(rest[0])
    ensures DigitPrefix(d + rest, 10) == d
  {
    if d != [] {
      assert (d + rest)[1..] == d[1..] + rest;
      DigitPrefixOfDigits(d[1..], rest);
    }
  }

  /** The digits after the sign, when they carry no "0x" prefix. */
  lemma ParseUnsignedDigits(d: string, rest: string, sign: int)
    requires |d| >= 1 && AllRadixDigits(d, 10)
    requires d[0] == '0' ==> |d| == 1
    requires rest == [] || !IsDecimalDigit(rest[0])
    requires d == "0" && rest != [] ==> rest[0] != 'x' && rest[0] != 'X'
    ensures ParseUnsigned(d + rest, sign) == Some(sign * DigitsValue(d, 10))
  {
    var u := d + rest;
    DigitPrefixOfDigits(d, rest);
    if |u| >= 2 && u[0] == '0' {
      assert |d| == 1 && u[1] == rest[0];
    }
  }

  /** parseInt of an unsigned run of decimal digits without a "0x" prefix,
      followed by anything that does not continue the number. */
  lemma ParseIntPlainDigits(d: string, rest: string)
    requires |d| >= 1 && AllRadixDigits(d, 10)
    requires d[0] == '0' ==> |d| == 1
    requires rest == [] || !IsDecimalDigit(rest[0])
    requires d == "0" && rest != [] ==> rest[0] != 'x' && rest[0] != 'X'
    ensures ParseInt(d + rest) == Some(DigitsValue(d, 10))
  {
    var s := d + rest;
    assert IsDecimalDigit(s[0]);
    assert TrimStart(s) == s;
    ParseUnsignedDigits(d, rest, 1);
  }

  lemma ParseIntMinusStart(s: string)
    requires s != [] && s[0] == '-'
    ensures ParseInt(s) == ParseUnsigned(s[1..], -1)
  {
    assert TrimStart(s) == s;
  }

  /** The same run of digits after a minus sign. */
  lemma ParseIntNegatedDigits(d: string, rest: string)
    requires |d| >= 1 && AllRadixDigits(d, 10)
    requires d[0] == '0' ==> |d| == 1
    requires rest == [] || !IsDecimalDigit(rest[0])
    requires d == "0" && rest != [] ==> rest[0] != 'x' && rest[0] != 'X'
    ensures ParseInt("-" + (d + rest)) == Some(-1 * DigitsValue(d, 10))
  {
    var u := d + rest;
    var s := "-" + u;
    assert s[1..] == u;
    ParseIntMinusStart(s);
    ParseUnsignedDigits(d, rest, -1);
  }

  /** parseInt reads back what String(n) writes for an integer n, also when
      something follows it that cannot continue a number: a non-digit, which
      after a lone 0 must not be the 'x' of a hexadecimal prefix. */
  lemma ParseIntDecimalString(n: int, rest: string)
    requires rest == [] || !IsDecimalDigit(rest[0])
    requires n == 0 && rest != [] ==> rest[0] != 'x' && rest[0] != 'X'
    ensures ParseInt(DecimalString(n) + rest) == Some(n)
  {
    var m := if n < 0 then -n else n;
    DecimalDigitsValue(m);
    if n < 0 {
      var d := DecimalDigits(m);
      assert DecimalString(n) + rest == "-" + (d + rest);
      ParseIntNegatedDigits(d, rest);
    } else {
      ParseIntPlainDigits(DecimalDigits(m), rest);
    }
  }
}
