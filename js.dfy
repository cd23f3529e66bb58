/** The pieces of JavaScript's semantics that the betting-question generator relies on:
    truthiness of values that may be `undefined`, the `||` default, template
    interpolation of `undefined`, `parseInt` with no radix, `String.prototype.split`
    and the decimal rendering of an integer. */
module Js {
  import opened Wrappers

  // ---------------------------------------------------------------- truthiness

  /** A string that may be undefined is truthy when it is defined and non-empty. */
  predicate Truthy(s: Option<string>) {
    s.Some? && s.value != ""
  }

  /** `s || d` for a string that may be undefined. */
  function Or(s: Option<string>, d: string): string {
    if Truthy(s) then s.value else d
  }

  /** `${s}` inside a template literal: an undefined value prints as "undefined". */
  function Show(s: Option<string>): string {
    if s.Some? then s.value else "undefined"
  }

  /** A number that may be undefined is truthy when it is defined and not zero. */
  predicate NumTruthy(n: Option<int>) {
    n.Some? && n.value != 0
  }

  /** `n || 0` for a number that may be undefined (or NaN, written None). */
  function OrZero(n: Option<int>): int {
    if NumTruthy(n) then n.value else 0
  }

  /** `s.startsWith(p)`. */
  predicate StartsWith(s: string, p: string) {
    |p| <= |s| && s[..|p|] == p
  }

  // ---------------------------------------------------------------- digits

  /** The white space and line terminators that `parseInt` skips before the number. */
  predicate IsWhiteSpace(c: char) {
    || c == '\t' || c == '\n' || c == '\U{B}' || c == '\U{C}' || c == '\r' || c == ' '
    || c == '\U{A0}' || c == '\U{1680}' || ('\U{2000}' <= c <= '\U{200A}')
    || c == '\U{2028}' || c == '\U{2029}' || c == '\U{202F}' || c == '\U{205F}'
    || c == '\U{3000}' || c == '\U{FEFF}'
  }

  /** The value of a character as a digit in radix 36; 36 for a character that is no digit. */
  function DigitValue(c: char): nat {
    if '0' <= c <= '9' then c as int - '0' as int
    else if 'a' <= c <= 'z' then c as int - 'a' as int + 10
    else if 'A' <= c <= 'Z' then c as int - 'A' as int + 10
    else 36
  }

  predicate IsDigit(c: char, radix: nat) {
    DigitValue(c) < radix
  }

  function DigitChar(d: nat): (c: char)
    requires d < 10
    ensures IsDigit(c, 10) && DigitValue(c) == d
  {
    ('0' as int + d) as char
  }

  /** Drops the leading white space. */
  function TrimStart(s: string): (r: string)
    ensures |r| <= |s| && r == s[|s| - |r|..]
    ensures r == [] || !IsWhiteSpace(r[0])
    ensures forall i :: 0 <= i < |s| - |r| ==> IsWhiteSpace(s[i])
  {
    if |s| > 0 && IsWhiteSpace(s[0]) then TrimStart(s[1..]) else s
  }

  /** The longest prefix of `s` made of digits in the given radix. */
  function DigitPrefix(s: string, radix: nat): (r: string)
    ensures |r| <= |s| && r == s[..|r|]
    ensures forall i :: 0 <= i < |r| ==> IsDigit(r[i], radix)
    ensures |r| < |s| ==> !IsDigit(s[|r|], radix)
  {
    if |s| > 0 && IsDigit(s[0], radix) then [s[0]] + DigitPrefix(s[1..], radix) else []
  }

  /** The number that a string of digits denotes, most significant digit first. */
  function DigitsValue(ds: string, radix: nat): nat {
    if |ds| == 0 then 0 else DigitsValue(ds[..|ds| - 1], radix) * radix + DigitValue(ds[|ds| - 1])
  }

  /** `parseInt(s)` with no radix: leading white space is skipped, one sign is read, a
      `0x` or `0X` prefix switches to hexadecimal, then the longest run of digits is
      read. No digit at all gives NaN, written None. */
  function ParseInt(s: string): Option<int> {
    ParseSigned(TrimStart(s))
  }

  /** `parseInt` after the white space: an optional sign, then the magnitude. */
  function ParseSigned(t: string): Option<int> {
    if |t| > 0 && t[0] == '-' then
      var m := ParseMagnitude(t[1..]);
      if m.Some? then Some(-(m.value as int)) else None
    else if |t| > 0 && t[0] == '+' then
      var m := ParseMagnitude(t[1..]);
      if m.Some? then Some(m.value as int) else None
    else
      var m := ParseMagnitude(t);
      if m.Some? then Some(m.value as int) else None
  }

  /** `parseInt` after the sign: hexadecimal behind a `0x` or `0X` prefix, decimal otherwise. */
  function ParseMagnitude(u: string): Option<nat> {
    if |u| >= 2 && u[0] == '0' && (u[1] == 'x' || u[1] == 'X') then ReadDigits(u[2..], 16)
    else ReadDigits(u, 10)
  }

  /** The longest run of digits at the start of `body`; NaN when there is none. */
  function ReadDigits(body: string, radix: nat): Option<nat> {
    var digits := DigitPrefix(body, radix);
    if digits == [] then None else Some(DigitsValue(digits, radix))
  }

  /** `parseInt(x)` where `x` may be undefined: `parseInt(undefined)` is NaN. */
  function ParseIntOpt(s: Option<string>): Option<int> {
    if s.Some? then ParseInt(s.value) else None
  }

  /** Without a digit in front there is neither a hexadecimal prefix nor a digit to read. */
  lemma ParseMagnitudeNoDigit(u: string)
    requires u == [] || !IsDigit(u[0], 10)
    ensures ParseMagnitude(u).None?
  {
    assert DigitPrefix(u, 10) == [];
  }

  /** A string without a single decimal digit parses to NaN. */
  lemma ParseIntNoDigits(s: string)
    requires forall i :: 0 <= i < |s| ==> !IsDigit(s[i], 10)
    ensures ParseInt(s).None?
  {
    var t := TrimStart(s);
    var k := |s| - |t|;
    if |t| > 0 {
      assert t[0] == s[k];
    }
    if |t| > 1 {
      assert t[1] == s[k + 1];
    }
    if |t| > 0 && (t[0] == '-' || t[0] == '+') {
      ParseMagnitudeNoDigit(t[1..]);
    } else {
      ParseMagnitudeNoDigit(t);
    }
  }

  // ---------------------------------------------------------------- rendering

  /** The decimal rendering of a natural number, as `${n}` prints it. */
  function NatToString(n: nat): (r: string)
    ensures |r| >= 1
    ensures forall i :: 0 <= i < |r| ==> IsDigit(r[i], 10)
    ensures r[0] == '0' ==> n == 0
  {
    if n < 10 then [DigitChar(n)] else NatToString(n / 10) + [DigitChar(n % 10)]
  }

  /** The decimal rendering of an integer, as `${i}` prints it. */
  function IntToString(i: int): string {
    if i < 0 then "-" + NatToString(-i) else NatToString(i)
  }

  lemma {:induction false} DigitsValueOfNatToString(n: nat)
    ensures DigitsValue(NatToString(n), 10) == n
  {
    if n >= 10 {
      var s := NatToString(n / 10);
      var r := NatToString(n);
      assert r == s + [DigitChar(n % 10)];
      assert r[..|r| - 1] == s;
      DigitsValueOfNatToString(n / 10);
    }
  }

  lemma {:induction false} DigitPrefixOfDigits(ds: string, rest: string, radix: nat)
    requires forall i :: 0 <= i < |ds| ==> IsDigit(ds[i], radix)
    requires rest == [] || !IsDigit(rest[0], radix)
    ensures DigitPrefix(ds + rest, radix) == ds
  {
    if ds != [] {
      assert (ds + rest)[1..] == ds[1..] + rest;
      DigitPrefixOfDigits(ds[1..], rest, radix);
    }
  }

  lemma DigitIsNoSpaceNorSign(c: char)
    requires IsDigit(c, 10)
    ensures !IsWhiteSpace(c) && c != '-' && c != '+'
  {
    assert '0' <= c <= '9';
  }

  lemma ReadDigitsOfNatToString(n: nat, rest: string)
    requires rest == [] || !IsDigit(rest[0], 10)
    ensures ReadDigits(NatToString(n) + rest, 10) == Some(n)
  {
    DigitPrefixOfDigits(NatToString(n), rest, 10);
    DigitsValueOfNatToString(n);
  }

  lemma ParseMagnitudeOfNatToString(n: nat, rest: string)
    requires rest == [] || (!IsDigit(rest[0], 10) && (n > 0 || (rest[0] != 'x' && rest[0] != 'X')))
    ensures ParseMagnitude(NatToString(n) + rest) == Some(n)
  {
    var d := NatToString(n);
    var s := d + rest;
    assert s[0] == d[0];
    if n == 0 {
      assert d == "0";
      assert rest != [] ==> s[1] == rest[0];
    }
    ReadDigitsOfNatToString(n, rest);
  }

  /** `parseInt` reads back a rendered natural number, whatever non-digit text follows
      it (except an `x` right after a lone `0`, which reads as a hexadecimal prefix). */
  lemma ParseIntOfNatToString(n: nat, rest: string)
    requires rest == [] || (!IsDigit(rest[0], 10) && (n > 0 || (rest[0] != 'x' && rest[0] != 'X')))
    ensures ParseInt(NatToString(n) + rest) == Some(n)
  {
    var d := NatToString(n);
    var s := d + rest;
    assert s[0] == d[0];
    DigitIsNoSpaceNorSign(s[0]);
    assert TrimStart(s) == s;
    ParseMagnitudeOfNatToString(n, rest);
  }

  /** A minus sign in front of a magnitude negates it. */
  lemma ParseIntNegative(d: string, n: nat)
    requires ParseMagnitude(d) == Some(n)
    ensures ParseInt("-" + d) == Some(-(n as int))
  {
    var s := "-" + d;
    assert s[0] == '-' && s[1..] == d;
    assert TrimStart(s) == s;
  }

  /** `parseInt` reads back every rendered integer. */
  lemma ParseIntOfIntToString(i: int)
    ensures ParseInt(IntToString(i)) == Some(i)
  {
    if i < 0 {
      var d := NatToString(-i);
      ParseMagnitudeOfNatToString(-i, []);
      assert d + [] == d;
      ParseIntNegative(d, -i);
    } else {
      ParseIntOfNatToString(i, []);
      assert NatToString(i) + [] == NatToString(i);
    }
  }

  /** Distinct numbers render differently. */
  lemma NatToStringInjective(m: nat, n: nat)
    requires NatToString(m) == NatToString(n)
    ensures m == n
  {
    DigitsValueOfNatToString(m);
    DigitsValueOfNatToString(n);
  }

  // ---------------------------------------------------------------- split

  /** `s.split(sep)` for a one-character separator: the fields between separators, in order. */
  function Split(s: string, sep: char): (r: seq<string>)
    ensures |r| >= 1
    ensures forall k :: 0 <= k < |r| ==> sep !in r[k]
    ensures |r[0]| <= |s| && s[..|r[0]|] == r[0]
  {
    if |s| == 0 then [""]
    else
      var rest := Split(s[1..], sep);
      if s[0] == sep then [""] + rest
      else [[s[0]] + rest[0]] + rest[1..]
  }

  /** `fields.join(sep)`. */
  function Join(fields: seq<string>, sep: char): string
    requires |fields| >= 1
  {
    if |fields| == 1 then fields[0] else fields[0] + [sep] + Join(fields[1..], sep)
  }

  /** `fields[k]`, undefined past the end. */
  function Field(fields: seq<string>, k: nat): Option<string> {
    if k < |fields| then Some(fields[k]) else None
  }

  lemma {:induction false} JoinSplit(s: string, sep: char)
    ensures Join(Split(s, sep), sep) == s
  {
    if |s| > 0 {
      var rest := Split(s[1..], sep);
      JoinSplit(s[1..], sep);
      if s[0] == sep {
        assert Split(s, sep)[1..] == rest;
      } else {
        var r := Split(s, sep);
        assert r[1..] == rest[1..];
        if |rest| == 1 {
          assert Join(r, sep) == [s[0]] + rest[0];
        } else {
          assert Join(r, sep) == [s[0]] + rest[0] + [sep] + Join(rest[1..], sep);
        }
      }
    }
  }

  /** Text without a separator is glued to the first field of what follows it. */
  lemma {:induction false} SplitPrepend(a: string, b: string, sep: char)
    requires sep !in a
    ensures Split(a + b, sep) == [a + Split(b, sep)[0]] + Split(b, sep)[1..]
  {
    if a == [] {
      var r := Split(b, sep);
      assert a + b == b && a + r[0] == r[0];
      assert r == [r[0]] + r[1..];
    } else {
      assert (a + b)[0] == a[0] && (a + b)[1..] == a[1..] + b;
      SplitPrepend(a[1..], b, sep);
      assert [a[0]] + (a[1..] + Split(b, sep)[0]) == a + Split(b, sep)[0];
    }
  }

  lemma {:induction false} SplitJoin(fields: seq<string>, sep: char)
    requires |fields| >= 1
    requires forall k :: 0 <= k < |fields| ==> sep !in fields[k]
    ensures Split(Join(fields, sep), sep) == fields
  {
    if |fields| == 1 {
      SplitPrepend(fields[0], "", sep);
      assert fields[0] + "" == fields[0];
    } else {
      var tail := Join(fields[1..], sep);
      SplitJoin(fields[1..], sep);
      assert Split([sep] + tail, sep) == [""] + Split(tail, sep) by {
        assert ([sep] + tail)[1..] == tail;
      }
      assert fields[0] + [sep] + tail == fields[0] + ([sep] + tail);
      SplitPrepend(fields[0], [sep] + tail, sep);
      assert fields[0] + "" == fields[0];
    }
  }
}
