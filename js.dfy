/** The few JavaScript built-ins that the banner's decision logic relies on:
    `undefined` as an option, the `\s` character class and `parseInt`. */
module Js {

  /** A value that may be `undefined` (None). */
  datatype Option<+T> = None | Some(value: T) {
    function GetOr(default: T): T {
      match this
      case Some(v) => v
      case None => default
    }
  }

  /** The code points of the `\s` class of JavaScript regular expressions
      (WhiteSpace and LineTerminator); `parseInt` trims the same set. */
  predicate IsSpace(c: char) {
    var n := c as int;
    n == 0x09 || n == 0x0A || n == 0x0B || n == 0x0C || n == 0x0D || n == 0x20
    || n == 0xA0 || n == 0x1680 || (0x2000 <= n <= 0x200A) || n == 0x2028
    || n == 0x2029 || n == 0x202F || n == 0x205F || n == 0x3000 || n == 0xFEFF
  }

  /** String conversion of a dictionary lookup: a missing key reads as `undefined`. */
  function Show(m: map<string, string>, k: string): string {
    if k in m then m[k] else "undefined"
  }

  predicate IsDecDigit(c: char) { '0' <= c <= '9' }

  predicate IsHexDigit(c: char) { IsDecDigit(c) || 'a' <= c <= 'f' || 'A' <= c <= 'F' }

  predicate IsDigitOf(c: char, hex: bool) { if hex then IsHexDigit(c) else IsDecDigit(c) }

  function DigitValue(c: char): (v: nat)
    requires IsHexDigit(c)
    ensures v < 16
    ensures IsDecDigit(c) ==> v < 10
  {
    if IsDecDigit(c) then c as int - '0' as int
    else if 'a' <= c <= 'f' then c as int - 'a' as int + 10
    else c as int - 'A' as int + 10
  }

  /** `s` without its leading white space. */
  function TrimStart(s: string): (r: string)
    ensures |r| <= |s| && r == s[|s| - |r|..]
    ensures |r| > 0 ==> !IsSpace(r[0])
    ensures forall k :: 0 <= k < |s| - |r| ==> IsSpace(s[k])
  {
    if |s| > 0 && IsSpace(s[0]) then TrimStart(s[1..]) else s
  }

  /** The longest prefix of `s` made of digits of the radix (16 when `hex`, else 10). */
  function DigitRun(s: string, hex: bool): (r: string)
    ensures |r| <= |s| && r == s[..|r|]
    ensures forall k :: 0 <= k < |r| ==> IsDigitOf(r[k], hex)
    ensures |r| < |s| ==> !IsDigitOf(s[|r|], hex)
  {
    if |s| > 0 && IsDigitOf(s[0], hex) then [s[0]] + DigitRun(s[1..], hex) else ""
  }

  /** The number that a string of digits denotes in the radix. */
  function Value(d: string, hex: bool): nat
    requires forall k :: 0 <= k < |d| ==> IsDigitOf(d[k], hex)
  {
    if d == [] then 0
    else
      assert IsDigitOf(d[|d| - 1], hex);
      Value(d[..|d| - 1], hex) * (if hex then 16 else 10) + DigitValue(d[|d| - 1])
  }

  /** The digits `parseInt` reads after the sign: radix 16 behind a `0x`/`0X`
      prefix, else radix 10; None when no digit follows. */
  function Unsigned(u: string): Option<nat> {
    var hex := |u| >= 2 && u[0] == '0' && (u[1] == 'x' || u[1] == 'X');
    var z := DigitRun(if hex then u[2..] else u, hex);
    if z == [] then None else Some(Value(z, hex))
  }

  /** `parseInt(s)` without a radix argument; None stands for NaN. Leading white
      space is skipped, one sign is taken, and the digits that follow are read. */
  function ParseInt(s: string): Option<int> {
    var t := TrimStart(s);
    var negative := |t| > 0 && t[0] == '-';
    var u := if |t| > 0 && (t[0] == '-' || t[0] == '+') then t[1..] else t;
    match Unsigned(u)
    case None => None
    case Some(n) => Some(if negative then 0 - n else n)
  }

  /** A run of decimal digits is read whole, whatever non-digit follows it. */
  lemma {:induction false} DigitRunOfDigits(d: string, rest: string, hex: bool)
    requires forall k :: 0 <= k < |d| ==> IsDigitOf(d[k], hex)
    requires |rest| > 0 ==> !IsDigitOf(rest[0], hex)
    ensures DigitRun(d + rest, hex) == d
  {
    if d == [] {
      assert d + rest == rest;
    } else {
      assert (d + rest)[1..] == d[1..] + rest;
      DigitRunOfDigits(d[1..], rest, hex);
    }
  }

  /** Decimal digits followed by a non-digit are read as one decimal number. */
  lemma UnsignedDecimal(d: string, rest: string)
    requires |d| > 0 && forall k :: 0 <= k < |d| ==> IsDecDigit(d[k])
    requires |rest| > 0 ==> !IsDecDigit(rest[0])
    requires !(d == "0" && |rest| > 0 && (rest[0] == 'x' || rest[0] == 'X'))
    ensures Unsigned(d + rest) == Some(Value(d, false))
  {
    var s := d + rest;
    var hex := |s| >= 2 && s[0] == '0' && (s[1] == 'x' || s[1] == 'X');
    assert !hex by {
      assert s[0] == d[0];
      if |s| >= 2 && s[0] == '0' {
        if |d| >= 2 {
          assert s[1] == d[1] && IsDecDigit(d[1]);
        } else {
          assert d == "0" && s[1] == rest[0];
        }
      }
    }
    DigitRunOfDigits(d, rest, false);
    assert DigitRun(s, false) == d;
  }

  /** A version string such as "7.0.1" parses to its leading decimal number. */
  lemma ParseIntLeadingDigits(d: string, rest: string)
    requires |d| > 0 && forall k :: 0 <= k < |d| ==> IsDecDigit(d[k])
    requires |rest| > 0 ==> !IsDecDigit(rest[0])
    requires !(d == "0" && |rest| > 0 && (rest[0] == 'x' || rest[0] == 'X'))
    ensures ParseInt(d + rest) == Some(Value(d, false) as int)
  {
    var s := d + rest;
    assert Unsigned(s) == Some(Value(d, false)) by {
      UnsignedDecimal(d, rest);
    }
    assert |s| > 0 && !IsSpace(s[0]) && s[0] != '-' && s[0] != '+' by {
      assert s[0] == d[0] && IsDecDigit(d[0]);
    }
    ParseIntUnsigned(s);
  }

  /** Without leading white space or sign, `parseInt` reads the digits directly. */
  lemma ParseIntUnsigned(s: string)
    requires |s| > 0 && !IsSpace(s[0]) && s[0] != '-' && s[0] != '+'
    ensures ParseInt(s) == (if Unsigned(s).Some? then Some(Unsigned(s).value as int) else None)
  {
    assert TrimStart(s) == s;
  }

  /** A string whose first non-space character is neither a sign nor a digit is NaN. */
  lemma ParseIntNaN(s: string)
    requires |TrimStart(s)| > 0 ==> !IsDecDigit(TrimStart(s)[0])
    requires |TrimStart(s)| > 0 ==> TrimStart(s)[0] != '-' && TrimStart(s)[0] != '+'
    ensures ParseInt(s) == None
  {
  }

  /** A sign in front of the digits negates (or keeps) the number they denote,
      and a sign with no digit behind it is NaN. */
  lemma ParseIntSigned(sign: char, s: string)
    requires sign == '-' || sign == '+'
    ensures Unsigned(s).None? ==> ParseInt([sign] + s) == None
    ensures Unsigned(s).Some? ==>
              ParseInt([sign] + s) == Some(if sign == '-' then 0 - Unsigned(s).value else Unsigned(s).value)
  {
    var m := [sign] + s;
    assert m[0] == sign && m[1..] == s;
    assert !IsSpace(m[0]);
    assert TrimStart(m) == m;
  }
}
