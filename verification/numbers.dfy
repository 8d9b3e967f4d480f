/** JavaScript's `parseInt(s)` without a radix argument, as the forms use it
    to read stock and quantity fields: leading whitespace is skipped, one sign
    is read, a `0x`/`0X` prefix switches to hexadecimal, and the longest run of
    digits that follows is the value; no digit at all gives NaN, modelled as
    `None`. */
module Numbers {
  import opened Wrappers
  import opened Text

  /** A digit in base 10 or base 16 (either case). */
  predicate IsRadixDigit(c: char, hex: bool) {
    IsDigit(c) || (hex && ('a' <= c <= 'f' || 'A' <= c <= 'F'))
  }

  function RadixDigitValue(c: char, hex: bool): (v: nat)
    requires IsRadixDigit(c, hex)
    ensures v < (if hex then 16 else 10)
  {
    if IsDigit(c) then DigitValue(c)
    else if 'a' <= c <= 'f' then c as int - 'a' as int + 10
    else c as int - 'A' as int + 10
  }

  /** The longest prefix of `s` made of digits. */
  function LeadingDigits(s: string, hex: bool): (d: string)
    ensures |d| <= |s| && d == s[..|d|]
    ensures forall i :: 0 <= i < |d| ==> IsRadixDigit(d[i], hex)
    ensures |d| < |s| ==> !IsRadixDigit(s[|d|], hex)
  {
    if s == [] || !IsRadixDigit(s[0], hex) then []
    else [s[0]] + LeadingDigits(s[1..], hex)
  }

  /** The number a run of digits denotes. */
  function RadixValue(s: string, hex: bool): nat
    requires forall i :: 0 <= i < |s| ==> IsRadixDigit(s[i], hex)
  {
    if s == [] then 0
    else RadixValue(s[..|s| - 1], hex) * (if hex then 16 else 10) + RadixDigitValue(s[|s| - 1], hex)
  }

  /** In base 10 this is the ordinary decimal reading. */
  lemma {:induction false} DecimalValue(s: string)
    requires forall i :: 0 <= i < |s| ==> IsDigit(s[i])
    ensures RadixValue(s, false) == DigitsValue(s)
  {
    if s != [] {
      DecimalValue(s[..|s| - 1]);
    }
  }

  /** The unsigned part: an optional `0x` prefix, then the longest digit run. */
  function ParseMagnitude(u: string): (r: Option<nat>)
    ensures u == [] ==> r.None?
  {
    var hex := |u| >= 2 && u[0] == '0' && (u[1] == 'x' || u[1] == 'X');
    var body := if hex then u[2..] else u;
    var d := LeadingDigits(body, hex);
    if d == [] then None else Some(RadixValue(d, hex))
  }

  /** `parseInt(s)`: `None` stands for NaN. */
  function ParseInt(s: string): (r: Option<int>)
    ensures TrimStart(s) == [] ==> r.None?
    ensures r.Some? && r.value < 0 ==> TrimStart(s)[0] == '-'
  {
    var t := TrimStart(s);
    if t != [] && (t[0] == '-' || t[0] == '+') then
      match ParseMagnitude(t[1..])
      case None => None
      case Some(v) =>
        var x: int := if t[0] == '-' then -(v as int) else v;
        Some(x)
    else
      match ParseMagnitude(t)
      case None => None
      case Some(v) => Some(v)
  }

  /** `parseInt(s) || 0`: NaN (and zero) read as zero. */
  function ParseIntOrZero(s: string): (n: int)
    ensures ParseInt(s).None? ==> n == 0
    ensures ParseInt(s).Some? ==> n == ParseInt(s).value
  {
    match ParseInt(s)
    case None => 0
    case Some(v) => v
  }

  /** The decimal spelling of an integer, alone, reads back as that integer. */
  lemma ParseIntOfString(i: int)
    ensures ParseInt(IntToString(i)) == Some(i)
  {
    ParseIntRoundTrip(i, []);
    assert IntToString(i) + [] == IntToString(i);
  }

  /** The decimal spelling of an integer reads back as that integer, also
      when followed by text that does not continue the number. */
  lemma ParseIntRoundTrip(i: int, rest: string)
    requires rest == [] || (!IsDigit(rest[0]) && rest[0] != 'x' && rest[0] != 'X')
    ensures ParseInt(IntToString(i) + rest) == Some(i)
  {
    if i < 0 {
      var n: nat := -i;
      var spelled := IntToString(i);
      assert spelled == "-" + NatToString(n);
      assert spelled + rest == ['-'] + (NatToString(n) + rest);
      ParseNegative(n, rest);
    } else {
      assert IntToString(i) == NatToString(i);
      ParseNonNegative(i, rest);
    }
  }

  lemma ParseNonNegative(n: nat, rest: string)
    requires rest == [] || (!IsDigit(rest[0]) && rest[0] != 'x' && rest[0] != 'X')
    ensures ParseInt(NatToString(n) + rest) == Some(n)
  {
    var s := NatToString(n) + rest;
    assert IsDigit(s[0]);
    MagnitudeOfDecimal(n, rest);
    ParseUnsigned(s, n);
  }

  /** Text that starts with a digit is read as its magnitude. */
  lemma ParseUnsigned(s: string, v: nat)
    requires s != [] && IsDigit(s[0]) && ParseMagnitude(s) == Some(v)
    ensures ParseInt(s) == Some(v)
  {
    NoLeadingSpace(s);
  }

  lemma ParseNegative(n: nat, rest: string)
    requires rest == [] || (!IsDigit(rest[0]) && rest[0] != 'x' && rest[0] != 'X')
    ensures ParseInt(['-'] + (NatToString(n) + rest)) == Some(-(n as int))
  {
    var s := ['-'] + (NatToString(n) + rest);
    assert s[1..] == NatToString(n) + rest;
    MagnitudeOfDecimal(n, rest);
    ParseMinus(s, n);
  }

  /** Text that starts with `-` is read as the negated magnitude after it. */
  lemma ParseMinus(s: string, v: nat)
    requires s != [] && s[0] == '-' && ParseMagnitude(s[1..]) == Some(v)
    ensures ParseInt(s) == Some(-(v as int))
  {
    NoLeadingSpace(s);
  }

  lemma NoLeadingSpace(s: string)
    requires s != [] && (s[0] == '-' || IsDigit(s[0]))
    ensures TrimStart(s) == s
  {
  }

  /** The decimal digits of `n`, followed by text that does not continue
      them, read as `n`. */
  lemma MagnitudeOfDecimal(n: nat, rest: string)
    requires rest == [] || (!IsDigit(rest[0]) && rest[0] != 'x' && rest[0] != 'X')
    ensures ParseMagnitude(NatToString(n) + rest) == Some(n)
  {
    var digits := NatToString(n);
    var u := digits + rest;
    assert !(|u| >= 2 && u[0] == '0' && (u[1] == 'x' || u[1] == 'X')) by {
      if |digits| == 1 {
        assert |u| >= 2 ==> u[1] == rest[0];
      } else {
        assert u[0] == digits[0];
      }
    }
    LeadingDigitsOfDigits(digits, rest, false);
    DecimalValue(digits);
    NatToStringRoundTrip(n);
  }

  /** A digit run followed by a non-digit is read exactly. */
  lemma {:induction false} LeadingDigitsOfDigits(d: string, rest: string, hex: bool)
    requires forall i :: 0 <= i < |d| ==> IsDigit(d[i])
    requires rest == [] || !IsRadixDigit(rest[0], hex)
    ensures LeadingDigits(d + rest, hex) == d
  {
    if d != [] {
      assert (d + rest)[1..] == d[1..] + rest;
      LeadingDigitsOfDigits(d[1..], rest, hex);
    } else {
      assert d + rest == rest;
    }
  }

  /** Text that does not start (after whitespace and a sign) with a digit is NaN. */
  lemma NoDigitIsNaN(s: string)
    requires var t := TrimStart(s);
      var u := if t != [] && (t[0] == '-' || t[0] == '+') then t[1..] else t;
      u == [] || !IsDigit(u[0])
    ensures ParseInt(s).None?
    ensures ParseIntOrZero(s) == 0
  {
  }
}
