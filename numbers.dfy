/** Integer <-> string conversions the dashboard uses: `Number.prototype.toString` for integers
    (ids in selection keys, the status in error messages) and `parseInt` without a radix
    (the number field of the add-link form). */
module Numbers {
  import opened Common
  import Strings

  predicate IsDecimalDigit(c: char)
  {
    '0' <= c <= '9'
  }

  predicate IsHexDigit(c: char)
  {
    IsDecimalDigit(c) || ('a' <= c <= 'f') || ('A' <= c <= 'F')
  }

  /** A digit of the given base (10 or 16, the two bases `parseInt` picks without a radix). */
  predicate IsDigitIn(hex: bool, c: char)
  {
    if hex then IsHexDigit(c) else IsDecimalDigit(c)
  }

  predicate AllDigitsIn(hex: bool, s: string)
  {
    forall i :: 0 <= i < |s| ==> IsDigitIn(hex, s[i])
  }

  function DigitValue(c: char): (v: nat)
    requires IsHexDigit(c)
    ensures v < 16
    ensures IsDecimalDigit(c) ==> v < 10
  {
    if IsDecimalDigit(c) then c as int - '0' as int
    else if 'a' <= c <= 'f' then c as int - 'a' as int + 10
    else c as int - 'A' as int + 10
  }

  function DigitChar(d: nat): (c: char)
    requires d < 10
    ensures IsDecimalDigit(c) && DigitValue(c) == d
  {
    ('0' as int + d) as char
  }

  /** The value of a digit string, most significant digit first. */
  function DigitsValue(hex: bool, s: string): nat
    requires AllDigitsIn(hex, s)
  {
    if s == [] then 0
    else DigitsValue(hex, s[..|s| - 1]) * (if hex then 16 else 10) + DigitValue(s[|s| - 1])
  }

  /** The decimal numeral of `n`: digits only, no leading zero, and its value is `n`. */
  function NatString(n: nat): (r: string)
    ensures |r| >= 1
    ensures AllDigitsIn(false, r)
    ensures |r| > 1 ==> r[0] != '0'
    ensures DigitsValue(false, r) == n
  {
    if n < 10 then [DigitChar(n)]
    else
      var r := NatString(n / 10) + [DigitChar(n % 10)];
      assert r[..|r| - 1] == NatString(n / 10);
      r
  }

  /** `String(n)` for an integer `n`. */
  function IntString(n: int): (r: string)
    ensures |r| >= 1
    ensures n < 0 ==> r[0] == '-' && r[1..] == NatString(-n)
    ensures n >= 0 ==> r == NatString(n)
  {
    if n < 0 then "-" + NatString(-n) else NatString(n)
  }

  /** The longest prefix of `s` made of digits of the base. */
  function DigitPrefix(hex: bool, s: string): (r: string)
    ensures r <= s && AllDigitsIn(hex, r)
    ensures |r| < |s| ==> !IsDigitIn(hex, s[|r|])
  {
    if s != [] && IsDigitIn(hex, s[0]) then [s[0]] + DigitPrefix(hex, s[1..]) else []
  }

  /** The digits after the sign: a `0x`/`0X` prefix selects base 16, and the longest run of
      digits of the base is read. None stands for NaN (no digit at all). */
  function ParseMagnitude(u: string): (r: Option<nat>)
  {
    var hex := |u| >= 2 && u[0] == '0' && (u[1] == 'x' || u[1] == 'X');
    var digits := DigitPrefix(hex, if hex then u[2..] else u);
    if digits == [] then None else Some(DigitsValue(hex, digits))
  }

  /** `parseInt(s)` with no radix, for integer results: leading white space is skipped, one
      sign is read, then the magnitude. None stands for NaN. */
  function ParseInt(s: string): (r: Option<int>)
  {
    var t := Strings.TrimStart(s);
    var negative := t != [] && t[0] == '-';
    var u := if t != [] && (t[0] == '-' || t[0] == '+') then t[1..] else t;
    match ParseMagnitude(u)
    case None => None
    case Some(v) => var i: int := v; Some(if negative then -i else i)
  }

  /** `parseInt(s) || 0`: NaN (and zero) become 0. */
  function ParseIntOrZero(s: string): int
  {
    match ParseInt(s)
    case None => 0
    case Some(v) => v
  }

  /** The longest digit prefix of a digit string is the whole string. */
  lemma {:induction false} DigitPrefixOfDigits(hex: bool, s: string)
    requires AllDigitsIn(hex, s)
    ensures DigitPrefix(hex, s) == s
  {
    if s != [] {
      DigitPrefixOfDigits(hex, s[1..]);
    }
  }

  /** The magnitude of a decimal numeral is its value. */
  lemma ParseMagnitudeOfNatString(m: nat)
    ensures ParseMagnitude(NatString(m)) == Some(m)
  {
    var u := NatString(m);
    assert !(|u| >= 2 && u[0] == '0');
    DigitPrefixOfDigits(false, u);
  }

  /** `parseInt(String(n))` is `n` for every integer `n`. */
  lemma ParseIntOfIntString(n: int)
    ensures ParseInt(IntString(n)) == Some(n)
    ensures ParseIntOrZero(IntString(n)) == n
  {
    var s := IntString(n);
    var m: nat := if n < 0 then -n else n;
    assert !Strings.IsSpace(s[0]) by {
      assert s[0] == '-' || IsDecimalDigit(s[0]);
    }
    Strings.TrimStartOfNonSpace(s);
    ParseMagnitudeOfNatString(m);
    if n < 0 {
      assert s[1..] == NatString(m);
    } else {
      assert s == NatString(m) && s[0] != '-' && s[0] != '+';
    }
  }

  /** Different integers have different decimal numerals. */
  lemma IntStringInjective(a: int, b: int)
    requires IntString(a) == IntString(b)
    ensures a == b
  {
    ParseIntOfIntString(a);
    ParseIntOfIntString(b);
  }

  /** Text without any decimal digit has no magnitude. */
  lemma MagnitudeWithoutDigits(u: string)
    requires forall i :: 0 <= i < |u| ==> !IsDecimalDigit(u[i])
    ensures ParseMagnitude(u) == None
  {
    if u != [] {
      assert !IsDecimalDigit(u[0]);
    }
  }

  /** A string without any decimal digit parses to NaN, so `parseInt(s) || 0` is 0. */
  lemma ParseIntWithoutDigits(s: string)
    requires forall i :: 0 <= i < |s| ==> !IsDecimalDigit(s[i])
    ensures ParseInt(s) == None
    ensures ParseIntOrZero(s) == 0
  {
    var t := Strings.TrimStart(s);
    var u := if t != [] && (t[0] == '-' || t[0] == '+') then t[1..] else t;
    assert u == s[|s| - |u|..];
    forall i | 0 <= i < |u| ensures !IsDecimalDigit(u[i]) {
      assert u[i] == s[|s| - |u| + i];
    }
    MagnitudeWithoutDigits(u);
  }
}
