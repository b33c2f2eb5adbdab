/**
 * The two conversions between numbers and text the core relies on:
 * template-literal rendering of a non-negative integer (`${n}`) and the
 * subset of `parseInt` (section 19.2.5 of ECMA-262) that flash offsets use.
 */
module JsNumbers {
  import opened Wrappers

  /** A JavaScript number as `parseInt` can produce it: `NaN` or an integer. */
  datatype JsNumber = NaN | Finite(value: int)

  /** Whether `c` is a digit in base `radix` (10 or 16, either letter case). */
  predicate IsDigit(c: char, radix: nat)
  {
    ('0' <= c <= '9') || (radix == 16 && (('a' <= c <= 'f') || ('A' <= c <= 'F')))
  }

  function DigitValue(c: char, radix: nat): (d: nat)
    requires IsDigit(c, radix)
    ensures d < if radix == 16 then 16 else 10
  {
    if '0' <= c <= '9' then c as int - '0' as int
    else if 'a' <= c <= 'f' then c as int - 'a' as int + 10
    else c as int - 'A' as int + 10
  }

  /** The lower-case digit character for `d`. */
  function DigitChar(d: nat): (c: char)
    requires d < 16
    ensures IsDigit(c, 16) && DigitValue(c, 16) == d
    ensures d < 10 ==> IsDigit(c, 10) && DigitValue(c, 10) == d
  {
    if d < 10 then ('0' as int + d) as char else ('a' as int + d - 10) as char
  }

  predicate AllDigits(s: string, radix: nat)
  {
    forall i :: 0 <= i < |s| ==> IsDigit(s[i], radix)
  }

  /** Value of a digit string, most significant digit first. */
  function DigitsValue(s: string, radix: nat): nat
    requires AllDigits(s, radix)
  {
    if s == [] then 0
    else DigitsValue(s[..|s| - 1], radix) * radix + DigitValue(s[|s| - 1], radix)
  }

  /** Rendering of `n` in base `radix`, without leading zeros. */
  function ToRadix(n: nat, radix: nat): (s: string)
    requires radix == 10 || radix == 16
    ensures |s| >= 1 && AllDigits(s, radix)
    ensures |s| > 1 ==> s[0] != '0'
    decreases n
  {
    if n < radix then [DigitChar(n)]
    else ToRadix(n / radix, radix) + [DigitChar(n % radix)]
  }

  /** `${n}` for a non-negative integer. */
  function DecimalString(n: nat): (s: string)
    ensures |s| >= 1 && AllDigits(s, 10)
    ensures |s| > 1 ==> s[0] != '0'
  {
    ToRadix(n, 10)
  }

  /** The longest prefix of `s` made of digits in base `radix`. */
  function DigitPrefix(s: string, radix: nat): (p: string)
    ensures |p| <= |s| && p == s[..|p|]
    ensures AllDigits(p, radix)
    ensures |p| < |s| ==> !IsDigit(s[|p|], radix)
  {
    if s == [] || !IsDigit(s[0], radix) then ""
    else [s[0]] + DigitPrefix(s[1..], radix)
  }

  /** Whether `u` starts with the `0x`/`0X` prefix that selects base 16. */
  predicate HexPrefixed(u: string)
  {
    |u| >= 2 && u[0] == '0' && (u[1] == 'x' || u[1] == 'X')
  }

  /** `parseInt` after the sign: the value of the leading digits, or none when there are none. */
  function ParseUnsigned(u: string): Option<nat>
  {
    var radix := if HexPrefixed(u) then 16 else 10;
    var digits := DigitPrefix(if HexPrefixed(u) then u[2..] else u, radix);
    if digits == [] then None else Some(DigitsValue(digits, radix))
  }

  /**
   * `parseInt(s)` with no radix argument: an optional sign, then an optional
   * `0x`/`0X` prefix selecting base 16, then the longest run of digits;
   * no digits at all gives `NaN`.
   */
  function ParseInt(s: string): (r: JsNumber)
    ensures r.Finite? && r.value < 0 ==> |s| > 0 && s[0] == '-'
    ensures |s| > 0 && s[0] == '-' && r.Finite? ==> r.value <= 0
  {
    var signed := |s| > 0 && (s[0] == '-' || s[0] == '+');
    match ParseUnsigned(if signed then s[1..] else s)
    case None => NaN
    case Some(v) => if |s| > 0 && s[0] == '-' then Finite(-(v as int)) else Finite(v)
  }

  lemma {:induction false} DigitPrefixOfDigits(s: string, radix: nat)
    requires AllDigits(s, radix)
    ensures DigitPrefix(s, radix) == s
  {
    if s != [] {
      DigitPrefixOfDigits(s[1..], radix);
    }
  }

  lemma {:induction false} ToRadixValue(n: nat, radix: nat)
    requires radix == 10 || radix == 16
    ensures DigitsValue(ToRadix(n, radix), radix) == n
    decreases n
  {
    var s := ToRadix(n, radix);
    if n >= radix {
      ToRadixValue(n / radix, radix);
      assert s[..|s| - 1] == ToRadix(n / radix, radix);
    }
  }

  /** `parseInt` reads back what `${n}` renders. */
  lemma ParseIntDecimal(n: nat)
    ensures ParseInt(DecimalString(n)) == Finite(n)
  {
    var s := DecimalString(n);
    assert IsDigit(s[0], 10);
    assert !HexPrefixed(s);
    DigitPrefixOfDigits(s, 10);
    ToRadixValue(n, 10);
    assert ParseUnsigned(s) == Some(n);
  }

  /** After the sign, a `0x` prefix and hexadecimal digits give the digits' value. */
  lemma ParseUnsignedPrefixed(h: string)
    requires |h| > 0 && AllDigits(h, 16)
    ensures ParseUnsigned("0x" + h) == Some(DigitsValue(h, 16))
  {
    var u := "0x" + h;
    assert u[0] == '0' && u[1] == 'x' && u[2..] == h;
    assert HexPrefixed(u);
    DigitPrefixOfDigits(h, 16);
  }

  /** A `0x`-prefixed run of hexadecimal digits parses to its value. */
  lemma ParseIntPrefixed(h: string)
    requires |h| > 0 && AllDigits(h, 16)
    ensures ParseInt("0x" + h) == Finite(DigitsValue(h, 16))
  {
    var s := "0x" + h;
    assert s[0] == '0';
    ParseUnsignedPrefixed(h);
  }

  /** `parseInt` reads back a `0x`-prefixed hexadecimal rendering, such as a flash offset. */
  lemma ParseIntHex(n: nat)
    ensures ParseInt("0x" + ToRadix(n, 16)) == Finite(n)
  {
    ParseIntPrefixed(ToRadix(n, 16));
    ToRadixValue(n, 16);
  }

  /** A string with no digit after its optional sign and prefix is `NaN`. */
  lemma ParseIntNaN()
    ensures ParseInt("") == NaN && ParseInt("0x") == NaN && ParseInt("-") == NaN && ParseInt("offset") == NaN
  {
    assert "0x"[2..] == "";
    assert "-"[1..] == "";
  }

  /** Offsets as build manifests write them. */
  lemma ParseIntOffsets()
    ensures ParseInt("0x1000") == Finite(0x1000)
    ensures ParseInt("0x10000") == Finite(0x10000)
  {
    ParseIntPrefixed("1000");
    assert DigitsValue("1000", 16) == 0x1000 by {
      assert "1000"[..3] == "100" && "100"[..2] == "10" && "10"[..1] == "1" && "1"[..0] == "";
    }
    ParseIntPrefixed("10000");
    assert DigitsValue("10000", 16) == 0x10000 by {
      assert "10000"[..4] == "1000";
    }
  }

  /** A sign and an upper-case prefix are accepted. */
  lemma ParseIntSignAndPrefix()
    ensures ParseInt("0X1f") == Finite(31)
    ensures ParseInt("-0x10") == Finite(-16)
  {
    var upper := "0X1f";
    assert HexPrefixed(upper) && upper[2..] == "1f";
    assert DigitPrefix("1f", 16) == "1f";
    assert DigitsValue("1f", 16) == DigitsValue("1", 16) * 16 + 15;
    var negative := "-0x10";
    assert negative[1..] == "0x" + "10";
    ParseUnsignedPrefixed("10");
    assert DigitsValue("10", 16) == DigitsValue("1", 16) * 16;
  }

  /** Digits stop at the first character that is not one. */
  lemma ParseIntStopsAtNonDigit()
    ensures ParseInt("12ab") == Finite(12)
  {
    assert !HexPrefixed("12ab");
    assert DigitPrefix("12ab", 10) == "12";
    assert DigitsValue("12", 10) == DigitsValue("1", 10) * 10 + 2;
  }
}
