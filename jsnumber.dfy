/** The two integer conversions of the storefront: the global `parseInt`
    called without a radix (the add-account form's hero and skin counts) and
    the decimal text React renders for an integer (the listing card's counts).
    Numbers are mathematical integers here; the rounding of a double is not
    modelled. */
module JsNumber {
  import opened JsString

  /** The result of `parseInt`: an integer, or NaN when no digit was found. */
  datatype ParsedInt = Int(value: int) | NaN

  /** The value of a character as a digit of radix up to 36 (`0`-`9`, then
      `a`-`z` and `A`-`Z` from 10); 36 for every other character. */
  function DigitValue(c: char): (d: nat)
    ensures d <= 36
    ensures d < 10 <==> '0' <= c <= '9'
  {
    if '0' <= c <= '9' then c as int - '0' as int
    else if 'a' <= c <= 'z' then c as int - 'a' as int + 10
    else if 'A' <= c <= 'Z' then c as int - 'A' as int + 10
    else 36
  }

  /** Length of the longest prefix of `s` made of digits of the radix. */
  function DigitRun(s: string, radix: nat): (k: nat)
    ensures k <= |s|
    ensures forall i :: 0 <= i < k ==> DigitValue(s[i]) < radix
    ensures k == |s| || DigitValue(s[k]) >= radix
    decreases |s|
  {
    if s != [] && DigitValue(s[0]) < radix then 1 + DigitRun(s[1..], radix) else 0
  }

  /** The value of a string of digits in the radix, most significant digit first. */
  function ValueIn(z: string, radix: nat): nat
    requires forall i :: 0 <= i < |z| ==> DigitValue(z[i]) < radix
    decreases |z|
  {
    if z == [] then 0 else ValueIn(z[..|z| - 1], radix) * radix + DigitValue(z[|z| - 1])
  }

  /** `parseInt(text)` with the radix left undefined: skip leading white
      space, read an optional sign, then read the magnitude. */
  function ParseInt(text: string): (r: ParsedInt)
    ensures TrimStart(text) == [] ==> r.NaN?
    ensures r.Int? && r.value < 0 ==> TrimStart(text) != [] && TrimStart(text)[0] == '-'
  {
    var s := TrimStart(text);
    if s != [] && s[0] == '-' then Negate(ParseMagnitude(s[1..]))
    else if s != [] && s[0] == '+' then ParseMagnitude(s[1..])
    else ParseMagnitude(s)
  }

  /** The magnitude part of `parseInt`: radix 16 after a `0x` or `0X`
      prefix, radix 10 otherwise; the longest run of digits counts and the
      rest is ignored; no digit at all gives NaN. */
  function ParseMagnitude(u: string): (r: ParsedInt)
    ensures r.Int? ==> r.value >= 0
  {
    var hex := |u| >= 2 && u[0] == '0' && (u[1] == 'x' || u[1] == 'X');
    var radix := if hex then 16 else 10;
    var body := if hex then u[2..] else u;
    var k := DigitRun(body, radix);
    if k == 0 then NaN else Int(ValueIn(body[..k], radix))
  }

  /** The sign applied by `parseInt` to what follows a `-`. */
  function Negate(p: ParsedInt): ParsedInt {
    match p
    case Int(v) => Int(-v)
    case NaN => NaN
  }

  /** The decimal digits of a natural number, without leading zeros. */
  function NatDigits(n: nat): (r: string)
    ensures |r| >= 1
    ensures forall i :: 0 <= i < |r| ==> '0' <= r[i] <= '9'
    ensures r[0] == '0' ==> n == 0
    decreases n
  {
    if n < 10 then [('0' as int + n) as char]
    else NatDigits(n / 10) + [('0' as int + n % 10) as char]
  }

  /** `String(n)` for an integer: its decimal digits, after `-` when negative. */
  function IntToString(n: int): (r: string)
    ensures |r| >= 1
    ensures r[0] == '-' <==> n < 0
    ensures '0' <= r[|r| - 1] <= '9'
  {
    if n < 0 then "-" + NatDigits(-n) else NatDigits(n)
  }

  /** Reading the digits of `n` back in radix 10 gives `n`. */
  lemma {:induction false} NatDigitsValue(n: nat)
    ensures ValueIn(NatDigits(n), 10) == n
    decreases n
  {
    var r := NatDigits(n);
    if n >= 10 {
      NatDigitsValue(n / 10);
      assert r[..|r| - 1] == NatDigits(n / 10);
    }
  }

  /** The magnitude of a decimal text followed by a non-digit is the
      number the digits spell, unless the text is `0` and an `x` or `X`
      follows. */
  lemma ParseMagnitudeOfDigits(m: nat, rest: string)
    requires rest == [] || (DigitValue(rest[0]) >= 10 && (m == 0 ==> rest[0] != 'x' && rest[0] != 'X'))
    ensures ParseMagnitude(NatDigits(m) + rest) == Int(m)
  {
    var digits := NatDigits(m);
    var u := digits + rest;
    assert !(|u| >= 2 && u[0] == '0' && (u[1] == 'x' || u[1] == 'X')) by {
      if |u| >= 2 && u[0] == '0' {
        assert m == 0 && |digits| == 1;
        assert u[1] == rest[0];
      }
    }
    DigitRunOfDigits(digits, rest);
    assert u[..|digits|] == digits;
    NatDigitsValue(m);
  }

  /** `parseInt` reads back the integer whose decimal text starts its input,
      whatever follows that does not start with a digit, except that after
      a lone `0` an `x` or `X` starts a hexadecimal prefix (so `"12.5"`,
      `"3e2"` and `"12x"` read as 12, 3 and 12). */
  lemma ParseIntAfterDigits(n: int, rest: string)
    requires rest == [] || (DigitValue(rest[0]) >= 10 && (n == 0 ==> rest[0] != 'x' && rest[0] != 'X'))
    ensures ParseInt(IntToString(n) + rest) == Int(n)
  {
    if n < 0 {
      var m: nat := -n;
      assert IntToString(n) + rest == ['-'] + (NatDigits(m) + rest);
      ParseNegativeAfterDigits(m, rest);
    } else {
      ParseNaturalAfterDigits(n, rest);
    }
  }

  /** The negative case of `ParseIntAfterDigits`, for the magnitude `m`. */
  lemma ParseNegativeAfterDigits(m: nat, rest: string)
    requires rest == [] || (DigitValue(rest[0]) >= 10 && (m == 0 ==> rest[0] != 'x' && rest[0] != 'X'))
    ensures ParseInt(['-'] + (NatDigits(m) + rest)) == Int(-(m as int))
  {
    var u := NatDigits(m) + rest;
    ParseIntSigned(u);
    ParseMagnitudeOfDigits(m, rest);
  }

  /** The non-negative case of `ParseIntAfterDigits`. */
  lemma ParseNaturalAfterDigits(n: nat, rest: string)
    requires rest == [] || (DigitValue(rest[0]) >= 10 && (n == 0 ==> rest[0] != 'x' && rest[0] != 'X'))
    ensures ParseInt(NatDigits(n) + rest) == Int(n)
  {
    var text := NatDigits(n) + rest;
    assert text[0] == NatDigits(n)[0];
    ParseIntUnsigned(text);
    ParseMagnitudeOfDigits(n, rest);
  }

  /** `parseInt` of a `-` followed by a magnitude. */
  lemma ParseIntSigned(u: string)
    ensures ParseInt(['-'] + u) == Negate(ParseMagnitude(u))
  {
    TrimStartKeeps(['-'] + u);
    assert (['-'] + u)[1..] == u;
  }

  /** `parseInt` of a text starting with a decimal digit is its magnitude. */
  lemma ParseIntUnsigned(s: string)
    requires s != [] && '0' <= s[0] <= '9'
    ensures ParseInt(s) == ParseMagnitude(s)
  {
    TrimStartKeeps(s);
  }

  /** The digit run of decimal digits followed by a non-digit ends at the non-digit. */
  lemma {:induction false} DigitRunOfDigits(digits: string, rest: string)
    requires forall i :: 0 <= i < |digits| ==> '0' <= digits[i] <= '9'
    requires rest == [] || DigitValue(rest[0]) >= 10
    ensures DigitRun(digits + rest, 10) == |digits|
    decreases |digits|
  {
    if digits != [] {
      DigitRunOfDigits(digits[1..], rest);
      assert (digits + rest)[1..] == digits[1..] + rest;
    } else {
      assert digits + rest == rest;
    }
  }

  /** `parseInt(String(n)) == n` for every integer `n`. */
  lemma ParseIntToString(n: int)
    ensures ParseInt(IntToString(n)) == Int(n)
  {
    ParseIntAfterDigits(n, []);
    assert IntToString(n) + [] == IntToString(n);
  }
}
