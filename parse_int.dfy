/**
 * JavaScript's `parseInt(s)` with no radix argument (section 19.2.5 of
 * ECMA-262), which every route applies to its `:id` path segment, and the
 * decimal rendering `${n}` the client uses to build those paths.
 * `None` stands for `NaN`.
 */
module JsNumber {
  import opened Wrappers
  import opened JsString

  /** The value of `c` as a digit in any radix up to 36, or 36 when `c` is no digit at all. */
  function DigitValue(c: char): (v: nat)
    ensures v <= 36
  {
    if '0' <= c <= '9' then c as int - '0' as int
    else if 'a' <= c <= 'z' then c as int - 'a' as int + 10
    else if 'A' <= c <= 'Z' then c as int - 'A' as int + 10
    else 36
  }

  predicate IsDigit(c: char, radix: nat) {
    DigitValue(c) < radix
  }

  /** The longest prefix of `s` made of radix-`radix` digits. */
  function DigitPrefix(s: string, radix: nat): (z: string)
    ensures |z| <= |s| && z == s[..|z|]
    ensures forall i :: 0 <= i < |z| ==> IsDigit(z[i], radix)
    ensures |z| < |s| ==> !IsDigit(s[|z|], radix)
  {
    if s != [] && IsDigit(s[0], radix) then [s[0]] + DigitPrefix(s[1..], radix) else []
  }

  /** The number that the digit string `z` denotes in radix `radix`. */
  function DigitsValue(z: string, radix: nat): nat {
    if z == [] then 0 else DigitsValue(z[..|z| - 1], radix) * radix + DigitValue(z[|z| - 1])
  }

  /** `parseInt(s)` */
  function ParseInt(s: string): (r: Option<int>)
    ensures TrimStart(s) == [] ==> r.None?
    ensures r.Some? ==> var c := TrimStart(s)[0]; c == '-' || c == '+' || IsDigit(c, 10)
    ensures r.Some? && r.value < 0 ==> TrimStart(s)[0] == '-'
  {
    var t := TrimStart(s);
    var u := Unsigned(t);
    var z := DigitPrefix(Unprefixed(u), Radix(u));
    var magnitude: int := DigitsValue(z, Radix(u));
    if z == [] then None
    else if |t| > 0 && t[0] == '-' then Some(-magnitude)
    else Some(magnitude)
  }

  /** The string after one leading `+` or `-`. */
  function Unsigned(t: string): string {
    if |t| > 0 && (t[0] == '-' || t[0] == '+') then t[1..] else t
  }

  predicate HasHexPrefix(u: string) {
    |u| >= 2 && u[0] == '0' && (u[1] == 'x' || u[1] == 'X')
  }

  /** A `0x` or `0X` prefix selects radix 16; otherwise the radix is 10. */
  function Radix(u: string): nat {
    if HasHexPrefix(u) then 16 else 10
  }

  function Unprefixed(u: string): string {
    if HasHexPrefix(u) then u[2..] else u
  }

  /** `${n}` for a natural number: its decimal digits, without leading zeros. */
  function Decimal(n: nat): (s: string)
    ensures |s| > 0
    ensures forall i :: 0 <= i < |s| ==> '0' <= s[i] <= '9'
    ensures |s| > 1 ==> s[0] != '0'
  {
    if n < 10 then [('0' as int + n) as char] else Decimal(n / 10) + [('0' as int + n % 10) as char]
  }

  /** `${n}` for any integer. */
  function IntToString(n: int): string {
    if n < 0 then "-" + Decimal(-n) else Decimal(n)
  }

  lemma {:induction false} DecimalValue(n: nat)
    ensures DigitsValue(Decimal(n), 10) == n
  {
    if n >= 10 {
      DecimalValue(n / 10);
      var s := Decimal(n);
      assert s[..|s| - 1] == Decimal(n / 10);
    }
  }

  /** A string with no characters outside `0`-`9` is its own longest decimal-digit prefix. */
  lemma {:induction false} DigitPrefixOfDigits(s: string)
    requires forall i :: 0 <= i < |s| ==> '0' <= s[i] <= '9'
    ensures DigitPrefix(s, 10) == s
  {
    if s != [] {
      DigitPrefixOfDigits(s[1..]);
    }
  }

  /** `parseInt` on an unsigned, unpadded string without a `0x` prefix reads its decimal prefix. */
  lemma ParseIntUnsigned(s: string)
    requires s != [] && !IsWhitespace(s[0]) && s[0] != '-' && s[0] != '+' && !HasHexPrefix(s)
    ensures var z := DigitPrefix(s, 10);
      ParseInt(s) == if z == [] then None else Some(DigitsValue(z, 10) as int)
  {
    assert TrimStart(s) == s;
    assert Unsigned(s) == s;
  }

  /** `parseInt` on `-` followed by a string without a `0x` prefix negates its decimal prefix. */
  lemma ParseIntNegative(s: string, d: string)
    requires s == "-" + d && !HasHexPrefix(d)
    ensures var z := DigitPrefix(d, 10);
      ParseInt(s) == if z == [] then None else Some(-(DigitsValue(z, 10) as int))
  {
    assert TrimStart(s) == s;
    assert Unsigned(s) == d;
  }

  /** The path segment the client builds from an id parses back to that id. */
  lemma ParseIntRoundTrip(n: int)
    ensures ParseInt(IntToString(n)) == Some(n)
  {
    var m := if n < 0 then -n else n;
    var d := Decimal(m);
    assert !HasHexPrefix(d);
    DigitPrefixOfDigits(d);
    DecimalValue(m);
    if n < 0 {
      ParseIntNegative(IntToString(n), d);
    } else {
      ParseIntUnsigned(d);
    }
  }

  /**
   * `parseInt` reads the longest digit prefix and ignores what follows, so
   * "12abc" is 12. The one exception is a lone "0" followed by "x" or "X",
   * which switches to radix 16.
   */
  lemma ParseIntIgnoresSuffix(n: nat, rest: string)
    requires rest == [] || !('0' <= rest[0] <= '9')
    requires n == 0 && rest != [] ==> rest[0] != 'x' && rest[0] != 'X'
    ensures ParseInt(Decimal(n) + rest) == Some(n)
  {
    var d := Decimal(n);
    var s := d + rest;
    assert s[0] == d[0];
    assert !HasHexPrefix(s) by {
      if |d| == 1 && |s| >= 2 { assert s[1] == rest[0]; }
      else if |s| >= 2 { assert s[1] == d[1]; }
    }
    DigitPrefixOfDigits(d);
    DigitPrefixAppend(d, rest);
    DecimalValue(n);
    ParseIntUnsigned(s);
  }

  /** The digit prefix stops where the digits stop. */
  lemma {:induction false} DigitPrefixAppend(d: string, rest: string)
    requires DigitPrefix(d, 10) == d
    requires rest == [] || !('0' <= rest[0] <= '9')
    ensures DigitPrefix(d + rest, 10) == d
  {
    if d == [] {
      assert d + rest == rest;
    } else {
      assert (d + rest)[1..] == d[1..] + rest;
      assert DigitPrefix(d[1..], 10) == d[1..];
      DigitPrefixAppend(d[1..], rest);
    }
  }

  /** A leading character that is neither white space, a sign nor a digit gives `NaN`. */
  lemma ParseIntNaN(s: string)
    requires s != [] && !IsWhitespace(s[0]) && s[0] != '+' && s[0] != '-' && DigitValue(s[0]) >= 10
    ensures ParseInt(s) == None
  {
  }

  /** "12abc" is 12: the digits before the first letter. */
  lemma ParseIntLetterSuffix()
    ensures ParseInt("12abc") == Some(12)
  {
    assert Decimal(1) == "1";
    assert Decimal(12) == "12";
    assert Decimal(12) + "abc" == "12abc";
    ParseIntIgnoresSuffix(12, "abc");
  }

  /** "0x1A" is 26: a `0x` prefix selects hexadecimal. */
  lemma ParseIntHexPrefix()
    ensures ParseInt("0x1A") == Some(26)
  {
    var h := "0x1A";
    assert TrimStart(h) == h;
    assert Unsigned(h) == h;
    assert HasHexPrefix(h);
    assert Unprefixed(h) == "1A";
    assert DigitPrefix("", 16) == "";
    assert DigitPrefix("A", 16) == "A";
    assert DigitPrefix("1A", 16) == "1A";
    assert "1A"[..1] == "1";
    assert DigitsValue("1", 16) == 1;
    assert DigitsValue("1A", 16) == 26;
  }

  /** " -7" is -7: leading white space is skipped and the sign applies. */
  lemma ParseIntPaddedNegative()
    ensures ParseInt(" -7") == Some(-7)
  {
    var t := " -7"[1..];
    assert t == "-7";
    assert TrimStart(t) == t;
    assert TrimStart(" -7") == t;
    assert t[1..] == "7";
    assert Unsigned(t) == "7";
    assert !HasHexPrefix("7");
    assert Unprefixed("7") == "7" && Radix("7") == 10;
    assert DigitPrefix("", 10) == "";
    assert DigitPrefix("7", 10) == "7";
    assert "7"[..0] == "";
    assert DigitsValue("7", 10) == 7;
  }
}
