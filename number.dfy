/** JavaScript's `parseInt(string)` without a radix argument (ECMAScript
    section 19.2.5, "parseInt ( string, radix )") and `String(n)` for an
    integral number, the two conversions the workflow applies to balances and
    to the purchase count. A result of `None` stands for NaN. */
module JsNumber {
  import opened Js

  predicate IsDecimalDigit(c: char) {
    '0' <= c <= '9'
  }

  predicate IsHexDigit(c: char) {
    IsDecimalDigit(c) || 'a' <= c <= 'f' || 'A' <= c <= 'F'
  }

  /** A text without a single decimal digit. */
  predicate NoDigits(p: string) {
    forall i :: 0 <= i < |p| ==> !IsDecimalDigit(p[i])
  }

  /** A digit of radix 16 or, for every other radix used here, of radix 10. */
  predicate IsDigitIn(c: char, radix: nat) {
    if radix == 16 then IsHexDigit(c) else IsDecimalDigit(c)
  }

  predicate AllDigitsIn(ds: string, radix: nat) {
    forall i :: 0 <= i < |ds| ==> IsDigitIn(ds[i], radix)
  }

  function DigitValue(c: char): (v: nat)
    requires IsHexDigit(c)
    ensures v < 16
    ensures IsDecimalDigit(c) ==> v < 10
  {
    if IsDecimalDigit(c) then c as int - '0' as int
    else if 'a' <= c <= 'f' then c as int - 'a' as int + 10
    else c as int - 'A' as int + 10
  }

  function DigitChar(d: nat): (c: char)
    requires d < 10
    ensures IsDecimalDigit(c) && DigitValue(c) == d
  {
    ('0' as int + d) as char
  }

  /** ECMAScript's WhiteSpace and LineTerminator characters, which `parseInt`
      skips before the number: tab, line tabulation, form feed, the space
      separators of category Zs, the byte order mark, LF, CR, LS and PS. */
  predicate IsJsSpace(c: char) {
    || c == '\t' || c == '\n' || c == '\U{B}' || c == '\U{C}' || c == '\r'
    || c == ' ' || c == '\U{A0}' || c == '\U{1680}'
    || ('\U{2000}' <= c <= '\U{200A}')
    || c == '\U{2028}' || c == '\U{2029}' || c == '\U{202F}' || c == '\U{205F}'
    || c == '\U{3000}' || c == '\U{FEFF}'
  }

  function TrimStart(s: string): (t: string)
    ensures |t| <= |s| && t == s[|s| - |t|..]
    ensures forall i :: 0 <= i < |s| - |t| ==> IsJsSpace(s[i])
    ensures |t| > 0 ==> !IsJsSpace(t[0])
    ensures |s| > 0 && !IsJsSpace(s[0]) ==> t == s
    decreases |s|
  {
    if |s| > 0 && IsJsSpace(s[0]) then
      var t := TrimStart(s[1..]);
      assert forall i :: 1 <= i < |s| - |t| ==> s[i] == s[1..][i - 1];
      t
    else s
  }

  /** The length of the longest prefix of `s` made of digits of `radix`. */
  function DigitRunLength(s: string, radix: nat): (n: nat)
    ensures n <= |s|
    ensures AllDigitsIn(s[..n], radix)
    ensures n < |s| ==> !IsDigitIn(s[n], radix)
    decreases |s|
  {
    if |s| > 0 && IsDigitIn(s[0], radix) then 1 + DigitRunLength(s[1..], radix) else 0
  }

  /** The number the digits `ds` denote in `radix`, most significant first. */
  function ValueIn(ds: string, radix: nat): nat
    requires AllDigitsIn(ds, radix)
    decreases |ds|
  {
    if |ds| == 0 then 0
    else ValueIn(ds[..|ds| - 1], radix) * radix + DigitValue(ds[|ds| - 1])
  }

  /** `parseInt(s)`: skip leading white space, take an optional sign, then
      read the magnitude; no digit at all is NaN. */
  function ParseInt(s: string): Option<int>
  {
    var t := TrimStart(s);
    if |t| > 0 && t[0] == '-' then Negate(ParseMagnitude(t[1..]))
    else if |t| > 0 && t[0] == '+' then ParseMagnitude(t[1..])
    else ParseMagnitude(t)
  }

  function Negate(x: Option<int>): Option<int> {
    if x.None? then None else Some(-x.value)
  }

  /** The unsigned part of `parseInt`: radix 16 after a "0x" or "0X" prefix,
      radix 10 otherwise, and the longest run of digits of that radix. */
  function ParseMagnitude(u: string): Option<int>
  {
    var hex := |u| >= 2 && u[0] == '0' && (u[1] == 'x' || u[1] == 'X');
    var radix := if hex then 16 else 10;
    var w := if hex then u[2..] else u;
    var n := DigitRunLength(w, radix);
    if n == 0 then None else Some(ValueIn(w[..n], radix))
  }

  /** The decimal numeral of a natural number, without leading zeros. */
  function NatText(n: nat): (s: string)
    ensures |s| > 0 && AllDigitsIn(s, 10)
    ensures n == 0 ==> s == "0"
    ensures n > 0 ==> s[0] != '0'
    decreases n
  {
    if n < 10 then [DigitChar(n)] else NatText(n / 10) + [DigitChar(n % 10)]
  }

  /** `String(n)` for an integral number (`-0` prints as "0"). */
  function DecimalText(n: int): string {
    if n < 0 then "-" + NatText(-n) else NatText(n)
  }

  /** `${x}` for a number that may be NaN. */
  function NumberText(x: Option<int>): string {
    if x.None? then "NaN" else DecimalText(x.value)
  }

  /** The digits of `NatText(n)` denote `n`. */
  lemma {:induction false} ValueOfNatText(n: nat)
    ensures ValueIn(NatText(n), 10) == n
    decreases n
  {
    if n >= 10 {
      ValueOfNatText(n / 10);
      var s := NatText(n);
      assert s[..|s| - 1] == NatText(n / 10);
    }
  }

  /** A run of digits followed by a non-digit (or by nothing) is exactly the
      prefix `DigitRunLength` measures. */
  lemma {:induction false} DigitRunOf(d: string, rest: string, radix: nat)
    requires AllDigitsIn(d, radix)
    requires |rest| > 0 ==> !IsDigitIn(rest[0], radix)
    ensures DigitRunLength(d + rest, radix) == |d|
    decreases |d|
  {
    if |d| == 0 {
      assert d + rest == rest;
    } else {
      assert (d + rest)[1..] == d[1..] + rest;
      DigitRunOf(d[1..], rest, radix);
    }
  }

  /** The decimal digits read from text that starts with a digit: the
      leading run, unless that run is the "0" of a "0x" prefix. */
  lemma MagnitudeFromDigit(s: string, n: nat)
    requires |s| > 0 && IsDecimalDigit(s[0])
    requires n == DigitRunLength(s, 10)
    requires n == 1 && s[0] == '0' && |s| > 1 ==> s[1] != 'x' && s[1] != 'X'
    ensures ParseMagnitude(s) == Some(ValueIn(s[..n], 10))
  {
    assert n >= 2 ==> IsDecimalDigit(s[1]);
  }

  /** The magnitude read from a run of decimal digits followed by a non-digit. */
  lemma MagnitudeOfDigits(d: string, rest: string)
    requires |d| > 0 && AllDigitsIn(d, 10)
    requires |rest| > 0 ==> !IsDecimalDigit(rest[0])
    requires d == "0" && |rest| > 0 ==> rest[0] != 'x' && rest[0] != 'X'
    ensures |d + rest| > 0 && IsDecimalDigit((d + rest)[0])
    ensures ParseMagnitude(d + rest) == Some(ValueIn(d, 10))
  {
    var s := d + rest;
    assert s[0] == d[0];
    DigitRunOf(d, rest, 10);
    assert s[..|d|] == d;
    if |d| == 1 && |s| > 1 {
      assert s[1] == rest[0];
    }
    MagnitudeFromDigit(s, |d|);
  }

  /** `parseInt` of text that starts with a digit is its magnitude. */
  lemma ParseIntUnsigned(s: string)
    requires |s| > 0 && IsDecimalDigit(s[0])
    ensures ParseInt(s) == ParseMagnitude(s)
  {
    assert !IsJsSpace(s[0]) && s[0] != '-' && s[0] != '+';
    assert TrimStart(s) == s;
  }

  /** `parseInt` of a minus sign and text that starts with a digit is the
      negated magnitude. */
  lemma ParseIntMinus(s: string)
    requires |s| > 0 && IsDecimalDigit(s[0])
    ensures ParseInt("-" + s) == Negate(ParseMagnitude(s))
  {
    var m := "-" + s;
    assert TrimStart(m) == m;
    assert m[1..] == s;
  }

  /** `parseInt` reads the leading decimal digits and ignores what follows
      them, with or without a minus sign in front, as long as the digits are
      not the "0" of a "0x" prefix. */
  lemma ParseIntLeadingDigits(d: string, rest: string)
    requires |d| > 0 && AllDigitsIn(d, 10)
    requires |rest| > 0 ==> !IsDecimalDigit(rest[0])
    requires d == "0" && |rest| > 0 ==> rest[0] != 'x' && rest[0] != 'X'
    ensures ParseInt(d + rest) == Some(ValueIn(d, 10))
    ensures ParseInt("-" + (d + rest)) == Negate(Some(ValueIn(d, 10)))
  {
    MagnitudeOfDigits(d, rest);
    ParseIntUnsigned(d + rest);
    ParseIntMinus(d + rest);
  }

  /** `parseInt(String(n)) == n` for every integer. */
  lemma ParseIntDecimalText(n: int)
    ensures ParseInt(DecimalText(n)) == Some(n)
  {
    var k: nat := if n < 0 then -n else n;
    ValueOfNatText(k);
    ParseIntLeadingDigits(NatText(k), "");
    assert NatText(k) + "" == NatText(k);
    assert "-" + (NatText(k) + "") == "-" + NatText(k);
  }

  /** Text that starts with neither white space, a sign nor a digit is NaN. */
  lemma ParseIntRejects(s: string)
    requires |s| > 0 && !IsJsSpace(s[0]) && !IsDecimalDigit(s[0])
    requires s[0] != '-' && s[0] != '+'
    ensures ParseInt(s) == None
  {
    assert TrimStart(s) == s;
  }

  /** Text without any decimal digit is NaN, however its white space and
      signs are arranged: every branch of `parseInt` needs a digit. */
  lemma ParseIntNoDigits(s: string)
    requires NoDigits(s)
    ensures ParseInt(s) == None
  {
    var t := TrimStart(s);
    forall i | 0 <= i < |t| ensures !IsDecimalDigit(t[i]) {
      assert t[i] == s[|s| - |t| + i];
    }
    MagnitudeNoDigits(t);
    if |t| > 0 {
      forall i | 0 <= i < |t| - 1 ensures !IsDecimalDigit(t[1..][i]) {
        assert t[1..][i] == t[i + 1];
      }
      MagnitudeNoDigits(t[1..]);
    }
  }

  /** Without a leading digit there is no "0x" prefix and no decimal run. */
  lemma MagnitudeNoDigits(u: string)
    requires NoDigits(u)
    ensures ParseMagnitude(u) == None
  {
    if |u| > 0 {
      assert !IsDecimalDigit(u[0]);
    }
  }

  /** The text of a number ends in a digit, or in the "N" of "NaN". */
  lemma NumberTextLast(x: Option<int>)
    ensures var t := NumberText(x); |t| > 0 && (IsDecimalDigit(t[|t| - 1]) || t[|t| - 1] == 'N')
  {
    if x.Some? && x.value < 0 {
      var t := NatText(-x.value);
      assert ("-" + t)[|"-" + t| - 1] == t[|t| - 1];
    }
  }
}
