/** Decimal text <-> number conversions used by the application: JavaScript
    `parseInt` / `parseFloat` / `Math.round` / `String(n)` and Python `int()` /
    `float()` on decimal text. */
module Numbers {
  import opened Wrappers
  import opened Text

  function DigitChar(d: nat): char
    requires d < 10
  {
    ('0' as int + d) as char
  }

  function DigitValue(c: char): nat
    requires IsDigit(c)
  {
    c as int - '0' as int
  }

  predicate AllDigits(s: string) {
    forall i :: 0 <= i < |s| ==> IsDigit(s[i])
  }

  /** The number a string of decimal digits denotes (the empty string denotes 0). */
  function DigitsValue(s: string): nat
    requires AllDigits(s)
  {
    if |s| == 0 then 0 else DigitsValue(s[..|s| - 1]) * 10 + DigitValue(s[|s| - 1])
  }

  /** Decimal rendering of a natural number without leading zeros. */
  function NatToString(n: nat): (r: string)
    ensures |r| >= 1 && AllDigits(r)
    ensures DigitsValue(r) == n
    ensures r[0] == '0' ==> n == 0 && |r| == 1
  {
    if n < 10 then [DigitChar(n)]
    else
      var r := NatToString(n / 10) + [DigitChar(n % 10)];
      assert r[..|r| - 1] == NatToString(n / 10);
      r
  }

  /** `String(n)` / `str(n)` for an integer. */
  function IntToString(i: int): string {
    if i < 0 then "-" + NatToString(-i) else NatToString(i)
  }

  /** The longest prefix of `s` made of decimal digits. */
  function TakeDigits(s: string): (r: string)
    ensures AllDigits(r) && |r| <= |s| && r == s[..|r|]
    ensures |r| < |s| ==> !IsDigit(s[|r|])
  {
    if |s| > 0 && IsDigit(s[0]) then [s[0]] + TakeDigits(s[1..]) else []
  }

  lemma TakeDigitsAll(s: string)
    requires AllDigits(s)
    ensures TakeDigits(s) == s
  {
  }

  function Pow10(n: nat): (r: real)
    ensures r >= 1.0
  {
    if n == 0 then 1.0 else 10.0 * Pow10(n - 1)
  }

  /** An optional exponent part `[eE][+-]?digits`; when no digit follows, nothing is consumed. */
  function ScanExponent(s: string): (r: (int, nat))
    ensures r.1 <= |s|
  {
    if |s| > 0 && (s[0] == 'e' || s[0] == 'E') then
      var signLen := if |s| > 1 && (s[1] == '+' || s[1] == '-') then 1 else 0;
      var digits := TakeDigits(s[1 + signLen..]);
      if |digits| == 0 then (0, 0)
      else
        var e: int := DigitsValue(digits);
        ((if signLen == 1 && s[1] == '-' then -e else e), 1 + signLen + |digits|)
    else (0, 0)
  }

  /** The longest prefix of `s` that is a decimal literal `[+-]? (d+ (. d*)? | . d+) exponent?`,
      as its value and its length; None when `s` does not start with one. */
  function ScanDecimal(s: string): (r: Option<(real, nat)>)
    ensures r.Some? ==> 0 < r.value.1 <= |s|
  {
    var signLen := if |s| > 0 && (s[0] == '+' || s[0] == '-') then 1 else 0;
    var negative := signLen == 1 && s[0] == '-';
    match ScanUnsigned(s[signLen..])
    case None => None
    case Some((magnitude, len)) => Some(((if negative then -magnitude else magnitude), signLen + len))
  }

  /** The unsigned part of a decimal literal, `(d+ (. d*)? | . d+) exponent?`. */
  function ScanUnsigned(body: string): (r: Option<(real, nat)>)
    ensures r.Some? ==> 0 < r.value.1 <= |body|
  {
    var intPart := TakeDigits(body);
    var afterInt := body[|intPart|..];
    var hasDot := |afterInt| > 0 && afterInt[0] == '.';
    var fracPart := if hasDot then TakeDigits(afterInt[1..]) else "";
    if |intPart| + |fracPart| == 0 then None
    else
      var mantLen := |intPart| + (if hasDot then 1 + |fracPart| else 0);
      var exponent := ScanExponent(body[mantLen..]);
      Some((Scale(Mantissa(intPart, fracPart), exponent.0), mantLen + exponent.1))
  }

  /** The value of `int.frac`. */
  function Mantissa(intPart: string, fracPart: string): real
    requires AllDigits(intPart) && AllDigits(fracPart)
  {
    DigitsValue(intPart) as real + DigitsValue(fracPart) as real / Pow10(|fracPart|)
  }

  /** `m` times ten to the power `e`. */
  function Scale(m: real, e: int): real {
    if e >= 0 then m * Pow10(e) else m / Pow10(-e)
  }

  /** JavaScript `parseInt(s)` (radix 10): leading whitespace, an optional sign and the
      longest run of digits; trailing text is ignored. None stands for NaN. */
  function JsParseInt(s: string): Option<int> {
    var t := TrimStart(s);
    var signLen := if |t| > 0 && (t[0] == '+' || t[0] == '-') then 1 else 0;
    var digits := TakeDigits(t[signLen..]);
    if |digits| == 0 then None
    else
      var v: int := DigitsValue(digits);
      if signLen == 1 && t[0] == '-' then Some(-v) else Some(v)
  }

  /** JavaScript `parseFloat(s)`: leading whitespace, then the longest decimal-literal
      prefix; trailing text is ignored. None stands for NaN. */
  function JsParseFloat(s: string): Option<real> {
    match ScanDecimal(TrimStart(s))
    case Some(p) => Some(p.0)
    case None => None
  }

  /** Python `float(s)` on text: surrounding whitespace is stripped and the rest must be
      one decimal literal. None stands for the ValueError. */
  function PyFloat(s: string): Option<real> {
    var t := Trim(s);
    match ScanDecimal(t)
    case Some(p) => if p.1 == |t| then Some(p.0) else None
    case None => None
  }

  /** Python `int(s)` on text: surrounding whitespace stripped, an optional sign and
      at least one digit, nothing else. None stands for the ValueError. */
  function PyInt(s: string): Option<int> {
    var t := Trim(s);
    var signLen := if |t| > 0 && (t[0] == '+' || t[0] == '-') then 1 else 0;
    var digits := t[signLen..];
    if |digits| == 0 || !AllDigits(digits) then None
    else
      var v: int := DigitsValue(digits);
      if signLen == 1 && t[0] == '-' then Some(-v) else Some(v)
  }

  /** Python `int(x)` on a float: truncation toward zero. */
  function TruncToInt(x: real): (r: int)
    ensures x >= 0.0 ==> r as real <= x < r as real + 1.0
    ensures x < 0.0 ==> r as real - 1.0 < x <= r as real
  {
    if x >= 0.0 then x.Floor else -((-x).Floor)
  }

  /** JavaScript `Math.round(x)`: the nearest integer, halves rounded up. */
  function JsRound(x: real): (r: int)
    ensures r as real - 0.5 <= x < r as real + 0.5
  {
    (x + 0.5).Floor
  }

  /** Python `min(a, b)` / `Math.min(a, b)` on numbers. */
  function MinReal(a: real, b: real): (r: real)
    ensures r <= a && r <= b && (r == a || r == b)
  {
    if b < a then b else a
  }

  /** Python `max(a, b)` / `Math.max(a, b)` on numbers. */
  function MaxReal(a: real, b: real): (r: real)
    ensures r >= a && r >= b && (r == a || r == b)
  {
    if b > a then b else a
  }

  /** `parseInt` reads back exactly the integer `String(n)` renders. */
  lemma JsParseIntRoundTrip(i: int)
    ensures JsParseInt(IntToString(i)) == Some(i)
  {
    var s := IntToString(i);
    var n: nat := if i < 0 then -i else i;
    var digits := NatToString(n);
    assert !IsSpace(s[0]);
    assert TrimStart(s) == s;
    TakeDigitsAll(digits);
    if i < 0 {
      assert s[1..] == digits;
      assert TakeDigits(s[1..]) == digits;
    } else {
      assert s == digits;
      assert s[0..] == digits;
      assert TakeDigits(s[0..]) == digits;
    }
  }

  /** A run of digits, optionally after a minus sign, scans as the number its digits
      denote, negated after the sign, and the scan consumes the whole text. */
  lemma ScanSignedDigits(d: string, negative: bool)
    requires |d| >= 1 && AllDigits(d)
    ensures var t := (if negative then "-" else "") + d;
            var v := DigitsValue(d) as real;
            ScanDecimal(t).Some? && ScanDecimal(t).value.0 == (if negative then -v else v) && ScanDecimal(t).value.1 == |t|
  {
    var t := (if negative then "-" else "") + d;
    var signLen := if negative then 1 else 0;
    assert IsDigit(d[0]);
    assert t[0] == '+' || t[0] == '-' <==> negative;
    assert t[signLen..] == d;
    ScanUnsignedDigits(d);
  }

  /** A run of digits alone scans as the number it denotes, consuming all of it. */
  lemma ScanUnsignedDigits(d: string)
    requires |d| >= 1 && AllDigits(d)
    ensures ScanUnsigned(d).Some?
    ensures ScanUnsigned(d).value.0 == DigitsValue(d) as real && ScanUnsigned(d).value.1 == |d|
  {
    TakeDigitsAll(d);
    var intPart := TakeDigits(d);
    assert intPart == d;
    var afterInt := d[|intPart|..];
    assert afterInt == [];
    var exponent := ScanExponent(d[|intPart|..]);
    assert exponent == (0, 0);
    WholeMantissa(d);
    ScaleByOne(Mantissa(intPart, ""));
  }

  lemma WholeMantissa(d: string)
    requires AllDigits(d)
    ensures Mantissa(d, "") == DigitsValue(d) as real
  {
    assert DigitsValue("") == 0 && Pow10(0) == 1.0;
  }

  lemma ScaleByOne(m: real)
    ensures Scale(m, 0) == m
  {
    assert Pow10(0) == 1.0;
  }

  /** A decimal literal with no sign, dot or exponent scans as the number its digits denote. */
  lemma ScanDigitsOnly(s: string)
    requires |s| >= 1 && AllDigits(s)
    ensures ScanDecimal(s).Some?
    ensures ScanDecimal(s).value.0 == DigitsValue(s) as real && ScanDecimal(s).value.1 == |s|
  {
    ScanSignedDigits(s, false);
    assert "" + s == s;
  }

  /** Python `float` reads back the integer `str(n)` renders. */
  lemma PyFloatOfIntToString(i: int)
    ensures PyFloat(IntToString(i)) == Some(i as real)
  {
    var s := IntToString(i);
    var n: nat := if i < 0 then -i else i;
    var digits := NatToString(n);
    assert s == (if i < 0 then "-" else "") + digits;
    assert IsDigit(digits[|digits| - 1]);
    TrimUnchanged(s);
    ScanSignedDigits(digits, i < 0);
  }

  /** `replace(/,/g, '')`: the text without its commas. */
  function RemoveCommas(s: string): (r: string)
    ensures forall i :: 0 <= i < |r| ==> r[i] != ','
    ensures (forall i :: 0 <= i < |s| ==> s[i] != ',') ==> r == s
  {
    if |s| == 0 then [] else (if s[0] == ',' then [] else [s[0]]) + RemoveCommas(s[1..])
  }

  lemma {:induction false} RemoveCommasAppend(a: string, b: string)
    ensures RemoveCommas(a + b) == RemoveCommas(a) + RemoveCommas(b)
    decreases |a|
  {
    if |a| == 0 {
      assert a + b == b;
    } else {
      assert (a + b)[1..] == a[1..] + b;
      RemoveCommasAppend(a[1..], b);
    }
  }

  /** Two decimal digits, with a leading zero below ten. */
  function TwoDigits(k: nat): (r: string)
    requires k < 100
    ensures |r| == 2 && AllDigits(r) && DigitsValue(r) == k
  {
    var r := [DigitChar(k / 10), DigitChar(k % 10)];
    assert r[..1] == [DigitChar(k / 10)] && r[..1][..0] == [];
    assert DigitValue(r[0]) == k / 10 && DigitValue(r[1]) == k % 10;
    assert DigitsValue(r[..1]) == k / 10;
    r
  }

  /** Three decimal digits, with leading zeros. */
  function ThreeDigits(k: nat): (r: string)
    requires k < 1000
    ensures |r| == 3 && AllDigits(r) && DigitsValue(r) == k
  {
    var two := TwoDigits(k % 100);
    var r := [DigitChar(k / 100)] + two;
    assert r[..1] == [DigitChar(k / 100)] && r[..1][..0] == [];
    assert DigitValue(r[0]) == k / 100;
    assert DigitsValue(r[..1]) == k / 100;
    assert r[..2] == r[..1] + two[..1];
    assert two[..1][..0] == [] && DigitsValue(two[..1]) == DigitValue(two[0]);
    assert DigitsValue(two) == DigitsValue(two[..1]) * 10 + DigitValue(two[1]);
    assert DigitsValue(r[..2]) == DigitsValue(r[..1]) * 10 + DigitValue(two[0]);
    assert DigitsValue(r) == DigitsValue(r[..2]) * 10 + DigitValue(two[1]);
    r
  }

  /** Python's `format(n, ',')` for a natural number: the digits in groups of three
      from the right, separated by commas. */
  function Grouped(n: nat): (r: string)
    ensures |r| >= 1 && IsDigit(r[0])
    ensures forall i :: 0 <= i < |r| ==> IsDigit(r[i]) || r[i] == ','
  {
    if n < 1000 then NatToString(n)
    else Grouped(n / 1000) + "," + ThreeDigits(n % 1000)
  }

  lemma DigitsValueAppend3(a: string, b: string)
    requires AllDigits(a) && AllDigits(b) && |b| == 3
    ensures AllDigits(a + b) && DigitsValue(a + b) == DigitsValue(a) * 1000 + DigitsValue(b)
  {
    var ab := a + b;
    var x, y, z := DigitValue(b[0]), DigitValue(b[1]), DigitValue(b[2]);
    assert ab[..|ab| - 1] == a + b[..2];
    assert (a + b[..2])[..|a| + 1] == a + b[..1];
    assert (a + b[..1])[..|a|] == a;
    assert b[..2][..1] == b[..1];
    assert b[..1][..0] == [];
    assert b[..|b| - 1] == b[..2];
    assert DigitsValue(b[..1]) == x;
    assert DigitsValue(b[..2]) == x * 10 + y;
    assert DigitsValue(b) == (x * 10 + y) * 10 + z;
    assert DigitsValue(a + b[..1]) == DigitsValue(a) * 10 + x;
    assert DigitsValue(a + b[..2]) == (DigitsValue(a) * 10 + x) * 10 + y;
    assert DigitsValue(ab) == ((DigitsValue(a) * 10 + x) * 10 + y) * 10 + z;
  }

  /** Removing the commas from a grouped number leaves its digits. */
  lemma {:induction false} GroupedDigits(n: nat)
    ensures |RemoveCommas(Grouped(n))| >= 1 && AllDigits(RemoveCommas(Grouped(n)))
    ensures DigitsValue(RemoveCommas(Grouped(n))) == n
    decreases n
  {
    if n >= 1000 {
      GroupedDigits(n / 1000);
      GroupedStep(n);
      DigitsValueAppend3(RemoveCommas(Grouped(n / 1000)), ThreeDigits(n % 1000));
    }
  }

  lemma GroupedStep(n: nat)
    requires n >= 1000
    ensures RemoveCommas(Grouped(n)) == RemoveCommas(Grouped(n / 1000)) + ThreeDigits(n % 1000)
  {
    var head := Grouped(n / 1000);
    var three := ThreeDigits(n % 1000);
    assert Grouped(n) == head + "," + three;
    RemoveCommasAppend(head + ",", three);
    RemoveCommasAppend(head, ",");
    assert RemoveCommas(",") == [];
  }

  /** Python's `format(x, ',.2f')` for an amount of `dollars` and `cents` hundredths:
      the grouped whole part, a point and two decimals. */
  function Money(dollars: nat, cents: nat): (r: string)
    requires cents < 100
    ensures |r| >= 4 && r[|r| - 3] == '.'
  {
    Grouped(dollars) + "." + TwoDigits(cents)
  }

  /** A digit run never reaches past a non-digit. */
  lemma {:induction false} TakeDigitsPrefix(d: string, rest: string)
    requires AllDigits(d)
    requires rest == [] || !IsDigit(rest[0])
    ensures TakeDigits(d + rest) == d
    decreases |d|
  {
    if |d| == 0 {
      assert d + rest == rest;
    } else {
      assert (d + rest)[1..] == d[1..] + rest;
      TakeDigitsPrefix(d[1..], rest);
    }
  }

  /** `parseFloat` reads `digits.digits` as the decimal it denotes. */
  lemma ParseFloatDecimal(d: string, f: string)
    requires |d| >= 1 && AllDigits(d) && |f| >= 1 && AllDigits(f)
    ensures JsParseFloat(d + "." + f).Some? && JsParseFloat(d + "." + f).value == Mantissa(d, f)
  {
    var s := d + "." + f;
    assert s[0] == d[0] && IsDigit(s[0]);
    assert TrimStart(s) == s;
    ScanPointDecimal(d, f);
  }

  lemma ScanPointDecimal(d: string, f: string)
    requires |d| >= 1 && AllDigits(d) && |f| >= 1 && AllDigits(f)
    ensures ScanDecimal(d + "." + f).Some?
    ensures ScanDecimal(d + "." + f).value.0 == Mantissa(d, f) && ScanDecimal(d + "." + f).value.1 == |d| + 1 + |f|
  {
    var s := d + "." + f;
    assert s[0] == d[0];
    ScanPointUnsigned(d, f);
    UnsignedStart(s);
  }

  /** Text starting with a digit has no sign: the literal is its unsigned part. */
  lemma UnsignedStart(s: string)
    requires |s| > 0 && IsDigit(s[0]) && ScanUnsigned(s).Some?
    ensures ScanDecimal(s).Some?
    ensures ScanDecimal(s).value.0 == ScanUnsigned(s).value.0 && ScanDecimal(s).value.1 == ScanUnsigned(s).value.1
  {
    assert s[0..] == s;
  }

  lemma ScanPointUnsigned(d: string, f: string)
    requires |d| >= 1 && AllDigits(d) && |f| >= 1 && AllDigits(f)
    ensures ScanUnsigned(d + "." + f).Some?
    ensures ScanUnsigned(d + "." + f).value.0 == Mantissa(d, f) && ScanUnsigned(d + "." + f).value.1 == |d| + 1 + |f|
  {
    var s := d + "." + f;
    assert s == d + ("." + f);
    TakeDigitsPrefix(d, "." + f);
    var intPart := TakeDigits(s);
    assert intPart == d;
    var afterInt := s[|intPart|..];
    assert afterInt == "." + f;
    assert afterInt[1..] == f;
    TakeDigitsAll(f);
    var fracPart := TakeDigits(afterInt[1..]);
    assert fracPart == f;
    var mantLen := |intPart| + 1 + |fracPart|;
    assert s[mantLen..] == [];
    var exponent := ScanExponent(s[mantLen..]);
    assert exponent == (0, 0);
    assert Scale(Mantissa(intPart, fracPart), exponent.0) == Mantissa(d, f);
  }

  /** The backend's amount, its commas removed, reads back as the dollars plus the cents
      over a hundred. */
  lemma MoneyAmount(dollars: nat, cents: nat)
    requires cents < 100
    ensures JsParseFloat(RemoveCommas(Money(dollars, cents))).Some?
    ensures JsParseFloat(RemoveCommas(Money(dollars, cents))).value == dollars as real + cents as real / 100.0
  {
    MoneyWithoutCommas(dollars, cents);
    GroupedDigits(dollars);
    PointParse(RemoveCommas(Grouped(dollars)), TwoDigits(cents));
  }

  lemma MoneyWithoutCommas(dollars: nat, cents: nat)
    requires cents < 100
    ensures RemoveCommas(Money(dollars, cents)) == RemoveCommas(Grouped(dollars)) + "." + TwoDigits(cents)
  {
    PointWithoutCommas(Grouped(dollars), TwoDigits(cents));
  }

  /** `parseFloat` of `digits.dd` is the digits' value plus the hundredths. */
  lemma PointParse(d: string, two: string)
    requires |d| >= 1 && AllDigits(d) && |two| == 2 && AllDigits(two)
    ensures JsParseFloat(d + "." + two).Some?
    ensures JsParseFloat(d + "." + two).value == DigitsValue(d) as real + DigitsValue(two) as real / 100.0
  {
    ParseFloatDecimal(d, two);
    MantissaOfCents(d, two);
  }

  lemma MantissaOfCents(d: string, two: string)
    requires AllDigits(d) && |two| == 2 && AllDigits(two)
    ensures Mantissa(d, two) == DigitsValue(d) as real + DigitsValue(two) as real / 100.0
  {
    assert Pow10(|two|) == 100.0 by {
      assert Pow10(2) == 10.0 * Pow10(1) && Pow10(1) == 10.0 * Pow10(0);
    }
  }

  lemma PointWithoutCommas(g: string, two: string)
    requires AllDigits(two)
    ensures RemoveCommas(g + "." + two) == RemoveCommas(g) + "." + two
  {
    RemoveCommasAppend(g + ".", two);
    RemoveCommasAppend(g, ".");
    assert RemoveCommas(".") == ".";
    assert RemoveCommas(two) == two;
  }
}
