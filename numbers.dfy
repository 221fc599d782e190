/** Culture-invariant integer and float text (`int.Parse`, `float.Parse`, `ToString(InvariantCulture)`)
    and the Unity vector and colour values built from them.

    Integers are 32-bit. A float is an exact decimal `mantissa / 10^exponent` in lowest terms, or
    one of NaN and the two infinities; single-precision rounding is not modelled. */
module Numbers {
  import opened Results
  import opened Text

  predicate IsDigit(c: char) {
    '0' <= c <= '9'
  }

  predicate AllDigits(s: string) {
    forall i :: 0 <= i < |s| ==> IsDigit(s[i])
  }

  /** One or more decimal digits. */
  predicate IsDigits(s: string) {
    |s| > 0 && AllDigits(s)
  }

  function DigitValue(c: char): nat
    requires IsDigit(c)
  {
    c as int - '0' as int
  }

  function DigitChar(d: nat): (c: char)
    requires d < 10
    ensures IsDigit(c) && DigitValue(c) == d
  {
    ('0' as int + d) as char
  }

  /** The number a digit string denotes, most significant digit first. */
  function DigitsValue(s: string): nat
    requires AllDigits(s)
  {
    if s == [] then 0 else DigitsValue(s[..|s| - 1]) * 10 + DigitValue(s[|s| - 1])
  }

  /** The shortest decimal spelling of `n`. */
  function NatDigits(n: nat): (r: string)
    ensures IsDigits(r)
    ensures DigitsValue(r) == n
    ensures r[0] == '0' ==> n == 0
  {
    if n < 10 then [DigitChar(n)]
    else
      var r := NatDigits(n / 10) + [DigitChar(n % 10)];
      assert r[..|r| - 1] == NatDigits(n / 10);
      r
  }

  /** `n` zero digits. */
  function Zeros(n: nat): (r: string)
    ensures |r| == n && AllDigits(r) && DigitsValue(r) == 0
    ensures forall i :: 0 <= i < n ==> r[i] == '0'
  {
    if n == 0 then "" else
      var r := Zeros(n - 1) + "0";
      assert r[..n - 1] == Zeros(n - 1);
      r
  }

  /** Leading zeros do not change the value of a digit string. */
  lemma {:induction false} LeadingZeros(k: nat, d: string)
    requires AllDigits(d)
    ensures AllDigits(Zeros(k) + d)
    ensures DigitsValue(Zeros(k) + d) == DigitsValue(d)
  {
    var s := Zeros(k) + d;
    if d != [] {
      assert s[..|s| - 1] == Zeros(k) + d[..|d| - 1];
      LeadingZeros(k, d[..|d| - 1]);
    } else {
      assert s == Zeros(k);
    }
  }

  /** The characters number text is made of: digits, sign, decimal point and the letters of
      "NaN" and "Infinity". None of them is a separator of either text format. */
  predicate IsNumeral(c: char) {
    IsDigit(c) || c == '-' || c == '.' || c in "NaIfinty"
  }

  /** Non-empty text made of numerals only. */
  predicate IsNumberText(s: string) {
    s != [] && forall i :: 0 <= i < |s| ==> IsNumeral(s[i])
  }

  /** No numeral is white space, a token or list separator, the beat-notation letter `b`, the
      unset sentinel `_` or the flick marks `F` and `N`. */
  lemma NumeralIsNotSeparator(c: char)
    requires IsNumeral(c)
    ensures !IsWhiteSpace(c)
    ensures c != ' ' && c != '\n' && c != '/' && c != ';' && c != ':' && c != 'b' && c != '_'
    ensures c != 'F' && c != '$' && c != '+' && c != '['
  {
  }

  // ---------------------------------------------------------------- 32-bit integers

  const INT32_MIN: int := -0x8000_0000
  const INT32_MAX: int := 0x7FFF_FFFF

  /** C#'s `int`. */
  type Int32 = x: int | -0x8000_0000 <= x <= 0x7FFF_FFFF

  /** Unchecked 32-bit arithmetic: the value `v` wraps to. */
  function Wrap32(v: int): (r: Int32)
    ensures INT32_MIN <= v <= INT32_MAX ==> r == v
    ensures (r - v) % 0x1_0000_0000 == 0
  {
    (v + 0x8000_0000) % 0x1_0000_0000 - 0x8000_0000
  }

  /** The grammar this model gives `int.Parse`: an optional `-` and one or more digits. */
  predicate IsIntText(s: string) {
    (|s| > 0 && s[0] == '-' && IsDigits(s[1..])) || IsDigits(s)
  }

  /** `int.ToString(InvariantCulture)`. */
  function FormatInt(n: int): (r: string)
    ensures IsIntText(r) && IsNumberText(r)
  {
    if n < 0 then
      var r := "-" + NatDigits(-n);
      assert r[1..] == NatDigits(-n);
      r
    else
      NatDigits(n)
  }

  function CheckInt32(v: int, token: string): (r: Parsed<Int32>)
  {
    if INT32_MIN <= v <= INT32_MAX then Ok(v) else Err(Overflow(token))
  }

  /** `int.Parse(s, InvariantCulture)`: a format error unless `s` is `[-]digits`, an overflow
      error when the value does not fit in 32 bits. */
  function ParseInt(s: string): (r: Parsed<Int32>)
    ensures r.Ok? ==> IsIntText(s) && IsNumberText(s)
    ensures !IsIntText(s) ==> r == Err(FormatError(s))
    ensures IsIntText(s) && r.Err? ==> r.error == Overflow(s)
  {
    if |s| > 0 && s[0] == '-' && IsDigits(s[1..]) then
      assert forall i :: 1 <= i < |s| ==> s[i] == s[1..][i - 1];
      CheckInt32(-(DigitsValue(s[1..]) as int), s)
    else if IsDigits(s) then CheckInt32(DigitsValue(s), s)
    else Err(FormatError(s))
  }

  /** Every 32-bit integer reads back from its text. */
  lemma ParseFormatInt(n: Int32)
    ensures ParseInt(FormatInt(n)) == Ok(n)
  {
    var s := FormatInt(n);
    if n < 0 {
      assert s[1..] == NatDigits(-(n as int));
    } else {
      assert s == NatDigits(n);
    }
  }

  // ---------------------------------------------------------------- floats

  /** A float: an exact decimal, NaN or an infinity. */
  datatype FloatValue = Finite(mantissa: int, exponent: nat) | NaN | PositiveInfinity | NegativeInfinity

  /** A finite value is kept in lowest terms: no trailing zero after the decimal point. */
  predicate InLowestTerms(f: FloatValue) {
    f.Finite? ==> f.exponent == 0 || f.mantissa % 10 != 0
  }

  type Float = f: FloatValue | InLowestTerms(f) witness NaN

  const ZERO: Float := Finite(0, 0)

  const NAN: Float := NaN

  function Pow10(e: nat): (r: nat)
    ensures r >= 1
  {
    if e == 0 then 1 else 10 * Pow10(e - 1)
  }

  /** `float.IsFinite`. */
  predicate IsFinite(f: Float) {
    f.Finite?
  }

  /** `f < 0` (false for NaN). */
  predicate IsNegative(f: Float) {
    f.NegativeInfinity? || (f.Finite? && f.mantissa < 0)
  }

  /** `f > 1` (false for NaN). */
  predicate IsAboveOne(f: Float) {
    f.PositiveInfinity? || (f.Finite? && f.mantissa > Pow10(f.exponent))
  }

  /** `mantissa / 10^exponent` in lowest terms. */
  function Normalize(m: int, e: nat): (r: Float)
    ensures r.Finite? && r.exponent <= e
    decreases e
  {
    if e > 0 && m % 10 == 0 then Normalize(m / 10, e - 1) else Finite(m, e)
  }

  /** Normalizing keeps the number: only trailing zeros after the point are dropped. */
  lemma {:induction false} NormalizeKeepsValue(m: int, e: nat)
    ensures var r := Normalize(m, e); m == r.mantissa * Pow10(e - r.exponent)
    decreases e
  {
    if e > 0 && m % 10 == 0 {
      var r := Normalize(m / 10, e - 1);
      NormalizeKeepsValue(m / 10, e - 1);
      assert m / 10 == r.mantissa * Pow10(e - 1 - r.exponent);
      assert Pow10(e - r.exponent) == 10 * Pow10(e - 1 - r.exponent);
      assert m == 10 * (m / 10);
      assert m == r.mantissa * Pow10(e - r.exponent) by {
        assert m == 10 * (r.mantissa * Pow10(e - 1 - r.exponent));
      }
    }
  }

  /** The digits of `n`, padded with leading zeros to at least `e + 1` digits. */
  function Padded(n: nat, e: nat): (p: string)
    ensures IsDigits(p) && |p| >= e + 1 && DigitsValue(p) == n
  {
    var d := NatDigits(n);
    if |d| < e + 1 then
      LeadingZeros(e + 1 - |d|, d);
      Zeros(e + 1 - |d|) + d
    else d
  }

  /** The digits of `n / 10^e` with exactly `e` digits after the point and at least one before. */
  function FixedPoint(n: nat, e: nat): string {
    PointBefore(Padded(n, e), e)
  }

  /** `p` with a point put in front of its last `e` digits, or `p` itself when `e` is 0. */
  function PointBefore(p: string, e: nat): string
    requires |p| >= e
  {
    if e == 0 then p else p[..|p| - e] + "." + p[|p| - e..]
  }

  /** `float.ToString(InvariantCulture)` for a value in lowest terms. */
  function FormatFloat(f: Float): string {
    match f
    case NaN => "NaN"
    case PositiveInfinity => "Infinity"
    case NegativeInfinity => "-Infinity"
    case Finite(m, e) => (if m < 0 then "-" else "") + FixedPoint(if m < 0 then -m else m, e)
  }

  /** An unsigned decimal `digits[.digits]`: all its digits read as one integer, and how many
      of them follow the point. */
  datatype Decimal = Decimal(digits: nat, scale: nat) | NotDecimal

  function ParseDecimal(body: string): (r: Decimal)
    ensures r.Decimal? ==> IsNumberText(body)
  {
    var dot := IndexOfChar(body, '.');
    if dot < 0 then
      if IsDigits(body) then Decimal(DigitsValue(body), 0) else NotDecimal
    else
      var intPart := body[..dot];
      var fracPart := body[dot + 1..];
      if IsDigits(intPart) && IsDigits(fracPart) then
        assert IsNumberText(body) by {
          assert body == intPart + "." + fracPart;
        }
        var all := intPart + fracPart;
        assert AllDigits(all) by {
          assert forall i :: 0 <= i < |all| ==> all[i] == (if i < |intPart| then intPart[i] else fracPart[i - |intPart|]);
        }
        Decimal(DigitsValue(all), |fracPart|)
      else NotDecimal
  }

  /** The grammar this model gives `float.Parse`: `NaN`, `Infinity`, `-Infinity`, or an optional
      `-`, one or more digits and optionally a point followed by one or more digits. */
  function ParseFloat(s: string): (r: Parsed<Float>)
    ensures r.Ok? ==> IsNumberText(s)
  {
    if s == "NaN" then Ok(NaN)
    else if s == "Infinity" then Ok(PositiveInfinity)
    else if s == "-Infinity" then Ok(NegativeInfinity)
    else
      var neg := |s| > 0 && s[0] == '-';
      var body := if neg then s[1..] else s;
      match ParseDecimal(body)
      case NotDecimal => Err(FormatError(s))
      case Decimal(v, e) =>
        assert IsNumberText(s) by {
          if neg { assert s == "-" + body; }
        }
        Ok(Normalize(if neg then -(v as int) else v, e))
  }

  lemma FixedPointShape(n: nat, e: nat)
    ensures IsNumberText(FixedPoint(n, e))
    ensures IsDigit(FixedPoint(n, e)[0])
  {
    var p := Padded(n, e);
    if e > 0 {
      var k := |p| - e;
      var q := p[..k] + "." + p[k..];
      forall i | 0 <= i < |q| ensures IsNumeral(q[i]) {
        if i < k { assert q[i] == p[i]; } else if i > k { assert q[i] == p[i - 1]; }
      }
      assert q[0] == p[0];
    }
  }

  /** In `a.b` with no point in `a`, the first point is the one after `a`. */
  lemma PointAfter(a: string, b: string)
    requires '.' !in a
    ensures IndexOfChar(a + "." + b, '.') == |a|
    ensures (a + "." + b)[..|a|] == a && (a + "." + b)[|a| + 1..] == b
  {
    var q := a + "." + b;
    assert q[|a|] == '.' && q[..|a|] == a;
  }

  /** The point is found where the formatter put it, with every digit around it. */
  lemma ParseFixedPoint(n: nat, e: nat)
    ensures ParseDecimal(FixedPoint(n, e)) == Decimal(n, e)
  {
    var p := Padded(n, e);
    ParseFixedDigits(p, e);
  }

  /** A digit string with a point put in front of its last `e` digits. */
  lemma ParseFixedDigits(p: string, e: nat)
    requires IsDigits(p) && |p| >= e + 1
    ensures ParseDecimal(PointBefore(p, e)) == Decimal(DigitsValue(p), e)
  {
    if e == 0 {
      ParseDecimalWithoutPoint(p);
    } else {
      ParseDecimalCut(p, |p| - e);
    }
  }

  /** Digits with a point put at position `k` read as all the digits, scaled by those after. */
  lemma ParseDecimalCut(p: string, k: nat)
    requires IsDigits(p) && 0 < k < |p|
    ensures ParseDecimal(p[..k] + "." + p[k..]) == Decimal(DigitsValue(p), |p| - k)
  {
    var a, b := p[..k], p[k..];
    DigitsApart(p, k);
    ParseDecimalWithPoint(a, b, p);
  }

  /** Digits alone read as themselves, with no digit after the point. */
  lemma ParseDecimalWithoutPoint(p: string)
    requires IsDigits(p)
    ensures ParseDecimal(p) == Decimal(DigitsValue(p), 0)
  {
    assert '.' !in p by { assert forall i :: 0 <= i < |p| ==> IsDigit(p[i]); }
  }

  /** `a.b` with digits on both sides reads as all the digits, scaled by those after the point. */
  lemma ParseDecimalWithPoint(a: string, b: string, whole: string)
    requires IsDigits(a) && IsDigits(b) && '.' !in a && whole == a + b
    ensures AllDigits(whole) && ParseDecimal(a + "." + b) == Decimal(DigitsValue(whole), |b|)
  {
    PointAfter(a, b);
  }

  /** Both sides of a cut through a digit string are digit strings. */
  lemma DigitsApart(p: string, k: nat)
    requires IsDigits(p) && 0 < k < |p|
    ensures IsDigits(p[..k]) && IsDigits(p[k..]) && '.' !in p[..k] && p[..k] + p[k..] == p
  {
    assert p[..k] + p[k..] == p;
    assert forall i :: 0 <= i < k ==> p[..k][i] == p[i];
    assert forall i :: 0 <= i < |p| - k ==> p[k..][i] == p[k + i];
  }

  lemma FormatFloatIsNumberText(f: Float)
    ensures IsNumberText(FormatFloat(f))
  {
    match f
    case Finite(m, e) =>
      FixedPointShape(if m < 0 then -m else m, e);
    case _ =>
  }

  /** A digit-led body with or without a sign reads as its decimal, negated after a sign. */
  lemma ParseSigned(neg: bool, body: string, v: nat, e: nat)
    requires body != [] && IsDigit(body[0]) && ParseDecimal(body) == Decimal(v, e)
    ensures ParseFloat((if neg then "-" else "") + body) == Ok(Normalize(if neg then -(v as int) else v, e))
  {
    var s := (if neg then "-" else "") + body;
    if neg {
      assert s[0] == '-' && s[1] == body[0] && s[1..] == body;
    } else {
      assert s == body;
    }
    assert s != "NaN" && s != "Infinity" && s != "-Infinity" by {
      assert "NaN"[0] == 'N' && "Infinity"[0] == 'I' && "-Infinity"[1] == 'I';
    }
  }

  /** Every float reads back from its text. */
  lemma ParseFormatFloat(f: Float)
    ensures ParseFloat(FormatFloat(f)) == Ok(f)
  {
    match f
    case NaN =>
    case PositiveInfinity =>
    case NegativeInfinity =>
    case Finite(m, e) => ParseFormatFinite(m, e);
  }

  lemma ParseFormatFinite(m: int, e: nat)
    requires e == 0 || m % 10 != 0
    ensures ParseFloat(FormatFloat(Finite(m, e))) == Ok(Finite(m, e))
  {
    var n: nat := if m < 0 then -m else m;
    var body := FixedPoint(n, e);
    assert FormatFloat(Finite(m, e)) == (if m < 0 then "-" else "") + body;
    FixedPointShape(n, e);
    ParseFixedPoint(n, e);
    ParseSigned(m < 0, body, n, e);
    assert (if m < 0 then -(n as int) else n) == m;
    NormalizeLowest(m, e);
  }

  /** A value already in lowest terms is its own normal form. */
  lemma NormalizeLowest(m: int, e: nat)
    requires e == 0 || m % 10 != 0
    ensures Normalize(m, e) == Finite(m, e)
  {
  }

  // ---------------------------------------------------------------- Unity values

  datatype Vec2 = Vec2(x: Float, y: Float)

  datatype Vec3 = Vec3(x: Float, y: Float, z: Float)

  datatype Color = Color(r: Float, g: Float, b: Float, a: Float)
}
