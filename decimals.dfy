/**
 * The numbers the two front-matter parsers produce. `Number(text)` is modelled
 * on plain decimal numerals (an optional sign, digits, an optional fraction),
 * which are represented exactly as a mantissa scaled by a power of ten, kept
 * in lowest terms so that equal numbers have equal representations.
 */
module Decimals {
  import opened Wrappers
  import opened Text

  /** The number `mantissa / 10^scale`. */
  datatype Decimal = Decimal(mantissa: int, scale: nat)

  /** No trailing zero in the fraction: the unique representation of a value. */
  predicate Normal(d: Decimal)
  {
    d.scale == 0 || d.mantissa % 10 != 0
  }

  function ToReal(d: Decimal): real
  {
    d.mantissa as real / Pow10(d.scale) as real
  }

  function FromInt(i: int): (d: Decimal)
    ensures Normal(d) && ToReal(d) == i as real
  {
    Decimal(i, 0)
  }

  /** Drops trailing zeros of the fraction without changing the value. */
  function Normalize(m: int, k: nat): (d: Decimal)
    ensures Normal(d) && d.scale <= k
    decreases k
  {
    if k > 0 && m % 10 == 0 then Normalize(m / 10, k - 1) else Decimal(m, k)
  }

  /** The unsigned part of a numeral: digits with at most one `.`, at least one digit. */
  function UnsignedNumeral(s: string): (r: Option<(string, string)>)
    ensures r.Some? ==> AllDigits(r.value.0) && AllDigits(r.value.1) && |r.value.0| + |r.value.1| > 0
  {
    var dot := IndexOfChar(s, '.');
    var ip := if dot.Some? then s[..dot.value] else s;
    var fp := if dot.Some? then s[dot.value + 1..] else "";
    if AllDigits(ip) && AllDigits(fp) && |ip| + |fp| > 0 then Some((ip, fp)) else None
  }

  /**
   * `Number(s)` for a non-empty string without surrounding white space:
   * `None` stands for `NaN`.
   */
  function ParseNumeral(s: string): (r: Option<Decimal>)
    ensures r.Some? ==> Normal(r.value)
  {
    var neg := |s| > 0 && s[0] == '-';
    var body := if |s| > 0 && (s[0] == '-' || s[0] == '+') then s[1..] else s;
    match UnsignedNumeral(body)
    case None => None
    case Some((ip, fp)) =>
      DigitsValueAppend(ip, fp);
      var m: int := DigitsValue(ip + fp);
      Some(Normalize(if neg then -m else m, |fp|))
  }

  predicate IsNumeral(s: string)
  {
    ParseNumeral(s).Some?
  }

  /** Digits of the magnitude, with enough leading zeros to leave one before the point. */
  function MagnitudeDigits(d: Decimal): (r: string)
    ensures |r| > d.scale && AllDigits(r) && DigitsValue(r) == Magnitude(d)
  {
    PadZerosValue(NatToString(Magnitude(d)), d.scale + 1);
    PadZeros(NatToString(Magnitude(d)), d.scale + 1)
  }

  /** The rendering of the magnitude: integer digits, then `.` and the fraction digits if any. */
  function UnsignedText(d: Decimal): string
  {
    var ds := MagnitudeDigits(d);
    var cut := |ds| - d.scale;
    ds[..cut] + (if d.scale == 0 then "" else "." + ds[cut..])
  }

  /** `String(n)` for a number in plain (non-exponent) notation. */
  function DecimalToString(d: Decimal): string
    requires Normal(d)
  {
    (if d.mantissa < 0 then "-" else "") + UnsignedText(d)
  }

  function Magnitude(d: Decimal): nat
  {
    if d.mantissa < 0 then -d.mantissa else d.mantissa
  }

  /** The two digit runs `ParseNumeral` finds in the rendered magnitude. */
  lemma UnsignedParts(d: Decimal) returns (ip: string, fp: string)
    ensures UnsignedNumeral(UnsignedText(d)) == Some((ip, fp))
    ensures |fp| == d.scale
    ensures AllDigits(ip + fp) && DigitsValue(ip + fp) == Magnitude(d)
    ensures IsDigit(UnsignedText(d)[0])
  {
    var ds := MagnitudeDigits(d);
    var cut := |ds| - d.scale;
    ip, fp := ds[..cut], ds[cut..];
    assert ip + fp == ds;
    DigitsSplit(ds, cut);
    UnsignedOfParts(ip, fp);
  }

  lemma DigitsSplit(ds: string, cut: nat)
    requires AllDigits(ds) && 0 < cut <= |ds|
    ensures AllDigits(ds[..cut]) && AllDigits(ds[cut..]) && IsDigit(ds[..cut][0])
  {
    assert ds[..cut][0] == ds[0];
    assert forall j :: 0 <= j < |ds[cut..]| ==> ds[cut..][j] == ds[cut + j];
  }

  /** Digits, then `.` and more digits when there are any: the numeral splits back into the two runs. */
  lemma UnsignedOfParts(ip: string, fp: string)
    requires AllDigits(ip) && AllDigits(fp) && |ip| > 0
    ensures UnsignedNumeral(ip + (if |fp| == 0 then "" else "." + fp)) == Some((ip, fp))
    ensures (ip + (if |fp| == 0 then "" else "." + fp))[0] == ip[0]
  {
    assert '.' !in ip by {
      assert forall j :: 0 <= j < |ip| ==> IsDigit(ip[j]);
    }
    if |fp| == 0 {
      assert ip + "" == ip;
    } else {
      var body := ip + ("." + fp);
      assert body[..|ip|] == ip && body[|ip|] == '.';
      IndexOfCharAt(body, '.', |ip|);
      assert body[|ip| + 1..] == fp;
    }
  }

  /** Rendering a number and reading it back yields the same number. */
  lemma NumeralRoundTrip(d: Decimal)
    requires Normal(d)
    ensures ParseNumeral(DecimalToString(d)) == Some(d)
  {
    var ip, fp := UnsignedParts(d);
    var u := UnsignedText(d);
    ParseSigned(d.mantissa < 0, u, ip, fp);
    SignedMagnitude(d, DigitsValue(ip + fp));
  }

  /** The magnitude with the number's sign, in lowest terms at its own scale, is the number. */
  lemma SignedMagnitude(d: Decimal, m: int)
    requires Normal(d) && m == Magnitude(d)
    ensures Normalize(if d.mantissa < 0 then -m else m, d.scale) == d
  {
    assert (if d.mantissa < 0 then -m else m) == d.mantissa;
    NormalizeNormal(d);
  }

  /** An optional `-` before an unsigned numeral that starts with a digit negates its value. */
  lemma ParseSigned(neg: bool, u: string, ip: string, fp: string)
    requires UnsignedNumeral(u) == Some((ip, fp)) && |u| > 0 && IsDigit(u[0])
    ensures AllDigits(ip + fp)
    ensures var m: int := DigitsValue(ip + fp);
      ParseNumeral((if neg then "-" else "") + u) == Some(Normalize(if neg then -m else m, |fp|))
  {
    DigitsValueAppend(ip, fp);
    var s := (if neg then "-" else "") + u;
    if neg {
      assert s[0] == '-' && s[1..] == u;
    } else {
      assert s == u && s[0] != '-' && s[0] != '+';
    }
  }

  lemma NormalizeNormal(d: Decimal)
    requires Normal(d)
    ensures Normalize(d.mantissa, d.scale) == d
  {
  }

  /** A word that starts with neither a digit, a sign nor a point is `NaN`. */
  lemma WordNotNumber(s: string)
    requires |s| > 0 && !IsSpace(s[0]) && !IsSpace(s[|s| - 1])
    requires !IsDigit(s[0]) && s[0] != '+' && s[0] != '-' && s[0] != '.'
    ensures JsNumber(s) == None
  {
    TrimIdentity(s);
    TrimEmptyIffBlank(s);
    var dot := IndexOfChar(s, '.');
    if dot.Some? {
      assert s[..dot.value][0] == s[0];
    }
  }

  /**
   * `Number(s)` on any string: surrounding white space is ignored and a blank
   * string is zero; `None` stands for `NaN`.
   */
  function JsNumber(s: string): (r: Option<Decimal>)
    ensures r.Some? ==> Normal(r.value)
    ensures AllSpace(s) ==> r == Some(Decimal(0, 0))
  {
    TrimEmptyIffBlank(s);
    if Trim(s) == "" then Some(Decimal(0, 0)) else ParseNumeral(Trim(s))
  }
}
