/** The JavaScript numeric coercions the core relies on: `parseInt`,
    `parseFloat`, the implicit `Number(string)` of `string * 60`, and the
    rounding of `toFixed()`. Numbers are exact decimals; binary floating
    point is not modelled. */
module JsNumber {
  import opened JsValues
  import opened JsString

  /** A number: `mantissa / 10^exponent` exactly, or `NaN`. */
  datatype Number = Finite(mantissa: int, exponent: nat) | NaN

  function Pow10(e: nat): (r: nat)
    ensures r >= 1
  {
    if e == 0 then 1 else 10 * Pow10(e - 1)
  }

  predicate IsDigit(c: char)
  {
    '0' <= c <= '9'
  }

  predicate AllDigits(d: string)
  {
    forall i :: 0 <= i < |d| ==> IsDigit(d[i])
  }

  function DigitValue(c: char): (v: nat)
    requires IsDigit(c)
    ensures v < 10
  {
    (c as int) - ('0' as int)
  }

  function DigitChar(v: nat): (c: char)
    requires v < 10
    ensures IsDigit(c) && DigitValue(c) == v
  {
    ('0' as int + v) as char
  }

  /** Length of the run of decimal digits at the front of `s`. */
  function DigitRun(s: string): (n: nat)
    ensures n <= |s|
    ensures AllDigits(s[..n])
    ensures n == |s| || !IsDigit(s[n])
    decreases |s|
  {
    if |s| > 0 && IsDigit(s[0]) then
      var k := DigitRun(s[1..]);
      assert s[..1 + k] == [s[0]] + s[1..][..k];
      1 + k
    else 0
  }

  /** Value of a digit string, most significant digit first. */
  function DigitsValue(d: string): (v: nat)
    requires AllDigits(d)
    ensures v < Pow10(|d|)
    decreases |d|
  {
    if d == [] then 0
    else
      assert AllDigits(d[..|d| - 1]);
      10 * DigitsValue(d[..|d| - 1]) + DigitValue(d[|d| - 1])
  }

  /** The shortest decimal rendering of a natural number, as `String(n)` gives it. */
  function DecimalString(n: nat): (s: string)
    ensures |s| >= 1 && AllDigits(s)
    decreases n
  {
    if n < 10 then [DigitChar(n)] else DecimalString(n / 10) + [DigitChar(n % 10)]
  }

  /** Reading back a rendered natural number gives the number. */
  lemma {:induction false} DecimalStringValue(n: nat)
    ensures DigitsValue(DecimalString(n)) == n
    decreases n
  {
    if n >= 10 {
      DecimalStringValue(n / 10);
      var s := DecimalString(n);
      assert s[..|s| - 1] == DecimalString(n / 10);
    }
  }

  /** The sign that `parseInt`, `parseFloat` and `Number` accept in front of the digits. */
  function SignLength(t: string): (n: nat)
    ensures n <= 1 && n <= |t|
  {
    if |t| > 0 && (t[0] == '-' || t[0] == '+') then 1 else 0
  }

  function SignFactor(t: string): (k: int)
    ensures k == 1 || k == -1
  {
    if |t| > 0 && t[0] == '-' then -1 else 1
  }

  /** `parseInt(s)` with the radix left out: leading whitespace, an optional
      sign and the longest run of digits; `None` is `NaN` (no digit at all). */
  function ParseInt(s: string): (r: Option<int>)
    ensures TrimStart(s) == [] ==> r.None?
    ensures r.Some? && r.value < 0 ==> TrimStart(s)[0] == '-'
  {
    var t := TrimStart(s);
    var u := t[SignLength(t)..];
    var n := DigitRun(u);
    if n == 0 then None else Some(SignFactor(t) * DigitsValue(u[..n]))
  }

  /** `parseInt` reads a rendered natural number back, whatever non-digit text follows it. */
  lemma ParseIntReadsDecimal(n: nat, rest: string)
    requires rest == [] || !IsDigit(rest[0])
    ensures ParseInt(DecimalString(n) + rest) == Some(n)
  {
    var d := DecimalString(n);
    var s := d + rest;
    assert !IsWhitespace(s[0]);
    assert TrimStart(s) == s;
    assert SignLength(s) == 0 && SignFactor(s) == 1;
    DigitRunOfPrefix(d, rest);
    assert s[..|d|] == d;
    DecimalStringValue(n);
  }

  /** The digit run of a digit string followed by a non-digit is that digit string. */
  lemma {:induction false} DigitRunOfPrefix(d: string, rest: string)
    requires AllDigits(d)
    requires rest == [] || !IsDigit(rest[0])
    ensures DigitRun(d + rest) == |d|
    decreases |d|
  {
    if d != [] {
      assert (d + rest)[1..] == d[1..] + rest;
      assert AllDigits(d[1..]);
      DigitRunOfPrefix(d[1..], rest);
    } else {
      assert d + rest == rest;
    }
  }

  /** Scans a decimal literal (sign, digits, an optional `.` and digits) at the
      front of `t`; gives its value and how many characters it used. */
  function ScanDecimal(t: string): (r: (Number, nat))
    ensures r.1 <= |t|
    ensures r.0.NaN? <==> r.1 == 0
  {
    var k := SignLength(t);
    var u := t[k..];
    var a := DigitRun(u);
    var hasDot := a < |u| && u[a] == '.';
    var f := if hasDot then DigitRun(u[a + 1..]) else 0;
    if a + f == 0 then (NaN, 0)
    else
      var whole := DigitsValue(u[..a]);
      var frac := if hasDot then DigitsValue(u[a + 1..][..f]) else 0;
      (Finite(SignFactor(t) * (whole * Pow10(f) + frac), f), k + a + (if hasDot then 1 + f else 0))
  }

  /** `parseFloat(s)`: the longest decimal literal after leading whitespace;
      exponents and `Infinity` are not modelled. */
  function ParseFloat(s: string): (r: Number)
    ensures TrimStart(s) == [] ==> r.NaN?
  {
    ScanDecimal(TrimStart(s)).0
  }

  /** `Number(s)`, the coercion behind `s * 60`: the whole trimmed text must be
      a decimal literal; the empty text is zero; anything else is `NaN`. */
  function ToNumber(s: string): (r: Number)
    ensures Trim(s) == [] ==> r == Finite(0, 0)
  {
    var t := Trim(s);
    if t == [] then Finite(0, 0)
    else
      var (x, n) := ScanDecimal(t);
      if n == |t| then x else NaN
  }

  /** Multiplication by an integer; `NaN` stays `NaN`. */
  function Times(x: Number, k: int): (r: Number)
    ensures r.NaN? <==> x.NaN?
  {
    match x
    case NaN => NaN
    case Finite(m, e) => Finite(m * k, e)
  }

  /** A digit string reads as the number it spells, for `parseFloat` and for `Number` alike. */
  lemma ScanDigits(d: string)
    requires |d| >= 1 && AllDigits(d) && d[0] != '-' && d[0] != '+'
    ensures ScanDecimal(d) == (Finite(DigitsValue(d), 0), |d|)
  {
    assert SignLength(d) == 0 && SignFactor(d) == 1;
    assert d[0..] == d;
    assert d + [] == d;
    DigitRunOfPrefix(d, []);
    assert DigitRun(d) == |d|;
    assert d[..|d|] == d;
    assert Pow10(0) == 1;
    var whole := DigitsValue(d);
    assert 1 * (whole * 1 + 0) == whole;
  }

  /** `Number(String(n))` is `n`. */
  lemma ToNumberOfDecimal(n: nat)
    ensures ToNumber(DecimalString(n)) == Finite(n, 0)
  {
    var d := DecimalString(n);
    TrimKeepsTrimmed(d);
    ScanDigits(d);
    DecimalStringValue(n);
  }

  /** `parseFloat(String(n))` is `n`. */
  lemma ParseFloatOfDecimal(n: nat)
    ensures ParseFloat(DecimalString(n)) == Finite(n, 0)
  {
    var d := DecimalString(n);
    assert TrimStart(d) == d;
    ScanDigits(d);
    DecimalStringValue(n);
  }

  /** The rounding of `x.toFixed()` for `x == num / den`: the nearest integer,
      a tie going away from zero (`toFixed` rounds the magnitude, ties up).
      The three clauses determine the result. */
  function RoundHalfAwayFromZero(num: int, den: int): (r: int)
    requires den > 0
    ensures -den <= 2 * (num - r * den) <= den
    ensures 2 * (num - r * den) == den ==> num < 0
    ensures 2 * (num - r * den) == -den ==> num > 0
  {
    var a := if num >= 0 then num else -num;
    var q := (2 * a + den) / (2 * den);
    assert (2 * den) * q <= 2 * a + den < (2 * den) * q + 2 * den;
    assert (2 * den) * q == 2 * (q * den);
    assert -den <= 2 * (a - q * den) < den;
    if num >= 0 then q
    else
      assert -q * den == -(q * den);
      -q
  }

  /** Rounding to the nearest integer never reverses the order of two values. */
  lemma RoundMonotone(n1: int, n2: int, den: int)
    requires den > 0 && n1 <= n2
    ensures RoundHalfAwayFromZero(n1, den) <= RoundHalfAwayFromZero(n2, den)
  {
    var r1 := RoundHalfAwayFromZero(n1, den);
    var r2 := RoundHalfAwayFromZero(n2, den);
    if r1 > r2 {
      MultipleGap(r1, r2, den);
      assert false;
    }
  }

  /** Two different multiples of `den` lie at least `den` apart. */
  lemma MultipleGap(r1: int, r2: int, den: int)
    requires den > 0 && r1 > r2
    ensures r1 * den >= r2 * den + den
  {
    var d := r1 - r2;
    assert d >= 1;
    assert d * den >= den;
    assert r1 * den == r2 * den + d * den;
  }

  /** An integer multiple of `den` rounds to its exact quotient. */
  lemma RoundExact(k: int, den: int)
    requires den > 0
    ensures RoundHalfAwayFromZero(k * den, den) == k
  {
    var r := RoundHalfAwayFromZero(k * den, den);
    if r < k {
      MultipleGap(k, r, den);
      assert false;
    } else if r > k {
      MultipleGap(r, k, den);
      assert false;
    }
  }
}
