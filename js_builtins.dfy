/**
 * The few JavaScript built-ins the quiz logic relies on, written out over
 * exact integers and strings: `Math.round` of a ratio, the end index of
 * `Array.prototype.slice(0, end)`, the emptiness test `!s.trim()`, the
 * decimal rendering of a non-negative integer and `padStart`.
 */
module JsBuiltins {

  // ---------------------------------------------------------------------------
  // Math.round(p / q)
  // ---------------------------------------------------------------------------

  /**
   * `Math.round(p / q)` for a positive divisor, on exact rationals: the
   * integer nearest to p/q, a half rounded up (towards +infinity, as
   * `Math.round` does). The ensures pins r down: r - 1/2 <= p/q < r + 1/2.
   */
  function RoundDiv(p: int, q: int): (r: int)
    requires q > 0
    ensures 2 * q * r - q <= 2 * p < 2 * q * r + q
  {
    var a, d := 2 * p + q, 2 * q;
    assert a == d * (a / d) + a % d;
    a / d
  }

  /** Multiplying by a positive factor keeps a strict order (helper). */
  lemma MulStrict(q: int, x: int, y: int)
    requires q > 0 && x < y
    ensures q * x < q * y
  {
    assert q * y - q * x == q * (y - x);
  }

  /** The characterisation in RoundDiv's ensures admits exactly one integer. */
  lemma RoundDivUnique(p: int, q: int, r: int)
    requires q > 0
    requires 2 * q * r - q <= 2 * p < 2 * q * r + q
    ensures r == RoundDiv(p, q)
  {
    var s := RoundDiv(p, q);
    if r < s {
      MulStrict(2 * q, r, s);
      assert 2 * q * (r + 1) <= 2 * q * s by { if r + 1 < s { MulStrict(2 * q, r + 1, s); } }
    } else if s < r {
      MulStrict(2 * q, s, r);
      assert 2 * q * (s + 1) <= 2 * q * r by { if s + 1 < r { MulStrict(2 * q, s + 1, r); } }
    }
  }

  /** Rounding a ratio that lies in [lo, hi] gives an integer in [lo, hi]. */
  lemma RoundDivBetween(p: int, q: int, lo: int, hi: int)
    requires q > 0
    requires q * lo <= p <= q * hi
    ensures lo <= RoundDiv(p, q) <= hi
  {
    var r := RoundDiv(p, q);
    if r < lo {
      MulStrict(2 * q, r, lo);
      assert 2 * q * (r + 1) <= 2 * q * lo by { if r + 1 < lo { MulStrict(2 * q, r + 1, lo); } }
    }
    if hi < r {
      MulStrict(2 * q, hi, r);
      assert 2 * q * (hi + 1) <= 2 * q * r by { if hi + 1 < r { MulStrict(2 * q, hi + 1, r); } }
    }
  }

  /** A ratio that is already a whole number is left as it is. */
  lemma RoundDivExact(k: int, q: int)
    requires q > 0
    ensures RoundDiv(k * q, q) == k
  {
    RoundDivUnique(k * q, q, k);
  }

  // ---------------------------------------------------------------------------
  // Array.prototype.slice(0, end)
  // ---------------------------------------------------------------------------

  /**
   * `s.slice(0, end)`: a negative end counts from the back of the array and
   * an end past the length is clamped to it.
   */
  function SliceTo<T>(s: seq<T>, end: int): (r: seq<T>)
    ensures r <= s
    ensures 0 <= end ==> |r| == if end < |s| then end else |s|
    ensures end < 0 ==> |r| == if |s| + end < 0 then 0 else |s| + end
  {
    var stop := if end < 0 then (if |s| + end < 0 then 0 else |s| + end)
                else (if end < |s| then end else |s|);
    s[..stop]
  }

  // ---------------------------------------------------------------------------
  // !s.trim()
  // ---------------------------------------------------------------------------

  /** The characters `String.prototype.trim` removes: ECMAScript WhiteSpace and LineTerminator. */
  predicate IsJsWhitespace(c: char) {
    || c == '\t' || c == '\U{000B}' || c == '\U{000C}' || c == ' ' || c == '\U{00A0}'
    || c == '\U{FEFF}' || c == '\U{1680}' || ('\U{2000}' <= c <= '\U{200A}')
    || c == '\U{202F}' || c == '\U{205F}' || c == '\U{3000}'
    || c == '\n' || c == '\r' || c == '\U{2028}' || c == '\U{2029}'
  }

  /** `s.trimStart()`: the suffix of s that starts at its first non-whitespace character. */
  function TrimStart(s: string): (r: string)
    ensures |r| <= |s| && r == s[|s| - |r|..]
    ensures r == [] || !IsJsWhitespace(r[0])
    ensures forall i :: 0 <= i < |s| - |r| ==> IsJsWhitespace(s[i])
  {
    if s == [] || !IsJsWhitespace(s[0]) then s else TrimStart(s[1..])
  }

  /** `!s.trim()`: nothing but whitespace (the empty string included). */
  predicate IsBlank(s: string) {
    forall i :: 0 <= i < |s| ==> IsJsWhitespace(s[i])
  }

  /**
   * Blankness is what `trim` decides: trimming both ends leaves the empty
   * string exactly when trimming the front does, and that happens exactly
   * for the blank strings.
   */
  lemma BlankIffTrimsToEmpty(s: string)
    ensures IsBlank(s) <==> TrimStart(s) == []
  {
    if TrimStart(s) != [] {
      var r := TrimStart(s);
      assert s[|s| - |r|] == r[0];
    }
  }

  // ---------------------------------------------------------------------------
  // Number.prototype.toString() and padStart on non-negative integers
  // ---------------------------------------------------------------------------

  predicate IsDigit(c: char) { '0' <= c <= '9' }

  predicate AllDigits(s: string) { forall i :: 0 <= i < |s| ==> IsDigit(s[i]) }

  function DigitChar(d: int): (c: char)
    requires 0 <= d < 10
    ensures IsDigit(c) && c as int - '0' as int == d
  {
    ('0' as int + d) as char
  }

  /** The decimal text of a non-negative integer, without leading zeros. */
  function Decimal(n: nat): (r: string)
    ensures |r| >= 1 && AllDigits(r)
    ensures r[0] == '0' ==> n == 0
    ensures |r| == 1 <==> n < 10
  {
    if n < 10 then [DigitChar(n)] else Decimal(n / 10) + [DigitChar(n % 10)]
  }

  /** Reads a string of decimal digits back as a number. */
  function DecimalValue(s: string): nat
    requires AllDigits(s)
  {
    if s == [] then 0
    else DecimalValue(s[..|s| - 1]) * 10 + (s[|s| - 1] as int - '0' as int)
  }

  /** Reading the rendered text gives back the number. */
  lemma {:induction false} DecimalRoundTrip(n: nat)
    ensures DecimalValue(Decimal(n)) == n
  {
    var r := Decimal(n);
    if n >= 10 {
      DecimalRoundTrip(n / 10);
      assert r[..|r| - 1] == Decimal(n / 10);
    }
  }

  /** `s.padStart(width, fill)` with a one-character fill. */
  function PadStart(s: string, width: nat, fill: char): (r: string)
    ensures |r| == if |s| < width then width else |s|
    ensures r[|r| - |s|..] == s
    ensures forall i :: 0 <= i < |r| - |s| ==> r[i] == fill
    decreases width - |s|
  {
    if |s| >= width then s else PadStart([fill] + s, width, fill)
  }

  /** Zero-padding keeps the value of a digit string. */
  lemma {:induction false} PadStartZerosValue(s: string, width: nat)
    requires AllDigits(s)
    ensures AllDigits(PadStart(s, width, '0'))
    ensures DecimalValue(PadStart(s, width, '0')) == DecimalValue(s)
    decreases width - |s|
  {
    if |s| < width {
      PadStartZerosValue(['0'] + s, width);
      LeadingZeroValue(s);
    }
  }

  /** A leading zero does not change a digit string's value (helper). */
  lemma {:induction false} LeadingZeroValue(s: string)
    requires AllDigits(s)
    ensures AllDigits(['0'] + s) && DecimalValue(['0'] + s) == DecimalValue(s)
  {
    if s != [] {
      LeadingZeroValue(s[..|s| - 1]);
      assert (['0'] + s)[..|s|] == ['0'] + s[..|s| - 1];
    }
  }
}
