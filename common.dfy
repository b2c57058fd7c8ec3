/** Values shared by every component: optional values, parsed client
    strings, PASS/FAIL verdicts, decimal rounding and decimal digit strings. */
module Common {

  datatype Option<T> = None | Some(value: T)

  /** What Python's `float(s)` (or JavaScript's `parseFloat`) makes of one
      submitted measurement string: a blank entry ('' or null, falsy in both
      languages), a number, or a non-empty string that does not parse. */
  datatype Raw = Blank | Number(v: real) | Malformed

  /** The value that gets stored for a non-blank entry, if it parses. */
  predicate Filled(r: Raw) { !r.Blank? }

  /** The `PASS` / `FAIL` strings of the `*_result` columns. */
  datatype Verdict = Pass | Fail

  // ---------------------------------------------------------------------
  // Decimal rounding
  // ---------------------------------------------------------------------

  /** The number of units of 1/scale nearest to x, halves upwards. */
  function Units(x: real, scale: real): int
  {
    (x * scale + 0.5).Floor
  }

  /** Rounding to the nearest multiple of 1/scale, halves upwards: with
      scale 100 it stands for Python `round(x, 2)`, with scale 10 for
      JavaScript `toFixed(1)`. */
  function RoundAt(x: real, scale: real): real
    requires scale > 0.0
  {
    (Units(x, scale) as real) / scale
  }

  function Round2(x: real): real { RoundAt(x, 100.0) }

  function Round1(x: real): real { RoundAt(x, 10.0) }

  lemma DivMul(a: real, d: real)
    requires d != 0.0
    ensures (a / d) * d == a
  {
  }

  lemma DivMonotone(a: real, b: real, d: real)
    requires d > 0.0
    ensures a < b ==> a / d < b / d
    ensures a <= b ==> a / d <= b / d
  {
  }

  lemma MulMonotone(a: real, b: real, d: real)
    requires d > 0.0 && a <= b
    ensures a * d <= b * d
  {
  }

  lemma FloorHalf(k: int)
    ensures ((k as real) + 0.5).Floor == k
  {
  }

  /** A value already on the grid has itself as its number of units. */
  lemma UnitsOfGrid(k: int, scale: real)
    requires scale > 0.0
    ensures Units((k as real) / scale, scale) == k
  {
    var q := (k as real) / scale;
    DivMul(k as real, scale);
    assert q * scale + 0.5 == (k as real) + 0.5;
    FloorHalf(k);
  }

  /** A value already on the grid is left alone (0 in particular). */
  lemma RoundAtOfGrid(k: int, scale: real)
    requires scale > 0.0
    ensures RoundAt((k as real) / scale, scale) == (k as real) / scale
  {
    UnitsOfGrid(k, scale);
  }

  /** Re-rounding a rounded value changes nothing. */
  lemma RoundAtIdempotent(x: real, scale: real)
    requires scale > 0.0
    ensures RoundAt(RoundAt(x, scale), scale) == RoundAt(x, scale)
  {
    UnitsOfGrid(Units(x, scale), scale);
  }

  /** The rounded value lies within half a unit of the last place. */
  lemma RoundAtClose(x: real, scale: real)
    requires scale > 0.0
    ensures x - 0.5 / scale < RoundAt(x, scale) <= x + 0.5 / scale
  {
    var n := Units(x, scale) as real;
    assert x * scale - 0.5 < n <= x * scale + 0.5;
    DivMonotone(x * scale - 0.5, n, scale);
    DivMonotone(n, x * scale + 0.5, scale);
    assert (x * scale + 0.5) / scale == x + 0.5 / scale;
    assert (x * scale - 0.5) / scale == x - 0.5 / scale;
  }

  /** Rounding never reverses the order of two values. */
  lemma RoundAtMonotone(x: real, y: real, scale: real)
    requires scale > 0.0 && x <= y
    ensures RoundAt(x, scale) <= RoundAt(y, scale)
  {
    MulMonotone(x, y, scale);
    assert Units(x, scale) <= Units(y, scale);
    DivMonotone(Units(x, scale) as real, Units(y, scale) as real, scale);
  }

  // ---------------------------------------------------------------------
  // Decimal digit strings
  // ---------------------------------------------------------------------

  predicate IsDigit(c: char) { '0' <= c <= '9' }

  function DigitChar(d: nat): (c: char)
    requires d < 10
    ensures IsDigit(c)
  {
    "0123456789"[d]
  }

  function DigitValue(c: char): (d: nat)
    requires IsDigit(c)
    ensures d < 10
  {
    (c as int - '0' as int) as nat
  }

  lemma DigitRoundTrip(d: nat)
    requires d < 10
    ensures DigitValue(DigitChar(d)) == d
  {
    assert "0123456789"[d] as int == '0' as int + d by {
      if d == 0 {} else if d == 1 {} else if d == 2 {} else if d == 3 {}
      else if d == 4 {} else if d == 5 {} else if d == 6 {} else if d == 7 {}
      else if d == 8 {} else {}
    }
  }

  predicate AllDigits(s: string)
  {
    forall i :: 0 <= i < |s| ==> IsDigit(s[i])
  }

  /** Python `str(n)` / `f'{n}'` for a non-negative integer. */
  function NatToString(n: nat): (s: string)
    decreases n
  {
    if n < 10 then [DigitChar(n)] else NatToString(n / 10) + [DigitChar(n % 10)]
  }

  lemma {:induction false} NatToStringDigits(n: nat)
    ensures |NatToString(n)| >= 1 && AllDigits(NatToString(n))
    decreases n
  {
    if n >= 10 {
      NatToStringDigits(n / 10);
    }
  }

  /** Value of a string of decimal digits, leading zeros allowed. */
  function DigitsValue(s: string): nat
    requires AllDigits(s)
    decreases |s|
  {
    if s == [] then 0 else 10 * DigitsValue(s[..|s| - 1]) + DigitValue(s[|s| - 1])
  }

  /** Python `int(s)` restricted to plain digit strings; anything else raises. */
  function ParseNat(s: string): (r: Option<nat>)
    ensures r.Some? <==> |s| >= 1 && AllDigits(s)
  {
    if |s| >= 1 && AllDigits(s) then Some(DigitsValue(s)) else None
  }

  lemma {:induction false} DigitsValueOfNatToString(n: nat)
    ensures AllDigits(NatToString(n)) && DigitsValue(NatToString(n)) == n
    decreases n
  {
    NatToStringDigits(n);
    var s := NatToString(n);
    if n < 10 {
      DigitRoundTrip(n);
    } else {
      DigitsValueOfNatToString(n / 10);
      DigitRoundTrip(n % 10);
      assert s[..|s| - 1] == NatToString(n / 10);
    }
  }

  /** `str` and `int` are inverse on non-negative integers. */
  lemma NatToStringRoundTrip(n: nat)
    ensures ParseNat(NatToString(n)) == Some(n)
  {
    NatToStringDigits(n);
    DigitsValueOfNatToString(n);
  }

  /** Leading zeros do not change the value of a digit string. */
  lemma {:induction false} LeadingZeros(z: nat, s: string)
    requires AllDigits(s)
    ensures AllDigits(Zeros(z) + s) && DigitsValue(Zeros(z) + s) == DigitsValue(s)
    decreases |s|
  {
    ZerosDigits(z);
    var t := Zeros(z) + s;
    assert AllDigits(t) by {
      forall i | 0 <= i < |t| ensures IsDigit(t[i]) {
        if i < z { assert t[i] == Zeros(z)[i]; } else { assert t[i] == s[i - z]; }
      }
    }
    if s == [] {
      assert t == Zeros(z);
      ZerosValue(z);
    } else {
      LeadingZeros(z, s[..|s| - 1]);
      assert t[..|t| - 1] == Zeros(z) + s[..|s| - 1];
      assert t[|t| - 1] == s[|s| - 1];
    }
  }

  function Zeros(z: nat): (s: string)
    ensures |s| == z
  {
    if z == 0 then [] else Zeros(z - 1) + ['0']
  }

  lemma {:induction false} ZerosDigits(z: nat)
    ensures AllDigits(Zeros(z))
  {
    if z > 0 { ZerosDigits(z - 1); }
  }

  lemma {:induction false} ZerosValue(z: nat)
    ensures AllDigits(Zeros(z)) && DigitsValue(Zeros(z)) == 0
  {
    ZerosDigits(z);
    if z > 0 {
      ZerosValue(z - 1);
      assert Zeros(z)[..z - 1] == Zeros(z - 1);
      assert DigitValue('0') == 0;
    }
  }

  /** Python `f'{n:03d}'`: at least three digits, zero-padded on the left. */
  function Pad3(n: nat): (s: string)
  {
    var d := NatToString(n);
    if |d| < 3 then Zeros(3 - |d|) + d else d
  }

  /** The padded number reads back as the number: `int(f'{n:03d}') == n`. */
  lemma Pad3RoundTrip(n: nat)
    ensures |Pad3(n)| >= 3
    ensures ParseNat(Pad3(n)) == Some(n)
  {
    var d := NatToString(n);
    DigitsValueOfNatToString(n);
    NatToStringDigits(n);
    if |d| < 3 {
      LeadingZeros(3 - |d|, d);
    }
  }
}
