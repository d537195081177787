/** The part of BigNumber the core uses: an exact decimal, its
    `decimalPlaces()`, `toFixed(decimalPlaces())`, and
    `times(10^d).integerValue(ROUND_FLOOR)`. A fixed-point parser is the
    partner of `toFixed`. Powers of ten are applied digit by digit
    (`Shift`, `Drop`), which keeps every proof in linear arithmetic. */
module Decimal {
  import opened Wrappers
  import opened Strings

  /** The number `mantissa × 10^-scale`. Several values of this type can
      denote one number (`150, 2` and `15, 1`); BigNumber keeps one of them. */
  datatype Decimal = Decimal(mantissa: int, scale: nat)

  /** `x × 10^k`. */
  function Shift(x: int, k: nat): int {
    if k == 0 then x else Shift(x, k - 1) * 10
  }

  /** `floor(x / 10^k)`: the last `k` digits dropped. */
  function Drop(x: int, k: nat): int
    decreases k
  {
    if k == 0 then x else Drop(x / 10, k - 1)
  }

  /** `x` is a multiple of `10^k`: its last `k` digits are zeros. */
  predicate EndsInZeros(x: int, k: nat)
    decreases k
  {
    k == 0 || (x % 10 == 0 && EndsInZeros(x / 10, k - 1))
  }

  lemma {:induction false} ShiftAdd(x: int, a: nat, b: nat)
    ensures Shift(Shift(x, a), b) == Shift(x, a + b)
  {
    if b > 0 {
      ShiftAdd(x, a, b - 1);
    }
  }

  lemma {:induction false} ShiftMonotonic(x: int, y: int, k: nat)
    requires x <= y
    ensures Shift(x, k) <= Shift(y, k)
  {
    if k > 0 {
      ShiftMonotonic(x, y, k - 1);
    }
  }

  /** `Drop` is the floor of the division: `u × 10^k <= x < (u + 1) × 10^k`. */
  lemma {:induction false} DropIsFloor(x: int, k: nat)
    ensures Shift(Drop(x, k), k) <= x < Shift(Drop(x, k) + 1, k)
    decreases k
  {
    if k > 0 {
      var u := Drop(x, k);
      DropIsFloor(x / 10, k - 1);
      assert Shift(u, k - 1) <= x / 10 < Shift(u + 1, k - 1);
      ShiftTail(u, k);
      ShiftTail(u + 1, k);
    }
  }

  /** Shifting by `k >= 1` is shifting by `k - 1` and then by one digit. */
  lemma {:induction false} ShiftTail(x: int, k: nat)
    requires k > 0
    ensures Shift(x, k) == Shift(x, k - 1) * 10
  {
  }

  /** Dropping `k` digits and shifting back gives `x` exactly when those
      digits were zeros. */
  lemma {:induction false} ShiftDrop(x: int, k: nat)
    ensures Shift(Drop(x, k), k) == x <==> EndsInZeros(x, k)
    decreases k
  {
    if k > 0 {
      ShiftDrop(x / 10, k - 1);
      if Shift(Drop(x, k), k) == x {
        ShiftDropLast(Drop(x, k), k);
      }
    }
  }

  lemma {:induction false} ShiftDropLast(u: int, k: nat)
    requires k > 0
    ensures Shift(u, k) % 10 == 0 && Shift(u, k) / 10 == Shift(u, k - 1)
  {
  }

  /** `y × 10^j` ends in `j + e` zeros exactly when `y` ends in `e` of them. */
  lemma {:induction false} ShiftedEndsInZeros(y: int, j: nat, e: nat)
    ensures EndsInZeros(Shift(y, j), j + e) <==> EndsInZeros(y, e)
  {
    if j > 0 {
      ShiftDropLast(y, j);
      ShiftedEndsInZeros(y, j - 1, e);
    }
  }

  /** `decimalPlaces()`: how many fractional digits remain once trailing
      zeros are dropped. */
  function DecimalPlaces(a: Decimal): (k: nat)
    ensures k <= a.scale
    decreases a.scale
  {
    if a.scale > 0 && a.mantissa % 10 == 0 then DecimalPlaces(Decimal(a.mantissa / 10, a.scale - 1))
    else a.scale
  }

  /** The same number with its trailing fractional zeros dropped: the form in
      which BigNumber stores it. */
  function Normalize(a: Decimal): (n: Decimal)
    decreases a.scale
  {
    if a.scale > 0 && a.mantissa % 10 == 0 then Normalize(Decimal(a.mantissa / 10, a.scale - 1))
    else a
  }

  /** What `Normalize` keeps: the number itself (the dropped zeros shift the
      mantissa back) and the digit count `decimalPlaces()` reports; no zero is
      left to drop. */
  lemma {:induction false} NormalizeProperties(a: Decimal)
    ensures Normalize(a).scale == DecimalPlaces(a)
    ensures a.mantissa == Shift(Normalize(a).mantissa, a.scale - Normalize(a).scale)
    ensures Normalize(a).scale == 0 || Normalize(a).mantissa % 10 != 0
    decreases a.scale
  {
    if a.scale > 0 && a.mantissa % 10 == 0 {
      var b := Decimal(a.mantissa / 10, a.scale - 1);
      NormalizeProperties(b);
      var n := Normalize(b);
      var z := b.scale - n.scale;
      ShiftAdd(n.mantissa, z, 1);
    }
  }

  /** The floor of `a × 10^d`: the largest integer `u` with
      `u × 10^scale <= mantissa × 10^d`. */
  function BaseUnits(a: Decimal, d: nat): (u: int)
    ensures Shift(u, a.scale) <= Shift(a.mantissa, d) < Shift(u + 1, a.scale)
  {
    DropIsFloor(Shift(a.mantissa, d), a.scale);
    Drop(Shift(a.mantissa, d), a.scale)
  }

  /** The floor loses nothing exactly when the amount has at most `d`
      decimal places: the scale check that precedes each conversion makes
      the conversion exact, and only that check does. */
  lemma BaseUnitsExact(a: Decimal, d: nat)
    ensures Shift(BaseUnits(a, d), a.scale) == Shift(a.mantissa, d) <==> DecimalPlaces(a) <= d
  {
    NormalizeProperties(a);
    var n := Normalize(a);
    var m, k := n.mantissa, n.scale;
    var z := a.scale - k;
    var x := Shift(a.mantissa, d);
    ShiftAdd(m, z, d);
    assert x == Shift(m, z + d);
    ShiftDrop(x, a.scale);
    if k <= d {
      ShiftAdd(m, d - k, z + k);
      ShiftedEndsInZeros(Shift(m, d - k), z + k, 0);
    } else {
      ShiftedEndsInZeros(m, z + d, k - d);
    }
  }

  // Decimal digit strings.

  predicate IsDigit(c: char) {
    '0' <= c <= '9'
  }

  predicate AllDigits(s: string) {
    forall i :: 0 <= i < |s| ==> IsDigit(s[i])
  }

  function DigitChar(k: nat): (c: char)
    requires k < 10
    ensures IsDigit(c)
  {
    ('0' as int + k) as char
  }

  /** The number a digit string denotes. */
  function DigitsValue(s: string): nat
    requires AllDigits(s)
  {
    if s == [] then 0 else DigitsValue(s[..|s| - 1]) * 10 + (s[|s| - 1] as int - '0' as int)
  }

  /** The shortest decimal numeral of `n`. */
  function NatToString(n: nat): (s: string)
    ensures |s| > 0 && AllDigits(s)
  {
    if n < 10 then [DigitChar(n)] else NatToString(n / 10) + [DigitChar(n % 10)]
  }

  function Zeros(k: nat): (s: string)
    ensures |s| == k && AllDigits(s)
  {
    if k == 0 then "" else "0" + Zeros(k - 1)
  }

  /** `s` with zeros in front, up to `width` characters. */
  function PadLeft(s: string, width: nat): (r: string)
    requires AllDigits(s)
    ensures AllDigits(r) && |r| >= width && DigitsValue(r) == DigitsValue(s)
  {
    if |s| >= width then s
    else
      LeadingZeros(width - |s|, s);
      Zeros(width - |s|) + s
  }

  lemma {:induction false} NatToStringValue(n: nat)
    ensures DigitsValue(NatToString(n)) == n
  {
    var s := NatToString(n);
    if n >= 10 {
      NatToStringValue(n / 10);
      assert s[..|s| - 1] == NatToString(n / 10);
    }
  }

  lemma {:induction false} LeadingZeros(k: nat, s: string)
    requires AllDigits(s)
    ensures AllDigits(Zeros(k) + s) && DigitsValue(Zeros(k) + s) == DigitsValue(s)
    decreases |s|
  {
    var t := Zeros(k) + s;
    if s == [] {
      assert t == Zeros(k);
      ZerosValue(k);
    } else {
      assert t[..|t| - 1] == Zeros(k) + s[..|s| - 1];
      LeadingZeros(k, s[..|s| - 1]);
    }
  }

  lemma {:induction false} ZerosValue(k: nat)
    ensures DigitsValue(Zeros(k)) == 0
  {
    if k > 0 {
      var z := Zeros(k);
      assert z[..k - 1] == Zeros(k - 1) by {
        assert Zeros(k) == Zeros(k - 1) + "0" by { ZerosSnoc(k); }
      }
      ZerosValue(k - 1);
    }
  }

  lemma {:induction false} ZerosSnoc(k: nat)
    requires k > 0
    ensures Zeros(k) == Zeros(k - 1) + "0"
  {
    if k > 1 {
      ZerosSnoc(k - 1);
    }
  }

  function Abs(x: int): nat {
    if x < 0 then -x else x
  }

  /** The digits of `m × 10^-k` in fixed-point notation: the integer digits
      (at least one), and when `k > 0` a `.` and exactly `k` fractional
      digits. */
  function Magnitude(m: nat, k: nat): string {
    var digits := PadLeft(NatToString(m), k + 1);
    if k == 0 then digits
    else digits[..|digits| - k] + "." + digits[|digits| - k..]
  }

  /** `a.toFixed(a.decimalPlaces())`: an optional `-` and the magnitude with
      exactly `decimalPlaces()` fractional digits. No exponent, no trailing
      zeros. */
  function FixedText(a: Decimal): string {
    var n := Normalize(a);
    var sign := if n.mantissa < 0 then "-" else "";
    sign + Magnitude(Abs(n.mantissa), n.scale)
  }

  /** An unsigned fixed-point numeral: digits, and optionally `.` followed by
      at least one digit. The scale of the result is the number of digits
      after the point; anything else is refused. */
  function ParseUnsigned(body: string): Option<Decimal> {
    match IndexOf(body, '.')
    case None =>
      if |body| > 0 && AllDigits(body) then Some(Decimal(DigitsValue(body), 0)) else None
    case Some(i) =>
      var whole, fraction := body[..i], body[i + 1..];
      if |whole| > 0 && |fraction| > 0 && AllDigits(whole) && AllDigits(fraction) then
        Some(Decimal(Shift(DigitsValue(whole), |fraction|) + DigitsValue(fraction), |fraction|))
      else None
  }

  /** A numeral as `toFixed` writes it: an optional `-` before an unsigned
      numeral. */
  function ParseFixed(s: string): Option<Decimal> {
    if |s| > 0 && s[0] == '-' then
      match ParseUnsigned(s[1..])
      case None => None
      case Some(d) => Some(Decimal(-d.mantissa, d.scale))
    else ParseUnsigned(s)
  }

  lemma DigitsHaveNoPoint(s: string)
    requires AllDigits(s)
    ensures '.' !in s && (|s| > 0 ==> s[0] != '-')
  {
  }

  /** The value of a digit string is that of its first digits shifted past
      the last `j`, plus the value of those `j`. */
  lemma {:induction false} DigitsValueSplit(s: string, j: nat)
    requires AllDigits(s) && j <= |s|
    ensures DigitsValue(s) == Shift(DigitsValue(s[..|s| - j]), j) + DigitsValue(s[|s| - j..])
  {
    if j == 0 {
      assert s[..|s|] == s;
    } else {
      var init := s[..|s| - 1];
      DigitsValueSplit(init, j - 1);
      assert init[..|init| - (j - 1)] == s[..|s| - j];
      var tail := s[|s| - j..];
      assert tail[..|tail| - 1] == init[|init| - (j - 1)..];
      assert tail[|tail| - 1] == s[|s| - 1];
    }
  }

  lemma {:induction false} PointedParses(whole: string, fraction: string)
    requires |whole| > 0 && |fraction| > 0 && AllDigits(whole) && AllDigits(fraction)
    ensures ParseUnsigned(whole + "." + fraction)
         == Some(Decimal(Shift(DigitsValue(whole), |fraction|) + DigitsValue(fraction), |fraction|))
  {
    var body := whole + "." + fraction;
    DigitsHaveNoPoint(whole);
    IndexOfAfter(whole, '.', fraction);
    assert body[..|whole|] == whole;
    assert body[|whole| + 1..] == fraction;
  }

  /** Digits cut in two and joined by a point parse as the value of all
      the digits, at the scale of the second part. */
  lemma SplitDigitsParse(digits: string, whole: string, fraction: string)
    requires AllDigits(digits) && |whole| > 0 && |fraction| > 0 && digits == whole + fraction
    ensures ParseUnsigned(whole + "." + fraction) == Some(Decimal(DigitsValue(digits), |fraction|))
  {
    assert digits[..|digits| - |fraction|] == whole && digits[|digits| - |fraction|..] == fraction;
    assert AllDigits(whole) && AllDigits(fraction) by {
      assert forall i :: 0 <= i < |whole| ==> whole[i] == digits[i];
      assert forall i :: 0 <= i < |fraction| ==> fraction[i] == digits[|whole| + i];
    }
    PointedParses(whole, fraction);
    DigitsValueSplit(digits, |fraction|);
  }

  lemma MagnitudeParses(m: nat, k: nat)
    ensures |Magnitude(m, k)| > 0 && Magnitude(m, k)[0] != '-'
    ensures ParseUnsigned(Magnitude(m, k)) == Some(Decimal(m, k))
  {
    var digits := PadLeft(NatToString(m), k + 1);
    assert DigitsValue(digits) == m by {
      NatToStringValue(m);
    }
    if k == 0 {
      assert Magnitude(m, k) == digits;
      DigitsHaveNoPoint(digits);
    } else {
      var whole, fraction := digits[..|digits| - k], digits[|digits| - k..];
      assert Magnitude(m, k) == whole + "." + fraction;
      assert whole + fraction == digits;
      assert (whole + "." + fraction)[0] == digits[0];
      SplitDigitsParse(digits, whole, fraction);
    }
  }

  /** Round trip: reading back the fixed-point text gives the amount in
      BigNumber's own form. Since the parser's scale counts the digits after
      the point, the text carries exactly `decimalPlaces()` of them. */
  lemma ParseFixedText(a: Decimal)
    ensures ParseFixed(FixedText(a)) == Some(Normalize(a))
    ensures ParseFixed(FixedText(a)).value.scale == DecimalPlaces(a)
  {
    NormalizeProperties(a);
    var n := Normalize(a);
    var body := Magnitude(Abs(n.mantissa), n.scale);
    MagnitudeParses(Abs(n.mantissa), n.scale);
    if n.mantissa < 0 {
      assert FixedText(a)[1..] == body;
    } else {
      assert FixedText(a) == body;
    }
  }

  /** A numeral body in the shape `Magnitude` gives: digits after the
      first position, except one `.` before the last `k` of them. */
  predicate Pointed(b: string, k: nat) {
    && |b| > k
    && (forall i :: 1 <= i < |b| ==> IsDigit(b[i]) || (k > 0 && i == |b| - k - 1))
    && (k > 0 ==> |b| > k + 1 && b[|b| - k - 1] == '.' && IsDigit(b[|b| - k - 2]))
  }

  /** Putting a point before the last `k` of at least `k + 1` digits. */
  lemma PointDigits(digits: string, k: nat)
    requires AllDigits(digits) && |digits| >= k + 1
    ensures var b := if k == 0 then digits else digits[..|digits| - k] + "." + digits[|digits| - k..];
      IsDigit(b[0]) && Pointed(b, k)
  {
    if k > 0 {
      var whole, fraction := digits[..|digits| - k], digits[|digits| - k..];
      var b := whole + "." + fraction;
      forall i | 0 <= i < |b|
        ensures IsDigit(b[i]) || i == |b| - k - 1
      {
        if i < |whole| {
          assert b[i] == digits[i];
        } else if i > |whole| {
          assert b[i] == fraction[i - |whole| - 1] == digits[i - 1];
        }
      }
    }
  }

  /** The unsigned text has the pointed shape. */
  lemma MagnitudeShape(m: nat, k: nat)
    ensures IsDigit(Magnitude(m, k)[0]) && Pointed(Magnitude(m, k), k)
  {
    PointDigits(PadLeft(NatToString(m), k + 1), k);
  }

  lemma SignedPointed(body: string, k: nat)
    requires Pointed(body, k) && IsDigit(body[0])
    ensures Pointed("-" + body, k)
  {
    var t := "-" + body;
    forall i | 1 <= i < |t|
      ensures IsDigit(t[i]) || (k > 0 && i == |t| - k - 1)
    {
      assert t[i] == body[i - 1];
    }
  }

  /** The text is plain positional notation: an optional leading `-`, then
      digits, with a `.` followed by exactly `decimalPlaces()` digits when
      there are any, and no `.` otherwise (so no exponent and no padding). */
  lemma FixedTextShape(a: Decimal)
    ensures var t, k := FixedText(a), DecimalPlaces(a);
      && |t| > k
      && (t[0] == '-' || IsDigit(t[0]))
      && (forall i :: 1 <= i < |t| ==> IsDigit(t[i]) || (k > 0 && i == |t| - k - 1))
      && (k > 0 ==> |t| > k + 1 && t[|t| - k - 1] == '.' && IsDigit(t[|t| - k - 2]))
  {
    NormalizeProperties(a);
    var n := Normalize(a);
    var k := n.scale;
    var body := Magnitude(Abs(n.mantissa), k);
    MagnitudeShape(Abs(n.mantissa), k);
    if n.mantissa < 0 {
      SignedPointed(body, k);
      assert FixedText(a) == "-" + body;
    } else {
      assert FixedText(a) == body;
    }
  }
}
