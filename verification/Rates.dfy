/** Arithmetic of the fixed-point rate: accrual, daily rates and the decimal parser. */
module Rates {
  import opened Options
  import opened Protocol

  function CeilDiv(a: nat, b: nat): nat
    requires b > 0
  {
    (a + b - 1) / b
  }

  lemma CeilDivLeast(a: nat, b: nat, q: nat)
    requires b > 0
    ensures q >= CeilDiv(a, b) <==> q * b >= a
  {
    var c := CeilDiv(a, b);
    assert c * b <= a + b - 1 < c * b + b;
    if q >= c {
      assert q * b >= c * b;
    } else {
      assert q * b <= (c - 1) * b;
    }
  }

  // ---------------------------------------------------------------- accrual

  lemma AccrueMonotone(rate: nat, a: nat, b: nat)
    requires a <= b
    ensures Accrue(rate, a) <= Accrue(rate, b)
  {
    assert rate * a <= rate * b;
  }

  /** `figure` whole units are earned by `now`: never more than the total, never more than the rate
      has produced, and not a unit less unless the total is reached. */
  predicate Earned(t: Terms, now: int, figure: nat) {
    var elapsed := if now > t.startTime then now - t.startTime else 0;
    && figure <= t.total
    && figure * 1_000_000_000_000 <= t.ratePerSecond * elapsed
    && (figure == t.total || t.ratePerSecond * elapsed < (figure + 1) * 1_000_000_000_000)
  }

  lemma FloorUnique(x: nat, a: nat, b: nat)
    requires a * RATE_SCALE <= x < (b + 1) * RATE_SCALE
    ensures a <= b
  {
  }

  /** accruedAt computes exactly what is earned, and no other figure is. */
  lemma AccruedExactly(t: Terms, now: int, figure: nat)
    ensures Earned(t, now, AccruedAt(t, now))
    ensures Earned(t, now, figure) <==> figure == AccruedAt(t, now)
  {
    var x, f := t.ratePerSecond * ElapsedAt(t, now), AccruedAt(t, now);
    assert x / RATE_SCALE * RATE_SCALE <= x < (x / RATE_SCALE + 1) * RATE_SCALE;
    if Earned(t, now, figure) {
      if figure != t.total {
        FloorUnique(x, f, figure);
      }
      if f != t.total {
        FloorUnique(x, figure, f);
      }
    }
  }

  lemma AccruedMonotone(t: Terms, a: int, b: int)
    requires a <= b
    ensures AccruedAt(t, a) <= AccruedAt(t, b)
  {
    AccrueMonotone(t.ratePerSecond, ElapsedAt(t, a), ElapsedAt(t, b));
  }

  lemma NothingBeforeStart(t: Terms, now: int)
    requires now <= t.startTime
    ensures AccruedAt(t, now) == 0
  {
  }

  /** Two adjacent intervals accrue what their union does, to within one raw unit. */
  lemma AccrueAdditive(rate: nat, a: nat, b: nat)
    ensures Accrue(rate, a) + Accrue(rate, b) <= Accrue(rate, a + b)
    ensures Accrue(rate, a + b) <= Accrue(rate, a) + Accrue(rate, b) + 1
  {
    assert rate * (a + b) == rate * a + rate * b;
  }

  /** The total is reached exactly from ceil(total * 10^12 / rate) seconds on. */
  lemma ReachesTotal(t: Terms, elapsed: nat)
    requires t.ratePerSecond > 0
    ensures AccruedAt(t, t.startTime + elapsed) == t.total
            <==> elapsed >= CeilDiv(t.total * RATE_SCALE, t.ratePerSecond)
  {
    CeilDivLeast(t.total * RATE_SCALE, t.ratePerSecond, elapsed);
    assert ElapsedAt(t, t.startTime + elapsed) == elapsed;
    assert t.ratePerSecond * elapsed == elapsed * t.ratePerSecond;
  }

  /** Over any window the figure grows by at most ceil(rate * window / 10^12). */
  lemma WindowGrowth(t: Terms, now: int, window: nat)
    ensures AccruedAt(t, now) - AccruedAt(t, now - window)
            <= CeilDiv(t.ratePerSecond * window, RATE_SCALE)
  {
    var r, late, early := t.ratePerSecond, ElapsedAt(t, now), ElapsedAt(t, now - window);
    assert early <= late <= early + window;
    AccrueMonotone(r, late, early + window);
    assert r * (early + window) == r * early + r * window;
  }

  // ---------------------------------------------------------------- daily rates

  function RatePerDayToScaled(perDay: nat): nat {
    perDay * RATE_SCALE / 86_400
  }

  /** What the truncated daily rate loses over `elapsed` seconds, in 86400 * 10^12 units. */
  lemma RateLoss(perDay: nat, elapsed: nat) returns (loss: nat)
    ensures loss <= 86_400 * elapsed
    ensures 86_400 * (RatePerDayToScaled(perDay) * elapsed) == RATE_SCALE * (perDay * elapsed) - loss
  {
    var rate := RatePerDayToScaled(perDay);
    var lost := perDay * RATE_SCALE % 86_400;
    assert rate * 86_400 == perDay * RATE_SCALE - lost;
    loss := lost * elapsed;
    assert (rate * 86_400) * elapsed == (perDay * RATE_SCALE) * elapsed - lost * elapsed;
  }

  /** Never more than the exact daily pay, and at most ceil(e / 10^12) raw units less. */
  lemma RateAccuracy(perDay: nat, elapsed: nat)
    ensures var exact := perDay * elapsed / 86_400;
            var paid := Accrue(RatePerDayToScaled(perDay), elapsed);
            && paid <= exact
            && exact - paid <= CeilDiv(elapsed, RATE_SCALE)
            && (elapsed <= RATE_SCALE ==> exact - paid <= 1)
  {
    var loss := RateLoss(perDay, elapsed);
    RoundedLoss(perDay * elapsed, RatePerDayToScaled(perDay) * elapsed, loss, elapsed);
  }

  /** The scaled rate is the daily amount times 10^12 over 86400 seconds, rounded down. */
  lemma DailyRateIsFloor(perDay: nat)
    ensures RatePerDayToScaled(perDay) * 86_400 <= perDay * 1_000_000_000_000
    ensures perDay * 1_000_000_000_000 < (RatePerDayToScaled(perDay) + 1) * 86_400
  {
  }

  /** The same for what a stream at that rate has accrued: never more than the exact daily pay, and
      at most ceil(e / 10^12) raw units less until the total is reached. */
  lemma DailyPay(perDay: nat, t: Terms, elapsed: nat)
    requires t.ratePerSecond == RatePerDayToScaled(perDay)
    ensures var exact, paid := perDay * elapsed / 86_400, AccruedAt(t, t.startTime + elapsed);
            && paid <= exact
            && (paid < t.total ==> exact - paid <= CeilDiv(elapsed, RATE_SCALE))
            && (paid < t.total && elapsed <= RATE_SCALE ==> exact - paid <= 1)
  {
    RateAccuracy(perDay, elapsed);
  }

  lemma RoundedLoss(pay: nat, scaled: nat, loss: nat, elapsed: nat)
    requires loss <= 86_400 * elapsed
    requires 86_400 * scaled == RATE_SCALE * pay - loss
    ensures scaled / RATE_SCALE <= pay / 86_400
    ensures pay / 86_400 - scaled / RATE_SCALE <= CeilDiv(elapsed, RATE_SCALE)
    ensures elapsed <= RATE_SCALE ==> CeilDiv(elapsed, RATE_SCALE) <= 1
  {
  }

  /** The dashboard's daily figure, rounded to nearest as it is shown. */
  function PerDay(ratePerSecond: nat): nat {
    (ratePerSecond * 86_400 + RATE_SCALE / 2) / RATE_SCALE
  }

  lemma DisplayUndoesScaling(perDay: nat)
    ensures PerDay(RatePerDayToScaled(perDay)) == perDay
  {
  }

  lemma ResidueTimesTwo(n: nat, k: nat, b: nat)
    requires n == 27 * k + 2 * b && b < 27
    ensures n % 27 == 0 <==> b == 0
  {
    var r := if 2 * b < 27 then 2 * b else 2 * b - 27;
    assert n == 27 * (if 2 * b < 27 then k else k + 1) + r;
  }

  lemma ScaledResidue(n: nat)
    ensures 3200 * n % 86_400 == 3200 * (n % 27)
  {
    assert 3200 * n == 86_400 * (n / 27) + 3200 * (n % 27);
  }

  lemma ResidueOfProduct(a: nat)
    ensures a * 312_500_000 % 27 == 0 <==> a % 27 == 0
  {
    var k, b := a / 27, a % 27;
    assert a == 27 * k + b;
    ResidueTimesTwo(a * 312_500_000, k * 312_500_000 + b * 11_574_074, b);
  }

  /** What the truncated daily rate loses of an amount: 3200 units per residue modulo 27. */
  lemma DailyLoss(perDay: nat)
    ensures var n := perDay * 312_500_000;
            perDay * RATE_SCALE % 86_400 == 3200 * (n % 27) && (n % 27 == 0 <==> perDay % 27 == 0)
  {
    var n := perDay * 312_500_000;
    assert perDay * RATE_SCALE == 3200 * n;
    ScaledResidue(n);
    ResidueOfProduct(perDay);
  }

  /** Without the half unit the display is exact precisely for multiples of 27, and one unit
      short for every other amount. */
  lemma TruncatingDisplay(perDay: nat)
    ensures var shown := RatePerDayToScaled(perDay) * 86_400 / RATE_SCALE;
            && (shown == perDay <==> perDay % 27 == 0)
            && (perDay % 27 != 0 ==> shown == perDay - 1)
  {
    var lost := perDay * RATE_SCALE % 86_400;
    DailyLoss(perDay);
    assert RatePerDayToScaled(perDay) * 86_400 == perDay * RATE_SCALE - lost;
  }

  // ---------------------------------------------------------------- decimal parser

  predicate IsDigits(s: string) {
    forall i | 0 <= i < |s| :: '0' <= s[i] <= '9'
  }

  function DigitValue(c: char): nat {
    if '0' <= c <= '9' then c as int - '0' as int else 0
  }

  function Dec(s: string): nat {
    if s == "" then 0 else Dec(s[..|s| - 1]) * 10 + DigitValue(s[|s| - 1])
  }

  function Pow10(k: nat): (p: nat)
    ensures p > 0
  {
    if k == 0 then 1 else 10 * Pow10(k - 1)
  }

  function Zeros(k: nat): (z: string)
    ensures |z| == k && IsDigits(z)
  {
    seq(k, _ => '0')
  }

  /** BigInt(s) on decimal digits; the empty string is 0, other text is None. */
  function BigIntOf(s: string): Option<int> {
    if IsDigits(s) then Some(Dec(s)) else None
  }

  function FirstDot(s: string): (k: nat)
    ensures k <= |s|
    ensures k < |s| ==> s[k] == '.'
    ensures forall i | 0 <= i < k :: s[i] != '.'
  {
    if s == "" || s[0] == '.' then 0 else 1 + FirstDot(s[1..])
  }

  /** The text before the first dot, and the text between the first and the second. */
  function SplitAtDot(s: string): (string, string) {
    var k := FirstDot(s);
    var rest := if k < |s| then s[k + 1..] else "";
    (s[..k], rest[..FirstDot(rest)])
  }

  function Padded(frac: string): (p: string)
    ensures |p| == 12
    ensures IsDigits(frac) ==> IsDigits(p)
  {
    (frac + Zeros(12))[..12]
  }

  function ScaledParts(whole: string, fracPadded: string): Option<int> {
    match (BigIntOf(whole), BigIntOf(fracPadded))
    case (Some(w), Some(f)) => Some(w * RATE_SCALE + f)
    case _ => None
  }

  function ToScaledRate(s: string): Option<int> {
    var (whole, frac) := SplitAtDot(s);
    ScaledParts(whole, Padded(frac))
  }

  lemma ShiftDigit(a: nat, p: nat, d: nat, v: nat)
    ensures (a * p + d) * 10 + v == a * (10 * p) + (d * 10 + v)
  {
  }

  lemma {:induction false} DecBounded(b: string)
    ensures Dec(b) < Pow10(|b|)
  {
    if b != "" {
      DecBounded(b[..|b| - 1]);
    }
  }

  lemma {:induction false} DecAppend(a: string, b: string)
    ensures Dec(a + b) == Dec(a) * Pow10(|b|) + Dec(b)
  {
    if b == "" {
      assert a + b == a;
    } else {
      var init := b[..|b| - 1];
      DecAppend(a, init);
      assert (a + b)[..|a + b| - 1] == a + init;
      ShiftDigit(Dec(a), Pow10(|init|), Dec(init), DigitValue(b[|b| - 1]));
    }
  }

  lemma {:induction false} DecZeros(k: nat)
    ensures Dec(Zeros(k)) == 0
  {
    if k > 0 {
      DecZeros(k - 1);
      assert Zeros(k)[..k - 1] == Zeros(k - 1);
    }
  }

  lemma Pow10Twelve()
    ensures Pow10(12) == RATE_SCALE
  {
  }

  lemma {:induction false} Pow10Sum(a: nat, b: nat)
    ensures Pow10(a + b) == Pow10(a) * Pow10(b)
  {
    if a > 0 {
      Pow10Sum(a - 1, b);
    }
  }

  lemma {:induction false} FirstDotAt(s: string, k: nat)
    requires k <= |s|
    requires forall i | 0 <= i < k :: s[i] != '.'
    requires k < |s| ==> s[k] == '.'
    ensures FirstDot(s) == k
  {
    if k > 0 {
      FirstDotAt(s[1..], k - 1);
    }
  }

  lemma SplitNumeral(whole: string, frac: string)
    requires forall i | 0 <= i < |whole| :: whole[i] != '.'
    requires IsDigits(frac)
    ensures SplitAtDot(whole) == (whole, "")
    ensures SplitAtDot(whole + "." + frac) == (whole, frac)
  {
    var s := whole + "." + frac;
    FirstDotAt(whole, |whole|);
    assert forall i | 0 <= i < |whole| :: s[i] == whole[i];
    assert s[|whole|] == '.';
    FirstDotAt(s, |whole|);
    assert s[..|whole|] == whole && whole[..|whole|] == whole && frac[..|frac|] == frac;
    assert s[|whole| + 1..] == frac;
    FirstDotAt(frac, |frac|);
  }

  lemma TextBeforeDot(text: string, rest: string)
    requires forall i | 0 <= i < |text| :: text[i] != '.'
    ensures FirstDot(text + "." + rest) == |text|
    ensures (text + "." + rest)[..|text|] == text && (text + "." + rest)[|text| + 1..] == rest
  {
    var s := text + "." + rest;
    assert forall i | 0 <= i < |text| :: s[i] == text[i];
    FirstDotAt(s, |text|);
  }

  lemma SplitThreeParts(whole: string, tail: string, frac: string, rest: string)
    requires forall i | 0 <= i < |whole| :: whole[i] != '.'
    requires IsDigits(frac) && tail == frac + "." + rest
    ensures SplitAtDot(whole + "." + tail) == (whole, frac)
  {
    TextBeforeDot(whole, tail);
    TextBeforeDot(frac, rest);
  }

  /** Whatever follows a second point is ignored. */
  lemma SecondPointIgnored(whole: string, frac: string, rest: string)
    requires (forall i | 0 <= i < |whole| :: whole[i] != '.') && IsDigits(frac)
    ensures ToScaledRate(whole + "." + (frac + "." + rest)) == ToScaledRate(whole + "." + frac)
  {
    SplitNumeral(whole, frac);
    SplitThreeParts(whole, frac + "." + rest, frac, rest);
  }

  /** The padded fraction is the fraction's value cut to twelve digits. */
  lemma PaddedFraction(frac: string, padded: string)
    requires padded == Padded(frac)
    ensures Dec(padded) == Dec(frac) * RATE_SCALE / Pow10(|frac|)
  {
    if |frac| <= 12 {
      assert padded == frac + Zeros(12 - |frac|);
      ShortFraction(frac, padded);
    } else {
      assert padded == frac[..12];
      LongFraction(frac, padded);
    }
  }

  lemma ShortFraction(frac: string, padded: string)
    requires |frac| <= 12 && padded == frac + Zeros(12 - |frac|)
    ensures Dec(padded) == Dec(frac) * RATE_SCALE / Pow10(|frac|)
  {
    var k := 12 - |frac|;
    var pad := Zeros(k);
    DecZeros(k);
    DecAppend(frac, pad);
    assert Pow10(k) * Pow10(|frac|) == RATE_SCALE by {
      Pow10Twelve();
      Pow10Sum(k, |frac|);
    }
    RegroupedQuotient(Dec(frac), Pow10(k), Pow10(|frac|));
  }

  lemma LongFraction(frac: string, padded: string)
    requires |frac| > 12 && padded == frac[..12]
    ensures Dec(padded) == Dec(frac) * RATE_SCALE / Pow10(|frac|)
  {
    var cut := frac[12..];
    assert frac == padded + cut;
    DecAppend(padded, cut);
    DecBounded(cut);
    assert Pow10(|frac|) == RATE_SCALE * Pow10(|cut|) by {
      Pow10Twelve();
      Pow10Sum(12, |cut|);
    }
    FloorQuotient(Dec(padded), Dec(cut), Pow10(|cut|));
  }

  lemma RegroupedQuotient(d: nat, p: nat, q: nat)
    requires q > 0 && p * q == RATE_SCALE
    ensures d * RATE_SCALE / q == d * p
  {
    assert d * (p * q) == (d * p) * q;
    FloorIs(d * RATE_SCALE, q, d * p);
  }

  lemma FloorQuotient(q: nat, r: nat, d: nat)
    requires r < d
    ensures (q * d + r) * RATE_SCALE / (RATE_SCALE * d) == q
  {
    assert (q * d + r) * RATE_SCALE == q * (RATE_SCALE * d) + r * RATE_SCALE;
    assert 0 <= r * RATE_SCALE < RATE_SCALE * d;
    FloorIs((q * d + r) * RATE_SCALE, RATE_SCALE * d, q);
  }

  lemma TimesMonotone(a: int, b: int, d: nat)
    ensures a <= b ==> a * d <= b * d
  {
  }

  lemma FloorIs(x: nat, d: nat, q: nat)
    requires d > 0 && q * d <= x < q * d + d
    ensures x / d == q
  {
    var k := x / d;
    assert k * d <= x < k * d + d;
    assert (k + 1) * d == k * d + d;
    assert (q + 1) * d == q * d + d;
    TimesMonotone(k + 1, q, d);
    TimesMonotone(q + 1, k, d);
  }

  lemma FloorShift(w: nat, x: nat, d: nat)
    requires d > 0
    ensures (w * d + x) / d == w + x / d
  {
    var q := x / d;
    assert q * d <= x < q * d + d;
    assert (w + q) * d == w * d + q * d;
    FloorIs(w * d + x, d, w + q);
  }

  lemma ScaledShift(w: nat, f: nat, p: nat)
    requires p > 0
    ensures (w * p + f) * RATE_SCALE / p == w * RATE_SCALE + f * RATE_SCALE / p
  {
    assert (w * p + f) * RATE_SCALE == (w * RATE_SCALE) * p + f * RATE_SCALE;
    FloorShift(w * RATE_SCALE, f * RATE_SCALE, p);
  }

  lemma DigitParts(whole: string, padded: string, f: int)
    requires IsDigits(whole) && IsDigits(padded) && f == Dec(padded)
    ensures ScaledParts(whole, padded) == Some(Dec(whole) * RATE_SCALE + f)
  {
  }

  lemma NumeralValue(whole: string, frac: string, p: nat)
    requires p == Pow10(|frac|)
    ensures Dec(whole + frac) * RATE_SCALE / p == Dec(whole) * RATE_SCALE + Dec(frac) * RATE_SCALE / p
  {
    DecAppend(whole, frac);
    ScaledShift(Dec(whole), Dec(frac), p);
  }

  lemma PartsValue(whole: string, frac: string, padded: string, p: nat)
    requires IsDigits(whole) && IsDigits(frac) && padded == Padded(frac) && p == Pow10(|frac|)
    ensures ScaledParts(whole, padded) == Some(Dec(whole + frac) * RATE_SCALE / p)
  {
    PaddedFraction(frac, padded);
    var f := Dec(padded);
    DigitParts(whole, padded, f);
    NumeralValue(whole, frac, p);
  }

  /** toScaledRate computes floor(value * 10^12) for every nonnegative numeral, whatever the
      number of its fraction digits. */
  lemma ToScaledRateIsFloor(whole: string, frac: string)
    requires IsDigits(whole) && IsDigits(frac)
    ensures ToScaledRate(whole + "." + frac)
            == Some(Dec(whole + frac) * RATE_SCALE / Pow10(|frac|))
  {
    SplitNumeral(whole, frac);
    PartsValue(whole, frac, Padded(frac), Pow10(|frac|));
  }

  lemma ToScaledRateOfInteger(whole: string)
    requires IsDigits(whole)
    ensures ToScaledRate(whole) == Some(Dec(whole) * RATE_SCALE)
  {
    SplitNumeral(whole, "");
    assert Padded("") == Zeros(12);
    DecZeros(12);
    DigitParts(whole, Zeros(12), 0);
  }

  function Digits(n: nat, width: nat): (s: string)
    ensures |s| == width && IsDigits(s)
  {
    if width == 0 then "" else Digits(n / 10, width - 1) + [('0' as int + n % 10) as char]
  }

  lemma {:induction false} DigitsValue(n: nat, width: nat)
    requires n < Pow10(width)
    ensures Dec(Digits(n, width)) == n
    decreases width
  {
    if width > 0 {
      DigitsValue(n / 10, width - 1);
      assert Digits(n, width)[..width - 1] == Digits(n / 10, width - 1);
    }
  }

  lemma PaddedTwelve(frac: string)
    requires |frac| == 12
    ensures Padded(frac) == frac
  {
  }

  lemma RateOfParts(s: string, whole: string, frac: string, rate: nat)
    requires SplitAtDot(s) == (whole, frac) && Padded(frac) == frac
    requires IsDigits(whole) && Dec(whole) == rate / RATE_SCALE
    requires IsDigits(frac) && Dec(frac) == rate % RATE_SCALE
    ensures ToScaledRate(s) == Some(rate)
  {
    DigitParts(whole, frac, rate % RATE_SCALE);
  }

  /** A scaled rate printed with its twelve fraction digits parses back to itself; DigitsValue
      gives such a text for every rate. */
  lemma PrintedRateParses(rate: nat, whole: string, frac: string)
    requires IsDigits(whole) && Dec(whole) == rate / RATE_SCALE
    requires IsDigits(frac) && |frac| == 12 && Dec(frac) == rate % RATE_SCALE
    ensures ToScaledRate(whole + "." + frac) == Some(rate)
  {
    SplitNumeral(whole, frac);
    PaddedTwelve(frac);
    RateOfParts(whole + "." + frac, whole, frac, rate);
  }
}
