/**
 The same pipeline as it runs on 64-bit integers: every sum, difference, product and quotient wraps.
 Inside the field ranges of the resource definition it computes what the unbounded pipeline computes.
 */
module MachineArithmetic {
  import opened Wrappers
  import opened Rounding
  import opened ResourceStep

  const TWO_63: int := 0x8000_0000_0000_0000
  const TWO_64: int := 0x1_0000_0000_0000_0000
  const TWO_53: int := 0x20_0000_0000_0000
  const LARGEST: int := 9_223_372_036_854_775   // the largest number with 1000 * LARGEST < 2^63

  predicate FitsInt64(x: int) { -TWO_63 <= x < TWO_63 }

  /** Two's complement. */
  function Wrap(x: int): int {
    (x + TWO_63) % TWO_64 - TWO_63
  }

  function DivCeil64(n: int, d: int): int {
    if d == 0 then n
    else if n == 0 then 0
    else if n > 0 && d > 0 then Wrap(TruncDiv(Wrap(Wrap(n + d) - 1), d))
    else Wrap(TruncDiv(n, d))
  }

  function RoundUp64(v: int, step: int): int {
    if step <= 0 then v
    else if v <= 0 then 0
    else Wrap(Wrap(TruncDiv(Wrap(Wrap(v + step) - 1), step)) * step)
  }

  function RoundDown64(v: int, step: int): int {
    if step <= 0 then v
    else if v <= 0 then 0
    else Wrap(Wrap(TruncDiv(v, step)) * step)
  }

  function Quantize64(target: int, current: int, allowDown: bool, step: int): int {
    if step <= 0 then target
    else if target > current then RoundUp64(target, step)
    else if target < current && allowDown then RoundDown64(target, step)
    else target
  }

  function PassesPercent64(target: int, current: int, pct: int, up: bool): bool {
    if pct <= 0 then true
    else if current == 0 then up && target > 0
    else if up then Wrap(Wrap(target - current) * 100) >= Wrap(current * pct)
    else Wrap(Wrap(current - target) * 100) >= Wrap(current * pct)
  }

  function Decide64(target0: int, current0: int, upPct: int, downPct: int,
                    allowDown: bool, minChange: int): Decision
  {
    var current := if current0 < 0 then 0 else current0;
    var target := if target0 < 0 then 0 else target0;
    if target == current then Decision(current, false, false)
    else if target > current then
      if !PassesPercent64(target, current, upPct, true) then Decision(current, false, false)
      else if minChange > 0 && Wrap(target - current) < minChange then Decision(current, false, false)
      else Decision(target, true, false)
    else if !allowDown then Decision(current, false, true)
    else if !PassesPercent64(target, current, downPct, false) then Decision(current, false, false)
    else if minChange > 0 && Wrap(current - target) < minChange then Decision(current, false, false)
    else Decision(target, true, false)
  }

  function DecideAmount64(current: int, usage: int, k: Knobs): Decision {
    var target := Quantize64(DivCeil64(Wrap(usage * k.headroom), 100), current, k.allowDown, k.step);
    Decide64(target, current, k.upPct, k.downPct, k.allowDown, k.minChange)
  }

  lemma WrapIsIdentity(x: int)
    ensures Wrap(x) == x <==> FitsInt64(x)
  {
  }

  lemma ProductRange(x: int, y: int, a: int, b: int)
    requires 0 <= x <= a && 0 <= y <= b
    ensures 0 <= x * y <= a * b
  {
  }

  lemma DivCeilFits(n: int)
    requires 0 <= n <= 400 * LARGEST
    ensures DivCeil64(n, 100) == DivCeil(n, 100)
    ensures 0 <= DivCeil(n, 100) <= 4 * LARGEST
  {
  }

  lemma RoundingFits(v: int, step: int)
    requires 0 <= v <= 4 * LARGEST && 0 < step <= TWO_53
    ensures RoundUp64(v, step) == RoundUp(v, step)
    ensures RoundDown64(v, step) == RoundDown(v, step)
    ensures 0 <= RoundUp(v, step) <= 4 * LARGEST + TWO_53 && 0 <= RoundDown(v, step) <= 4 * LARGEST
  {
    if v > 0 {
      var m := v + step - 1;
      WrapIsIdentity(v + step);
      WrapIsIdentity(m);
      RoundUpIsLeastMultiple(v, step);
      RoundDownIsGreatestMultiple(v, step);
      QuotientRange(m, step);
      QuotientRange(v, step);
      WrapIsIdentity(m / step);
      WrapIsIdentity(v / step);
      WrapIsIdentity(m / step * step);
      WrapIsIdentity(v / step * step);
    }
  }

  lemma QuotientRange(n: int, d: int)
    requires n >= 0 && d > 0
    ensures 0 <= n / d <= n
  {
    assert n == (n / d) * d + n % d;
    if n / d >= 0 { MulMonotone(1, d, n / d); }
  }

  lemma PercentFits(target: int, current: int, pct: int, up: bool)
    requires 0 <= target <= 4 * LARGEST + TWO_53 && 0 <= current <= LARGEST && 0 <= pct <= 1000
    requires if up then target > current else target < current
    ensures PassesPercent64(target, current, pct, up) == PassesPercent(target, current, pct, up)
  {
    var gap := if up then target - current else current - target;
    ProductRange(current, pct, LARGEST, 1000);
    WrapIsIdentity(current * pct);
    WrapIsIdentity(gap);
    WrapIsIdentity(gap * 100);
  }

  /** The ranges that the resource definition declares for headroom and thresholds. */
  predicate DeclaredRanges(k: Knobs) {
    100 <= k.headroom <= 400 && 0 <= k.upPct <= 1000 && 0 <= k.downPct <= 1000
  }

  /** Usages and current requests up to 2^63 / 1000 and the declared ranges of headroom and thresholds keep every
      intermediate value inside 64 bits, so no wrap-around ever shows. */
  lemma MachineRefinesIdeal(current: int, usage: int, k: Knobs)
    requires 0 <= usage <= LARGEST && 0 <= current <= LARGEST
    requires DeclaredRanges(k) && 0 < k.step <= TWO_53
    ensures DecideAmount64(current, usage, k) == DecideAmount(current, usage, k)
  {
    ProductRange(usage, k.headroom, LARGEST, 400);
    WrapIsIdentity(usage * k.headroom);
    DivCeilFits(usage * k.headroom);
    var t := Target(usage, k.headroom);
    RoundingFits(t, k.step);
    var q := Quantize(t, current, k.allowDown, k.step);
    if q > current {
      PercentFits(q, current, k.upPct, true);
      WrapIsIdentity(q - current);
    } else if q < current {
      PercentFits(q, current, k.downPct, false);
      WrapIsIdentity(current - q);
    }
  }

  // ----- the exact range -----

  /** For amounts up to n the machine computes the ideal decision, whatever the policy. */
  ghost predicate AgreesUpTo(n: int, step: int) {
    forall current, usage, k: Knobs |
      0 <= current <= n && 0 <= usage <= n && DeclaredRanges(k) && k.step == step ::
      DecideAmount64(current, usage, k) == DecideAmount(current, usage, k)
  }

  /** The percent threshold of 1000 is the first product to leave 64 bits, so the machine agrees with the ideal
      pipeline exactly up to 2^63 / 1000. */
  lemma AgreementExact(n: int, step: int)
    requires step in {50, 64 * 1024 * 1024}
    ensures AgreesUpTo(n, step) <==> 1000 * n < TWO_63
  {
    if 1000 * n < TWO_63 {
      forall current, usage, k: Knobs | 0 <= current <= n && 0 <= usage <= n && DeclaredRanges(k) && k.step == step
        ensures DecideAmount64(current, usage, k) == DecideAmount(current, usage, k)
      {
        MachineRefinesIdeal(current, usage, k);
      }
    } else {
      WrapsJustBeyond(step, 0);
      assert !AgreesUpTo(n, step);
    }
  }

  /** One unit beyond, doubling a request is accepted although the threshold demands ten times as much more: the
      right-hand side of the percent test wraps to a negative number. */
  lemma WrapsJustBeyond(step: int, minChange: int)
    requires step in {50, 64 * 1024 * 1024} && minChange <= LARGEST
    ensures var k := Knobs(true, step, 200, 1000, 0, false, minChange, None, None);
            var x := LARGEST + 1;
            && DecideAmount64(x, x, k) == Decision(RoundUp(2 * x, step), true, false)
            && DecideAmount(x, x, k) == Decision(x, false, false)
  {
    var x := LARGEST + 1;
    assert DivCeil64(Wrap(x * 200), 100) == 2 * x == Target(x, 200);
    RoundingFits(2 * x, step);
    RoundUpIsLeastMultiple(2 * x, step);
    DoublingPasses(RoundUp(2 * x, step));
    WrapIsIdentity(RoundUp(2 * x, step) - x);
  }

  lemma DoublingPasses(q: int)
    requires 2 * (LARGEST + 1) <= q < 2 * (LARGEST + 1) + TWO_53
    ensures PassesPercent64(q, LARGEST + 1, 1000, true) && !PassesPercent(q, LARGEST + 1, 1000, true)
  {
    var x := LARGEST + 1;
    WrapIsIdentity(q - x);
    WrapIsIdentity((q - x) * 100);
    assert Wrap(x * 1000) == x * 1000 - TWO_64 < 0;
  }
}
