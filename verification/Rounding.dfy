/**
 The integer pipeline of the resize policy: ceiling of usage times headroom, directional
 rounding to a step, and the percent and absolute deadband of the decision.
 */
module Rounding {

  // ----- Go's integer operators -----

  /** Go's `/` truncates toward zero, Dafny's is Euclidean. */
  function TruncDiv(n: int, d: int): int
    requires d != 0
  {
    if n >= 0 then n / d else -(-n / d)
  }

  function DivCeil(n: int, d: int): int {
    if d == 0 then n
    else if n == 0 then 0
    else if n > 0 && d > 0 then TruncDiv(n + d - 1, d)
    else TruncDiv(n, d)
  }

  function RoundUp(v: int, step: int): int {
    if step <= 0 then v
    else if v <= 0 then 0
    else TruncDiv(v + step - 1, step) * step
  }

  function RoundDown(v: int, step: int): int {
    if step <= 0 then v
    else if v <= 0 then 0
    else TruncDiv(v, step) * step
  }

  /** The CPU and the memory variant differ only in their step. */
  function Quantize(target: int, current: int, allowDown: bool, step: int): int {
    if step <= 0 then target
    else if target > current then RoundUp(target, step)
    else if target < current && allowDown then RoundDown(target, step)
    else target
  }

  function Target(usage: int, headroom: int): int {
    DivCeil(usage * headroom, 100)
  }

  // ----- the decision -----

  function PassesPercent(target: int, current: int, pct: int, up: bool): bool {
    if pct <= 0 then true
    else if current == 0 then up && target > 0
    else if up then (target - current) * 100 >= current * pct
    else (current - target) * 100 >= current * pct
  }

  datatype Decision = Decision(value: int, changed: bool, downSkipped: bool)

  function Decide(target0: int, current0: int, upPct: int, downPct: int,
                  allowDown: bool, minChange: int): Decision
  {
    var current := if current0 < 0 then 0 else current0;
    var target := if target0 < 0 then 0 else target0;
    if target == current then Decision(current, false, false)
    else if target > current then
      if !PassesPercent(target, current, upPct, true) then Decision(current, false, false)
      else if minChange > 0 && target - current < minChange then Decision(current, false, false)
      else Decision(target, true, false)
    else if !allowDown then Decision(current, false, true)
    else if !PassesPercent(target, current, downPct, false) then Decision(current, false, false)
    else if minChange > 0 && current - target < minChange then Decision(current, false, false)
    else Decision(target, true, false)
  }

  function Max(x: int, y: int): int { if x > y then x else y }

  /** Both thresholds, without the program's special cases for a zero percentage, a zero
      current value and a zero minimum change. */
  predicate Clears(gap: int, current: int, pct: int, minChange: int) {
    gap * 100 >= current * pct && gap >= minChange
  }

  // ----- what the pieces compute -----

  lemma DivCeilIsCeiling(n: int, d: int)
    requires d > 0
    ensures (DivCeil(n, d) - 1) * d < n <= DivCeil(n, d) * d
  {
  }

  /** Rounding up gives the least multiple of the step that is not below a positive value. */
  lemma RoundUpIsLeastMultiple(v: int, step: int)
    requires step > 0 && v > 0
    ensures RoundUp(v, step) % step == 0
    ensures v <= RoundUp(v, step) < v + step
  {
    var m := v + step - 1;
    assert m == (m / step) * step + m % step;
    MultipleHasNoRemainder(m / step, step);
  }

  /** Rounding down gives the greatest multiple of the step that is not above a positive value. */
  lemma RoundDownIsGreatestMultiple(v: int, step: int)
    requires step > 0 && v > 0
    ensures RoundDown(v, step) % step == 0
    ensures v - step < RoundDown(v, step) <= v
    ensures 0 <= RoundDown(v, step)
  {
    assert v == (v / step) * step + v % step;
    MultipleHasNoRemainder(v / step, step);
    MulNonNegative(v / step, step);
  }

  lemma MultipleHasNoRemainder(q: int, d: int)
    requires d > 0
    ensures (q * d) % d == 0
  {
    var x := q * d;
    assert x == (x / d) * d + x % d;
    var k := q - x / d;
    assert k * d == q * d - (x / d) * d;
    assert k * d == x % d;
    if k >= 1 { MulMonotone(1, k, d); } else if k <= -1 { MulMonotone(k, -1, d); }
  }

  lemma MulNonNegative(x: int, y: int)
    requires x >= 0 && y >= 0
    ensures x * y >= 0
  {
  }

  lemma MulMonotone(x: int, y: int, f: int)
    requires x <= y && f >= 0
    ensures x * f <= y * f
  {
  }

  /** The decision in one line: the request moves to the target exactly when it differs from it in an
      allowed direction by a gap that clears the percent and the absolute threshold. The branches on
      zero percentages, zero requests and unset minimum changes are instances of this rule. */
  lemma DecideLaw(target: int, current: int, upPct: int, downPct: int, allowDown: bool, minChange: int)
    ensures var d := Decide(target, current, upPct, downPct, allowDown, minChange);
            var t, c := Max(target, 0), Max(current, 0);
            && (d.changed <==>
                || (t > c && Clears(t - c, c, upPct, minChange))
                || (t < c && allowDown && Clears(c - t, c, downPct, minChange)))
            && d.value == (if d.changed then t else c)
            && (d.downSkipped <==> t < c && !allowDown)
  {
  }

  lemma TargetMonotone(u1: int, u2: int, headroom: int)
    requires u1 <= u2 && headroom >= 0
    ensures Target(u1, headroom) <= Target(u2, headroom)
  {
    MulMonotone(u1, u2, headroom);
    DivCeilIsCeiling(u1 * headroom, 100);
    DivCeilIsCeiling(u2 * headroom, 100);
  }

  lemma DivMonotone(x: int, y: int, d: int)
    requires 0 <= x <= y && d > 0
    ensures x / d <= y / d
  {
    assert x == (x / d) * d + x % d;
    assert y == (y / d) * d + y % d;
    if x / d > y / d {
      MulMonotone(y / d + 1, x / d, d);
    }
  }

  /** For a fixed current value, the rounded target keeps the side of the current value the target is on
      (or lands on the floor at zero), and never decreases as the target grows. */
  lemma QuantizeMonotone(t1: int, t2: int, current: int, allowDown: bool, step: int)
    requires t1 <= t2 && step > 0
    ensures Max(Quantize(t1, current, allowDown, step), 0) <= Max(Quantize(t2, current, allowDown, step), 0)
    ensures t1 <= current ==> Max(Quantize(t1, current, allowDown, step), 0) <= Max(current, 0)
    ensures t2 > current ==> Quantize(t2, current, allowDown, step) >= t2
  {
    if t1 > 0 {
      RoundUpIsLeastMultiple(t1, step);
      RoundDownIsGreatestMultiple(t1, step);
      DivMonotone(t1, t2, step);
      DivMonotone(t1 + step - 1, t2 + step - 1, step);
      MulMonotone(t1 / step, t2 / step, step);
      MulMonotone((t1 + step - 1) / step, (t2 + step - 1) / step, step);
    }
    if t2 > 0 {
      RoundUpIsLeastMultiple(t2, step);
      RoundDownIsGreatestMultiple(t2, step);
    }
  }
}
