/**
 The policy in a closed loop: the same usage is fed back pass after pass with scaling down allowed.
 Every trajectory either rests or ends up swinging forever between the two multiples of the step
 around the target, and which of the two happens is decided by a closed condition.
 */
module ClosedLoop {
  import opened Wrappers
  import opened Rounding
  import opened ResourceStep

  // ----- iterating a function on integers -----

  function Iterate(f: int -> int, n: nat, x: int): int {
    if n == 0 then x else f(Iterate(f, n - 1, x))
  }

  lemma {:induction false} IterateRests(f: int -> int, n: nat, m: nat, x: int)
    requires n <= m && Iterate(f, n + 1, x) == Iterate(f, n, x)
    ensures Iterate(f, m, x) == Iterate(f, n, x)
    decreases m - n
  {
    if n == m {
    } else {
      IterateRests(f, n, m - 1, x);
    }
  }

  /** A function that maps two points into themselves either exchanges them forever or settles after one step. */
  lemma {:induction false} IterateOnPair(f: int -> int, low: int, high: int, m: nat, n: nat, x: int)
    requires f(low) in {low, high} && f(high) in {low, high}
    requires m <= n && Iterate(f, m, x) in {low, high}
    ensures var now, next := Iterate(f, n, x), Iterate(f, n + 1, x);
            && now in {low, high} && next in {low, high}
            && (f(low) != low && f(high) != high ==> next != now)
            && ((f(low) == low || f(high) == high) && n > m ==> next == now)
    decreases n
  {
    if n == m {
    } else {
      IterateOnPair(f, low, high, m, n - 1, x);
    }
  }

  // ----- the closed loop of one resource -----

  /** The amount requested after one pass. With limits that follow requests there is no limit to clamp to. */
  function Next(x: int, usage: int, k: Knobs, lim: Option<int>): int {
    Step(Some(x), lim, usage, k, KeepLimits).req.GetOr(0)
  }

  function Trajectory(n: nat, x: int, usage: int, k: Knobs, lim: Option<int>): int {
    Iterate(y => Next(y, usage, k, lim), n, x)
  }

  /** The two amounts a moving request can land on: the target rounded down and up, inside bounds and limit. */
  function Low(usage: int, k: Knobs, lim: Option<int>): int {
    Project(RoundDown(Target(usage, k.headroom), k.step), k, lim)
  }

  function High(usage: int, k: Knobs, lim: Option<int>): int {
    Project(RoundUp(Target(usage, k.headroom), k.step), k, lim)
  }

  /** The swing: both landing amounts are on the wrong side of the target, and each jump clears the thresholds. */
  predicate Swings(usage: int, k: Knobs, lim: Option<int>) {
    var t := Target(usage, k.headroom);
    var low, high := Low(usage, k, lim), High(usage, k, lim);
    && low < t < high
    && Clears(RoundUp(t, k.step) - Max(low, 0), Max(low, 0), k.upPct, k.minChange)
    && Clears(Max(high, 0) - RoundDown(t, k.step), Max(high, 0), k.downPct, k.minChange)
  }

  ghost predicate Closed(k: Knobs) {
    k.managed && k.allowDown && k.step > 0 && k.OrderedBounds()
  }

  /** The target lies above the request by a gap that clears the thresholds. */
  predicate Rises(x: int, usage: int, k: Knobs) {
    var t := Target(usage, k.headroom);
    var up := RoundUp(t, k.step);
    t > x && up > Max(x, 0) && Clears(up - Max(x, 0), Max(x, 0), k.upPct, k.minChange)
  }

  /** The target lies below the request by a gap that clears the thresholds. */
  predicate Falls(x: int, usage: int, k: Knobs) {
    var t := Target(usage, k.headroom);
    var down := RoundDown(t, k.step);
    t < x && down < Max(x, 0) && Clears(Max(x, 0) - down, Max(x, 0), k.downPct, k.minChange)
  }

  /** One pass either only projects the request into bounds and limit, or moves it to the landing amount
      on the side it came from. */
  lemma NextCases(x: int, usage: int, k: Knobs, lim: Option<int>)
    requires k.managed && k.step > 0 && k.OrderedBounds()
    ensures Next(x, usage, k, lim) ==
            if Rises(x, usage, k) then High(usage, k, lim)
            else if k.allowDown && Falls(x, usage, k) then Low(usage, k, lim)
            else Project(x, k, lim)
  {
    var t := Target(usage, k.headroom);
    DecideLaw(Quantize(t, x, k.allowDown, k.step), x, k.upPct, k.downPct, k.allowDown, k.minChange);
    if t > 0 {
      RoundUpIsLeastMultiple(t, k.step);
      RoundDownIsGreatestMultiple(t, k.step);
    }
  }

  lemma LandingOrder(usage: int, k: Knobs, lim: Option<int>)
    requires Closed(k)
    ensures Low(usage, k, lim) <= High(usage, k, lim)
    ensures Project(Low(usage, k, lim), k, lim) == Low(usage, k, lim)
    ensures Project(High(usage, k, lim), k, lim) == High(usage, k, lim)
    ensures RoundDown(Target(usage, k.headroom), k.step) <= RoundUp(Target(usage, k.headroom), k.step)
  {
    var t := Target(usage, k.headroom);
    if t > 0 {
      RoundUpIsLeastMultiple(t, k.step);
      RoundDownIsGreatestMultiple(t, k.step);
    }
  }

  /** Low and high exchange places exactly under the swing condition. */
  lemma SwingExact(usage: int, k: Knobs, lim: Option<int>)
    requires Closed(k)
    ensures var low, high := Low(usage, k, lim), High(usage, k, lim);
            && Next(low, usage, k, lim) in {low, high} && Next(high, usage, k, lim) in {low, high}
            && (Swings(usage, k, lim) <==> Next(low, usage, k, lim) != low && Next(high, usage, k, lim) != high)
  {
    var low, high := Low(usage, k, lim), High(usage, k, lim);
    var t := Target(usage, k.headroom);
    LandingOrder(usage, k, lim);
    NextCases(low, usage, k, lim);
    NextCases(high, usage, k, lim);
    if t > 0 {
      RoundUpIsLeastMultiple(t, k.step);
      RoundDownIsGreatestMultiple(t, k.step);
    }
  }

  /** After the first pass the request is inside bounds and limit, so the second pass leaves it or lands. */
  lemma SecondPass(x: int, usage: int, k: Knobs, lim: Option<int>)
    requires Closed(k)
    ensures var x1, x2 := Trajectory(1, x, usage, k, lim), Trajectory(2, x, usage, k, lim);
            x2 == x1 || x2 in {Low(usage, k, lim), High(usage, k, lim)}
  {
    var x1 := Trajectory(1, x, usage, k, lim);
    assert Trajectory(0, x, usage, k, lim) == x;
    NextCases(x, usage, k, lim);
    LandingOrder(usage, k, lim);
    assert Project(Project(x, k, lim), k, lim) == Project(x, k, lim);
    NextCases(x1, usage, k, lim);
    assert Trajectory(2, x, usage, k, lim) == Next(x1, usage, k, lim);
  }

  /** From the pass that puts a trajectory on the pair, it changes on every pass under the swing condition,
      and at most once more otherwise. */
  lemma OnThePair(m: nat, n: nat, x: int, usage: int, k: Knobs, lim: Option<int>)
    requires Closed(k) && m <= n
    requires Trajectory(m, x, usage, k, lim) in {Low(usage, k, lim), High(usage, k, lim)}
    ensures var now, next := Trajectory(n, x, usage, k, lim), Trajectory(n + 1, x, usage, k, lim);
            && now in {Low(usage, k, lim), High(usage, k, lim)}
            && (Swings(usage, k, lim) ==> next != now)
            && (!Swings(usage, k, lim) && n > m ==> next == now)
  {
    SwingExact(usage, k, lim);
    IterateOnPair(y => Next(y, usage, k, lim), Low(usage, k, lim), High(usage, k, lim), m, n, x);
  }

  /** Every trajectory under constant usage rests in the deadband from its first pass on, or is on the two
      landing amounts from its second pass on. There it changes on every pass, forever, exactly under
      the swing condition; otherwise it rests from the third pass on. */
  lemma ConstantUsage(x: int, usage: int, k: Knobs, lim: Option<int>, n: nat)
    requires Closed(k) && n >= 2
    ensures var low, high := Low(usage, k, lim), High(usage, k, lim);
            var x1, x2 := Trajectory(1, x, usage, k, lim), Trajectory(2, x, usage, k, lim);
            var now, next := Trajectory(n, x, usage, k, lim), Trajectory(n + 1, x, usage, k, lim);
            if x1 !in {low, high} && x2 == x1 then now == next == x1
            else
              && now in {low, high}
              && (Swings(usage, k, lim) ==> next != now)
              && (!Swings(usage, k, lim) && n >= 3 ==> next == now)
  {
    var low, high := Low(usage, k, lim), High(usage, k, lim);
    var x1, x2 := Trajectory(1, x, usage, k, lim), Trajectory(2, x, usage, k, lim);
    SecondPass(x, usage, k, lim);
    if x1 !in {low, high} && x2 == x1 {
      IterateRests(y => Next(y, usage, k, lim), 1, n, x);
      IterateRests(y => Next(y, usage, k, lim), 1, n + 1, x);
    } else {
      OnThePair(2, n, x, usage, k, lim);
    }
  }

  // ----- without bounds and limits -----

  /** With neither bounds nor a limit a request outside the deadband of its target moves once and is then on the two
      multiples around the target; one inside stays. On the pair it swings forever exactly when the target is no
      multiple of the step, the minimum change is at most one step, and both percentages are small against the number
      of steps in the target; otherwise it rests from the second pass on. */
  lemma UnboundedConstantUsage(x: int, usage: int, k: Knobs, n: nat)
    requires Closed(k) && k.minQ.None? && k.maxQ.None? && n >= 1
    ensures var t := Max(Target(usage, k.headroom), 0);
            var now, next := Trajectory(n, x, usage, k, None), Trajectory(n + 1, x, usage, k, None);
            if !Rises(x, usage, k) && !Falls(x, usage, k) then now == next == x
            else
              && Trajectory(1, x, usage, k, None) != x
              && now in {t / k.step * k.step, RoundUp(t, k.step)}
              && (StepsSwing(t, k) ==> next != now)
              && (!StepsSwing(t, k) && n >= 2 ==> next == now)
  {
    assert Trajectory(0, x, usage, k, None) == x;
    SwingsUnbounded(usage, k);
    NextCases(x, usage, k, None);
    if !Rises(x, usage, k) && !Falls(x, usage, k) {
      IterateRests(y => Next(y, usage, k, None), 0, n, x);
      IterateRests(y => Next(y, usage, k, None), 0, n + 1, x);
    } else {
      OnThePair(1, n, x, usage, k, None);
    }
  }

  /** The swing condition in terms of the number of whole steps in the target. */
  predicate StepsSwing(t: int, k: Knobs)
    requires k.step > 0
  {
    var steps := t / k.step;
    t % k.step != 0 && k.minChange <= k.step && steps * k.upPct <= 100 && (steps + 1) * k.downPct <= 100
  }

  /** Every pass changes the request. */
  ghost predicate NeverRests(x: int, usage: int, k: Knobs) {
    forall n: nat :: Trajectory(n + 1, x, usage, k, None) != Trajectory(n, x, usage, k, None)
  }

  /** A request never comes to rest exactly when it starts outside the deadband of its target and the target
      satisfies the swing condition. */
  lemma NeverRestsExact(x: int, usage: int, k: Knobs)
    requires Closed(k) && k.minQ.None? && k.maxQ.None?
    ensures NeverRests(x, usage, k) <==>
            && (Rises(x, usage, k) || Falls(x, usage, k))
            && StepsSwing(Max(Target(usage, k.headroom), 0), k)
  {
    assert Trajectory(0, x, usage, k, None) == x;
    UnboundedConstantUsage(x, usage, k, 1);
    UnboundedConstantUsage(x, usage, k, 2);
    forall n: nat | n >= 1
      ensures && (Rises(x, usage, k) || Falls(x, usage, k))
              && StepsSwing(Max(Target(usage, k.headroom), 0), k)
              ==> Trajectory(n + 1, x, usage, k, None) != Trajectory(n, x, usage, k, None)
    {
      UnboundedConstantUsage(x, usage, k, n);
    }
    assert NeverRests(x, usage, k) ==> Trajectory(0 + 1, x, usage, k, None) != x;
    assert NeverRests(x, usage, k)
           ==> Trajectory(2 + 1, x, usage, k, None) != Trajectory(2, x, usage, k, None);
  }

  /** With the default thresholds of 20 percent and a minimum change of at most one step, a request never comes to rest
      exactly when it starts outside the deadband of a target that is off the grid and below five steps. */
  lemma DefaultThresholdsSwing(x: int, usage: int, k: Knobs)
    requires Closed(k) && k.minQ.None? && k.maxQ.None?
    requires k.upPct == 20 && k.downPct == 20 && k.minChange <= k.step
    ensures var t := Max(Target(usage, k.headroom), 0);
            NeverRests(x, usage, k) <==>
            (Rises(x, usage, k) || Falls(x, usage, k)) && t % k.step != 0 && t < 5 * k.step
  {
    NeverRestsExact(x, usage, k);
    DefaultSteps(Max(Target(usage, k.headroom), 0), k);
  }

  lemma DefaultSteps(t: int, k: Knobs)
    requires k.step > 0 && t >= 0 && k.upPct == 20 && k.downPct == 20 && k.minChange <= k.step
    ensures StepsSwing(t, k) <==> t % k.step != 0 && t < 5 * k.step
  {
  }

  lemma SwingsUnbounded(usage: int, k: Knobs)
    requires Closed(k) && k.minQ.None? && k.maxQ.None?
    ensures var t := Max(Target(usage, k.headroom), 0);
            && Low(usage, k, None) == t / k.step * k.step
            && High(usage, k, None) == RoundUp(t, k.step)
            && (Swings(usage, k, None) <==> StepsSwing(t, k))
  {
    var t, s := Target(usage, k.headroom), k.step;
    if t > 0 {
      var steps := t / s;
      assert t == steps * s + t % s;
      if t % s != 0 {
        NextMultiple(t, s);
        MulNonNegative(steps, s);
        ScaleInequality(steps, k.upPct, s);
        ScaleInequality(steps + 1, k.downPct, s);
      } else {
        ExactMultiple(t, s);
      }
    }
  }

  lemma NextMultiple(t: int, s: int)
    requires t > 0 && s > 0 && t % s != 0
    ensures RoundUp(t, s) == (t / s + 1) * s == (t / s) * s + s
  {
    var m := t + s - 1;
    assert t == (t / s) * s + t % s;
    assert m == (m / s) * s + m % s;
    if m / s > t / s + 1 { MulMonotone(t / s + 2, m / s, s); }
    if m / s < t / s + 1 { MulMonotone(m / s, t / s, s); }
    assert (t / s + 1) * s == (t / s) * s + s;
  }

  lemma ExactMultiple(t: int, s: int)
    requires t > 0 && s > 0 && t % s == 0
    ensures RoundUp(t, s) == t && RoundDown(t, s) == t
  {
    var m := t + s - 1;
    assert t == (t / s) * s;
    assert m == (m / s) * s + m % s;
    if m / s > t / s { MulMonotone(t / s + 1, m / s, s); }
    if m / s < t / s { MulMonotone(m / s, t / s - 1, s); }
  }

  /** Dividing the percent test at a multiple of the step by the step. */
  lemma ScaleInequality(q: int, pct: int, s: int)
    requires s > 0
    ensures s * 100 >= (q * s) * pct <==> q * pct <= 100
  {
  }
}
