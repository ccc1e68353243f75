/**
 What the policy asks for, as relations between the amounts of a container, its usage and the fields of the policy:
 the least amounts that cover usage and headroom, thresholds, bounds and limits. The functions that compute an
 evaluation are proved to yield exactly what these relations admit.
 */
module PolicyMeaning {
  import opened Wrappers
  import opened Rounding
  import opened Resources
  import opened ResourceStep
  import opened PolicySpec

  // ----- the policy for one resource -----

  function StepSize(name: ResourceName): int { if name == CPU then 50 else 0x400_0000 }

  function Least(spec: Spec, name: ResourceName): Option<int> {
    if name == CPU then spec.bounds.cpuMin else spec.bounds.memoryMin
  }

  function Most(spec: Spec, name: ResourceName): Option<int> {
    if name == CPU then spec.bounds.cpuMax else spec.bounds.memoryMax
  }

  function MinChange(spec: Spec, name: ResourceName): int {
    (if name == CPU then spec.bounds.minChangeCPU else spec.bounds.minChangeMemory).GetOr(0)
  }

  // ----- the amount to have -----

  /** The least whole amount that covers the usage and its headroom. */
  ghost predicate Suffices(t: int, usage: int, spec: Spec) {
    100 * (t - 1) < usage * (100 + spec.headroomPercent) <= 100 * t
  }

  /** The least multiple of the step that is not below a positive amount. */
  ghost predicate RoundsUp(v: int, t: int, step: int)
    requires step > 0
  {
    if t <= 0 then v == 0 else v % step == 0 && t <= v < t + step
  }

  /** The greatest multiple of the step that is not above a positive amount. */
  ghost predicate RoundsDown(v: int, t: int, step: int)
    requires step > 0
  {
    if t <= 0 then v == 0 else v % step == 0 && t - step < v <= t
  }

  /** The gap clears the percentage of the current amount and the minimum change. */
  predicate Worth(gap: int, current: int, percent: int, spec: Spec, name: ResourceName) {
    gap > 0 && 100 * gap >= current * percent && gap >= MinChange(spec, name)
  }

  /** Where a managed request goes before bounds and limit, given the amount that covers its usage and the multiples of
      the step on either side of it. */
  function Placed(req: Option<int>, t: int, up: int, down: int, spec: Spec, name: ResourceName): Option<int> {
    var was := req.GetOr(0);
    var current := if was < 0 then 0 else was;
    if t > was && Worth(up - current, current, spec.upPercent, spec, name) then Some(up)
    else if t < was && spec.allowDownscale && Worth(current - down, current, spec.downPercent, spec, name)
      then Some(down)
    else req
  }

  ghost predicate Decides(req: Option<int>, usage: int, spec: Spec, name: ResourceName, q: Option<int>) {
    exists t, up, down ::
      && Suffices(t, usage, spec) && RoundsUp(up, t, StepSize(name)) && RoundsDown(down, t, StepSize(name))
      && q == Placed(req, t, up, down, spec, name)
  }

  /** There is one amount that covers the usage, and one multiple of the step on either side of it. */
  lemma CoverIsTarget(t: int, usage: int, spec: Spec)
    ensures Suffices(t, usage, spec) <==> t == Target(usage, 100 + spec.headroomPercent)
  {
    DivCeilIsCeiling(usage * (100 + spec.headroomPercent), 100);
  }

  lemma RoundingIsUnique(v: int, t: int, step: int)
    requires step > 0
    ensures RoundsUp(v, t, step) <==> v == RoundUp(t, step)
    ensures RoundsDown(v, t, step) <==> v == RoundDown(t, step)
  {
    if t > 0 {
      RoundUpIsLeastMultiple(t, step);
      RoundDownIsGreatestMultiple(t, step);
      if RoundsUp(v, t, step) {
        CloseMultiples(v, RoundUp(t, step), step);
      }
      if RoundsDown(v, t, step) {
        CloseMultiples(v, RoundDown(t, step), step);
      }
    }
  }

  lemma CloseMultiples(x: int, y: int, step: int)
    requires step > 0 && x % step == 0 && y % step == 0 && x - step < y < x + step
    ensures x == y
  {
    var p, q := x / step, y / step;
    assert x == p * step && y == q * step;
    if p > q {
      MulMonotone(q + 1, p, step);
    } else if p < q {
      MulMonotone(p + 1, q, step);
    }
  }

  lemma DecidedCases(req: Option<int>, usage: int, k: Knobs)
    requires k.managed && k.step > 0
    ensures var t := Target(usage, k.headroom);
            var (up, down, c) := (RoundUp(t, k.step), RoundDown(t, k.step), Max(req.GetOr(0), 0));
            Decided(req, usage, k) ==
              if t > req.GetOr(0) && up > c && Clears(up - c, c, k.upPct, k.minChange) then Some(up)
              else if t < req.GetOr(0) && k.allowDown && down < c && Clears(c - down, c, k.downPct, k.minChange)
                then Some(down)
              else req
  {
    var t := Target(usage, k.headroom);
    var target := Quantize(t, req.GetOr(0), k.allowDown, k.step);
    DecideLaw(target, req.GetOr(0), k.upPct, k.downPct, k.allowDown, k.minChange);
    if t > 0 {
      RoundUpIsLeastMultiple(t, k.step);
      RoundDownIsGreatestMultiple(t, k.step);
    }
  }

  lemma PlacedIsDecided(req: Option<int>, usage: int, spec: Spec, name: ResourceName)
    requires name in {CPU, Memory} && spec.Manages(name)
    ensures var k := KnobsOf(spec, name);
            var t := Target(usage, k.headroom);
            Placed(req, t, RoundUp(t, k.step), RoundDown(t, k.step), spec, name) == Decided(req, usage, k)
  {
    DecidedCases(req, usage, KnobsOf(spec, name));
  }

  lemma DecidesExact(req: Option<int>, usage: int, spec: Spec, name: ResourceName, q: Option<int>)
    requires name in {CPU, Memory} && spec.Manages(name)
    ensures Decides(req, usage, spec, name, q) <==> q == Decided(req, usage, KnobsOf(spec, name))
  {
    var k := KnobsOf(spec, name);
    var t := Target(usage, k.headroom);
    var up, down := RoundUp(t, k.step), RoundDown(t, k.step);
    CoverIsTarget(t, usage, spec);
    RoundingIsUnique(up, t, k.step);
    RoundingIsUnique(down, t, k.step);
    PlacedIsDecided(req, usage, spec, name);
    if Decides(req, usage, spec, name, q) {
      var t', up', down' :| Suffices(t', usage, spec) && RoundsUp(up', t', k.step) && RoundsDown(down', t', k.step)
        && q == Placed(req, t', up', down', spec, name);
      CoverIsTarget(t', usage, spec);
      RoundingIsUnique(up', t', k.step);
      RoundingIsUnique(down', t', k.step);
    }
  }

  // ----- bounds and limits -----

  /** The amount after the bounds; the maximum wins. */
  function Within(q: Option<int>, spec: Spec, name: ResourceName): Option<int> {
    if Most(spec, name).Some? && q.GetOr(0) > Most(spec, name).value then Most(spec, name)
    else if Least(spec, name).Some? && q.GetOr(0) < Least(spec, name).value then Least(spec, name)
    else q
  }

  /** A managed request either pulls its limit along, when limits follow, or stops at it. */
  ghost predicate Ends(req: Option<int>, lim: Option<int>, usage: int, spec: Spec, name: ResourceName, follow: bool,
                       r: Option<int>, l: Option<int>)
  {
    if !spec.Manages(name) then r == Within(req, spec, name) && l == lim
    else exists q :: Decides(req, usage, spec, name, q) && Stops(Within(q, spec, name), lim, follow, r, l)
  }

  predicate Stops(b: Option<int>, lim: Option<int>, follow: bool, r: Option<int>, l: Option<int>) {
    if follow then r == b && l == Some(b.GetOr(0))
    else l == lim && r == if b.Some? && lim.Some? && b.value > lim.value then lim else b
  }

  function Mode(follow: bool): EffectiveMode { if follow then LimitsFollowRequests else KeepLimits }

  lemma StopsExact(q: Option<int>, lim: Option<int>, skipped: bool, spec: Spec, name: ResourceName, follow: bool,
                   r: Option<int>, l: Option<int>)
    requires name in {CPU, Memory}
    ensures var k := KnobsOf(spec, name);
            var s := Finish(q, lim, skipped, k.minQ, k.maxQ, k.managed, Mode(follow));
            if spec.Manages(name) then Stops(Within(q, spec, name), lim, follow, r, l) <==> r == s.req && l == s.lim
            else s.req == Within(q, spec, name) && s.lim == lim
  {
  }

  lemma EndsExact(req: Option<int>, lim: Option<int>, usage: int, spec: Spec, name: ResourceName, follow: bool,
                  r: Option<int>, l: Option<int>)
    requires name in {CPU, Memory}
    ensures Ends(req, lim, usage, spec, name, follow, r, l) <==>
            var s := Step(req, lim, usage, KnobsOf(spec, name), Mode(follow)); r == s.req && l == s.lim
  {
    var k := KnobsOf(spec, name);
    var decided := Decided(req, usage, k);
    StopsExact(decided, lim, DownSkipped(req, usage, k), spec, name, follow, r, l);
    if spec.Manages(name) {
      EndsManaged(req, lim, usage, spec, name, follow, r, l);
    } else {
      assert decided == req;
    }
  }

  lemma EndsManaged(req: Option<int>, lim: Option<int>, usage: int, spec: Spec, name: ResourceName, follow: bool,
                    r: Option<int>, l: Option<int>)
    requires name in {CPU, Memory} && spec.Manages(name)
    ensures Ends(req, lim, usage, spec, name, follow, r, l) <==>
            Stops(Within(Decided(req, usage, KnobsOf(spec, name)), spec, name), lim, follow, r, l)
  {
    var decided := Decided(req, usage, KnobsOf(spec, name));
    DecidesExact(req, usage, spec, name, decided);
    if q :| Decides(req, usage, spec, name, q) && Stops(Within(q, spec, name), lim, follow, r, l) {
      DecidesExact(req, usage, spec, name, q);
    }
  }

  // ----- requests that are not managed, and falls that are not allowed -----

  /** The request before bounds and limit; without management it is left alone. */
  ghost predicate Intends(req: Option<int>, usage: int, spec: Spec, name: ResourceName, q: Option<int>) {
    if spec.Manages(name) then Decides(req, usage, spec, name, q) else q == req
  }

  /** The usage asks for less, and that is not allowed. */
  ghost predicate SkipsDown(req: Option<int>, usage: int, spec: Spec, name: ResourceName) {
    && spec.Manages(name) && !spec.allowDownscale
    && exists t :: Suffices(t, usage, spec) && t < req.GetOr(0) && 0 < req.GetOr(0)
  }

  lemma IntendsExact(req: Option<int>, usage: int, spec: Spec, name: ResourceName)
    requires name in {CPU, Memory}
    ensures forall q :: Intends(req, usage, spec, name, q) <==> q == Decided(req, usage, KnobsOf(spec, name))
  {
    forall q ensures Intends(req, usage, spec, name, q) <==> q == Decided(req, usage, KnobsOf(spec, name)) {
      if spec.Manages(name) {
        DecidesExact(req, usage, spec, name, q);
      }
    }
  }

  lemma SkipsDownExact(req: Option<int>, usage: int, spec: Spec, name: ResourceName)
    requires name in {CPU, Memory}
    ensures SkipsDown(req, usage, spec, name) <==> DownSkipped(req, usage, KnobsOf(spec, name))
  {
    var k := KnobsOf(spec, name);
    var t := Target(usage, k.headroom);
    CoverIsTarget(t, usage, spec);
    if t' :| Suffices(t', usage, spec) {
      CoverIsTarget(t', usage, spec);
    }
    if t > 0 {
      RoundUpIsLeastMultiple(t, k.step);
    }
  }
}
