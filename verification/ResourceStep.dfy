/**
 One resource of one container in one pass of the policy: decide, bound, then clamp to the limit
 or move the limit. Requests and limits are optional, because a missing entry is not a zero one.
 */
module ResourceStep {
  import opened Wrappers
  import opened Rounding

  datatype EffectiveMode = KeepLimits | LimitsFollowRequests

  /** The policy as one resource sees it. */
  datatype Knobs = Knobs(managed: bool, step: int, headroom: int, upPct: int, downPct: int, allowDown: bool,
                         minChange: int, minQ: Option<int>, maxQ: Option<int>)
  {
    ghost predicate OrderedBounds() {
      minQ.Some? && maxQ.Some? ==> minQ.value <= maxQ.value
    }
  }

  datatype StepResult = StepResult(req: Option<int>, lim: Option<int>,
                                   downSkipped: bool, hitMin: bool, hitMax: bool, clamped: bool)

  function DecideAmount(current: int, usage: int, k: Knobs): Decision {
    var target := Quantize(Target(usage, k.headroom), current, k.allowDown, k.step);
    Decide(target, current, k.upPct, k.downPct, k.allowDown, k.minChange)
  }

  /** Both comparisons look at the value before either bound was applied. */
  function Bounded(q: Option<int>, minQ: Option<int>, maxQ: Option<int>): Option<int> {
    var v := q.GetOr(0);
    if maxQ.Some? && v > maxQ.value then maxQ
    else if minQ.Some? && v < minQ.value then minQ
    else q
  }

  /** The request before bounds; it is rewritten only when the decision says so. */
  function Decided(req: Option<int>, usage: int, k: Knobs): Option<int> {
    var d := DecideAmount(req.GetOr(0), usage, k);
    if k.managed && d.changed then Some(d.value) else req
  }

  predicate IsClamped(req: Option<int>, lim: Option<int>, managed: bool, mode: EffectiveMode) {
    mode.KeepLimits? && managed && lim.Some? && req.Some? && req.value > lim.value
  }

  /** Bounds, then the limit: everything that follows the decision. */
  function Finish(decided: Option<int>, lim: Option<int>, skipped: bool, minQ: Option<int>, maxQ: Option<int>,
                  managed: bool, mode: EffectiveMode): StepResult
  {
    var bounded := Bounded(decided, minQ, maxQ);
    var clamped := IsClamped(bounded, lim, managed, mode);
    StepResult(if clamped then lim else bounded,
               if mode.LimitsFollowRequests? && managed then Some(bounded.GetOr(0)) else lim,
               skipped,
               minQ.Some? && decided.GetOr(0) < minQ.value,
               maxQ.Some? && decided.GetOr(0) > maxQ.value,
               clamped)
  }

  predicate DownSkipped(req: Option<int>, usage: int, k: Knobs) {
    k.managed && DecideAmount(req.GetOr(0), usage, k).downSkipped
  }

  function Step(req: Option<int>, lim: Option<int>, usage: int, k: Knobs, mode: EffectiveMode): StepResult {
    Finish(Decided(req, usage, k), lim, DownSkipped(req, usage, k), k.minQ, k.maxQ, k.managed, mode)
  }

  /** The projection that bounds and limit apply to an amount. */
  function Project(v: int, k: Knobs, lim: Option<int>): int {
    var b := Bounded(Some(v), k.minQ, k.maxQ).value;
    if lim.Some? && b > lim.value then lim.value else b
  }

  // ----- fixed points when scaling down is off -----

  /** A pass over its own output changes neither request nor limit: same usage, scaling down off. */
  lemma StepIdempotent(req: Option<int>, lim: Option<int>, usage: int, k: Knobs, mode: EffectiveMode)
    requires !k.allowDown && k.step > 0 && k.OrderedBounds()
    ensures var r := Step(req, lim, usage, k, mode);
            var again := Step(r.req, r.lim, usage, k, mode);
            again.req == r.req && again.lim == r.lim
  {
    var r := Step(req, lim, usage, k, mode);
    var t := Target(usage, k.headroom);
    var c1, c2 := req.GetOr(0), r.req.GetOr(0);
    DecideLaw(Quantize(t, c1, false, k.step), c1, k.upPct, k.downPct, false, k.minChange);
    DecideLaw(Quantize(t, c2, false, k.step), c2, k.upPct, k.downPct, false, k.minChange);
    if t > 0 { RoundUpIsLeastMultiple(t, k.step); }
    ClearsFromFurther(RoundUp(t, k.step), Max(c1, 0), Max(c2, 0), k.upPct, k.minChange);
  }

  /** A gap that clears the thresholds from a larger request clears them from a smaller one as well. */
  lemma ClearsFromFurther(target: int, near: int, nearer: int, pct: int, minChange: int)
    requires 0 <= near
    ensures near <= nearer <= target && Clears(target - nearer, nearer, pct, minChange)
            ==> Clears(target - near, near, pct, minChange)
  {
  }

  // ----- monotonicity in usage -----

  /** More usage never ends in a smaller request: through ceiling, rounding, deadband, bounds and limit
      clamp, with scaling down on or off. */
  lemma StepMonotoneInUsage(req: Option<int>, lim: Option<int>, u1: int, u2: int, k: Knobs, mode: EffectiveMode)
    requires u1 <= u2 && k.step > 0 && k.headroom >= 0 && k.OrderedBounds()
    requires lim.Some? ==> lim.value >= 0
    ensures Step(req, lim, u1, k, mode).req.GetOr(0) <= Step(req, lim, u2, k, mode).req.GetOr(0)
  {
    var c := req.GetOr(0);
    TargetMonotone(u1, u2, k.headroom);
    var t1, t2 := Target(u1, k.headroom), Target(u2, k.headroom);
    var q1, q2 := Quantize(t1, c, k.allowDown, k.step), Quantize(t2, c, k.allowDown, k.step);
    QuantizeMonotone(t1, t2, c, k.allowDown, k.step);
    DecideMonotone(q1, q2, c, k);
  }

  lemma DecideMonotone(q1: int, q2: int, c: int, k: Knobs)
    requires Max(q1, 0) <= Max(q2, 0)
    ensures var d1 := Decide(q1, c, k.upPct, k.downPct, k.allowDown, k.minChange);
            var d2 := Decide(q2, c, k.upPct, k.downPct, k.allowDown, k.minChange);
            (if d1.changed then d1.value else c) <= (if d2.changed then d2.value else c)
  {
  }

  // ----- the envelope of one pass -----

  /** Where a managed request can end: never above its maximum, never above a limit that it is compared
      with, and below its minimum only when it sits on its limit. With scaling down off it falls only to
      the maximum or to the limit. The flags that are counted say where it ended. */
  lemma StepEnvelope(req: Option<int>, lim: Option<int>, usage: int, k: Knobs, mode: EffectiveMode)
    requires k.managed && k.OrderedBounds()
    ensures var r := Step(req, lim, usage, k, mode);
            var v := r.req.GetOr(0);
            && (k.maxQ.Some? ==> v <= k.maxQ.value)
            && (k.minQ.Some? ==> v >= k.minQ.value || (mode.KeepLimits? && r.req == lim))
            && (mode.KeepLimits? && r.req.Some? && lim.Some? ==> v <= lim.value)
            && (mode.LimitsFollowRequests? ==> r.lim == Some(v))
            && (!k.allowDown && v < req.GetOr(0) ==> r.req == k.maxQ || (mode.KeepLimits? && r.req == lim))
            && (req.Some? ==> r.req.Some?)
            && (r.hitMax ==> r.req == k.maxQ || r.clamped) && (r.hitMin ==> r.req == k.minQ || r.clamped)
            && (r.clamped ==> mode.KeepLimits? && r.req == lim)
            && (r.req != Decided(req, usage, k) ==> r.hitMin || r.hitMax || r.clamped)
  {
  }

  /** A resource that is not managed is still moved into its bounds, and its limit is left alone. */
  lemma UnmanagedStep(req: Option<int>, lim: Option<int>, usage: int, k: Knobs, mode: EffectiveMode)
    requires !k.managed && k.OrderedBounds()
    ensures var r := Step(req, lim, usage, k, mode);
            && r.lim == lim
            && (r.req == req <==>
                !(k.minQ.Some? && req.GetOr(0) < k.minQ.value) && !(k.maxQ.Some? && req.GetOr(0) > k.maxQ.value))
  {
  }
}
