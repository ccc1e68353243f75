/** What a second evaluation makes of a repaired pod: the exact condition under which the repair is a fixed point. */
module RepairLaws {
  import opened Wrappers
  import opened Resources
  import opened ResourceStep
  import opened PolicySpec
  import opened Policy
  import opened QoSSafety
  import opened PolicyLaws
  import opened Rounding
  import opened ClosedLoop

  /** Container i of the unadjusted state u is lowered in one managed request and becomes d. */
  ghost predicate Lowers(u: seq<Container>, d: seq<Container>, i: nat, name: ResourceName, spec: Spec) {
    && i < |u| == |d| && name in {CPU, Memory} && spec.Manages(name) && d == u[i := d[i]]
    && LoweredResource(u[i], d[i], name, KnobsOf(spec, name).step, KnobsOf(spec, name).minQ.GetOr(0))
  }

  /** Where the next evaluation would put the lowered request. */
  function NextAmount(c: Container, usages: map<string, ResourceList>, spec: Spec, name: ResourceName): int {
    if c.name in usages then StepOf(c, usages[c.name], spec, KeepLimits, name).req.GetOr(0) else Amount(c.req, name)
  }

  /** A fully reserved container that does not move steps to itself, in both resources. */
  lemma FixedInBoth(c: Container, usages: map<string, ResourceList>, spec: Spec, name: ResourceName)
    requires FullyReserved(c) && c.name in usages && !Moves(c, usages, spec, KeepLimits) && name in {CPU, Memory}
    ensures StepOf(c, usages[c.name], spec, KeepLimits, name).req == Get(c.req, name)
  {
    var r := Refit(c, usages[c.name], spec, KeepLimits);
    RefitLists(c, usages[c.name], spec, KeepLimits);
    PresentStaysPresent(Get(c.req, name), Get(c.lim, name), Amount(usages[c.name], name), KnobsOf(spec, name),
        KeepLimits);
    assert Amount(r.req, name) == Amount(c.req, name);
    assert Get(r.req, name) == StepOf(c, usages[c.name], spec, KeepLimits, name).req;
  }

  /** The lowered container moves in the lowered request only. */
  lemma LoweredSteps(c: Container, d: Container, usages: map<string, ResourceList>, spec: Spec, name: ResourceName)
    requires FullyReserved(c) && !Moves(c, usages, spec, KeepLimits) && name in {CPU, Memory} && spec.Manages(name)
    requires LoweredResource(c, d, name, KnobsOf(spec, name).step, KnobsOf(spec, name).minQ.GetOr(0))
    ensures Stepped(d, usages, spec, KeepLimits) == d.(req := d.req[name := NextAmount(d, usages, spec, name)])
    ensures Moves(d, usages, spec, KeepLimits) <==> NextAmount(d, usages, spec, name) != d.req[name]
  {
    var goal := d.(req := d.req[name := NextAmount(d, usages, spec, name)]);
    if d.name in usages {
      LoweredRefit(c, d, usages, spec, name);
      if NextAmount(d, usages, spec, name) == d.req[name] {
        assert goal == d;
      } else {
        assert Amount(goal.req, name) != Amount(d.req, name);
      }
    } else {
      assert goal.req == d.req;
    }
  }

  lemma LoweredRefit(c: Container, d: Container, usages: map<string, ResourceList>, spec: Spec, name: ResourceName)
    requires FullyReserved(c) && !Moves(c, usages, spec, KeepLimits) && name in {CPU, Memory} && spec.Manages(name)
    requires LoweredResource(c, d, name, KnobsOf(spec, name).step, KnobsOf(spec, name).minQ.GetOr(0))
    requires d.name in usages
    ensures Refit(d, usages[d.name], spec, KeepLimits) == d.(req := d.req[name := NextAmount(d, usages, spec, name)])
  {
    var usage, other := usages[d.name], OtherOf(name);
    FixedInBoth(c, usages, spec, other);
    assert Get(d.req, other) == Get(c.req, other) && Get(d.lim, other) == Get(c.lim, other);
    RefitLists(d, usage, spec, KeepLimits);
    var r := Refit(d, usage, spec, KeepLimits);
    PresentStaysPresent(Get(d.req, name), Get(d.lim, name), Amount(usage, name), KnobsOf(spec, name), KeepLimits);
    assert Get(r.req, name) == StepOf(d, usage, spec, KeepLimits, name).req;
    assert Get(r.req, other) == StepOf(d, usage, spec, KeepLimits, other).req == Get(d.req, other);
    SameLists(r.req, d.req[name := NextAmount(d, usages, spec, name)]);
    KeepLimitsKeepsLimits(d, usage, spec);
    SameLists(r.lim, d.lim);
  }

  /** The pod with one request of container i set to w. */
  function WithRequest(d: Pod, i: nat, name: ResourceName, w: int): Pod
    requires i < |d.containers|
  {
    d.(containers := d.containers[i := d.containers[i].(req := d.containers[i].req[name := w])])
  }

  /** The unadjusted state of the repaired pod. */
  lemma RepairedUnadjusted(u: Pod, d: Pod, usages: map<string, ResourceList>, spec: Spec, i: nat, name: ResourceName)
    requires QoS(u) == Guaranteed && d == u.(containers := d.containers)
    requires Lowers(u.containers, d.containers, i, name, spec)
    requires !AnyMoves(u, usages, spec, KeepLimits)
    ensures var c := d.containers[i];
            var w := NextAmount(c, usages, spec, name);
            && Unadjusted(d, usages, spec, KeepLimits) == WithRequest(d, i, name, w)
            && (AnyMoves(d, usages, spec, KeepLimits) <==> w != c.req[name])
  {
    var c := d.containers[i];
    var w := NextAmount(c, usages, spec, name);
    assert u.containers[i] in u.All() && u.containers[i] in u.containers;
    LoweredSteps(u.containers[i], c, usages, spec, name);
    forall j | 0 <= j < |d.containers| && j != i ensures !Moves(d.containers[j], usages, spec, KeepLimits) {
      assert d.containers[j] == u.containers[j] && u.containers[j] in u.containers;
    }
    assert SteppedAll(d.containers, usages, spec, KeepLimits) == d.containers[i := c.(req := c.req[name := w])];
    assert c in d.containers;
    if x :| x in d.containers && Moves(x, usages, spec, KeepLimits) {
      var j :| 0 <= j < |d.containers| && d.containers[j] == x;
      assert j == i;
    }
  }

  /** Raised back to its limit, the lowered request restores the unadjusted state; anywhere else the pod is
      Burstable. */
  lemma RepairedClass(u: Pod, d: Pod, spec: Spec, i: nat, name: ResourceName, w: int)
    requires QoS(u) == Guaranteed && d == u.(containers := d.containers)
    requires Lowers(u.containers, d.containers, i, name, spec)
    ensures var v := WithRequest(d, i, name, w);
            if w == d.containers[i].lim[name] then v == u else QoS(v) == Burstable
  {
    var c, v := d.containers[i], WithRequest(d, i, name, w);
    if w == c.lim[name] {
      assert c.req[name := w] == u.containers[i].req;
      assert v.containers == u.containers;
    } else {
      assert v.containers[i] in v.All();
      assert !FullyReserved(v.containers[i]) && !Unspecified(v.containers[i]);
    }
  }

  // ----- where the lowered request goes -----

  /** The target of a measured container lies above its request by a gap that clears the thresholds. */
  predicate RisesAgain(c: Container, usages: map<string, ResourceList>, spec: Spec, name: ResourceName)
    requires name in c.req
  {
    c.name in usages && Rises(c.req[name], Amount(usages[c.name], name), KnobsOf(spec, name))
  }

  /** The usage of a measured container with headroom, rounded up to a step. */
  function RoundedTarget(c: Container, usages: map<string, ResourceList>, spec: Spec, name: ResourceName): int
    requires c.name in usages
  {
    RoundUp(Target(Amount(usages[c.name], name), KnobsOf(spec, name).headroom), KnobsOf(spec, name).step)
  }

  /** The lowered request stays unless it rises again, and then goes to the rounded target or to its limit. */
  lemma LoweredGoes(c: Container, d: Container, usages: map<string, ResourceList>, spec: Spec, name: ResourceName)
    requires FullyReserved(c) && !Moves(c, usages, spec, KeepLimits) && name in {CPU, Memory} && spec.Manages(name)
    requires LoweredResource(c, d, name, KnobsOf(spec, name).step, KnobsOf(spec, name).minQ.GetOr(0))
    requires !spec.allowDownscale && spec.OrderedBounds()
    ensures NextAmount(d, usages, spec, name) ==
            if !RisesAgain(d, usages, spec, name) then d.req[name]
            else if RoundedTarget(d, usages, spec, name) < d.lim[name] then RoundedTarget(d, usages, spec, name)
            else d.lim[name]
  {
    if d.name in usages {
      var k, usage := KnobsOf(spec, name), Amount(usages[d.name], name);
      LimitBelowMaximum(c, usages, spec, name);
      assert NextAmount(d, usages, spec, name) == Next(d.req[name], usage, k, Some(d.lim[name]));
      NextBelowLimit(d.req[name], usage, k, d.lim[name]);
    }
  }

  lemma LimitBelowMaximum(c: Container, usages: map<string, ResourceList>, spec: Spec, name: ResourceName)
    requires FullyReserved(c) && c.name in usages && !Moves(c, usages, spec, KeepLimits) && name in {CPU, Memory}
    requires spec.Manages(name) && spec.OrderedBounds()
    ensures KnobsOf(spec, name).maxQ.Some? ==> c.req[name] <= KnobsOf(spec, name).maxQ.value
  {
    FixedInBoth(c, usages, spec, name);
    StepEnvelope(Get(c.req, name), Get(c.lim, name), Amount(usages[c.name], name), KnobsOf(spec, name), KeepLimits);
  }

  /** Without scaling down, a request between its minimum and its limit stays or goes to the rounded target or limit. */
  lemma NextBelowLimit(x: int, usage: int, k: Knobs, limit: int)
    requires k.managed && !k.allowDown && k.step > 0 && k.OrderedBounds() && k.minQ.GetOr(0) <= x < limit
    requires k.maxQ.Some? ==> limit <= k.maxQ.value
    ensures var up := RoundUp(Target(usage, k.headroom), k.step);
            Next(x, usage, k, Some(limit)) == if !Rises(x, usage, k) then x else if up < limit then up else limit
  {
    NextCases(x, usage, k, Some(limit));
  }

  lemma SameRequest(d: Pod, i: nat, name: ResourceName)
    requires i < |d.containers| && name in d.containers[i].req
    ensures WithRequest(d, i, name, d.containers[i].req[name]) == d
  {
    var c := d.containers[i];
    assert c.req[name := c.req[name]] == c.req;
    assert d.containers[i := c] == d.containers;
  }

  lemma RepairedSettles(u: Pod, d: Pod, usages: map<string, ResourceList>, spec: Spec, i: nat, name: ResourceName)
    requires QoS(u) == Guaranteed && QoS(d) == Burstable && d == u.(containers := d.containers)
    requires Lowers(u.containers, d.containers, i, name, spec) && Forced(u.containers, spec) == Some(d.containers)
    requires !AnyMoves(u, usages, spec, KeepLimits)
    ensures var (again, e) := Evaluate(d, usages, spec, KeepLimits);
            var c := d.containers[i];
            var w := NextAmount(c, usages, spec, name);
            && e.NoError? && (again.changed <==> w != c.req[name])
            && again.desired == Some(if w == c.lim[name] then d else WithRequest(d, i, name, w))
  {
    var w := NextAmount(d.containers[i], usages, spec, name);
    RepairedUnadjusted(u, d, usages, spec, i, name);
    RepairedClass(u, d, spec, i, name, w);
    if w == d.containers[i].lim[name] {
      EvaluatedRepaired(d, u, d, usages, spec);
    } else {
      EvaluatedBurstable(d, usages, spec);
    }
  }

  /** A second evaluation of the repaired pod d, whose container i was lowered in one request: it reports a change
      exactly when the target is far enough above the lowered request, and then raises the request to the rounded
      target if that is below the limit. If it is not, the request goes back to its limit and is lowered again. */
  ghost predicate SettlesAs(again: Result, e: PolicyError, d: Pod, i: nat, name: ResourceName,
      usages: map<string, ResourceList>, spec: Spec)
    requires i < |d.containers| && name in d.containers[i].req && name in d.containers[i].lim
  {
    var c := d.containers[i];
    && e.NoError? && (again.changed <==> RisesAgain(c, usages, spec, name))
    && again.desired == Some(
         if RisesAgain(c, usages, spec, name) && RoundedTarget(c, usages, spec, name) < c.lim[name]
         then WithRequest(d, i, name, RoundedTarget(c, usages, spec, name))
         else d)
  }

  lemma SettlesFrom(again: Result, e: PolicyError, d: Pod, i: nat, name: ResourceName,
      usages: map<string, ResourceList>, spec: Spec, w: int)
    requires i < |d.containers| && name in d.containers[i].req && name in d.containers[i].lim
    requires var c := d.containers[i];
             && e.NoError? && (again.changed <==> w != c.req[name]) && c.req[name] < c.lim[name]
             && again.desired == Some(if w == c.lim[name] then d else WithRequest(d, i, name, w))
             && w == if !RisesAgain(c, usages, spec, name) then c.req[name]
                     else
                       var up := RoundedTarget(c, usages, spec, name);
                       if up < c.lim[name] then up else c.lim[name]
    ensures SettlesAs(again, e, d, i, name, usages, spec)
  {
    SameRequest(d, i, name);
  }

  lemma SettlesExactly(u: Pod, d: Pod, usages: map<string, ResourceList>, spec: Spec, i: nat, name: ResourceName)
    requires !spec.allowDownscale && spec.OrderedBounds()
    requires QoS(u) == Guaranteed && QoS(d) == Burstable && d == u.(containers := d.containers)
    requires Lowers(u.containers, d.containers, i, name, spec) && Forced(u.containers, spec) == Some(d.containers)
    requires !AnyMoves(u, usages, spec, KeepLimits)
    ensures var (again, e) := Evaluate(d, usages, spec, KeepLimits);
            SettlesAs(again, e, d, i, name, usages, spec)
  {
    var c := d.containers[i];
    var w := NextAmount(c, usages, spec, name);
    var (again, e) := Evaluate(d, usages, spec, KeepLimits);
    RepairedSettles(u, d, usages, spec, i, name);
    ReservedAndStill(u, i, usages, spec);
    LoweredGoes(u.containers[i], c, usages, spec, name);
    SettlesFrom(again, e, d, i, name, usages, spec, w);
  }

  lemma ReservedAndStill(u: Pod, i: nat, usages: map<string, ResourceList>, spec: Spec)
    requires QoS(u) == Guaranteed && !AnyMoves(u, usages, spec, KeepLimits) && i < |u.containers|
    ensures FullyReserved(u.containers[i]) && !Moves(u.containers[i], usages, spec, KeepLimits)
  {
    assert u.containers[i] in u.All() && u.containers[i] in u.containers;
  }

  /** Without scaling down, a second evaluation with the same usage keeps a repaired pod exactly when the target of the
      lowered request is inside its deadband, or reaches its limit; in the latter case the evaluation reports a change
      although the pod is the same. */
  lemma RepairedOutputExact(pod: Pod, usages: map<string, ResourceList>, spec: Spec)
    returns (i: nat, name: ResourceName, d: Pod, again: Result, e: PolicyError)
    requires !spec.allowDownscale && spec.OrderedBounds() && QoS(pod) == Burstable
    requires QoS(Unadjusted(pod, usages, spec, KeepLimits)) == Guaranteed
    requires exists c | c in pod.containers :: HasRoom(c, spec)
    ensures Evaluate(pod, usages, spec, KeepLimits).0.desired == Some(d) && QoS(d) == Burstable
    ensures Lowers(Unadjusted(pod, usages, spec, KeepLimits).containers, d.containers, i, name, spec)
    ensures (again, e) == Evaluate(d, usages, spec, KeepLimits) && SettlesAs(again, e, d, i, name, usages, spec)
  {
    var u := Unadjusted(pod, usages, spec, KeepLimits);
    RepairExact(pod, usages, spec);
    UnadjustedIsFixed(pod, usages, spec, KeepLimits);
    d := Evaluate(pod, usages, spec, KeepLimits).0.desired.value;
    i, name := WhichLowered(u.containers, d.containers, spec);
    SettledByForce(pod, usages, spec);
    SettlesExactly(u, d, usages, spec, i, name);
    again, e := Evaluate(d, usages, spec, KeepLimits).0, Evaluate(d, usages, spec, KeepLimits).1;
  }

  lemma SettledByForce(pod: Pod, usages: map<string, ResourceList>, spec: Spec)
    requires QoS(pod) == Burstable && QoS(Unadjusted(pod, usages, spec, KeepLimits)) == Guaranteed
    requires Evaluate(pod, usages, spec, KeepLimits).1.NoError?
    ensures var u, d := Unadjusted(pod, usages, spec, KeepLimits), Evaluate(pod, usages, spec, KeepLimits).0.desired;
            && d.Some? && Forced(u.containers, spec) == Some(d.value.containers)
            && d.value == u.(containers := d.value.containers)
  {
    if !AnyMoves(pod, usages, spec, KeepLimits) {
      UnmovedPod(pod, usages, spec, KeepLimits);
    }
  }

  lemma WhichLowered(u: seq<Container>, d: seq<Container>, spec: Spec) returns (i: nat, name: ResourceName)
    requires OneLowered(u, d, spec)
    ensures Lowers(u, d, i, name, spec)
  {
    i :| 0 <= i < |u| && LoweredBy(u[i], d[i], spec) && d == u[i := d[i]];
    name := if spec.manageCPU && LoweredResource(u[i], d[i], CPU, CPU_STEP_MILLI,
        spec.bounds.cpuMin.GetOr(0)) then CPU else Memory;
  }
}
