/** In which directions a policy can move the requests of the pods that the API server admits. */
module Directions {
  import opened Wrappers
  import opened Resources
  import opened ResourceStep
  import opened PodHash
  import opened PolicySpec
  import opened QoSSafety
  import opened PolicyLaws

  // ----- what the API server admits -----

  /** A host label as in section 2.1 of RFC 1123, which is what Kubernetes accepts as a container name. */
  predicate IsLabel(name: string) {
    && 1 <= |name| <= 63
    && (forall i | 0 <= i < |name| :: IsLetterOrDigit(name[i]) || name[i] == '-')
    && IsLetterOrDigit(name[0]) && IsLetterOrDigit(name[|name| - 1])
  }

  predicate IsLetterOrDigit(c: char) { 'a' <= c <= 'z' || '0' <= c <= '9' }

  predicate SoundAmounts(c: Container, name: ResourceName) {
    && Amount(c.req, name) >= 0 && Amount(c.lim, name) >= 0
    && (name in c.req && name in c.lim ==> c.req[name] <= c.lim[name])
  }

  predicate SoundContainer(c: Container) {
    IsLabel(c.name) && SoundAmounts(c, CPU) && SoundAmounts(c, Memory)
  }

  /** Every container has a name of its own, amounts are not negative, and requests are within limits. */
  ghost predicate SoundPod(p: Pod) {
    DistinctNames(p.All()) && forall c | c in p.All() :: SoundContainer(c)
  }

  predicate SoundKnobs(k: Knobs) {
    && (k.minQ.Some? ==> k.minQ.value >= 0) && (k.maxQ.Some? ==> k.maxQ.value >= 0)
    && (k.minQ.Some? && k.maxQ.Some? ==> k.minQ.value <= k.maxQ.value)
    && k.headroom >= 100 && k.step >= 2
  }

  predicate SoundSpec(spec: Spec) {
    SoundKnobs(CpuKnobs(spec)) && SoundKnobs(MemoryKnobs(spec))
  }

  // ----- in which directions a policy moves a resource -----

  /** The most by which one container can rise: a managed request to its maximum, any other to its minimum. */
  function Ceiling(k: Knobs): Option<int> {
    if k.managed then k.maxQ else Some(k.minQ.GetOr(0))
  }

  /** A managed request can fall even when scaling down is off: to the maximum, or by the repair. */
  predicate CanLower(k: Knobs) {
    k.managed || k.maxQ.Some?
  }

  /** The change from v to w is one that n containers can make. */
  predicate Directed(v: int, w: int, k: Knobs, n: nat) {
    (Ceiling(k).Some? ==> w - v <= n * Ceiling(k).value) && (!CanLower(k) ==> w >= v)
  }

  lemma StepDirection(req: Option<int>, lim: Option<int>, usage: int, k: Knobs, mode: EffectiveMode)
    requires SoundKnobs(k) && req.GetOr(0) >= 0
    ensures Directed(req.GetOr(0), Step(req, lim, usage, k, mode).req.GetOr(0), k, 1)
  {
  }

  lemma ContainerDirection(c: Container, usages: map<string, ResourceList>, spec: Spec, mode: EffectiveMode,
      name: ResourceName)
    requires SoundSpec(spec) && SoundAmounts(c, name) && name in {CPU, Memory}
    ensures Directed(Amount(c.req, name), Amount(Stepped(c, usages, spec, mode).req, name), KnobsOf(spec, name), 1)
  {
    if c.name in usages {
      SteppedAmounts(c, usages, spec, mode, name);
      StepDirection(Get(c.req, name), Get(c.lim, name), Amount(usages[c.name], name), KnobsOf(spec, name), mode);
    }
  }

  /** The repair lowers a managed request, so it takes no direction that is not there. */
  lemma LoweringDirection(c: Container, d: Container, spec: Spec, name: ResourceName)
    requires LoweredBy(c, d, spec) && name in {CPU, Memory}
    ensures Amount(d.req, name) <= Amount(c.req, name)
    ensures !CanLower(KnobsOf(spec, name)) ==> Amount(d.req, name) == Amount(c.req, name)
  {
  }

  lemma OneLoweredDirection(u: seq<Container>, d: seq<Container>, spec: Spec, name: ResourceName, i: nat, v: int)
    requires OneLowered(u, d, spec) && name in {CPU, Memory} && i < |u|
    requires Directed(v, Amount(u[i].req, name), KnobsOf(spec, name), 1)
    ensures Directed(v, Amount(d[i].req, name), KnobsOf(spec, name), 1)
  {
    var j :| 0 <= j < |u| && LoweredBy(u[j], d[j], spec) && d == u[j := d[j]];
    LoweringDirection(u[j], d[j], spec, name);
  }

  /** What a successful evaluation makes of the containers: the computed state, or that with one request lowered. */
  lemma DesiredShape(pod: Pod, usages: map<string, ResourceList>, spec: Spec, mode: EffectiveMode)
    requires ModeFor(pod, spec) == Some(mode) && Evaluate(pod, usages, spec, mode).1.NoError?
    ensures var desired, u := Evaluate(pod, usages, spec, mode).0.desired, Unadjusted(pod, usages, spec, mode);
            desired.Some? && (desired == Some(u) || OneLowered(u.containers, desired.value.containers, spec))
  {
    if Repairs(pod, usages, spec, mode) {
      assert mode == KeepLimits;
      RepairExact(pod, usages, spec);
    } else {
      UnrepairedShape(pod, usages, spec, mode);
    }
  }

  lemma ShapeDirection(pod: Pod, usages: map<string, ResourceList>, spec: Spec, mode: EffectiveMode,
      now: seq<Container>, name: ResourceName, i: nat)
    requires SoundSpec(spec) && SoundPod(pod) && name in {CPU, Memory} && i < |pod.containers|
    requires var u := Unadjusted(pod, usages, spec, mode).containers; now == u || OneLowered(u, now, spec)
    ensures |now| == |pod.containers|
    ensures Directed(Amount(pod.containers[i].req, name), Amount(now[i].req, name), KnobsOf(spec, name), 1)
  {
    var u := Unadjusted(pod, usages, spec, mode).containers;
    assert pod.containers[i] in pod.All();
    ContainerDirection(pod.containers[i], usages, spec, mode, name);
    if now != u {
      OneLoweredDirection(u, now, spec, name, i, Amount(pod.containers[i].req, name));
    }
  }

  lemma {:induction false} SumDirection(was: seq<Container>, now: seq<Container>, n: nat, k: Knobs, name: ResourceName)
    requires n <= |was| == |now| && name in {CPU, Memory}
    requires forall i | 0 <= i < n :: Directed(Amount(was[i].req, name), Amount(now[i].req, name), k, 1)
    ensures Directed(SumRequests(was, n).Of(name), SumRequests(now, n).Of(name), k, n)
  {
    if n == 0 {
    } else {
      SumDirection(was, now, n - 1, k, name);
      assert Ceiling(k).Some? ==> n * Ceiling(k).value == (n - 1) * Ceiling(k).value + Ceiling(k).value;
    }
  }

  lemma DesiredDirection(pod: Pod, usages: map<string, ResourceList>, spec: Spec, mode: EffectiveMode,
      name: ResourceName)
    requires SoundSpec(spec) && SoundPod(pod) && ModeFor(pod, spec) == Some(mode) && name in {CPU, Memory}
    requires Evaluate(pod, usages, spec, mode).1.NoError?
    ensures var desired := Evaluate(pod, usages, spec, mode).0.desired;
            && desired.Some? && |desired.value.containers| == |pod.containers|
            && Directed(SumRequests(pod.containers, |pod.containers|).Of(name),
                        SumRequests(desired.value.containers, |pod.containers|).Of(name), KnobsOf(spec, name),
                        |pod.containers|)
  {
    DesiredShape(pod, usages, spec, mode);
    var now := Evaluate(pod, usages, spec, mode).0.desired.value.containers;
    SumOfShape(pod, usages, spec, mode, now, name);
  }

  lemma SumOfShape(pod: Pod, usages: map<string, ResourceList>, spec: Spec, mode: EffectiveMode,
      now: seq<Container>, name: ResourceName)
    requires SoundSpec(spec) && SoundPod(pod) && name in {CPU, Memory}
    requires var u := Unadjusted(pod, usages, spec, mode).containers; now == u || OneLowered(u, now, spec)
    ensures |now| == |pod.containers|
    ensures Directed(SumRequests(pod.containers, |pod.containers|).Of(name), SumRequests(now, |now|).Of(name),
                     KnobsOf(spec, name), |pod.containers|)
  {
    forall i | 0 <= i < |pod.containers|
      ensures Directed(Amount(pod.containers[i].req, name), Amount(now[i].req, name), KnobsOf(spec, name), 1)
    {
      ShapeDirection(pod, usages, spec, mode, now, name, i);
    }
    SumDirection(pod.containers, now, |pod.containers|, KnobsOf(spec, name), name);
  }

  /** The delta of an evaluation rises by no more than the containers allow, and falls only if the policy can lower. */
  lemma PlanDirection(pod: Pod, metrics: PodMetrics, spec: Spec, name: ResourceName)
    requires SoundSpec(spec) && SoundPod(pod) && name in {CPU, Memory}
    ensures var (r, e) := Plan(Some(pod), Some(metrics), spec);
            && (e.NoError? && r.changed ==> Active(spec))
            && (e.NoError? && Active(spec) ==> Directed(0, r.delta.Of(name), KnobsOf(spec, name), |pod.containers|))
  {
    RegularNamesDistinct(pod);
    DeltaIsConserved(pod, metrics, spec);
    if Active(spec) && Plan(Some(pod), Some(metrics), spec).1.NoError? {
      PlanIsEvaluate(pod, metrics, spec);
      DesiredDirection(pod, Usages(metrics), spec, ModeFor(pod, spec).value, name);
    }
  }
}
