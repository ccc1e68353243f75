/** For a policy that moves a resource both ways: one pod whose proposal lowers it and one whose proposal raises it. */
module OpposingPods {
  import opened Wrappers
  import opened Rounding
  import opened Resources
  import opened ResourceStep
  import opened PodHash
  import opened PolicySpec
  import opened Policy
  import opened PolicyLaws
  import opened Directions

  // ----- steps of one resource -----

  /** At its minimum an unused resource stays where it is. */
  lemma StaysAtMinimum(k: Knobs, lim: Option<int>)
    requires SoundKnobs(k) && (lim.Some? ==> lim.value == k.minQ.GetOr(0))
    ensures Step(Some(k.minQ.GetOr(0)), lim, 0, k, KeepLimits).req == Some(k.minQ.GetOr(0))
  {
    var m := k.minQ.GetOr(0);
    DecideLaw(Quantize(0, m, k.allowDown, k.step), m, k.upPct, k.downPct, k.allowDown, k.minChange);
  }

  /** A rise by l that one container can make: up to its limit if the resource is managed, to its minimum otherwise. */
  predicate IsRise(l: int, k: Knobs) {
    l >= 1 && if k.managed then k.maxQ.Some? ==> l <= k.maxQ.value else k.minQ == Some(l)
  }

  function HighUsage(k: Knobs, l: int): int { Max(k.minChange, l) }

  lemma RisesFromZero(req: Option<int>, k: Knobs, l: int)
    requires SoundKnobs(k) && IsRise(l, k) && req.GetOr(0) == 0
    ensures Step(req, Some(l), HighUsage(k, l), k, KeepLimits).req == Some(l)
  {
    if k.managed {
      var usage := HighUsage(k, l);
      var t := Target(usage, k.headroom);
      ScaledUp(usage, k.headroom);
      RoundUpIsLeastMultiple(t, k.step);
      DecideLaw(Quantize(t, 0, k.allowDown, k.step), 0, k.upPct, k.downPct, k.allowDown, k.minChange);
    }
  }

  lemma ScaledUp(usage: int, headroom: int)
    requires usage >= 1 && headroom >= 100
    ensures Target(usage, headroom) >= usage
  {
    MulMonotone(100, headroom, usage);
    DivCeilIsCeiling(usage * headroom, 100);
  }

  lemma FallsToMaximum(v: int, k: Knobs)
    requires SoundKnobs(k) && k.maxQ.Some? && v > k.maxQ.value
    ensures var r := Step(Some(v), None, 0, k, KeepLimits).req; r.Some? && r.value <= k.maxQ.value
  {
  }

  // ----- sums of requests -----

  /** The requests of the first n containers shift by the same amount of one resource, and the other stays. */
  lemma {:induction false} SumShifts(was: seq<Container>, now: seq<Container>, n: nat, name: ResourceName, shift: int)
    requires n <= |was| && n <= |now| && name in {CPU, Memory}
    requires forall i | 0 <= i < n :: Amount(now[i].req, name) == Amount(was[i].req, name) + shift
    requires forall i | 0 <= i < n :: Amount(now[i].req, OtherOf(name)) == Amount(was[i].req, OtherOf(name))
    ensures SumRequests(now, n).Of(name) == SumRequests(was, n).Of(name) + n * shift
    ensures SumRequests(now, n).Of(OtherOf(name)) == SumRequests(was, n).Of(OtherOf(name))
  {
    if n == 0 {
    } else {
      SumShifts(was, now, n - 1, name, shift);
      assert n * shift == (n - 1) * shift + shift;
    }
  }

  /** A delta of one resource. */
  function Single(name: ResourceName, amount: int): Delta {
    if name == CPU then Delta(amount, 0) else Delta(0, amount)
  }

  /** The pod would be changed by this delta. */
  ghost predicate Proposes(pod: Pod, metrics: PodMetrics, spec: Spec, delta: Delta) {
    var (r, e) := Plan(Some(pod), Some(metrics), spec);
    e.NoError? && r.changed && r.delta == delta
  }

  /** An evaluation of the sound pod of at most two containers lowers the resource and leaves the other one. */
  ghost predicate LowersIt(pod: Pod, metrics: PodMetrics, spec: Spec, name: ResourceName, delta: Delta) {
    && SoundPod(pod) && |pod.containers| <= 2 && Proposes(pod, metrics, spec, delta)
    && delta.Of(name) < 0 && delta.Of(OtherOf(name)) == 0
  }

  /** An evaluation that ends with these containers proposes the difference of the total requests. */
  lemma ProposesDifference(pod: Pod, metrics: PodMetrics, spec: Spec, now: seq<Container>)
    requires DistinctNames(pod.All()) && Gives(pod, metrics, spec, now)
    ensures Proposes(pod, metrics, spec, Difference(pod.containers, now))
  {
    RegularNamesDistinct(pod);
    DeltaIsConserved(pod, metrics, spec);
  }

  function Difference(was: seq<Container>, now: seq<Container>): Delta {
    SumRequests(now, |now|).Minus(SumRequests(was, |was|))
  }

  // ----- a pod that rises -----

  const MOST_CONTAINERS := 26 * 26 * 26 * 26

  function Letter(d: int): char
    requires 0 <= d < 26
  {
    'a' + d as char
  }

  /** The number of a container in four letters. */
  function LabelOf(i: nat): string {
    [Letter(i / 26 / 26 / 26 % 26), Letter(i / 26 / 26 % 26), Letter(i / 26 % 26), Letter(i % 26)]
  }

  lemma LettersDiffer(d: int, e: int)
    requires 0 <= d < 26 && 0 <= e < 26 && Letter(d) == Letter(e)
    ensures d == e
  {
  }

  lemma LabelsDiffer(i: nat, j: nat)
    requires i < MOST_CONTAINERS && j < MOST_CONTAINERS && LabelOf(i) == LabelOf(j)
    ensures i == j
  {
    assert LabelOf(i)[0] == LabelOf(j)[0] && LabelOf(i)[1] == LabelOf(j)[1];
    assert LabelOf(i)[2] == LabelOf(j)[2] && LabelOf(i)[3] == LabelOf(j)[3];
    LettersDiffer(i / 26 / 26 / 26 % 26, j / 26 / 26 / 26 % 26);
    LettersDiffer(i / 26 / 26 % 26, j / 26 / 26 % 26);
    LettersDiffer(i / 26 % 26, j / 26 % 26);
    LettersDiffer(i % 26, j % 26);
    DigitsSplit(i);
    DigitsSplit(j);
  }

  lemma DigitsSplit(i: nat)
    requires i < MOST_CONTAINERS
    ensures i == ((i / 26 / 26 / 26 % 26 * 26 + i / 26 / 26 % 26) * 26 + i / 26 % 26) * 26 + i % 26
  {
  }

  lemma LabelIsSound(i: nat)
    ensures IsLabel(LabelOf(i))
  {
    forall d | 0 <= d < 26 ensures IsLetterOrDigit(Letter(d)) {
    }
  }

  /** Container i asks for nothing of the resource and may have l of it; the other resource is at its minimum. */
  function Rising(i: nat, l: int, spec: Spec, name: ResourceName): Container {
    Container(LabelOf(i), map[OtherOf(name) := KnobsOf(spec, OtherOf(name)).minQ.GetOr(0)], map[name := l])
  }

  function Risen(i: nat, l: int, spec: Spec, name: ResourceName): Container {
    var c := Rising(i, l, spec, name);
    c.(req := c.req[name := l])
  }

  function RisingPod(n: nat, l: int, spec: Spec, name: ResourceName): Pod {
    Pod([], seq(n, i requires 0 <= i < n => Rising(i, l, spec, name)))
  }

  function RisingUse(l: int, spec: Spec, name: ResourceName): ResourceList {
    map[name := HighUsage(KnobsOf(spec, name), l)]
  }

  function RisingMetrics(n: nat, l: int, spec: Spec, name: ResourceName): PodMetrics {
    PodMetrics(seq(n, i requires 0 <= i < n => ContainerMetrics(LabelOf(i), RisingUse(l, spec, name))))
  }

  lemma {:induction false} SameUsage(ms: seq<ContainerMetrics>, n: nat, use: ResourceList)
    requires n <= |ms| && forall i | 0 <= i < n :: ms[i].usage == use
    ensures forall i | 0 <= i < n :: ms[i].name in UsageByContainer(ms, n) && UsageByContainer(ms, n)[ms[i].name] == use
  {
    if n == 0 {
    } else {
      SameUsage(ms, n - 1, use);
    }
  }

  lemma RisingSteps(n: nat, l: int, spec: Spec, name: ResourceName, i: nat)
    requires SoundSpec(spec) && Active(spec) && name in {CPU, Memory} && i < n && IsRise(l, KnobsOf(spec, name))
    ensures var usages, c := Usages(RisingMetrics(n, l, spec, name)), Rising(i, l, spec, name);
            Moves(c, usages, spec, KeepLimits) && Stepped(c, usages, spec, KeepLimits) == Risen(i, l, spec, name)
  {
    var metrics, c := RisingMetrics(n, l, spec, name), Rising(i, l, spec, name);
    SameUsage(metrics.containers, n, RisingUse(l, spec, name));
    assert metrics.containers[i].name == c.name;
    RisesFromZero(None, KnobsOf(spec, name), l);
    StaysAtMinimum(KnobsOf(spec, OtherOf(name)), None);
    StepsTo(c, Usages(metrics), spec, name, l);
  }

  lemma RisingNamesDiffer(n: nat, l: int, spec: Spec, name: ResourceName)
    requires n <= MOST_CONTAINERS
    ensures DistinctNames(RisingPod(n, l, spec, name).All())
  {
    var cs := RisingPod(n, l, spec, name).All();
    forall i, j | 0 <= i < j < |cs| ensures cs[i].name != cs[j].name {
      if LabelOf(i) == LabelOf(j) {
        LabelsDiffer(i, j);
      }
    }
  }

  lemma RisingIsSound(n: nat, l: nat, spec: Spec, name: ResourceName)
    requires SoundSpec(spec) && name in {CPU, Memory} && n <= MOST_CONTAINERS
    ensures SoundPod(RisingPod(n, l, spec, name))
  {
    RisingNamesDiffer(n, l, spec, name);
    forall c | c in RisingPod(n, l, spec, name).All() ensures SoundContainer(c) {
      var i :| 0 <= i < n && c == Rising(i, l, spec, name);
      LabelIsSound(i);
    }
  }

  function RisenContainers(n: nat, l: int, spec: Spec, name: ResourceName): seq<Container> {
    seq(n, i requires 0 <= i < n => Risen(i, l, spec, name))
  }

  lemma RisingState(n: nat, l: int, spec: Spec, name: ResourceName)
    requires SoundSpec(spec) && Active(spec) && name in {CPU, Memory} && n > 0 && IsRise(l, KnobsOf(spec, name))
    ensures var pod, usages := RisingPod(n, l, spec, name), Usages(RisingMetrics(n, l, spec, name));
            && AnyMoves(pod, usages, spec, KeepLimits)
            && Unadjusted(pod, usages, spec, KeepLimits) == pod.(containers := RisenContainers(n, l, spec, name))
  {
    var pod, usages := RisingPod(n, l, spec, name), Usages(RisingMetrics(n, l, spec, name));
    var u := Unadjusted(pod, usages, spec, KeepLimits);
    forall i | 0 <= i < n
      ensures Moves(pod.containers[i], usages, spec, KeepLimits) && u.containers[i] == Risen(i, l, spec, name)
    {
      RisingSteps(n, l, spec, name, i);
    }
    assert pod.containers[0] in pod.containers;
    assert u.containers == RisenContainers(n, l, spec, name);
  }

  lemma RisingStaysBurstable(n: nat, l: int, spec: Spec, name: ResourceName)
    requires n > 0 && name in {CPU, Memory}
    ensures QoS(RisingPod(n, l, spec, name)) == Burstable
    ensures QoS(RisingPod(n, l, spec, name).(containers := RisenContainers(n, l, spec, name))) == Burstable
  {
    var pod := RisingPod(n, l, spec, name);
    var u := pod.(containers := RisenContainers(n, l, spec, name));
    assert pod.All()[0] == Rising(0, l, spec, name) && u.All()[0] == Risen(0, l, spec, name);
    BurstableBy(pod, Rising(0, l, spec, name));
    BurstableBy(u, Risen(0, l, spec, name));
  }

  lemma RisingPlan(n: nat, l: int, spec: Spec, name: ResourceName)
    requires SoundSpec(spec) && Active(spec) && name in {CPU, Memory} && n > 0 && IsRise(l, KnobsOf(spec, name))
    ensures Gives(RisingPod(n, l, spec, name), RisingMetrics(n, l, spec, name), spec,
                  RisenContainers(n, l, spec, name))
  {
    RisingState(n, l, spec, name);
    RisingStaysBurstable(n, l, spec, name);
    PlanMoves(RisingPod(n, l, spec, name), RisingMetrics(n, l, spec, name), spec);
  }

  lemma RiseAmount(n: nat, l: int, spec: Spec, name: ResourceName)
    requires name in {CPU, Memory}
    ensures Difference(RisingPod(n, l, spec, name).containers, RisenContainers(n, l, spec, name)) ==
            Single(name, n * l)
  {
    SumShifts(RisingPod(n, l, spec, name).containers, RisenContainers(n, l, spec, name), n, name, l);
  }

  /** The proposal for n such containers raises the resource by l for each of them, and leaves the other resource. */
  lemma PodRises(n: nat, l: int, spec: Spec, name: ResourceName)
    requires SoundSpec(spec) && Active(spec) && name in {CPU, Memory} && IsRise(l, KnobsOf(spec, name))
    requires 0 < n <= MOST_CONTAINERS
    ensures Proposes(RisingPod(n, l, spec, name), RisingMetrics(n, l, spec, name), spec, Single(name, n * l))
  {
    RisingPlan(n, l, spec, name);
    RisingIsSound(n, l, spec, name);
    ProposesDifference(RisingPod(n, l, spec, name), RisingMetrics(n, l, spec, name), spec,
                       RisenContainers(n, l, spec, name));
    RiseAmount(n, l, spec, name);
  }

  // ----- a pod that falls to the maximum -----

  function Oversized(v: int, spec: Spec, name: ResourceName): Container {
    Container("c", map[name := v, OtherOf(name) := KnobsOf(spec, OtherOf(name)).minQ.GetOr(0)], map[])
  }

  /** Where the oversized request ends. */
  function Trimmed(v: int, spec: Spec, name: ResourceName): int {
    StepOf(Oversized(v, spec, name), map[], spec, KeepLimits, name).req.GetOr(0)
  }

  lemma OversizedSteps(v: int, spec: Spec, name: ResourceName)
    requires SoundSpec(spec) && name in {CPU, Memory}
    requires KnobsOf(spec, name).maxQ.Some? && v > KnobsOf(spec, name).maxQ.value
    ensures var c := Oversized(v, spec, name);
            && StepOf(c, map[], spec, KeepLimits, name).req == Some(Trimmed(v, spec, name))
            && Trimmed(v, spec, name) <= KnobsOf(spec, name).maxQ.value
            && StepOf(c, map[], spec, KeepLimits, OtherOf(name)).req == Get(c.req, OtherOf(name))
  {
    FallsToMaximum(v, KnobsOf(spec, name));
    StaysAtMinimum(KnobsOf(spec, OtherOf(name)), None);
  }

  lemma OversizedShape(v: int, w: int, spec: Spec, name: ResourceName)
    requires name in {CPU, Memory}
    ensures var c := Oversized(v, spec, name);
            && c.(req := c.req[name := w]) == Oversized(w, spec, name) && Amount(c.req, name) == v
            && !FullyReserved(c) && !Unspecified(c)
  {
    var c := Oversized(v, spec, name);
    assert c.req[name := w] == Oversized(w, spec, name).req;
  }

  lemma OversizedPlan(v: int, spec: Spec, name: ResourceName)
    requires SoundSpec(spec) && Active(spec) && name in {CPU, Memory}
    requires KnobsOf(spec, name).maxQ.Some? && v > KnobsOf(spec, name).maxQ.value
    ensures Gives(One(Oversized(v, spec, name)), Measured("c", map[]), spec,
                  [Oversized(Trimmed(v, spec, name), spec, name)])
  {
    var w := Trimmed(v, spec, name);
    OversizedSteps(v, spec, name);
    OversizedShape(v, w, spec, name);
    OversizedShape(w, w, spec, name);
    OneMoves(Oversized(v, spec, name), map[], spec, name, w);
  }

  lemma OversizedIsSound(v: nat, spec: Spec, name: ResourceName)
    requires SoundSpec(spec) && name in {CPU, Memory}
    ensures SoundPod(One(Oversized(v, spec, name)))
  {
  }

  lemma OversizedAmount(v: int, w: int, spec: Spec, name: ResourceName)
    requires name in {CPU, Memory}
    ensures var d := Difference([Oversized(v, spec, name)], [Oversized(w, spec, name)]);
            d.Of(name) == w - v && d.Of(OtherOf(name)) == 0
  {
    SumShifts([Oversized(v, spec, name)], [Oversized(w, spec, name)], 1, name, w - v);
  }

  lemma OversizedFalls(drop: nat, spec: Spec, name: ResourceName) returns (pod: Pod, metrics: PodMetrics, delta: Delta)
    requires SoundSpec(spec) && Active(spec) && name in {CPU, Memory} && drop > 0
    requires KnobsOf(spec, name).maxQ.Some?
    ensures LowersIt(pod, metrics, spec, name, delta) && delta.Of(name) + drop <= 0
  {
    var v := KnobsOf(spec, name).maxQ.value + drop;
    var w := Trimmed(v, spec, name);
    pod, metrics := One(Oversized(v, spec, name)), Measured("c", map[]);
    delta := Difference(pod.containers, [Oversized(w, spec, name)]);
    OversizedIsSound(v, spec, name);
    OversizedPlan(v, spec, name);
    ProposesDifference(pod, metrics, spec, [Oversized(w, spec, name)]);
    OversizedSteps(v, spec, name);
    OversizedAmount(v, w, spec, name);
  }

  // ----- a pod that falls by the repair -----

  /** An amount of the other resource that the repair does not lower instead: it looks at CPU before memory. */
  function Parked(spec: Spec, name: ResourceName): int {
    var other := KnobsOf(spec, OtherOf(name));
    if name == Memory && other.managed then other.minQ.GetOr(0) else other.step
  }

  /** Reserved in full and without metrics; one step above its minimum. */
  function Reserved(spec: Spec, name: ResourceName): Container {
    var k := KnobsOf(spec, name);
    var rl: ResourceList := map[name := k.minQ.GetOr(0) + k.step, OtherOf(name) := Parked(spec, name)];
    Container("a", rl, rl)
  }

  function Shrunk(spec: Spec, name: ResourceName): Container {
    var c := Reserved(spec, name);
    c.(req := c.req[name := KnobsOf(spec, name).minQ.GetOr(0)])
  }

  /** Half a step short of its reservation. */
  function Short(spec: Spec, name: ResourceName): Container {
    var m := KnobsOf(spec, OtherOf(name)).minQ.GetOr(0);
    Container("b", map[name := 0, OtherOf(name) := m], map[name := HalfStep(spec, name), OtherOf(name) := m])
  }

  function HalfStep(spec: Spec, name: ResourceName): int { KnobsOf(spec, name).step / 2 }

  function Filled(spec: Spec, name: ResourceName): Container {
    var c := Short(spec, name);
    c.(req := c.req[name := HalfStep(spec, name)])
  }

  ghost predicate RepairLowers(spec: Spec, name: ResourceName) {
    Active(spec) && name in {CPU, Memory} && KnobsOf(spec, name).managed && KnobsOf(spec, name).maxQ.None?
  }

  lemma ShortFills(spec: Spec, name: ResourceName, usages: map<string, ResourceList>)
    requires SoundSpec(spec) && RepairLowers(spec, name)
    requires usages == map["b" := map[name := HighUsage(KnobsOf(spec, name), HalfStep(spec, name))]]
    ensures Moves(Short(spec, name), usages, spec, KeepLimits)
    ensures Stepped(Short(spec, name), usages, spec, KeepLimits) == Filled(spec, name)
    ensures Stepped(Reserved(spec, name), usages, spec, KeepLimits) == Reserved(spec, name)
  {
    var m := KnobsOf(spec, OtherOf(name)).minQ.GetOr(0);
    RisesFromZero(Some(0), KnobsOf(spec, name), HalfStep(spec, name));
    StaysAtMinimum(KnobsOf(spec, OtherOf(name)), Some(m));
    StepsTo(Short(spec, name), usages, spec, name, HalfStep(spec, name));
  }

  lemma ReservedIsLowered(spec: Spec, name: ResourceName)
    requires SoundSpec(spec) && name in {CPU, Memory} && KnobsOf(spec, name).managed
    ensures Forced([Reserved(spec, name), Filled(spec, name)], spec) ==
            Some([Shrunk(spec, name), Filled(spec, name)])
  {
    var cs := [Reserved(spec, name), Filled(spec, name)];
    assert LowerContainer(cs[0], spec) == Some(Shrunk(spec, name));
    ForcedAt(cs, 0, spec);
    assert cs[0 := Shrunk(spec, name)] == [Shrunk(spec, name), Filled(spec, name)];
  }

  lemma ReservedState(spec: Spec, name: ResourceName, usages: map<string, ResourceList>)
    requires SoundSpec(spec) && RepairLowers(spec, name)
    requires usages == map["b" := map[name := HighUsage(KnobsOf(spec, name), HalfStep(spec, name))]]
    ensures var pod := Pod([], [Reserved(spec, name), Short(spec, name)]);
            && AnyMoves(pod, usages, spec, KeepLimits)
            && Unadjusted(pod, usages, spec, KeepLimits).containers == [Reserved(spec, name), Filled(spec, name)]
  {
    var pod := Pod([], [Reserved(spec, name), Short(spec, name)]);
    ShortFills(spec, name, usages);
    assert pod.containers[1] in pod.containers;
  }

  lemma ShortIsBurstable(spec: Spec, name: ResourceName)
    requires name in {CPU, Memory}
    ensures QoS(Pod([], [Reserved(spec, name), Short(spec, name)])) == Burstable
  {
    var pod := Pod([], [Reserved(spec, name), Short(spec, name)]);
    assert pod.All()[1] in pod.All();
    BurstableBy(pod, Short(spec, name));
  }

  lemma ReservedPlan(spec: Spec, name: ResourceName)
    requires SoundSpec(spec) && RepairLowers(spec, name)
    ensures Gives(Pod([], [Reserved(spec, name), Short(spec, name)]),
                  Measured("b", map[name := HighUsage(KnobsOf(spec, name), HalfStep(spec, name))]), spec,
                  [Shrunk(spec, name), Filled(spec, name)])
  {
    var use: ResourceList := map[name := HighUsage(KnobsOf(spec, name), HalfStep(spec, name))];
    MeasuredUsage("b", use);
    ReservedState(spec, name, Usages(Measured("b", use)));
    ShortIsBurstable(spec, name);
    FilledIsGuaranteed(spec, name);
    ReservedIsLowered(spec, name);
    PlanRepairs(Pod([], [Reserved(spec, name), Short(spec, name)]), Measured("b", use), spec,
                Pod([], [Reserved(spec, name), Filled(spec, name)]), [Shrunk(spec, name), Filled(spec, name)]);
  }

  lemma FilledIsGuaranteed(spec: Spec, name: ResourceName)
    requires name in {CPU, Memory}
    ensures QoS(Pod([], [Reserved(spec, name), Filled(spec, name)])) == Guaranteed
  {
  }

  lemma RepairedSums(spec: Spec, name: ResourceName)
    requires name in {CPU, Memory}
    ensures var was := SumRequests([Reserved(spec, name), Short(spec, name)], 2);
            var now := SumRequests([Shrunk(spec, name), Filled(spec, name)], 2);
            && now.Of(name) == was.Of(name) - KnobsOf(spec, name).step + HalfStep(spec, name)
            && now.Of(OtherOf(name)) == was.Of(OtherOf(name))
  {
    var was, now := [Reserved(spec, name), Short(spec, name)], [Shrunk(spec, name), Filled(spec, name)];
    assert SumRequests(was, 1) == ZERO_DELTA.Plus(Requested(was[0].req));
    assert SumRequests(now, 1) == ZERO_DELTA.Plus(Requested(now[0].req));
  }

  lemma ReservedContainersSound(spec: Spec, name: ResourceName)
    requires SoundSpec(spec) && name in {CPU, Memory}
    ensures SoundContainer(Reserved(spec, name)) && SoundContainer(Short(spec, name))
  {
  }

  lemma ReservedIsSound(spec: Spec, name: ResourceName)
    requires SoundSpec(spec) && name in {CPU, Memory}
    ensures SoundPod(Pod([], [Reserved(spec, name), Short(spec, name)]))
  {
    ReservedContainersSound(spec, name);
    assert Reserved(spec, name).name != Short(spec, name).name;
  }

  lemma RepairedFalls(spec: Spec, name: ResourceName) returns (pod: Pod, metrics: PodMetrics, delta: Delta)
    requires SoundSpec(spec) && RepairLowers(spec, name)
    ensures LowersIt(pod, metrics, spec, name, delta)
  {
    pod := Pod([], [Reserved(spec, name), Short(spec, name)]);
    metrics := Measured("b", map[name := HighUsage(KnobsOf(spec, name), HalfStep(spec, name))]);
    delta := Difference(pod.containers, [Shrunk(spec, name), Filled(spec, name)]);
    ReservedIsSound(spec, name);
    ReservedPlan(spec, name);
    ProposesDifference(pod, metrics, spec, [Shrunk(spec, name), Filled(spec, name)]);
    RepairedSums(spec, name);
  }

  // ----- a pod that falls -----

  /** To the maximum if there is one, by as much as asked, and by the repair otherwise. */
  lemma PodFalls(drop: nat, spec: Spec, name: ResourceName) returns (pod: Pod, metrics: PodMetrics, delta: Delta)
    requires SoundSpec(spec) && Active(spec) && CanLower(KnobsOf(spec, name)) && name in {CPU, Memory} && drop > 0
    ensures LowersIt(pod, metrics, spec, name, delta)
    ensures KnobsOf(spec, name).maxQ.Some? ==> delta.Of(name) + drop <= 0
  {
    if KnobsOf(spec, name).maxQ.Some? {
      pod, metrics, delta := OversizedFalls(drop, spec, name);
    } else {
      pod, metrics, delta := RepairedFalls(spec, name);
    }
  }
}
