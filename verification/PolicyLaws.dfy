/** Laws of whole evaluations: fixed points, monotonicity, the final envelope and conservation of requests. */
module PolicyLaws {
  import opened Wrappers
  import opened Resources
  import opened ResourceStep
  import opened PodHash
  import opened PolicySpec
  import opened Policy
  import opened QoSSafety

  /** In amounts, a measured container always ends where its two resource steps put it, whether or not the lists
      were written back. */
  lemma SteppedAmounts(c: Container, usages: map<string, ResourceList>, spec: Spec, mode: EffectiveMode,
      name: ResourceName)
    requires c.name in usages && name in {CPU, Memory}
    ensures var s, r := Stepped(c, usages, spec, mode), StepOf(c, usages[c.name], spec, mode, name);
            && Amount(s.req, name) == r.req.GetOr(0) && Amount(s.lim, name) == r.lim.GetOr(0)
            && (name in s.req ==> r.req.Some?)
            && (mode.KeepLimits? ==> Get(s.lim, name) == Get(c.lim, name))
  {
  }

  // ----- fixed points when scaling down is off -----

  /** A second pass over a rewritten container finds nothing to change. */
  lemma ContainerIdempotent(c: Container, usages: map<string, ResourceList>, spec: Spec, mode: EffectiveMode)
    requires !spec.allowDownscale && spec.OrderedBounds()
    ensures !Moves(Stepped(c, usages, spec, mode), usages, spec, mode)
  {
    if Moves(c, usages, spec, mode) {
      var usage := usages[c.name];
      var d := Refit(c, usage, spec, mode);
      RefitLists(c, usage, spec, mode);
      RefitLists(d, usage, spec, mode);
      StepIdempotent(Get(c.req, CPU), Get(c.lim, CPU), Amount(usage, CPU), CpuKnobs(spec), mode);
      StepIdempotent(Get(c.req, Memory), Get(c.lim, Memory), Amount(usage, Memory), MemoryKnobs(spec), mode);
      var dd := Refit(d, usage, spec, mode);
      SameLists(dd.req, d.req);
      SameLists(dd.lim, d.lim);
    }
  }

  lemma UnadjustedIsFixed(pod: Pod, usages: map<string, ResourceList>, spec: Spec, mode: EffectiveMode)
    requires !spec.allowDownscale && spec.OrderedBounds()
    ensures !AnyMoves(Unadjusted(pod, usages, spec, mode), usages, spec, mode)
  {
    var u := Unadjusted(pod, usages, spec, mode);
    forall c | c in u.containers ensures !Moves(c, usages, spec, mode) {
      var i :| 0 <= i < |u.containers| && u.containers[i] == c;
      ContainerIdempotent(pod.containers[i], usages, spec, mode);
    }
  }

  /** With a toggle on and a recognised mode the plan is the evaluation in that mode. */
  lemma PlanIsEvaluate(pod: Pod, metrics: PodMetrics, spec: Spec)
    requires ModeFor(pod, spec).Some? && (spec.manageCPU || spec.manageMemory)
    ensures Plan(Some(pod), Some(metrics), spec) == Evaluate(pod, Usages(metrics), spec, ModeFor(pod, spec).value)
  {
  }

  /** An evaluation under which no container moves succeeds and reports the pod itself. */
  lemma UnmovedEvaluation(pod: Pod, usages: map<string, ResourceList>, spec: Spec, mode: EffectiveMode)
    requires !AnyMoves(pod, usages, spec, mode)
    ensures var (r, e) := Evaluate(pod, usages, spec, mode);
            e.NoError? && !r.changed && r.desired == Some(pod) && r.hash == Some(Canonical(pod))
                && r.delta == RequestDelta(pod, pod)
  {
    UnmovedPod(pod, usages, spec, mode);
  }

  /** What a successful evaluation reports without the repair: the unadjusted pod. */
  lemma UnrepairedShape(pod: Pod, usages: map<string, ResourceList>, spec: Spec, mode: EffectiveMode)
    requires !Repairs(pod, usages, spec, mode) && Evaluate(pod, usages, spec, mode).1.NoError?
    ensures var r, u := Evaluate(pod, usages, spec, mode).0, Unadjusted(pod, usages, spec, mode);
            r.desired == Some(u) && r.hash == Some(Canonical(u)) && QoS(u) == QoS(pod)
  {
  }

  /** Without scaling down, an evaluation of its own output with the same usage changes nothing, unless the first one
      went through the repair of a Burstable pod. */
  lemma OwnOutputIsFixed(pod: Pod, usages: map<string, ResourceList>, spec: Spec, mode: EffectiveMode)
      returns (desired: Pod)
    requires !spec.allowDownscale && spec.OrderedBounds() && ModeFor(pod, spec) == Some(mode)
    requires !Repairs(pod, usages, spec, mode) && Evaluate(pod, usages, spec, mode).1.NoError?
    ensures Evaluate(pod, usages, spec, mode).0.desired == Some(desired) && ModeFor(desired, spec) == Some(mode)
    ensures var (again, e) := Evaluate(desired, usages, spec, mode);
            && e.NoError? && !again.changed && again.desired == Some(desired) && again.hash == Some(Canonical(desired))
            && (DistinctNames(desired.containers) ==> again.delta == ZERO_DELTA)
  {
    UnrepairedShape(pod, usages, spec, mode);
    UnadjustedIsFixed(pod, usages, spec, mode);
    desired := Unadjusted(pod, usages, spec, mode);
    UnmovedEvaluation(desired, usages, spec, mode);
    if DistinctNames(desired.containers) {
      DeltaOfSameNames(desired, desired);
    }
  }

  // ----- monotonicity and envelope -----

  /** For a fixed container more usage never ends in less requested, whatever the other resource does. */
  lemma ContainerMonotone(c: Container, low: map<string, ResourceList>, high: map<string, ResourceList>,
                          spec: Spec, mode: EffectiveMode, name: ResourceName)
    requires c.name in low && c.name in high && name in {CPU, Memory}
    requires Amount(low[c.name], name) <= Amount(high[c.name], name)
    requires spec.OrderedBounds() && spec.headroomPercent >= -100 && Amount(c.lim, name) >= 0
    ensures Amount(Stepped(c, low, spec, mode).req, name) <= Amount(Stepped(c, high, spec, mode).req, name)
  {
    SteppedAmounts(c, low, spec, mode, name);
    SteppedAmounts(c, high, spec, mode, name);
    StepMonotoneInUsage(Get(c.req, name), Get(c.lim, name), Amount(low[c.name], name), Amount(high[c.name], name),
                        KnobsOf(spec, name), mode);
  }

  /** Where a managed request of a measured container may end up. */
  ghost predicate InEnvelope(before: Container, after: Container, spec: Spec, mode: EffectiveMode, name: ResourceName) {
    var k, v := KnobsOf(spec, name), Amount(after.req, name);
    var onLimit := mode.KeepLimits? && name in after.lim && v == after.lim[name];
    && (k.maxQ.Some? ==> v <= k.maxQ.value)
    && (mode.KeepLimits? && name in after.req && name in after.lim ==> v <= after.lim[name])
    && (mode.LimitsFollowRequests? ==> Amount(after.lim, name) == v)
    && (k.minQ.Some? && v < k.minQ.value ==> onLimit)
    && (!k.allowDown && v < Amount(before.req, name) ==> k.maxQ == Some(v) || onLimit)
  }

  lemma ContainerEnvelope(c: Container, usages: map<string, ResourceList>, spec: Spec, mode: EffectiveMode,
      name: ResourceName)
    requires c.name in usages && name in {CPU, Memory} && spec.Manages(name) && spec.OrderedBounds()
    ensures InEnvelope(c, Stepped(c, usages, spec, mode), spec, mode, name)
  {
    SteppedAmounts(c, usages, spec, mode, name);
    StepEnvelope(Get(c.req, name), Get(c.lim, name), Amount(usages[c.name], name), KnobsOf(spec, name), mode);
  }

  /** The repair lowers one request of one container and keeps it between its minimum and its limit. */
  lemma LoweredEnvelope(before: Container, c: Container, d: Container, spec: Spec, name: ResourceName)
    requires name in {CPU, Memory} && spec.Manages(name)
    requires InEnvelope(before, c, spec, KeepLimits, name) && LoweredBy(c, d, spec)
    ensures InEnvelope(before, d, spec, KeepLimits, name)
            || (Amount(d.req, name) < Amount(c.req, name) && InEnvelope(d, d, spec, KeepLimits, name))
  {
  }

  lemma EnvelopeOfShape(pod: Pod, desired: seq<Container>, usages: map<string, ResourceList>, spec: Spec,
                        mode: EffectiveMode, i: nat, name: ResourceName)
    requires i < |pod.containers| && name in {CPU, Memory} && spec.Manages(name) && spec.OrderedBounds()
    requires pod.containers[i].name in usages
    requires var u := Unadjusted(pod, usages, spec, mode).containers;
             desired == u || (mode.KeepLimits? && OneLowered(u, desired, spec))
    ensures |desired| == |pod.containers|
    ensures InEnvelope(desired[i], desired[i], spec, mode, name)
    ensures InEnvelope(pod.containers[i], desired[i], spec, mode, name)
            || (desired != Unadjusted(pod, usages, spec, mode).containers
                && LoweredBy(Stepped(pod.containers[i], usages, spec, mode), desired[i], spec))
  {
    ContainerEnvelope(pod.containers[i], usages, spec, mode, name);
    var u := Unadjusted(pod, usages, spec, mode).containers;
    if desired != u {
      var j :| 0 <= j < |u| && LoweredBy(u[j], desired[j], spec) && desired == u[j := desired[j]];
      if i == j {
        LoweredEnvelope(pod.containers[i], u[i], desired[i], spec, name);
      }
    }
  }

  /** On success every managed request of every measured container ends in the envelope, except for
      the one that the repair of a Burstable pod lowers: that one only leaves it by having fallen. */
  lemma FinalEnvelope(pod: Pod, usages: map<string, ResourceList>, spec: Spec, mode: EffectiveMode, i: nat,
      name: ResourceName)
    requires i < |pod.containers| && name in {CPU, Memory} && spec.Manages(name) && spec.OrderedBounds()
    requires ModeFor(pod, spec) == Some(mode) && pod.containers[i].name in usages
    requires Evaluate(pod, usages, spec, mode).1.NoError?
    ensures var desired := Evaluate(pod, usages, spec, mode).0.desired;
            && desired.Some? && |desired.value.containers| == |pod.containers|
            && var c, d := pod.containers[i], desired.value.containers[i];
               && InEnvelope(d, d, spec, mode, name)
               && (InEnvelope(c, d, spec, mode, name)
                   || (Repairs(pod, usages, spec, mode) && LoweredBy(Stepped(c, usages, spec, mode), d, spec)))
  {
    ShapeOfSuccess(pod, usages, spec, mode);
    var desired := Evaluate(pod, usages, spec, mode).0.desired.value.containers;
    EnvelopeOfShape(pod, desired, usages, spec, mode, i, name);
  }

  /** A success reports the unadjusted state, or the repaired one. */
  lemma ShapeOfSuccess(pod: Pod, usages: map<string, ResourceList>, spec: Spec, mode: EffectiveMode)
    requires ModeFor(pod, spec) == Some(mode) && Evaluate(pod, usages, spec, mode).1.NoError?
    ensures var (desired, u) := (Evaluate(pod, usages, spec, mode).0.desired, Unadjusted(pod, usages, spec, mode));
            && desired.Some?
            && if Repairs(pod, usages, spec, mode)
               then mode.KeepLimits? && OneLowered(u.containers, desired.value.containers, spec)
               else desired == Some(u)
  {
    if Repairs(pod, usages, spec, mode) {
      assert mode == KeepLimits;
      RepairExact(pod, usages, spec);
    } else {
      UnrepairedShape(pod, usages, spec, mode);
    }
  }

  // ----- conservation -----

  function SumRequests(cs: seq<Container>, n: nat): Delta
    requires n <= |cs|
  {
    if n == 0 then ZERO_DELTA else SumRequests(cs, n - 1).Plus(Requested(cs[n - 1].req))
  }

  lemma {:induction false} RecordedUnderName(cs: seq<Container>, n: nat, i: nat)
    requires i < n <= |cs| && DistinctNames(cs)
    ensures cs[i].name in RequestsByName(cs, n) && RequestsByName(cs, n)[cs[i].name] == cs[i].req
  {
    if i == n - 1 {
    } else {
      RecordedUnderName(cs, n - 1, i);
    }
  }

  lemma {:induction false} DeltaTelescopes(byName: map<string, ResourceList>, was: seq<Container>,
      now: seq<Container>, n: nat)
    requires n <= |was| == |now|
    requires forall i | 0 <= i < |was| :: now[i].name in byName && byName[now[i].name] == was[i].req
    ensures DeltaByName(byName, now, n) == SumRequests(now, n).Minus(SumRequests(was, n))
  {
    if n == 0 {
    } else {
      DeltaTelescopes(byName, was, now, n - 1);
    }
  }

  predicate SameNames(cs: seq<Container>, ds: seq<Container>) {
    |cs| == |ds| && forall i | 0 <= i < |cs| :: cs[i].name == ds[i].name
  }

  lemma {:induction false} ForcedKeepsNames(cs: seq<Container>, spec: Spec)
    ensures Forced(cs, spec).Some? ==> SameNames(cs, Forced(cs, spec).value)
  {
    if cs == [] {
    } else {
      ForcedKeepsNames(cs[1..], spec);
    }
  }

  lemma RegularNamesDistinct(pod: Pod)
    requires DistinctNames(pod.All())
    ensures DistinctNames(pod.containers)
  {
    var n := |pod.initContainers|;
    forall i, j | 0 <= i < j < |pod.containers| ensures pod.containers[i].name != pod.containers[j].name {
      assert pod.All()[n + i] == pod.containers[i] && pod.All()[n + j] == pod.containers[j];
    }
  }

  lemma DeltaOfSameNames(was: Pod, now: Pod)
    requires DistinctNames(was.containers) && SameNames(was.containers, now.containers)
    ensures var n := |was.containers|;
            RequestDelta(was, now) == SumRequests(now.containers, n).Minus(SumRequests(was.containers, n))
  {
    var n := |was.containers|;
    forall i | 0 <= i < n
      ensures was.containers[i].name in RequestsByName(was.containers, n)
      ensures RequestsByName(was.containers, n)[was.containers[i].name] == was.containers[i].req
    {
      RecordedUnderName(was.containers, n, i);
    }
    DeltaTelescopes(RequestsByName(was.containers, n), was.containers, now.containers, n);
  }

  lemma EvaluationKeepsNames(pod: Pod, usages: map<string, ResourceList>, spec: Spec, mode: EffectiveMode)
    ensures var (r, e) := Evaluate(pod, usages, spec, mode);
            e.NoError? ==> r.desired.Some? && r.delta == RequestDelta(pod, r.desired.value)
                           && SameNames(pod.containers, r.desired.value.containers)
  {
    var u := Unadjusted(pod, usages, spec, mode);
    forall i | 0 <= i < |pod.containers| ensures u.containers[i].name == pod.containers[i].name {
      assert u.containers[i] == Stepped(pod.containers[i], usages, spec, mode);
    }
    ForcedKeepsNames(u.containers, spec);
  }

  lemma PlanKeepsNames(pod: Pod, metrics: PodMetrics, spec: Spec)
    ensures var (r, e) := Plan(Some(pod), Some(metrics), spec);
            e.NoError? ==>
              && r.desired.Some? && SameNames(pod.containers, r.desired.value.containers)
              && (r.delta == RequestDelta(pod, r.desired.value) || (r.desired == Some(pod) && r.delta == ZERO_DELTA))
  {
    if (spec.manageCPU || spec.manageMemory) && ModeFor(pod, spec).Some? {
      PlanIsEvaluate(pod, metrics, spec);
      EvaluationKeepsNames(pod, Usages(metrics), spec, ModeFor(pod, spec).value);
    }
  }

  /** With distinct container names the reported delta is the change of the total requests of the pod, and
      an unchanged pod reports none. */
  lemma DeltaIsConserved(pod: Pod, metrics: PodMetrics, spec: Spec)
    requires DistinctNames(pod.containers)
    ensures var (r, e) := Plan(Some(pod), Some(metrics), spec);
            e.NoError? ==>
              && r.desired.Some?
              && r.delta == SumRequests(r.desired.value.containers, |r.desired.value.containers|)
                              .Minus(SumRequests(pod.containers, |pod.containers|))
              && (!r.changed ==> r.delta == ZERO_DELTA)
  {
    var (r, e) := Plan(Some(pod), Some(metrics), spec);
    PlanKeepsNames(pod, metrics, spec);
    ClassIsKept(pod, metrics, spec);
    if e.NoError? {
      DeltaOfSameNames(pod, r.desired.value);
      DeltaOfSameNames(pod, pod);
    }
  }

  // ----- digests -----

  lemma SameNamesAndDigest(p: Pod, d: Pod)
    requires DistinctNames(p.All()) && p.initContainers == d.initContainers && SameNames(p.containers, d.containers)
    requires Canonical(p) == Canonical(d)
    ensures p == d
  {
    var n := |p.initContainers|;
    forall i | 0 <= i < |p.All()| ensures p.All()[i].name == d.All()[i].name {
      if i >= n {
        assert p.All()[i] == p.containers[i - n] && d.All()[i] == d.containers[i - n];
      }
    }
    CanonicalExact(p, d);
    forall i | 0 <= i < |p.containers| ensures p.containers[i] == d.containers[i] {
      assert d.All()[n + i] == d.containers[i] && d.containers[i] in d.All();
      var j :| 0 <= j < |p.All()| && p.All()[j] == d.containers[i];
      assert j == n + i;
    }
  }

  lemma DesiredKeepsInits(pod: Pod, metrics: PodMetrics, spec: Spec)
    ensures var (r, e) := Plan(Some(pod), Some(metrics), spec);
            e.NoError? ==> r.desired.Some? && r.desired.value.initContainers == pod.initContainers
                           && r.hash == Some(Canonical(r.desired.value))
  {
  }

  lemma OldDigestOldPod(pod: Pod, metrics: PodMetrics, spec: Spec)
    requires DistinctNames(pod.All())
    ensures var (r, e) := Plan(Some(pod), Some(metrics), spec);
            e.NoError? && r.hash == Some(Canonical(pod)) ==> r.desired == Some(pod)
  {
    var (r, e) := Plan(Some(pod), Some(metrics), spec);
    DesiredKeepsInits(pod, metrics, spec);
    PlanKeepsNames(pod, metrics, spec);
    if e.NoError? && r.hash == Some(Canonical(pod)) {
      SameNamesAndDigest(pod, r.desired.value);
    }
  }

  lemma OldDigestNoDelta(pod: Pod, metrics: PodMetrics, spec: Spec)
    requires DistinctNames(pod.containers)
    ensures var (r, e) := Plan(Some(pod), Some(metrics), spec);
            e.NoError? && r.desired == Some(pod) ==> r.delta == ZERO_DELTA
  {
    DeltaIsConserved(pod, metrics, spec);
  }

  /** An evaluation with a nonzero delta ends in a state of another digest. */
  lemma ChangeHasNewDigest(pod: Pod, metrics: PodMetrics, spec: Spec)
    requires DistinctNames(pod.All())
    ensures var (r, e) := Plan(Some(pod), Some(metrics), spec);
            e.NoError? && r.delta != ZERO_DELTA ==> r.hash != Some(Canonical(pod))
  {
    RegularNamesDistinct(pod);
    OldDigestOldPod(pod, metrics, spec);
    OldDigestNoDelta(pod, metrics, spec);
  }

  // ----- evaluations that move a pod -----

  lemma EvaluatedBurstable(d: Pod, usages: map<string, ResourceList>, spec: Spec)
    requires QoS(d) == Burstable && QoS(Unadjusted(d, usages, spec, KeepLimits)) == Burstable
    ensures var (again, e) := Evaluate(d, usages, spec, KeepLimits);
            && e.NoError? && (again.changed <==> AnyMoves(d, usages, spec, KeepLimits))
            && again.desired == Some(Unadjusted(d, usages, spec, KeepLimits))
  {
  }

  /** A Burstable pod whose computed state u would be Guaranteed is repaired to the state r. */
  lemma EvaluatedRepaired(d: Pod, u: Pod, r: Pod, usages: map<string, ResourceList>, spec: Spec)
    requires QoS(d) == Burstable && QoS(u) == Guaranteed && QoS(r) == Burstable && r == u.(containers := r.containers)
    requires Forced(u.containers, spec) == Some(r.containers)
    requires u == Unadjusted(d, usages, spec, KeepLimits) && AnyMoves(d, usages, spec, KeepLimits)
    ensures var (again, e) := Evaluate(d, usages, spec, KeepLimits);
            e.NoError? && again.changed && again.desired == Some(r)
  {
  }

  /** A measured container of which only one request moves. */
  lemma StepsTo(c: Container, usages: map<string, ResourceList>, spec: Spec, name: ResourceName, v: int)
    requires c.name in usages && name in {CPU, Memory} && Amount(c.req, name) != v
    requires StepOf(c, usages[c.name], spec, KeepLimits, name).req == Some(v)
    requires StepOf(c, usages[c.name], spec, KeepLimits, OtherOf(name)).req == Get(c.req, OtherOf(name))
    ensures Moves(c, usages, spec, KeepLimits)
    ensures Stepped(c, usages, spec, KeepLimits) == c.(req := c.req[name := v])
  {
    var usage := usages[c.name];
    var r := Refit(c, usage, spec, KeepLimits);
    RefitLists(c, usage, spec, KeepLimits);
    KeepLimitsKeepsLimits(c, usage, spec);
    assert Get(r.req, name) == Some(v) && Get(r.req, OtherOf(name)) == Get(c.req, OtherOf(name));
    SameLists(r.req, c.req[name := v]);
    SameLists(r.lim, c.lim);
    assert Amount(r.req, name) != Amount(c.req, name);
  }

  lemma BurstableBy(pod: Pod, c: Container)
    requires c in pod.All() && !FullyReserved(c) && !Unspecified(c)
    ensures QoS(pod) == Burstable
  {
  }

  lemma BurstableKeepsLimits(pod: Pod, metrics: PodMetrics, spec: Spec)
    requires Active(spec) && QoS(pod) == Burstable
    ensures Plan(Some(pod), Some(metrics), spec) == Evaluate(pod, Usages(metrics), spec, KeepLimits)
  {
  }

  /** The evaluation changes the pod to these containers. */
  ghost predicate Gives(pod: Pod, metrics: PodMetrics, spec: Spec, now: seq<Container>) {
    var (r, e) := Plan(Some(pod), Some(metrics), spec);
    e.NoError? && r.changed && r.desired == Some(pod.(containers := now))
  }

  /** A Burstable pod whose computed state is Burstable too gets that state. */
  lemma PlanMoves(pod: Pod, metrics: PodMetrics, spec: Spec)
    requires Active(spec) && AnyMoves(pod, Usages(metrics), spec, KeepLimits)
    requires QoS(pod) == Burstable && QoS(Unadjusted(pod, Usages(metrics), spec, KeepLimits)) == Burstable
    ensures Gives(pod, metrics, spec, Unadjusted(pod, Usages(metrics), spec, KeepLimits).containers)
  {
    BurstableKeepsLimits(pod, metrics, spec);
    EvaluatedBurstable(pod, Usages(metrics), spec);
  }

  lemma RepairedIsBurstable(u: Pod, spec: Spec)
    requires QoS(u) == Guaranteed && Forced(u.containers, spec).Some?
    ensures QoS(u.(containers := Forced(u.containers, spec).value)) == Burstable
  {
    forall c | c in u.containers ensures FullyReserved(c) {
      assert c in u.All();
    }
    ForcedExact(u.containers, spec);
    ForcedIsBurstable(u, u.(containers := Forced(u.containers, spec).value), spec);
  }

  /** A Burstable pod whose computed state u would be Guaranteed gets the repaired state, which is Burstable. */
  lemma PlanRepairs(pod: Pod, metrics: PodMetrics, spec: Spec, u: Pod, repaired: seq<Container>)
    requires Active(spec) && AnyMoves(pod, Usages(metrics), spec, KeepLimits)
    requires QoS(pod) == Burstable && QoS(u) == Guaranteed && u == Unadjusted(pod, Usages(metrics), spec, KeepLimits)
    requires Forced(u.containers, spec) == Some(repaired)
    ensures Gives(pod, metrics, spec, repaired)
  {
    RepairedIsBurstable(u, spec);
    BurstableKeepsLimits(pod, metrics, spec);
    EvaluatedRepaired(pod, u, u.(containers := repaired), Usages(metrics), spec);
    assert pod.(containers := repaired) == u.(containers := repaired);
  }

  // ----- one container -----

  function One(c: Container): Pod { Pod([], [c]) }

  function Measured(name: string, usage: ResourceList): PodMetrics { PodMetrics([ContainerMetrics(name, usage)]) }

  lemma MeasuredUsage(name: string, usage: ResourceList)
    ensures Usages(Measured(name, usage)) == map[name := usage]
  {
    var ms := Measured(name, usage).containers;
    assert UsageByContainer(ms, 0) == map[];
    assert UsageByContainer(ms, 1) == map[name := usage];
  }

  /** A single container, Burstable before and after, of which one request moves. */
  lemma OneMoves(c: Container, usage: ResourceList, spec: Spec, name: ResourceName, v: int)
    requires Active(spec) && name in {CPU, Memory} && Amount(c.req, name) != v
    requires StepOf(c, usage, spec, KeepLimits, name).req == Some(v)
    requires StepOf(c, usage, spec, KeepLimits, OtherOf(name)).req == Get(c.req, OtherOf(name))
    requires var d := c.(req := c.req[name := v]); !FullyReserved(c) && !FullyReserved(d) && !Unspecified(c)
    ensures Gives(One(c), Measured(c.name, usage), spec, [c.(req := c.req[name := v])])
  {
    var metrics, d := Measured(c.name, usage), c.(req := c.req[name := v]);
    MeasuredUsage(c.name, usage);
    StepsTo(c, Usages(metrics), spec, name, v);
    var u := Unadjusted(One(c), Usages(metrics), spec, KeepLimits);
    assert c in One(c).containers && c in One(c).All();
    assert u.containers == [d] && d in u.All();
    BurstableBy(One(c), c);
    BurstableBy(u, d);
    PlanMoves(One(c), metrics, spec);
  }
}
