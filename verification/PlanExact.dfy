/** What a whole evaluation answers, in the terms of the policy's meaning: result, class and counters. */
module PlanExact {
  import opened Wrappers
  import opened Resources
  import opened ResourceStep
  import opened PodHash
  import opened PolicySpec
  import opened PolicyMeaning
  import opened ContainerMeaning
  import opened QoSSafety

  // ----- the state asked for -----

  /** Limits follow requests when the policy says so and the pod is fully reserved. */
  ghost predicate Follows(pod: Pod, spec: Spec) {
    spec.limitsMode == EqualRequests && forall c | c in pod.initContainers + pod.containers :: FullyReserved(c)
  }

  /** Some resource is managed, and the mode for limits is a known one. */
  predicate Evaluates(spec: Spec) {
    (spec.manageCPU || spec.manageMemory) && spec.limitsMode in {Unset, UnchangedLimits, EqualRequests}
  }

  /** Every container is treated by itself. */
  ghost predicate AskedFor(pod: Pod, metrics: PodMetrics, spec: Spec, cs: seq<Container>) {
    && |cs| == |pod.containers|
    && forall i | 0 <= i < |cs| :: Treated(pod.containers[i], metrics, spec, Follows(pod, spec), cs[i])
  }

  ghost predicate SomeDiffer(cs: seq<Container>, ds: seq<Container>)
    requires |cs| == |ds|
  {
    exists i | 0 <= i < |cs| :: Differs(cs[i], ds[i])
  }

  lemma ModeExact(pod: Pod, spec: Spec)
    requires Evaluates(spec)
    ensures ModeFor(pod, spec) == Some(Mode(Follows(pod, spec)))
  {
  }

  lemma AskedForExact(pod: Pod, metrics: PodMetrics, spec: Spec, cs: seq<Container>)
    ensures AskedFor(pod, metrics, spec, cs) <==>
            cs == SteppedAll(pod.containers, Usages(metrics), spec, Mode(Follows(pod, spec)))
  {
    forall i | 0 <= i < |pod.containers| && i < |cs|
      ensures Treated(pod.containers[i], metrics, spec, Follows(pod, spec), cs[i]) <==>
              cs[i] == Stepped(pod.containers[i], Usages(metrics), spec, Mode(Follows(pod, spec)))
    {
      TreatedExact(pod.containers[i], metrics, spec, Follows(pod, spec), cs[i]);
    }
  }

  lemma DifferExact(pod: Pod, usages: map<string, ResourceList>, spec: Spec, mode: EffectiveMode)
    ensures var cs := SteppedAll(pod.containers, usages, spec, mode);
            SomeDiffer(pod.containers, cs) <==> AnyMoves(pod, usages, spec, mode)
  {
    var cs := SteppedAll(pod.containers, usages, spec, mode);
    if c :| c in pod.containers && Moves(c, usages, spec, mode) {
      var i :| 0 <= i < |pod.containers| && pod.containers[i] == c;
      assert Differs(pod.containers[i], cs[i]);
    }
    if i :| 0 <= i < |cs| && Differs(pod.containers[i], cs[i]) {
      assert pod.containers[i] in pod.containers;
    }
  }

  /** The state that is asked for exists, and there is only one. */
  lemma AskedForIsUnique(pod: Pod, metrics: PodMetrics, spec: Spec) returns (cs: seq<Container>)
    ensures AskedFor(pod, metrics, spec, cs)
    ensures forall ds | AskedFor(pod, metrics, spec, ds) :: ds == cs
  {
    cs := SteppedAll(pod.containers, Usages(metrics), spec, Mode(Follows(pod, spec)));
    AskedForExact(pod, metrics, spec, cs);
    forall ds | AskedFor(pod, metrics, spec, ds) ensures ds == cs {
      AskedForExact(pod, metrics, spec, ds);
    }
  }

  // ----- what is answered -----

  /** The answer to a pod for which the state cs is asked. Nothing to change is a success; a state of the same class is
      reported; a Burstable pod that would turn Guaranteed is reported with one request lowered, if some container has
      room; every other change of class is refused and leaves the pod as it is. */
  ghost predicate Answers(pod: Pod, cs: seq<Container>, spec: Spec, r: Result, e: PolicyError)
    requires |cs| == |pod.containers|
  {
    var asked := pod.(containers := cs);
    if !SomeDiffer(pod.containers, cs) then e == NoError && !r.changed && r.desired == Some(pod)
    else if QoS(asked) == QoS(pod) then e == NoError && r.changed && r.desired == Some(asked)
    else if QoS(pod) == Burstable && QoS(asked) == Guaranteed && exists c | c in cs :: HasRoom(c, spec) then
      && e == NoError && r.changed && r.desired.Some? && r.desired.value.initContainers == pod.initContainers
      && OneLowered(cs, r.desired.value.containers, spec)
    else e == QoSChange(QoS(pod), QoS(asked)) && !r.changed && r.desired == Some(pod)
  }

  lemma EvaluationAnswers(pod: Pod, usages: map<string, ResourceList>, spec: Spec, mode: EffectiveMode)
    requires mode == LimitsFollowRequests ==> QoS(pod) == Guaranteed
    ensures var (r, e) := Evaluate(pod, usages, spec, mode);
            Answers(pod, SteppedAll(pod.containers, usages, spec, mode), spec, r, e)
  {
    DifferExact(pod, usages, spec, mode);
    var u := Unadjusted(pod, usages, spec, mode);
    if !AnyMoves(pod, usages, spec, mode) {
      UnmovedPod(pod, usages, spec, mode);
    } else if QoS(pod) == Burstable && QoS(u) == Guaranteed {
      forall c | c in u.containers ensures FullyReserved(c) {
        assert c in u.All();
      }
      ForcedExact(u.containers, spec);
      if Forced(u.containers, spec).Some? {
        ForcedIsBurstable(u, Settled(pod, u, true, spec), spec);
      }
    }
  }

  /** An evaluation answers to the one state that is asked for. */
  lemma PlanExact(pod: Pod, metrics: PodMetrics, spec: Spec, cs: seq<Container>)
    requires Evaluates(spec) && AskedFor(pod, metrics, spec, cs)
    ensures var (r, e) := Plan(Some(pod), Some(metrics), spec); Answers(pod, cs, spec, r, e)
  {
    ModeExact(pod, spec);
    AskedForExact(pod, metrics, spec, cs);
    EvaluationAnswers(pod, Usages(metrics), spec, Mode(Follows(pod, spec)));
  }

  // ----- errors -----

  /** Which error an evaluation returns, and when; with an error nothing changes and nothing is counted. The mode is
      looked at only when a container with metrics is reached, and only after pod, metrics and managed resources. */
  lemma ErrorsExact(pod: Option<Pod>, metrics: Option<PodMetrics>, spec: Spec)
    ensures var (r, e) := Plan(pod, metrics, spec);
            && (e == PodIsNil <==> pod.None?)
            && (e == MetricsIsNil <==> pod.Some? && metrics.None?)
            && (e.UnsupportedLimitsMode? <==>
                  && pod.Some? && metrics.Some? && (spec.manageCPU || spec.manageMemory)
                  && spec.limitsMode.Unrecognised?
                  && exists c | c in pod.value.containers :: !Unmeasured(metrics.value, c.name))
            && (e.UnsupportedLimitsMode? ==> e.mode == spec.limitsMode)
            && (e == PodIsNil || e == MetricsIsNil || e.UnsupportedLimitsMode? ==> r == EMPTY_RESULT)
            && (pod.Some? && metrics.Some? && !Evaluates(spec) && e.NoError? ==> r.desired == pod && !r.changed)
            && (pod.Some? && metrics.Some? && !spec.manageCPU && !spec.manageMemory ==> e == NoError)
            && (!e.NoError? || (!spec.manageCPU && !spec.manageMemory) ==>
                  !r.changed && r.delta == ZERO_DELTA && r.tally == ZERO_TALLY)
            && (r.desired.Some? ==> r.hash == Some(Canonical(r.desired.value)))
            && (e.QoSChange? ==> Evaluates(spec) && pod.Some? && e.from == QoS(pod.value) && e.to != e.from)
  {
    if pod.Some? && metrics.Some? {
      forall c | c in pod.value.containers
        ensures c.name in Usages(metrics.value) <==> !Unmeasured(metrics.value, c.name)
      {
        UsagesAreLast(metrics.value, c.name);
      }
      if Evaluates(spec) {
        ModeExact(pod.value, spec);
        EvaluationErrs(pod.value, Usages(metrics.value), spec, Mode(Follows(pod.value, spec)));
      }
    }
  }

  lemma EvaluationErrs(pod: Pod, usages: map<string, ResourceList>, spec: Spec, mode: EffectiveMode)
    ensures var (r, e) := Evaluate(pod, usages, spec, mode);
            && (e.NoError? || (e.QoSChange? && e.from == QoS(pod) && e.to != e.from))
            && (e.QoSChange? ==> !r.changed && r.delta == ZERO_DELTA && r.tally == ZERO_TALLY)
            && (r.desired.Some? ==> r.hash == Some(Canonical(r.desired.value)))
  {
  }

  // ----- limits -----

  lemma TreatedKeepsLimits(c: Container, metrics: PodMetrics, spec: Spec, d: Container)
    requires Treated(c, metrics, spec, false, d)
    ensures d.lim == c.lim && d.name == c.name
  {
    if d != c {
      var usage, e :| IsUsage(metrics, c.name, usage) && Becomes(c, usage, spec, false, e)
                      && d == if Differs(c, e) then e else c;
      assert Get(e.lim, CPU) == Get(c.lim, CPU) && Get(e.lim, Memory) == Get(c.lim, Memory);
      Policy.SameLists(e.lim, c.lim);
    }
  }

  lemma AskedForKeepsLimits(pod: Pod, metrics: PodMetrics, spec: Spec, cs: seq<Container>, r: Result, e: PolicyError,
                            i: nat)
    requires !Follows(pod, spec) && i < |pod.containers| && AskedFor(pod, metrics, spec, cs)
    requires Answers(pod, cs, spec, r, e)
    ensures r.desired.Some? && |r.desired.value.containers| == |pod.containers|
    ensures r.desired.value.containers[i].lim == pod.containers[i].lim
  {
    TreatedKeepsLimits(pod.containers[i], metrics, spec, cs[i]);
  }

  /** Unless the pod is fully reserved and its limits are to follow, no limit ever changes. */
  lemma LimitsKept(pod: Pod, metrics: PodMetrics, spec: Spec, i: nat)
    requires !Follows(pod, spec) && i < |pod.containers|
    ensures var (r, e) := Plan(Some(pod), Some(metrics), spec);
            r.desired.Some? ==>
              && |r.desired.value.containers| == |pod.containers|
              && r.desired.value.containers[i].lim == pod.containers[i].lim
  {
    if Evaluates(spec) {
      var cs := AskedForIsUnique(pod, metrics, spec);
      var (r, e) := Plan(Some(pod), Some(metrics), spec);
      PlanExact(pod, metrics, spec, cs);
      AskedForKeepsLimits(pod, metrics, spec, cs, r, e, i);
    } else {
      ErrorsExact(Some(pod), Some(metrics), spec);
    }
  }

  // ----- requests -----

  /** The multiple of the step that a raised or lowered request lands on covers the usage and its headroom. */
  lemma DecidedMeetsUsage(req: Option<int>, usage: int, spec: Spec, name: ResourceName, q: Option<int>)
    requires Decides(req, usage, spec, name, q) && req.GetOr(0) >= 0
    ensures MeetsUsage(req.GetOr(0), q.GetOr(0), usage, spec, name)
  {
  }

  /** A rise ends at the least number of whole steps that covers usage and headroom; a fall ends at the greatest one
      that a whole unit less than it would leave uncovered. */
  ghost predicate MeetsUsage(v: int, w: int, usage: int, spec: Spec, name: ResourceName) {
    var needed := usage * (100 + spec.headroomPercent);
    && (w > v ==> w % StepSize(name) == 0 && 100 * w >= needed > 100 * (w - StepSize(name)))
    && (w < v ==> spec.allowDownscale)
    && (w < v && needed > 0 ==>
          w % StepSize(name) == 0 && 100 * (w - 1) < needed <= 100 * (w + StepSize(name) - 1))
  }

  predicate Unbounded(spec: Spec, name: ResourceName) { Least(spec, name).None? && Most(spec, name).None? }

  /** What stands behind a managed request of a measured container. */
  lemma DecidedIn(c: Container, metrics: PodMetrics, spec: Spec, follow: bool, d: Container, usage: ResourceList,
                  name: ResourceName) returns (q: Option<int>, e: Container)
    requires Treated(c, metrics, spec, follow, d) && IsUsage(metrics, c.name, usage)
    requires name in {CPU, Memory} && spec.Manages(name)
    ensures d == if Differs(c, e) then e else c
    ensures Decides(Get(c.req, name), Amount(usage, name), spec, name, q)
    ensures Stops(Within(q, spec, name), Get(c.lim, name), follow, Get(e.req, name), Get(e.lim, name))
  {
    UsagesAreLast(metrics, c.name);
    var u;
    u, e :| IsUsage(metrics, c.name, u) && Becomes(c, u, spec, follow, e) && d == if Differs(c, e) then e else c;
    assert EndsIn(c, usage, spec, follow, name, e);
    q :| Decides(Get(c.req, name), Amount(usage, name), spec, name, q)
         && Stops(Within(q, spec, name), Get(c.lim, name), follow, Get(e.req, name), Get(e.lim, name));
  }

  lemma AmountIsGet(rl: ResourceList, name: ResourceName)
    ensures Amount(rl, name) == Get(rl, name).GetOr(0)
  {
  }

  lemma SameAmountsKept(c: Container, e: Container, name: ResourceName)
    ensures var d := if Differs(c, e) then e else c;
            Amount(d.req, name) == Amount(e.req, name) && Amount(d.lim, name) == Amount(e.lim, name)
  {
  }

  lemma NothingHolds(q: Option<int>, lim: Option<int>, spec: Spec, name: ResourceName, follow: bool,
                     r: Option<int>, l: Option<int>)
    requires Unbounded(spec, name) && (lim.None? || follow) && Stops(Within(q, spec, name), lim, follow, r, l)
    ensures r == q
  {
  }

  lemma TreatedMeetsUsage(c: Container, metrics: PodMetrics, spec: Spec, follow: bool, d: Container,
                          usage: ResourceList, name: ResourceName)
    requires Treated(c, metrics, spec, follow, d) && IsUsage(metrics, c.name, usage)
    requires name in {CPU, Memory} && spec.Manages(name) && Unbounded(spec, name)
    requires name !in c.lim || follow
    requires Amount(c.req, name) >= 0
    ensures MeetsUsage(Amount(c.req, name), Amount(d.req, name), Amount(usage, name), spec, name)
  {
    var q, e := DecidedIn(c, metrics, spec, follow, d, usage, name);
    SameAmountsKept(c, e, name);
    NothingHolds(q, Get(c.lim, name), spec, name, follow, Get(e.req, name), Get(e.lim, name));
    AmountIsGet(e.req, name);
    AmountIsGet(c.req, name);
    DecidedMeetsUsage(Get(c.req, name), Amount(usage, name), spec, name, q);
  }

  /** On success a request without bounds, and without a limit that holds it back, has moved to where its usage
      says. */
  lemma RequestMeetsUsage(pod: Pod, metrics: PodMetrics, spec: Spec, i: nat, name: ResourceName, usage: ResourceList)
    requires Evaluates(spec) && Plan(Some(pod), Some(metrics), spec).1.NoError?
    requires i < |pod.containers| && IsUsage(metrics, pod.containers[i].name, usage)
    requires name in {CPU, Memory} && spec.Manages(name) && Unbounded(spec, name)
    requires name !in pod.containers[i].lim || Follows(pod, spec)
    requires Amount(pod.containers[i].req, name) >= 0
    ensures var r := Plan(Some(pod), Some(metrics), spec).0;
            && r.desired.Some? && |r.desired.value.containers| == |pod.containers|
            && MeetsUsage(Amount(pod.containers[i].req, name), Amount(r.desired.value.containers[i].req, name),
                          Amount(usage, name), spec, name)
  {
    var cs := AskedForIsUnique(pod, metrics, spec);
    PlanExact(pod, metrics, spec, cs);
    TreatedMeetsUsage(pod.containers[i], metrics, spec, Follows(pod, spec), cs[i], usage, name);
    if !Follows(pod, spec) {
      TreatedKeepsLimits(pod.containers[i], metrics, spec, cs[i]);
      assert cs[i] in pod.(containers := cs).All();
    }
  }

  // ----- limits that follow -----

  /** A managed request of a measured container is the decided and bounded amount, and its limit is the same. */
  ghost predicate FollowedIn(c: Container, metrics: PodMetrics, spec: Spec, name: ResourceName, d: Container) {
    exists usage, q ::
      && IsUsage(metrics, c.name, usage) && Decides(Get(c.req, name), Amount(usage, name), spec, name, q)
      && Get(d.req, name) == Within(q, spec, name) && Get(d.lim, name) == Get(d.req, name) && name in d.req
  }

  lemma DecidesSome(req: Option<int>, usage: int, spec: Spec, name: ResourceName, q: Option<int>)
    requires Decides(req, usage, spec, name, q) && req.Some?
    ensures q.Some? && Within(q, spec, name).Some?
  {
  }

  lemma TreatedFollows(c: Container, metrics: PodMetrics, spec: Spec, d: Container, name: ResourceName)
    requires FullyReserved(c) && Treated(c, metrics, spec, true, d) && !Unmeasured(metrics, c.name)
    requires name in {CPU, Memory} && spec.Manages(name)
    ensures FollowedIn(c, metrics, spec, name, d)
  {
    UsagesAreLast(metrics, c.name);
    var usage := Usages(metrics)[c.name];
    var q, e := DecidedIn(c, metrics, spec, true, d, usage, name);
    DecidesSome(Get(c.req, name), Amount(usage, name), spec, name, q);
    SameAmountsKept(c, e, name);
    assert Get(d.req, name) == Within(q, spec, name) && Get(d.lim, name) == Get(d.req, name);
  }

  lemma FollowingSucceeds(pod: Pod, metrics: PodMetrics, spec: Spec)
    requires Evaluates(spec) && Follows(pod, spec)
    ensures Plan(Some(pod), Some(metrics), spec).1.NoError? <==>
            forall c | c in pod.containers :: Unmeasured(metrics, c.name) || UnmanagedInBounds(c, spec)
  {
    forall c | c in pod.containers ensures c.name !in Usages(metrics) <==> Unmeasured(metrics, c.name) {
      UsagesAreLast(metrics, c.name);
    }
    FollowingPod(pod, Usages(metrics), spec);
  }

  /** The evaluation of a fully reserved pod whose limits are to follow: it succeeds exactly when every resource that is
      bounded but not managed lies in its bounds, in every measured container. Then the managed requests move whatever
      their limits were, the limits move along, and it reports a change exactly when some amount differs. */
  lemma EqualRequestsExact(pod: Pod, metrics: PodMetrics, spec: Spec)
    requires spec.manageCPU || spec.manageMemory
    requires spec.limitsMode == EqualRequests && forall c | c in pod.initContainers + pod.containers :: FullyReserved(c)
    ensures var (r, e) := Plan(Some(pod), Some(metrics), spec);
            && (e.NoError? <==>
                  forall c | c in pod.containers :: Unmeasured(metrics, c.name) || UnmanagedInBounds(c, spec))
            && (e.NoError? ==>
                  && r.desired.Some? && |r.desired.value.containers| == |pod.containers|
                  && (r.changed <==> SomeDiffer(pod.containers, r.desired.value.containers))
                  && forall i, name | 0 <= i < |pod.containers| && name in {CPU, Memory} && spec.Manages(name)
                                      && !Unmeasured(metrics, pod.containers[i].name) ::
                       FollowedIn(pod.containers[i], metrics, spec, name, r.desired.value.containers[i]))
  {
    var cs := AskedForIsUnique(pod, metrics, spec);
    PlanExact(pod, metrics, spec, cs);
    FollowingSucceeds(pod, metrics, spec);
    AskedForFollows(pod, metrics, spec, cs);
    if !SomeDiffer(pod.containers, cs) {
      AskedForSame(pod, metrics, spec, cs);
    }
  }

  lemma AskedForFollows(pod: Pod, metrics: PodMetrics, spec: Spec, cs: seq<Container>)
    requires Follows(pod, spec) && AskedFor(pod, metrics, spec, cs)
    ensures forall i, name | 0 <= i < |pod.containers| && name in {CPU, Memory} && spec.Manages(name)
                             && !Unmeasured(metrics, pod.containers[i].name) ::
              FollowedIn(pod.containers[i], metrics, spec, name, cs[i])
  {
    forall i, name | 0 <= i < |pod.containers| && name in {CPU, Memory} && spec.Manages(name)
                     && !Unmeasured(metrics, pod.containers[i].name)
      ensures FollowedIn(pod.containers[i], metrics, spec, name, cs[i])
    {
      assert pod.containers[i] in pod.initContainers + pod.containers;
      TreatedFollows(pod.containers[i], metrics, spec, cs[i], name);
    }
  }

  lemma AskedForSame(pod: Pod, metrics: PodMetrics, spec: Spec, cs: seq<Container>)
    requires AskedFor(pod, metrics, spec, cs) && !SomeDiffer(pod.containers, cs)
    ensures cs == pod.containers
  {
    forall i | 0 <= i < |cs| ensures cs[i] == pod.containers[i] {
      assert Treated(pod.containers[i], metrics, spec, Follows(pod, spec), cs[i]);
    }
  }

  // ----- counters -----

  predicate Below(q: Option<int>, spec: Spec, name: ResourceName) {
    Least(spec, name).Some? && q.GetOr(0) < Least(spec, name).value
  }

  predicate Above(q: Option<int>, spec: Spec, name: ResourceName) {
    Most(spec, name).Some? && q.GetOr(0) > Most(spec, name).value
  }

  predicate HeldBack(c: Container, q: Option<int>, spec: Spec, name: ResourceName, follow: bool) {
    var b := Within(q, spec, name);
    !follow && spec.Manages(name) && name in c.lim && b.Some? && b.value > c.lim[name]
  }

  /** What one container adds to the counters. */
  ghost predicate Tallied(c: Container, metrics: PodMetrics, spec: Spec, follow: bool, t: Tally) {
    if Unmeasured(metrics, c.name) then t == ZERO_TALLY.(containers := 1, noMetrics := 1)
    else exists usage, cpu, mem ::
      && IsUsage(metrics, c.name, usage)
      && Intends(Get(c.req, CPU), Amount(usage, CPU), spec, CPU, cpu)
      && Intends(Get(c.req, Memory), Amount(usage, Memory), spec, Memory, mem)
      && t.containers == 1 && t.noMetrics == 0
      && t.skippedDown == Bit(SkipsDown(Get(c.req, CPU), Amount(usage, CPU), spec, CPU))
                          + Bit(SkipsDown(Get(c.req, Memory), Amount(usage, Memory), spec, Memory))
      && t.clampedCPU == Bit(HeldBack(c, cpu, spec, CPU, follow))
      && t.clampedMem == Bit(HeldBack(c, mem, spec, Memory, follow))
      && t.boundedCPUMin == Bit(Below(cpu, spec, CPU)) && t.boundedCPUMax == Bit(Above(cpu, spec, CPU))
      && t.boundedMemMin == Bit(Below(mem, spec, Memory)) && t.boundedMemMax == Bit(Above(mem, spec, Memory))
  }

  lemma FlagsExact(c: Container, usage: ResourceList, spec: Spec, follow: bool, name: ResourceName)
    returns (q: Option<int>)
    requires name in {CPU, Memory}
    ensures Intends(Get(c.req, name), Amount(usage, name), spec, name, q)
    ensures var s := StepOf(c, usage, spec, Mode(follow), name);
            && s.clamped == HeldBack(c, q, spec, name, follow)
            && s.hitMin == Below(q, spec, name) && s.hitMax == Above(q, spec, name)
  {
    q := Decided(Get(c.req, name), Amount(usage, name), KnobsOf(spec, name));
    IntendsExact(Get(c.req, name), Amount(usage, name), spec, name);
  }

  lemma ContainerTallied(c: Container, metrics: PodMetrics, spec: Spec, follow: bool)
    ensures Tallied(c, metrics, spec, follow, ContainerTally(c, Usages(metrics), spec, Mode(follow)))
  {
    UsagesAreLast(metrics, c.name);
    if !Unmeasured(metrics, c.name) {
      var usage := Usages(metrics)[c.name];
      assert IsUsage(metrics, c.name, usage);
      var cpu := FlagsExact(c, usage, spec, follow, CPU);
      var mem := FlagsExact(c, usage, spec, follow, Memory);
      SkipsDownExact(Get(c.req, CPU), Amount(usage, CPU), spec, CPU);
      SkipsDownExact(Get(c.req, Memory), Amount(usage, Memory), spec, Memory);
    }
  }

  function SumOf(ts: seq<Tally>, f: Tally -> int): int {
    if ts == [] then 0 else SumOf(ts[..|ts| - 1], f) + f(ts[|ts| - 1])
  }

  /** Every counter is the sum of what the containers add to it. */
  ghost predicate SumsUp(total: Tally, ts: seq<Tally>) {
    && total.containers == SumOf(ts, (t: Tally) => t.containers)
    && total.noMetrics == SumOf(ts, (t: Tally) => t.noMetrics)
    && total.skippedDown == SumOf(ts, (t: Tally) => t.skippedDown)
    && total.clampedCPU == SumOf(ts, (t: Tally) => t.clampedCPU)
    && total.clampedMem == SumOf(ts, (t: Tally) => t.clampedMem)
    && total.boundedCPUMin == SumOf(ts, (t: Tally) => t.boundedCPUMin)
    && total.boundedCPUMax == SumOf(ts, (t: Tally) => t.boundedCPUMax)
    && total.boundedMemMin == SumOf(ts, (t: Tally) => t.boundedMemMin)
    && total.boundedMemMax == SumOf(ts, (t: Tally) => t.boundedMemMax)
  }

  lemma {:induction false} TallySumsUp(cs: seq<Container>, n: nat, usages: map<string, ResourceList>, spec: Spec,
                                       mode: EffectiveMode, ts: seq<Tally>)
    requires |ts| == n <= |cs| && forall i | 0 <= i < n :: ts[i] == ContainerTally(cs[i], usages, spec, mode)
    ensures SumsUp(TallyAll(cs, n, usages, spec, mode), ts)
  {
    if n == 0 {
    } else {
      TallySumsUp(cs, n - 1, usages, spec, mode, ts[..n - 1]);
    }
  }

  /** The counters of a success are sums over the containers. */
  lemma TallyExact(pod: Pod, metrics: PodMetrics, spec: Spec) returns (ts: seq<Tally>)
    requires (spec.manageCPU || spec.manageMemory) && Plan(Some(pod), Some(metrics), spec).1.NoError?
    ensures |ts| == |pod.containers|
    ensures forall i | 0 <= i < |ts| :: Tallied(pod.containers[i], metrics, spec, Follows(pod, spec), ts[i])
    ensures SumsUp(Plan(Some(pod), Some(metrics), spec).0.tally, ts)
  {
    var mode := Mode(Follows(pod, spec));
    ts := seq(|pod.containers|,
              i requires 0 <= i < |pod.containers| => ContainerTally(pod.containers[i], Usages(metrics), spec, mode));
    forall i | 0 <= i < |ts| ensures Tallied(pod.containers[i], metrics, spec, Follows(pod, spec), ts[i]) {
      ContainerTallied(pod.containers[i], metrics, spec, Follows(pod, spec));
    }
    TallySumsUp(pod.containers, |ts|, Usages(metrics), spec, mode, ts);
    TallyOfPlan(pod, metrics, spec);
  }

  lemma TallyOfPlan(pod: Pod, metrics: PodMetrics, spec: Spec)
    requires (spec.manageCPU || spec.manageMemory) && Plan(Some(pod), Some(metrics), spec).1.NoError?
    ensures Plan(Some(pod), Some(metrics), spec).0.tally ==
            TallyAll(pod.containers, |pod.containers|, Usages(metrics), spec, Mode(Follows(pod, spec)))
  {
    if Evaluates(spec) {
      ModeExact(pod, spec);
    }
  }
}
