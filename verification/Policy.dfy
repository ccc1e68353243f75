/** The policy evaluation as it runs: loops over containers, in-place edits of a copy of the pod. */
module Policy {
  import opened Wrappers
  import opened Rounding
  import opened Resources
  import opened ResourceStep
  import opened PodHash
  import opened PolicySpec
  import opened PolicyMeaning

  /** The two lists agree outside CPU and memory. */
  ghost predicate SameElsewhere(a: ResourceList, b: ResourceList) {
    forall name :: name != CPU && name != Memory ==> Get(a, name) == Get(b, name)
  }

  lemma SameLists(a: ResourceList, b: ResourceList)
    requires SameElsewhere(a, b) && Get(a, CPU) == Get(b, CPU) && Get(a, Memory) == Get(b, Memory)
    ensures a == b
  {
    forall name ensures Get(a, name) == Get(b, name) {
    }
    forall name ensures name in a <==> name in b {
      assert Get(a, name) == Get(b, name);
    }
    forall name | name in a && name in b ensures a[name] == b[name] {
      assert Get(a, name) == Get(b, name);
    }
  }

  method ApplyBounds(rl: ResourceList, name: ResourceName, minQ: Option<int>, maxQ: Option<int>)
    returns (bounded: ResourceList, hitMin: bool, hitMax: bool)
    ensures Get(bounded, name) == Bounded(Get(rl, name), minQ, maxQ)
    ensures forall other :: other != name ==> Get(bounded, other) == Get(rl, other)
    ensures hitMin <==> minQ.Some? && Amount(rl, name) < minQ.value
    ensures hitMax <==> maxQ.Some? && Amount(rl, name) > maxQ.value
  {
    bounded, hitMin, hitMax := rl, false, false;
    var cur := Amount(rl, name);
    if minQ.Some? && cur < minQ.value {
      bounded := bounded[name := minQ.value];
      hitMin := true;
    }
    if maxQ.Some? && cur > maxQ.value {
      bounded := bounded[name := maxQ.value];
      hitMax := true;
    }
  }

  /** The deciding part of the loop body: new requests before bounds. */
  method DecideRequests(req: ResourceList, usage: ResourceList, spec: Spec)
    returns (newReq: ResourceList, cpuSkipped: bool, memSkipped: bool)
    ensures Get(newReq, CPU) == Decided(Get(req, CPU), Amount(usage, CPU), CpuKnobs(spec))
    ensures Get(newReq, Memory) == Decided(Get(req, Memory), Amount(usage, Memory), MemoryKnobs(spec))
    ensures SameElsewhere(newReq, req)
    ensures cpuSkipped <==> DownSkipped(Get(req, CPU), Amount(usage, CPU), CpuKnobs(spec))
    ensures memSkipped <==> DownSkipped(Get(req, Memory), Amount(usage, Memory), MemoryKnobs(spec))
    ensures Intends(Get(req, CPU), Amount(usage, CPU), spec, CPU, Get(newReq, CPU))
    ensures Intends(Get(req, Memory), Amount(usage, Memory), spec, Memory, Get(newReq, Memory))
    ensures cpuSkipped <==> SkipsDown(Get(req, CPU), Amount(usage, CPU), spec, CPU)
    ensures memSkipped <==> SkipsDown(Get(req, Memory), Amount(usage, Memory), spec, Memory)
  {
    newReq, cpuSkipped, memSkipped := req, false, false;
    var headroom := 100 + spec.headroomPercent;
    if spec.manageCPU {
      var curMilli := Amount(req, CPU);
      var targetMilli := DivCeil(Amount(usage, CPU) * headroom, 100);
      targetMilli := Quantize(targetMilli, curMilli, spec.allowDownscale, CPU_STEP_MILLI);
      var d := Decide(targetMilli, curMilli, spec.upPercent, spec.downPercent, spec.allowDownscale,
                      spec.bounds.minChangeCPU.GetOr(0));
      cpuSkipped := d.downSkipped;
      if d.changed {
        newReq := newReq[CPU := d.value];
      }
    }
    if spec.manageMemory {
      var curBytes := Amount(req, Memory);
      var targetBytes := DivCeil(Amount(usage, Memory) * headroom, 100);
      targetBytes := Quantize(targetBytes, curBytes, spec.allowDownscale, MEMORY_STEP_BYTES);
      var d := Decide(targetBytes, curBytes, spec.upPercent, spec.downPercent, spec.allowDownscale,
                      spec.bounds.minChangeMemory.GetOr(0));
      memSkipped := d.downSkipped;
      if d.changed {
        newReq := newReq[Memory := d.value];
      }
    }
    IntendsExact(Get(req, CPU), Amount(usage, CPU), spec, CPU);
    IntendsExact(Get(req, Memory), Amount(usage, Memory), spec, Memory);
    SkipsDownExact(Get(req, CPU), Amount(usage, CPU), spec, CPU);
    SkipsDownExact(Get(req, Memory), Amount(usage, Memory), spec, Memory);
  }

  /** The limiting part of the loop body: limits follow requests, or requests are clamped to limits. */
  method ApplyLimits(req: ResourceList, lim: ResourceList, spec: Spec, mode: EffectiveMode)
    returns (newReq: ResourceList, newLim: ResourceList, clampedCPU: bool, clampedMem: bool)
    ensures clampedCPU == IsClamped(Get(req, CPU), Get(lim, CPU), spec.manageCPU, mode)
    ensures clampedMem == IsClamped(Get(req, Memory), Get(lim, Memory), spec.manageMemory, mode)
    ensures Get(newReq, CPU) == if clampedCPU then Get(lim, CPU) else Get(req, CPU)
    ensures Get(newReq, Memory) == if clampedMem then Get(lim, Memory) else Get(req, Memory)
    ensures SameElsewhere(newReq, req) && SameElsewhere(newLim, lim)
    ensures Get(newLim, CPU) ==
            if mode.LimitsFollowRequests? && spec.manageCPU then Some(Amount(req, CPU)) else Get(lim, CPU)
    ensures Get(newLim, Memory) ==
            if mode.LimitsFollowRequests? && spec.manageMemory then Some(Amount(req, Memory)) else Get(lim, Memory)
  {
    newReq, newLim, clampedCPU, clampedMem := req, lim, false, false;
    match mode
    case LimitsFollowRequests =>
      if spec.manageCPU {
        newLim := newLim[CPU := Amount(newReq, CPU)];
      }
      if spec.manageMemory {
        newLim := newLim[Memory := Amount(newReq, Memory)];
      }
    case KeepLimits =>
      if CPU in lim && spec.manageCPU && CPU in newReq && newReq[CPU] > lim[CPU] {
        clampedCPU := true;
        newReq := newReq[CPU := lim[CPU]];
      }
      if Memory in lim && spec.manageMemory && Memory in newReq && newReq[Memory] > lim[Memory] {
        clampedMem := true;
        newReq := newReq[Memory := lim[Memory]];
      }
  }

  method BoundBoth(decided: ResourceList, b: Bounds)
    returns (bounded: ResourceList, cpuMin: bool, cpuMax: bool, memMin: bool, memMax: bool)
    ensures Get(bounded, CPU) == Bounded(Get(decided, CPU), b.cpuMin, b.cpuMax)
    ensures Get(bounded, Memory) == Bounded(Get(decided, Memory), b.memoryMin, b.memoryMax)
    ensures SameElsewhere(bounded, decided)
    ensures cpuMin <==> b.cpuMin.Some? && Amount(decided, CPU) < b.cpuMin.value
    ensures cpuMax <==> b.cpuMax.Some? && Amount(decided, CPU) > b.cpuMax.value
    ensures memMin <==> b.memoryMin.Some? && Amount(decided, Memory) < b.memoryMin.value
    ensures memMax <==> b.memoryMax.Some? && Amount(decided, Memory) > b.memoryMax.value
  {
    bounded, cpuMin, cpuMax := ApplyBounds(decided, CPU, b.cpuMin, b.cpuMax);
    assert Get(bounded, Memory) == Get(decided, Memory);
    bounded, memMin, memMax := ApplyBounds(bounded, Memory, b.memoryMin, b.memoryMax);
  }

  /** The part of the loop body that follows the decision. */
  method BoundAndLimit(decided: ResourceList, lim: ResourceList, spec: Spec, mode: EffectiveMode,
                       cpuSkipped: bool, memSkipped: bool)
    returns (newReq: ResourceList, newLim: ResourceList, tally: Tally)
    ensures var b := spec.bounds;
            var cpu := Finish(Get(decided, CPU), Get(lim, CPU), cpuSkipped, b.cpuMin, b.cpuMax, spec.manageCPU, mode);
            var mem := Finish(Get(decided, Memory), Get(lim, Memory), memSkipped, b.memoryMin, b.memoryMax,
                spec.manageMemory, mode);
            && Get(newReq, CPU) == cpu.req && Get(newReq, Memory) == mem.req
            && Get(newLim, CPU) == cpu.lim && Get(newLim, Memory) == mem.lim
            && tally == StepTally(cpu, mem)
    ensures SameElsewhere(newReq, decided) && SameElsewhere(newLim, lim)
  {
    var bounded, cpuMin, cpuMax, memMin, memMax := BoundBoth(decided, spec.bounds);
    var clampedCPU, clampedMem;
    newReq, newLim, clampedCPU, clampedMem := ApplyLimits(bounded, lim, spec, mode);
    tally := Tally(1, 0, Bit(cpuSkipped) + Bit(memSkipped), Bit(clampedCPU), Bit(clampedMem),
                   Bit(cpuMin), Bit(cpuMax), Bit(memMin), Bit(memMax));
  }

  /** The loop body for a container with metrics. */
  method RefitContainer(c: Container, usage: ResourceList, spec: Spec, mode: EffectiveMode)
    returns (newReq: ResourceList, newLim: ResourceList, tally: Tally)
    ensures Container(c.name, newReq, newLim) == Refit(c, usage, spec, mode)
    ensures tally == StepTally(StepOf(c, usage, spec, mode, CPU), StepOf(c, usage, spec, mode, Memory))
  {
    var decided, cpuSkipped, memSkipped := DecideRequests(c.req, usage, spec);
    newReq, newLim, tally := BoundAndLimit(decided, c.lim, spec, mode, cpuSkipped, memSkipped);
    RefitLists(c, usage, spec, mode);
    SameLists(newReq, Refit(c, usage, spec, mode).req);
    SameLists(newLim, Refit(c, usage, spec, mode).lim);
  }

  lemma RefitLists(c: Container, usage: ResourceList, spec: Spec, mode: EffectiveMode)
    ensures var r := Refit(c, usage, spec, mode);
            var cpu, mem := StepOf(c, usage, spec, mode, CPU), StepOf(c, usage, spec, mode, Memory);
            && Get(r.req, CPU) == cpu.req && Get(r.req, Memory) == mem.req && SameElsewhere(r.req, c.req)
            && Get(r.lim, CPU) == cpu.lim && Get(r.lim, Memory) == mem.lim && SameElsewhere(r.lim, c.lim)
  {
    PresentStaysPresent(Get(c.req, CPU), Get(c.lim, CPU), Amount(usage, CPU), CpuKnobs(spec), mode);
    PresentStaysPresent(Get(c.req, Memory), Get(c.lim, Memory), Amount(usage, Memory), MemoryKnobs(spec), mode);
  }

  /** No step removes an entry. */
  lemma PresentStaysPresent(req: Option<int>, lim: Option<int>, usage: int, k: Knobs, mode: EffectiveMode)
    ensures req.Some? ==> Step(req, lim, usage, k, mode).req.Some?
    ensures lim.Some? ==> Step(req, lim, usage, k, mode).lim.Some?
  {
  }

  // ----- the loops -----

  method ForceBurstable(cs: array<Container>, spec: Spec) returns (forced: bool)
    modifies cs
    ensures forced <==> Forced(old(cs[..]), spec).Some?
    ensures cs[..] == Forced(old(cs[..]), spec).GetOr(old(cs[..]))
  {
    var minCPUMilli := spec.bounds.cpuMin.GetOr(0);
    var minMemBytes := spec.bounds.memoryMin.GetOr(0);
    ghost var was := cs[..];
    for i := 0 to cs.Length
      invariant cs[..] == was
      invariant forall j | 0 <= j < i :: LowerContainer(was[j], spec).None?
    {
      var c := cs[i];
      if spec.manageCPU && CPU in c.lim && CPU in c.req && c.req[CPU] == c.lim[CPU] {
        var newMilli := c.lim[CPU] - CPU_STEP_MILLI;
        if newMilli < minCPUMilli {
          newMilli := minCPUMilli;
        }
        if newMilli < c.lim[CPU] {
          cs[i] := c.(req := c.req[CPU := newMilli]);
          ForcedAt(was, i, spec);
          return true;
        }
      }
      if spec.manageMemory && Memory in c.lim && Memory in c.req && c.req[Memory] == c.lim[Memory] {
        var newBytes := c.lim[Memory] - MEMORY_STEP_BYTES;
        if newBytes < minMemBytes {
          newBytes := minMemBytes;
        }
        if newBytes < c.lim[Memory] {
          cs[i] := c.(req := c.req[Memory := newBytes]);
          ForcedAt(was, i, spec);
          return true;
        }
      }
    }
    NoneForced(was, spec);
    return false;
  }

  lemma {:induction false} ForcedAt(cs: seq<Container>, i: nat, spec: Spec)
    requires i < |cs| && LowerContainer(cs[i], spec).Some?
    requires forall j | 0 <= j < i :: LowerContainer(cs[j], spec).None?
    ensures Forced(cs, spec) == Some(cs[i := LowerContainer(cs[i], spec).value])
  {
    var lowered := LowerContainer(cs[i], spec).value;
    if i > 0 {
      ForcedAt(cs[1..], i - 1, spec);
      assert [cs[0]] + cs[1..][i - 1 := lowered] == cs[i := lowered];
    } else {
      assert [lowered] + cs[1..] == cs[0 := lowered];
    }
  }

  lemma {:induction false} NoneForced(cs: seq<Container>, spec: Spec)
    requires forall j | 0 <= j < |cs| :: LowerContainer(cs[j], spec).None?
    ensures Forced(cs, spec).None?
  {
    if cs == [] {
    } else {
      NoneForced(cs[1..], spec);
    }
  }

  method ComputeDeltaRequests(was: Pod, now: Pod) returns (d: Delta)
    ensures d == RequestDelta(was, now)
  {
    var oldByName: map<string, ResourceList> := map[];
    for i := 0 to |was.containers|
      invariant oldByName == RequestsByName(was.containers, i)
    {
      var c := was.containers[i];
      oldByName := oldByName[c.name := c.req];
    }
    d := ZERO_DELTA;
    for i := 0 to |now.containers|
      invariant d == DeltaByName(oldByName, now.containers, i)
    {
      var c := now.containers[i];
      var oldReq := if c.name in oldByName then oldByName[c.name] else map[];
      d := Delta(d.cpu + (Amount(c.req, CPU) - Amount(oldReq, CPU)),
                 d.memory + (Amount(c.req, Memory) - Amount(oldReq, Memory)));
    }
  }

  method UsagesOf(metrics: PodMetrics) returns (usages: map<string, ResourceList>)
    ensures usages == Usages(metrics)
  {
    usages := map[];
    for i := 0 to |metrics.containers|
      invariant usages == UsageByContainer(metrics.containers, i)
    {
      usages := usages[metrics.containers[i].name := metrics.containers[i].usage];
    }
  }

  /** One round of the loop over the containers: a container is rewritten only when some amount changes. */
  method StepContainer(c: Container, usages: map<string, ResourceList>, spec: Spec, mode: EffectiveMode)
    returns (stepped: Container, moved: bool, tally: Tally)
    ensures stepped == Stepped(c, usages, spec, mode)
    ensures moved == Moves(c, usages, spec, mode)
    ensures tally == ContainerTally(c, usages, spec, mode)
  {
    if c.name !in usages {
      return c, false, Tally(1, 1, 0, 0, 0, 0, 0, 0, 0);
    }
    var newReq, newLim, t := RefitContainer(c, usages[c.name], spec, mode);
    var sameReq := ResourceListEqual(c.req, newReq);
    var sameLim := ResourceListEqual(c.lim, newLim);
    moved, tally := !sameReq || !sameLim, t;
    stepped := if moved then Container(c.name, newReq, newLim) else c;
  }

  method RefitAll(cs: array<Container>, usages: map<string, ResourceList>, spec: Spec, mode: EffectiveMode)
    returns (changed: bool, tally: Tally)
    modifies cs
    ensures cs[..] == SteppedAll(old(cs[..]), usages, spec, mode)
    ensures changed <==> exists c | c in old(cs[..]) :: Moves(c, usages, spec, mode)
    ensures tally == TallyAll(old(cs[..]), |old(cs[..])|, usages, spec, mode)
  {
    ghost var was := cs[..];
    changed, tally := RefitEach(cs, usages, spec, mode);
    SomeMoves(was, usages, spec, mode);
  }

  method RefitEach(cs: array<Container>, usages: map<string, ResourceList>, spec: Spec, mode: EffectiveMode)
    returns (changed: bool, tally: Tally)
    modifies cs
    ensures |cs[..]| == |old(cs[..])|
    ensures Refitted(cs[..], old(cs[..]), cs.Length, changed, tally, usages, spec, mode)
  {
    ghost var was := cs[..];
    changed, tally := false, ZERO_TALLY;
    for i := 0 to cs.Length
      invariant |cs[..]| == |was| && Refitted(cs[..], was, i, changed, tally, usages, spec, mode)
    {
      RefitOne(cs[..], was, i, changed, tally, usages, spec, mode);
      ghost var now := cs[..];
      var stepped, moved, t := StepContainer(cs[i], usages, spec, mode);
      cs[i] := stepped;
      assert cs[..] == now[i := stepped];
      tally := tally.Plus(t);
      changed := changed || moved;
    }
  }

  /** The first n containers have been treated and counted. */
  ghost predicate Refitted(now: seq<Container>, was: seq<Container>, n: nat, changed: bool, tally: Tally,
                           usages: map<string, ResourceList>, spec: Spec, mode: EffectiveMode)
    requires n <= |was| == |now|
  {
    && (forall j | 0 <= j < |was| :: now[j] == if j < n then Stepped(was[j], usages, spec, mode) else was[j])
    && (changed <==> exists j | 0 <= j < n :: Moves(was[j], usages, spec, mode))
    && tally == TallyAll(was, n, usages, spec, mode)
  }

  lemma RefitOne(now: seq<Container>, was: seq<Container>, n: nat, changed: bool, tally: Tally,
                 usages: map<string, ResourceList>, spec: Spec, mode: EffectiveMode)
    requires n < |was| == |now| && Refitted(now, was, n, changed, tally, usages, spec, mode)
    ensures now[n] == was[n]
    ensures Refitted(now[n := Stepped(was[n], usages, spec, mode)], was, n + 1,
                     changed || Moves(was[n], usages, spec, mode),
                     tally.Plus(ContainerTally(was[n], usages, spec, mode)), usages, spec, mode)
  {
  }

  lemma SomeMoves(cs: seq<Container>, usages: map<string, ResourceList>, spec: Spec, mode: EffectiveMode)
    ensures (exists j | 0 <= j < |cs| :: Moves(cs[j], usages, spec, mode))
            <==> exists c | c in cs :: Moves(c, usages, spec, mode)
  {
    if j :| 0 <= j < |cs| && Moves(cs[j], usages, spec, mode) {
      assert cs[j] in cs;
    }
  }

  method ComputeDesired(pod: Option<Pod>, metrics: Option<PodMetrics>, spec: Spec)
    returns (res: Result, err: PolicyError)
    ensures (res, err) == Plan(pod, metrics, spec)
  {
    if pod.None? {
      return EMPTY_RESULT, PodIsNil;
    }
    if metrics.None? {
      return EMPTY_RESULT, MetricsIsNil;
    }
    if !spec.manageCPU && !spec.manageMemory {
      var h := HashPodResources(pod);
      return Result(pod, h, false, ZERO_DELTA, ZERO_TALLY), NoError;
    }
    var currentQoS := PodQoSClass(pod);
    var mode := ResolveMode(pod.value, currentQoS, spec);
    var usages := UsagesOf(metrics.value);
    if mode.None? {
      res, err := RefuseMode(pod.value, usages, spec);
    } else {
      res, err := EvaluatePod(pod.value, currentQoS, usages, spec, mode.value);
    }
  }

  /** An unset mode keeps limits, and so does EqualRequests for a pod that is not Guaranteed. */
  method ResolveMode(pod: Pod, currentQoS: QoSClass, spec: Spec) returns (mode: Option<EffectiveMode>)
    requires currentQoS == QoS(pod)
    ensures mode == ModeFor(pod, spec)
    ensures mode == Some(LimitsFollowRequests) <==> spec.limitsMode == EqualRequests && currentQoS == Guaranteed
    ensures mode == None <==> spec.limitsMode.Unrecognised?
  {
    var limitsMode := spec.limitsMode;
    if limitsMode == Unset {
      limitsMode := UnchangedLimits;
    }
    if currentQoS != Guaranteed && limitsMode == EqualRequests {
      limitsMode := UnchangedLimits;
    }
    match limitsMode
    case EqualRequests => mode := Some(LimitsFollowRequests);
    case Unset | UnchangedLimits => mode := Some(KeepLimits);
    case Unrecognised(_) => mode := None;
  }

  /** With an unrecognised mode the loop fails at the first container that has metrics. */
  method RefuseMode(pod: Pod, usages: map<string, ResourceList>, spec: Spec) returns (res: Result, err: PolicyError)
    ensures (res, err) ==
      if exists c | c in pod.containers :: c.name in usages
      then (EMPTY_RESULT, UnsupportedLimitsMode(spec.limitsMode))
      else (Result(Some(pod), Some(Canonical(pod)), false, RequestDelta(pod, pod),
                   TallyAll(pod.containers, |pod.containers|, usages, spec, KeepLimits)), NoError)
  {
    var tally := ZERO_TALLY;
    for i := 0 to |pod.containers|
      invariant forall j | 0 <= j < i :: pod.containers[j].name !in usages
      invariant tally == TallyAll(pod.containers, i, usages, spec, KeepLimits)
    {
      if pod.containers[i].name in usages {
        return EMPTY_RESULT, UnsupportedLimitsMode(spec.limitsMode);
      }
      tally := tally.Plus(Tally(1, 1, 0, 0, 0, 0, 0, 0, 0));
    }
    var delta := ComputeDeltaRequests(pod, pod);
    var h := HashPodResources(Some(pod));
    res, err := Result(Some(pod), h, false, delta, tally), NoError;
  }

  /** The class check behind the loop, on the working copy of the containers. */
  method Settle(copy: array<Container>, pod: Pod, currentQoS: QoSClass, spec: Spec)
    returns (desiredQoS: QoSClass)
    requires currentQoS == QoS(pod)
    modifies copy
    ensures var settled := Settled(pod, pod.(containers := old(copy[..])), true, spec);
            copy[..] == settled.containers && desiredQoS == QoS(settled)
  {
    desiredQoS := PodQoSClass(Some(pod.(containers := copy[..])));
    if desiredQoS != currentQoS && currentQoS == Burstable && desiredQoS == Guaranteed {
      var forced := ForceBurstable(copy, spec);
      if forced {
        desiredQoS := PodQoSClass(Some(pod.(containers := copy[..])));
      }
    }
  }

  method EvaluatePod(pod: Pod, currentQoS: QoSClass, usages: map<string, ResourceList>, spec: Spec, mode: EffectiveMode)
    returns (res: Result, err: PolicyError)
    requires currentQoS == QoS(pod)
    ensures (res, err) == Evaluate(pod, usages, spec, mode)
  {
    var copy, changed, tally := RefitCopy(pod, usages, spec, mode);
    var desiredQoS := currentQoS;
    if changed {
      desiredQoS := Settle(copy, pod, currentQoS, spec);
    }
    res, err := ConcludePod(pod, pod.(containers := copy[..]), currentQoS, desiredQoS, changed, tally);
  }

  method RefitCopy(pod: Pod, usages: map<string, ResourceList>, spec: Spec, mode: EffectiveMode)
    returns (copy: array<Container>, changed: bool, tally: Tally)
    ensures fresh(copy) && pod.(containers := copy[..]) == Unadjusted(pod, usages, spec, mode)
    ensures changed == AnyMoves(pod, usages, spec, mode)
    ensures tally == TallyAll(pod.containers, |pod.containers|, usages, spec, mode)
  {
    copy := new Container[|pod.containers|](i requires 0 <= i < |pod.containers| => pod.containers[i]);
    assert copy[..] == pod.containers;
    changed, tally := RefitAll(copy, usages, spec, mode);
  }

  /** A change of class is refused, everything else is reported. */
  method ConcludePod(pod: Pod, desired: Pod, currentQoS: QoSClass, desiredQoS: QoSClass, changed: bool, tally: Tally)
    returns (res: Result, err: PolicyError)
    requires currentQoS == QoS(pod) && (changed ==> desiredQoS == QoS(desired))
    ensures (res, err) == Conclude(pod, desired, changed, tally)
  {
    if changed && desiredQoS != currentQoS {
      var h := HashPodResources(Some(pod));
      return Result(Some(pod), h, false, ZERO_DELTA, ZERO_TALLY), QoSChange(currentQoS, desiredQoS);
    }
    var delta := ComputeDeltaRequests(pod, desired);
    var h := HashPodResources(Some(desired));
    res, err := Result(Some(desired), h, changed, delta, tally), NoError;
  }
}
