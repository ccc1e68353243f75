/** What one evaluation of the policy computes for a pod, as functions of pod, metrics and policy. */
module PolicySpec {
  import opened Wrappers
  import opened Rounding
  import opened Resources
  import opened ResourceStep
  import opened PodHash

  const CPU_STEP_MILLI := 50
  const MEMORY_STEP_BYTES := 64 * 1024 * 1024

  datatype LimitsMode = Unset | UnchangedLimits | EqualRequests | Unrecognised(text: string)

  datatype Bounds = Bounds(cpuMin: Option<int>, cpuMax: Option<int>, memoryMin: Option<int>, memoryMax: Option<int>,
                           minChangeCPU: Option<int>, minChangeMemory: Option<int>)

  datatype Spec = Spec(manageCPU: bool, manageMemory: bool, limitsMode: LimitsMode, headroomPercent: int,
                       allowDownscale: bool, bounds: Bounds, upPercent: int, downPercent: int)
  {
    predicate Manages(name: ResourceName) {
      (name == CPU && manageCPU) || (name == Memory && manageMemory)
    }

    ghost predicate OrderedBounds() {
      CpuKnobs(this).OrderedBounds() && MemoryKnobs(this).OrderedBounds()
    }
  }

  datatype ContainerMetrics = ContainerMetrics(name: string, usage: ResourceList)

  datatype PodMetrics = PodMetrics(containers: seq<ContainerMetrics>)

  datatype Tally = Tally(containers: int, noMetrics: int, skippedDown: int, clampedCPU: int, clampedMem: int,
                         boundedCPUMin: int, boundedCPUMax: int, boundedMemMin: int, boundedMemMax: int)
  {
    function Plus(t: Tally): Tally {
      Tally(containers + t.containers, noMetrics + t.noMetrics, skippedDown + t.skippedDown,
            clampedCPU + t.clampedCPU, clampedMem + t.clampedMem,
            boundedCPUMin + t.boundedCPUMin, boundedCPUMax + t.boundedCPUMax,
            boundedMemMin + t.boundedMemMin, boundedMemMax + t.boundedMemMax)
    }
  }

  const ZERO_TALLY := Tally(0, 0, 0, 0, 0, 0, 0, 0, 0)

  datatype Result = Result(desired: Option<Pod>, hash: Option<Digest>, changed: bool, delta: Delta, tally: Tally)

  const EMPTY_RESULT := Result(None, None, false, ZERO_DELTA, ZERO_TALLY)

  datatype PolicyError = NoError | PodIsNil | MetricsIsNil | UnsupportedLimitsMode(mode: LimitsMode)
                       | QoSChange(from: QoSClass, to: QoSClass)

  // ----- one container -----

  function CpuKnobs(spec: Spec): Knobs {
    Knobs(spec.manageCPU, CPU_STEP_MILLI, 100 + spec.headroomPercent, spec.upPercent, spec.downPercent,
          spec.allowDownscale, spec.bounds.minChangeCPU.GetOr(0), spec.bounds.cpuMin, spec.bounds.cpuMax)
  }

  function MemoryKnobs(spec: Spec): Knobs {
    Knobs(spec.manageMemory, MEMORY_STEP_BYTES, 100 + spec.headroomPercent, spec.upPercent, spec.downPercent,
          spec.allowDownscale, spec.bounds.minChangeMemory.GetOr(0), spec.bounds.memoryMin, spec.bounds.memoryMax)
  }

  function KnobsOf(spec: Spec, name: ResourceName): Knobs {
    if name == CPU then CpuKnobs(spec) else MemoryKnobs(spec)
  }

  function StepOf(c: Container, usage: ResourceList, spec: Spec, mode: EffectiveMode, name: ResourceName): StepResult {
    Step(Get(c.req, name), Get(c.lim, name), Amount(usage, name), KnobsOf(spec, name), mode)
  }

  /** The lists computed for a container with metrics: CPU and memory step independently, everything else stays. */
  function Refit(c: Container, usage: ResourceList, spec: Spec, mode: EffectiveMode): Container {
    var cpu, mem := StepOf(c, usage, spec, mode, CPU), StepOf(c, usage, spec, mode, Memory);
    Container(c.name,
              Put(Put(c.req, CPU, cpu.req), Memory, mem.req),
              Put(Put(c.lim, CPU, cpu.lim), Memory, mem.lim))
  }

  function StepTally(cpu: StepResult, mem: StepResult): Tally {
    Tally(1, 0, Bit(cpu.downSkipped) + Bit(mem.downSkipped), Bit(cpu.clamped), Bit(mem.clamped),
          Bit(cpu.hitMin), Bit(cpu.hitMax), Bit(mem.hitMin), Bit(mem.hitMax))
  }

  function Bit(b: bool): int { if b then 1 else 0 }

  ghost predicate Differs(c: Container, d: Container) {
    !SameAmounts(c.req, d.req) || !SameAmounts(c.lim, d.lim)
  }

  ghost predicate Moves(c: Container, usages: map<string, ResourceList>, spec: Spec, mode: EffectiveMode) {
    c.name in usages && Differs(c, Refit(c, usages[c.name], spec, mode))
  }

  /** A container without metrics, or whose amounts would not change, is left exactly as it is. */
  ghost function Stepped(c: Container, usages: map<string, ResourceList>, spec: Spec, mode: EffectiveMode): Container {
    if Moves(c, usages, spec, mode) then Refit(c, usages[c.name], spec, mode) else c
  }

  function ContainerTally(c: Container, usages: map<string, ResourceList>, spec: Spec, mode: EffectiveMode): Tally {
    if c.name in usages
    then
      var usage := usages[c.name];
      StepTally(StepOf(c, usage, spec, mode, CPU), StepOf(c, usage, spec, mode, Memory))
    else Tally(1, 1, 0, 0, 0, 0, 0, 0, 0)
  }

  /** The counters over the first n containers. */
  function TallyAll(cs: seq<Container>, n: nat, usages: map<string, ResourceList>, spec: Spec,
      mode: EffectiveMode): Tally
    requires n <= |cs|
  {
    if n == 0 then ZERO_TALLY
    else TallyAll(cs, n - 1, usages, spec, mode).Plus(ContainerTally(cs[n - 1], usages, spec, mode))
  }

  // ----- the whole pod -----

  /** The first n entries; a later entry for the same container name replaces an earlier one. */
  function UsageByContainer(ms: seq<ContainerMetrics>, n: nat): map<string, ResourceList>
    requires n <= |ms|
  {
    if n == 0 then map[] else UsageByContainer(ms, n - 1)[ms[n - 1].name := ms[n - 1].usage]
  }

  function Usages(metrics: PodMetrics): map<string, ResourceList> {
    UsageByContainer(metrics.containers, |metrics.containers|)
  }

  /** Limits follow requests only for a Guaranteed pod; None when the mode is not recognised. */
  function ModeFor(pod: Pod, spec: Spec): Option<EffectiveMode> {
    match spec.limitsMode
    case Unset | UnchangedLimits => Some(KeepLimits)
    case EqualRequests => Some(if QoS(pod) == Guaranteed then LimitsFollowRequests else KeepLimits)
    case Unrecognised(_) => None
  }

  ghost function SteppedAll(cs: seq<Container>, usages: map<string, ResourceList>, spec: Spec, mode: EffectiveMode)
    : (r: seq<Container>)
    ensures |r| == |cs| && forall i | 0 <= i < |cs| :: r[i] == Stepped(cs[i], usages, spec, mode)
  {
    seq(|cs|, i requires 0 <= i < |cs| => Stepped(cs[i], usages, spec, mode))
  }

  // ----- the repair of a pod that would turn Guaranteed -----

  /** One request that equals its limit, lowered by a step but not below its minimum bound. */
  function LowerRequest(c: Container, name: ResourceName, k: Knobs): Option<Container> {
    if k.managed && name in c.lim && name in c.req && c.req[name] == c.lim[name]
       && Max(c.lim[name] - k.step, k.minQ.GetOr(0)) < c.lim[name]
    then Some(c.(req := c.req[name := Max(c.lim[name] - k.step, k.minQ.GetOr(0))]))
    else None
  }

  function LowerContainer(c: Container, spec: Spec): Option<Container> {
    var cpu := LowerRequest(c, CPU, CpuKnobs(spec));
    if cpu.Some? then cpu else LowerRequest(c, Memory, MemoryKnobs(spec))
  }

  /** The first container that can be lowered is lowered. */
  function Forced(cs: seq<Container>, spec: Spec): Option<seq<Container>> {
    if cs == [] then None
    else if LowerContainer(cs[0], spec).Some? then Some([LowerContainer(cs[0], spec).value] + cs[1..])
    else
      match Forced(cs[1..], spec)
      case None => None
      case Some(rest) => Some([cs[0]] + rest)
  }

  // ----- the request delta -----

  function RequestsByName(cs: seq<Container>, n: nat): map<string, ResourceList>
    requires n <= |cs|
  {
    if n == 0 then map[] else RequestsByName(cs, n - 1)[cs[n - 1].name := cs[n - 1].req]
  }

  function Requested(rl: ResourceList): Delta {
    Delta(Amount(rl, CPU), Amount(rl, Memory))
  }

  /** Each of the first n containers against the requests recorded under its name. */
  function DeltaByName(was: map<string, ResourceList>, cs: seq<Container>, n: nat): Delta
    requires n <= |cs|
  {
    if n == 0 then ZERO_DELTA
    else
      var c := cs[n - 1];
      var old_ := if c.name in was then was[c.name] else map[];
      DeltaByName(was, cs, n - 1).Plus(Requested(c.req).Minus(Requested(old_)))
  }

  function RequestDelta(was: Pod, now: Pod): Delta {
    DeltaByName(RequestsByName(was.containers, |was.containers|), now.containers, |now.containers|)
  }

  // ----- the evaluation -----

  ghost function Unadjusted(pod: Pod, usages: map<string, ResourceList>, spec: Spec, mode: EffectiveMode): Pod {
    pod.(containers := SteppedAll(pod.containers, usages, spec, mode))
  }

  /** Some resource is managed and the mode is recognised. */
  predicate Active(spec: Spec) {
    (spec.manageCPU || spec.manageMemory) && !spec.limitsMode.Unrecognised?
  }

  ghost predicate AnyMoves(pod: Pod, usages: map<string, ResourceList>, spec: Spec, mode: EffectiveMode) {
    exists c | c in pod.containers :: Moves(c, usages, spec, mode)
  }

  /** A Burstable pod that would turn Guaranteed is repaired if it can be. */
  function Settled(pod: Pod, unadjusted: Pod, changed: bool, spec: Spec): Pod {
    var repair := Forced(unadjusted.containers, spec);
    if changed && QoS(pod) == Burstable && QoS(unadjusted) == Guaranteed && repair.Some?
    then unadjusted.(containers := repair.value)
    else unadjusted
  }

  /** A change of class is refused, everything else is reported. */
  function Conclude(pod: Pod, desired: Pod, changed: bool, tally: Tally): (Result, PolicyError) {
    if changed && QoS(desired) != QoS(pod) then
      (Result(Some(pod), Some(Canonical(pod)), false, ZERO_DELTA, ZERO_TALLY), QoSChange(QoS(pod), QoS(desired)))
    else
      (Result(Some(desired), Some(Canonical(desired)), changed, RequestDelta(pod, desired), tally), NoError)
  }

  ghost function Evaluate(pod: Pod, usages: map<string, ResourceList>, spec: Spec, mode: EffectiveMode)
    : (Result, PolicyError)
  {
    var changed := AnyMoves(pod, usages, spec, mode);
    var desired := Settled(pod, Unadjusted(pod, usages, spec, mode), changed, spec);
    Conclude(pod, desired, changed, TallyAll(pod.containers, |pod.containers|, usages, spec, mode))
  }

  ghost function Plan(pod: Option<Pod>, metrics: Option<PodMetrics>, spec: Spec): (Result, PolicyError) {
    if pod.None? then (EMPTY_RESULT, PodIsNil)
    else if metrics.None? then (EMPTY_RESULT, MetricsIsNil)
    else if !spec.manageCPU && !spec.manageMemory then
      (Result(pod, Some(Canonical(pod.value)), false, ZERO_DELTA, ZERO_TALLY), NoError)
    else
      var usages := Usages(metrics.value);
      match ModeFor(pod.value, spec)
      case Some(mode) => Evaluate(pod.value, usages, spec, mode)
      case None =>
        // The mode is looked at only when a container with metrics is reached.
        if exists c | c in pod.value.containers :: c.name in usages
        then (EMPTY_RESULT, UnsupportedLimitsMode(spec.limitsMode))
        else (Result(pod, Some(Canonical(pod.value)), false, RequestDelta(pod.value, pod.value),
                     TallyAll(pod.value.containers, |pod.value.containers|, usages, spec, KeepLimits)), NoError)
  }
}
