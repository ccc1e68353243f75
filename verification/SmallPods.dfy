/** Pods on which an effect proved of the arithmetic shows in a whole evaluation. */
module SmallPods {
  import opened Wrappers
  import opened Rounding
  import opened Resources
  import opened ResourceStep
  import opened ClosedLoop
  import opened PolicySpec
  import opened Policy
  import opened PolicyLaws

  // ----- a pod that never comes to rest -----

  /** CPU is scaled both ways with the default thresholds and without bounds, memory is left alone. */
  ghost predicate DefaultCpuPolicy(spec: Spec) {
    && spec.manageCPU && !spec.manageMemory && !spec.limitsMode.Unrecognised? && spec.allowDownscale
    && spec.upPercent == 20 && spec.downPercent == 20 && spec.headroomPercent >= 0
    && spec.bounds == Bounds(None, None, None, None, None, None)
  }

  function CpuOnly(x: int): Container { Container("app", map[CPU := x], map[]) }

  /** Every evaluation of such a pod proposes the other of two states, whenever its CPU target is below 250m and not on
      a multiple of 50m. */
  lemma PodSwingsForever(spec: Spec, usage: int)
    requires DefaultCpuPolicy(spec) && usage > 0
    requires var t := Target(usage, 100 + spec.headroomPercent); t % 50 != 0 && t < 250
    ensures var t := Target(usage, 100 + spec.headroomPercent);
            var low, high := One(CpuOnly(t / 50 * 50)), One(CpuOnly(RoundUp(t, 50)));
            var metrics := Measured("app", map[CPU := usage]);
            && low != high
            && Gives(low, metrics, spec, high.containers) && Gives(high, metrics, spec, low.containers)
  {
    var t := Target(usage, 100 + spec.headroomPercent);
    SwingingAmounts(usage, CpuKnobs(spec));
    CpuSteps(spec, usage, t / 50 * 50, RoundUp(t, 50));
    CpuSteps(spec, usage, RoundUp(t, 50), t / 50 * 50);
  }

  lemma SwingingAmounts(usage: int, k: Knobs)
    requires Closed(k) && k.minQ.None? && k.maxQ.None? && k.headroom >= 100 && usage > 0
    requires k.upPct == 20 && k.downPct == 20 && k.minChange <= k.step
    requires Target(usage, k.headroom) % k.step != 0 && Target(usage, k.headroom) < 5 * k.step
    ensures var t := Target(usage, k.headroom);
            var low, high := t / k.step * k.step, RoundUp(t, k.step);
            low != high && Next(low, usage, k, None) == high && Next(high, usage, k, None) == low
  {
    var t := Target(usage, k.headroom);
    TargetMonotone(1, usage, k.headroom);
    SwingsUnbounded(usage, k);
    SwingExact(usage, k, None);
    DefaultSteps(t, k);
  }

  lemma CpuSteps(spec: Spec, usage: int, x: int, y: int)
    requires DefaultCpuPolicy(spec) && x != y && Next(x, usage, CpuKnobs(spec), None) == y
    ensures Gives(One(CpuOnly(x)), Measured("app", map[CPU := usage]), spec, [CpuOnly(y)])
  {
    var c := CpuOnly(x);
    var use: ResourceList := map[CPU := usage];
    assert StepOf(c, use, spec, KeepLimits, Memory).req == None;
    assert c.req[CPU := y] == CpuOnly(y).req;
    OneMoves(c, use, spec, CPU, y);
  }

  // ----- a repaired pod that moves again -----

  const SMALL_CPU_LIMIT := 60
  const RESERVED_MEMORY := 2 * MEMORY_STEP_BYTES

  /** Both resources are only scaled up, with the default thresholds and without bounds. */
  ghost predicate UpwardPolicy(spec: Spec) {
    && spec.manageCPU && spec.manageMemory && !spec.limitsMode.Unrecognised? && !spec.allowDownscale
    && spec.upPercent == 20 && spec.headroomPercent == 0
    && spec.bounds == Bounds(None, None, None, None, None, None)
  }

  function Limited(cpu: int, memory: int): Container {
    Container("app", map[CPU := cpu, Memory := memory], map[CPU := SMALL_CPU_LIMIT, Memory := RESERVED_MEMORY])
  }

  /** The memory request grows to its limit, so that the pod would turn Guaranteed; the repair takes 50m of CPU away;
      the next evaluation of the same usage gives 40m back and the pod has moved again. */
  lemma RepairedPodMoves(spec: Spec)
    requires UpwardPolicy(spec)
    ensures var metrics := Measured("app", map[CPU := 45, Memory := RESERVED_MEMORY]);
            && Gives(One(Limited(60, MEMORY_STEP_BYTES)), metrics, spec, [Limited(10, RESERVED_MEMORY)])
            && Gives(One(Limited(10, RESERVED_MEMORY)), metrics, spec, [Limited(50, RESERVED_MEMORY)])
  {
    var usage: ResourceList := map[CPU := 45, Memory := RESERVED_MEMORY];
    GrowsAndIsRepaired(spec, usage);
    RisesToTarget(spec, usage);
  }

  lemma LimitedSteps(cpu: int, memory: int, spec: Spec, usage: ResourceList)
    requires UpwardPolicy(spec) && usage == map[CPU := 45, Memory := RESERVED_MEMORY]
    requires cpu in {10, 60} && memory in {MEMORY_STEP_BYTES, RESERVED_MEMORY}
    ensures var c := Limited(cpu, memory);
            && StepOf(c, usage, spec, KeepLimits, CPU).req == Some(if cpu == 10 then 50 else 60)
            && StepOf(c, usage, spec, KeepLimits, Memory).req == Some(RESERVED_MEMORY)
  {
  }

  lemma RisesToTarget(spec: Spec, usage: ResourceList)
    requires UpwardPolicy(spec) && usage == map[CPU := 45, Memory := RESERVED_MEMORY]
    ensures Gives(One(Limited(10, RESERVED_MEMORY)), Measured("app", usage), spec, [Limited(50, RESERVED_MEMORY)])
  {
    var c := Limited(10, RESERVED_MEMORY);
    LimitedSteps(10, RESERVED_MEMORY, spec, usage);
    assert c.req[CPU := 50] == Limited(50, RESERVED_MEMORY).req;
    OneMoves(c, usage, spec, CPU, 50);
  }

  lemma GrownIsLowered(spec: Spec)
    requires UpwardPolicy(spec)
    ensures Forced([Limited(60, RESERVED_MEMORY)], spec) == Some([Limited(10, RESERVED_MEMORY)])
  {
    var d, e := Limited(60, RESERVED_MEMORY), Limited(10, RESERVED_MEMORY);
    assert d.req[CPU := 10] == e.req;
    assert LowerContainer(d, spec) == Some(e);
    ForcedAt([d], 0, spec);
    assert [d][0 := e] == [e];
  }

  lemma GrowsAndIsRepaired(spec: Spec, usage: ResourceList)
    requires UpwardPolicy(spec) && usage == map[CPU := 45, Memory := RESERVED_MEMORY]
    ensures Gives(One(Limited(60, MEMORY_STEP_BYTES)), Measured("app", usage), spec, [Limited(10, RESERVED_MEMORY)])
  {
    var c, d := Limited(60, MEMORY_STEP_BYTES), Limited(60, RESERVED_MEMORY);
    LimitedSteps(60, MEMORY_STEP_BYTES, spec, usage);
    MeasuredUsage("app", usage);
    StepsTo(c, map["app" := usage], spec, Memory, RESERVED_MEMORY);
    assert c.req[Memory := RESERVED_MEMORY] == d.req;
    assert Unadjusted(One(c), map["app" := usage], spec, KeepLimits).containers == [d];
    GrownIsLowered(spec);
    assert c in One(c).containers;
    BurstableBy(One(c), c);
    PlanRepairs(One(c), Measured("app", usage), spec, One(d), [Limited(10, RESERVED_MEMORY)]);
  }
}
