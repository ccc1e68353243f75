/**
 When the configured maximum of a run is a hard cap for a policy and pods of bounded size: with one worker, with no
 maximum, when the policy never lowers the resource, or when all but one of the resizes that a run allows cannot
 together rise above the maximum. In every other case there are pods with which it is exceeded.
 */
module PolicyCap {
  import opened Wrappers
  import opened Resources
  import opened ResourceStep
  import opened Rounding
  import opened PolicySpec
  import opened Directions
  import opened OpposingPods
  import opened Budget
  import opened WorkerPool
  import opened PoolInvariant
  import opened PoolTheorems
  import opened BudgetCap
  import opened PolicyRun

  // ----- the cap holds -----

  /** Pods that the API server admits, with at most so many containers each. */
  ghost predicate SoundListing(listed: seq<Listed>, most: nat) {
    forall l | l in listed :: SoundPod(l.pod) && |l.pod.containers| <= most
  }

  lemma ProposalDirection(l: Listed, metricsFailed: bool, spec: Spec, name: ResourceName, most: nat)
    requires SoundSpec(spec) && SoundPod(l.pod) && |l.pod.containers| <= most && name in {CPU, Memory}
    ensures var v := VerdictFor(l, metricsFailed, spec);
            v.Proposed? ==> Active(spec) && Directed(0, v.delta.Of(name), KnobsOf(spec, name), most)
  {
    if VerdictFor(l, metricsFailed, spec).Proposed? {
      ProposalComesFromPlan(l, metricsFailed, spec);
      PlanDirection(l.pod, l.metrics.value, spec, name);
      if Ceiling(KnobsOf(spec, name)).Some? {
        MulMonotone(|l.pod.containers|, most, Ceiling(KnobsOf(spec, name)).value);
      }
    }
  }

  lemma ProposalsDirected(cfg: Config, listed: seq<Listed>, metricsFailed: bool, spec: Spec, name: ResourceName,
      most: nat)
    requires RunsPolicy(cfg, listed, metricsFailed, spec) && SoundListing(listed, most)
    requires SoundSpec(spec) && name in {CPU, Memory}
    ensures forall c | 0 <= c < |cfg.candidates| && DeltaOf(cfg, c) != ZERO_DELTA ::
              Active(spec) && Directed(0, DeltaOf(cfg, c).Of(name), KnobsOf(spec, name), most)
  {
    forall c | 0 <= c < |cfg.candidates| && DeltaOf(cfg, c) != ZERO_DELTA
      ensures Active(spec) && Directed(0, DeltaOf(cfg, c).Of(name), KnobsOf(spec, name), most)
    {
      assert listed[c] in listed;
      ProposalDirection(listed[c], metricsFailed, spec, name, most);
    }
  }

  lemma NeverLoweredHolds(cfg: Config, acts: seq<Action>, s: Pool, listed: seq<Listed>, metricsFailed: bool, spec: Spec,
      name: ResourceName, most: nat)
    requires Reaches(cfg, acts, s) && RunsPolicy(cfg, listed, metricsFailed, spec) && SoundListing(listed, most)
    requires SoundSpec(spec) && name in {CPU, Memory} && !(Active(spec) && CanLower(KnobsOf(spec, name)))
    ensures Holds(s.shared.ledger, name)
  {
    ProposalsDirected(cfg, listed, metricsFailed, spec, name, most);
    assert NonNegativeProposals(cfg, name);
    NeverExceeded(cfg, acts, s, name);
  }

  lemma SmallRisesHold(cfg: Config, acts: seq<Action>, s: Pool, listed: seq<Listed>, metricsFailed: bool, spec: Spec,
      name: ResourceName, most: nat)
    requires Reaches(cfg, acts, s) && RunsPolicy(cfg, listed, metricsFailed, spec) && SoundListing(listed, most)
    requires SoundSpec(spec) && name in {CPU, Memory} && Ceiling(KnobsOf(spec, name)).Some?
    requires (cfg.maxPods - 1) * (most * Ceiling(KnobsOf(spec, name)).value) <= MaxOf(cfg.maxCPU, cfg.maxMem, name)
    ensures Holds(s.shared.ledger, name)
  {
    ProposalsDirected(cfg, listed, metricsFailed, spec, name, most);
    var rise := most * Ceiling(KnobsOf(spec, name)).value;
    MulNonNegative(most, Ceiling(KnobsOf(spec, name)).value);
    assert ProposalsUpTo(cfg, name, rise);
    SmallProposalsHold(cfg, acts, s, name, rise);
  }

  // ----- the cap is exceeded -----

  lemma ProposedVerdict(pod: Pod, metrics: PodMetrics, spec: Spec, delta: Delta)
    requires Proposes(pod, metrics, spec, delta) && delta != ZERO_DELTA
    ensures VerdictFor(Listed("", pod, Some(metrics)), false, spec) == Proposed(delta)
  {
  }

  /** One pod that falls and j pods that rise. */
  function RivalPods(falling: Listed, rising: Listed, j: nat): seq<Listed> {
    [falling] + seq(j, i => rising)
  }

  lemma RivalsRunThePolicy(falling: Listed, rising: Listed, fall: Delta, rise: Delta, j: nat, spec: Spec, cfg: Config)
    requires VerdictFor(falling, false, spec) == Proposed(fall) && falling.namespace == ""
    requires VerdictFor(rising, false, spec) == Proposed(rise) && rising.namespace == ""
    requires cfg == Rivals(cfg.maxPods, cfg.workers, cfg.maxCPU, cfg.maxMem, fall, rise, j)
    ensures RunsPolicy(cfg, RivalPods(falling, rising, j), false, spec)
  {
    var listed := RivalPods(falling, rising, j);
    forall i | 0 <= i < |listed| ensures Candidates(listed, false, spec)[i] == cfg.candidates[i] {
      RivalCandidate(falling, rising, j, i, spec);
    }
  }

  lemma RivalCandidate(falling: Listed, rising: Listed, j: nat, i: nat, spec: Spec)
    requires i <= j
    ensures Candidates(RivalPods(falling, rising, j), false, spec)[i] ==
            var l := if i == 0 then falling else rising; Candidate(l.namespace, VerdictFor(l, false, spec))
  {
    assert RivalPods(falling, rising, j)[i] == if i == 0 then falling else rising;
  }

  lemma RivalsAreSound(falling: Listed, rising: Listed, j: nat, most: nat)
    requires SoundPod(falling.pod) && |falling.pod.containers| <= most
    requires SoundPod(rising.pod) && |rising.pod.containers| <= most
    ensures SoundListing(RivalPods(falling, rising, j), most)
  {
  }

  /** How many containers of how much, in how many pods, pass a maximum. */
  datatype Surplus = Surplus(containers: nat, each: nat, pods: nat) {
    function PerPod(): int { containers * each }
  }

  /** One container when nothing bounds its rise; otherwise all the containers at their ceiling, in all pods but one. */
  function SurplusFor(k: Knobs, most: nat, maxPods: nat, cap: nat): Surplus
    requires SoundKnobs(k) && maxPods >= 1
  {
    match Ceiling(k)
    case None => Surplus(1, cap + 1, 1)
    case Some(top) => Surplus(most, top, maxPods - 1)
  }

  /** What the resizes allowed beside the falling pod can add up to. */
  predicate CanPass(k: Knobs, most: nat, maxPods: nat, cap: int) {
    Ceiling(k).Some? ==> (maxPods - 1) * (most * Ceiling(k).value) > cap
  }

  lemma SurplusPasses(k: Knobs, most: nat, maxPods: nat, cap: nat)
    requires SoundKnobs(k) && maxPods >= 2 && cap > 0 && CanPass(k, most, maxPods, cap) && most >= 1
    ensures var x := SurplusFor(k, most, maxPods, cap);
            && 0 < x.containers <= most && IsRise(x.each, k) && 0 < x.pods < maxPods
            && x.pods * x.PerPod() > cap && x.PerPod() > 0 && (Ceiling(k).None? ==> x.pods * x.PerPod() == cap + 1)
  {
    if Ceiling(k).Some? {
      var top := Ceiling(k).value;
      MulNonNegative(maxPods - 1, most);
      assert top == 0 ==> most * top == 0;
      assert most * top == 0 ==> (maxPods - 1) * (most * top) == 0;
    }
  }

  /** A fall at least as deep as everything that rises beside it, or by one unit less than the excess, makes room. */
  lemma FallMakesRoom(fall: Delta, rise: Delta, j: nat, name: ResourceName, maxCPU: int, maxMem: int)
    requires name in {CPU, Memory} && fall.Of(OtherOf(name)) == 0 == rise.Of(OtherOf(name))
    requires rise.Of(name) >= 0 && fall.Of(name) + rise.Of(name) * j <= MaxOf(maxCPU, maxMem, name)
    ensures RoomFor(maxCPU, maxMem, fall, rise, j)
  {
    forall i | 0 <= i <= j ensures rise.Of(name) * i <= rise.Of(name) * j && rise.Of(OtherOf(name)) * i == 0 {
      MulMonotone(i, j, rise.Of(name));
    }
  }

  /** Where policy and sizes allow it, pods that the API server admits and a run of the policy over them that commits
      more than the maximum: one pod that falls, and as many rising pods as it takes. */
  lemma ExceedsOnSoundPods(spec: Spec, name: ResourceName, most: nat, maxPods: nat, workers: nat,
      maxCPU: int, maxMem: int)
    returns (listed: seq<Listed>, cfg: Config, acts: seq<Action>, s: Pool)
    requires 2 <= workers <= maxPods && SoundSpec(spec) && name in {CPU, Memory} && 2 <= most <= MOST_CONTAINERS
    requires Active(spec) && CanLower(KnobsOf(spec, name)) && MaxOf(maxCPU, maxMem, name) > 0
    requires CanPass(KnobsOf(spec, name), most, maxPods, MaxOf(maxCPU, maxMem, name))
    ensures var x := SurplusFor(KnobsOf(spec, name), most, maxPods, MaxOf(maxCPU, maxMem, name));
            && |listed| == 1 + x.pods && |listed[0].pod.containers| <= 2
            && forall i | 1 <= i <= x.pods :: |listed[i].pod.containers| == x.containers
    ensures cfg.maxPods == maxPods && cfg.workers == workers && cfg.maxCPU == maxCPU && cfg.maxMem == maxMem
    ensures RunsPolicy(cfg, listed, false, spec) && SoundListing(listed, most) && Reaches(cfg, acts, s)
    ensures s.shared.ledger.committed.Of(name) > MaxOf(maxCPU, maxMem, name) && !Holds(s.shared.ledger, name)
  {
    var x := SurplusFor(KnobsOf(spec, name), most, maxPods, MaxOf(maxCPU, maxMem, name));
    SurplusPasses(KnobsOf(spec, name), most, maxPods, MaxOf(maxCPU, maxMem, name));
    var fall;
    listed, fall := RivalListing(x, most, spec, name);
    var rise := Single(name, x.PerPod());
    cfg := Rivals(maxPods, workers, maxCPU, maxMem, fall, rise, x.pods);
    SurplusRoom(spec, name, most, maxPods, fall, maxCPU, maxMem);
    acts, s := OvershootIsReachable(maxPods, workers, maxCPU, maxMem, fall, rise, x.pods);
    SurplusExceeds(s.shared.ledger, name, x);
  }

  lemma SurplusRoom(spec: Spec, name: ResourceName, most: nat, maxPods: nat, fall: Delta, maxCPU: int, maxMem: int)
    requires name in {CPU, Memory} && SoundSpec(spec) && maxPods >= 2 && MaxOf(maxCPU, maxMem, name) > 0 && most >= 1
    requires CanPass(KnobsOf(spec, name), most, maxPods, MaxOf(maxCPU, maxMem, name))
    requires CanLower(KnobsOf(spec, name)) && fall.Of(name) < 0 && fall.Of(OtherOf(name)) == 0
    requires var x := SurplusFor(KnobsOf(spec, name), most, maxPods, MaxOf(maxCPU, maxMem, name));
             KnobsOf(spec, name).maxQ.Some? ==> fall.Of(name) + x.pods * x.PerPod() <= 0
    ensures var x := SurplusFor(KnobsOf(spec, name), most, maxPods, MaxOf(maxCPU, maxMem, name));
            RoomFor(maxCPU, maxMem, fall, Single(name, x.PerPod()), x.pods)
  {
    var x := SurplusFor(KnobsOf(spec, name), most, maxPods, MaxOf(maxCPU, maxMem, name));
    SurplusPasses(KnobsOf(spec, name), most, maxPods, MaxOf(maxCPU, maxMem, name));
    assert Single(name, x.PerPod()).Of(name) * x.pods == x.pods * x.PerPod();
    FallMakesRoom(fall, Single(name, x.PerPod()), x.pods, name, maxCPU, maxMem);
  }

  lemma SurplusExceeds(l: Ledger, name: ResourceName, x: Surplus)
    requires name in {CPU, Memory} && 0 < MaxOf(l.maxCPU, l.maxMem, name) < x.pods * x.PerPod()
    requires l.committed == Single(name, x.PerPod()).Times(x.pods)
    ensures l.committed.Of(name) > MaxOf(l.maxCPU, l.maxMem, name) && !Holds(l, name)
  {
    assert l.committed.Of(name) == x.PerPod() * x.pods;
  }

  lemma RivalListing(x: Surplus, most: nat, spec: Spec, name: ResourceName) returns (listed: seq<Listed>, fall: Delta)
    requires SoundSpec(spec) && Active(spec) && CanLower(KnobsOf(spec, name)) && name in {CPU, Memory}
    requires IsRise(x.each, KnobsOf(spec, name)) && 2 <= most <= MOST_CONTAINERS && 0 < x.containers <= most
    requires x.PerPod() > 0 && x.pods * x.PerPod() > 0
    ensures SoundListing(listed, most) && |listed| == 1 + x.pods && |listed[0].pod.containers| <= 2
    ensures forall i | 1 <= i <= x.pods :: |listed[i].pod.containers| == x.containers
    ensures forall cfg: Config |
              cfg == Rivals(cfg.maxPods, cfg.workers, cfg.maxCPU, cfg.maxMem, fall, Single(name, x.PerPod()), x.pods) ::
              RunsPolicy(cfg, listed, false, spec)
    ensures fall.Of(name) < 0 && fall.Of(OtherOf(name)) == 0
    ensures KnobsOf(spec, name).maxQ.Some? ==> fall.Of(name) + x.pods * x.PerPod() <= 0
  {
    var falling;
    falling, fall := FallingCandidate(x, spec, name);
    var rising := RisingCandidate(x, most, spec, name);
    var rise := Single(name, x.PerPod());
    listed := RivalPods(falling, rising, x.pods);
    RivalsAreSound(falling, rising, x.pods, most);
    forall cfg: Config | cfg == Rivals(cfg.maxPods, cfg.workers, cfg.maxCPU, cfg.maxMem, fall, rise, x.pods)
      ensures RunsPolicy(cfg, listed, false, spec)
    {
      RivalsRunThePolicy(falling, rising, fall, rise, x.pods, spec, cfg);
    }
  }

  lemma RisingCandidate(x: Surplus, most: nat, spec: Spec, name: ResourceName) returns (rising: Listed)
    requires SoundSpec(spec) && Active(spec) && name in {CPU, Memory} && IsRise(x.each, KnobsOf(spec, name))
    requires 0 < x.containers <= most <= MOST_CONTAINERS && x.PerPod() > 0
    ensures rising.namespace == "" && SoundPod(rising.pod) && |rising.pod.containers| == x.containers
    ensures VerdictFor(rising, false, spec) == Proposed(Single(name, x.PerPod()))
  {
    var pod, metrics := RisingPod(x.containers, x.each, spec, name), RisingMetrics(x.containers, x.each, spec, name);
    rising := Listed("", pod, Some(metrics));
    PodRises(x.containers, x.each, spec, name);
    ProposedVerdict(pod, metrics, spec, Single(name, x.PerPod()));
    RisingIsSound(x.containers, x.each, spec, name);
  }

  lemma FallingCandidate(x: Surplus, spec: Spec, name: ResourceName) returns (falling: Listed, fall: Delta)
    requires SoundSpec(spec) && Active(spec) && CanLower(KnobsOf(spec, name)) && name in {CPU, Memory}
    requires x.pods * x.PerPod() > 0
    ensures falling.namespace == "" && SoundPod(falling.pod) && |falling.pod.containers| <= 2
    ensures VerdictFor(falling, false, spec) == Proposed(fall)
    ensures fall.Of(name) < 0 && fall.Of(OtherOf(name)) == 0
    ensures KnobsOf(spec, name).maxQ.Some? ==> fall.Of(name) + x.pods * x.PerPod() <= 0
  {
    var pod, metrics;
    pod, metrics, fall := PodFalls(x.pods * x.PerPod(), spec, name);
    falling := Listed("", pod, Some(metrics));
    ProposedVerdict(pod, metrics, spec, fall);
  }

  // ----- the exact condition -----

  /** No run of the policy on pods of at most so many containers exceeds the maximum of the resource. */
  ghost predicate CapHolds(spec: Spec, name: ResourceName, most: nat, maxPods: nat, workers: nat,
      maxCPU: int, maxMem: int)
  {
    forall cfg: Config, listed: seq<Listed>, metricsFailed: bool, acts: seq<Action>, s: Pool |
      && cfg.maxPods == maxPods && cfg.workers == workers && cfg.maxCPU == maxCPU && cfg.maxMem == maxMem
      && RunsPolicy(cfg, listed, metricsFailed, spec) && SoundListing(listed, most) && Reaches(cfg, acts, s) ::
      Holds(s.shared.ledger, name)
  }

  lemma HoldsWithin(spec: Spec, name: ResourceName, most: nat, cfg: Config, listed: seq<Listed>, metricsFailed: bool,
      acts: seq<Action>, s: Pool)
    requires SoundSpec(spec) && name in {CPU, Memory}
    requires RunsPolicy(cfg, listed, metricsFailed, spec) && SoundListing(listed, most) && Reaches(cfg, acts, s)
    requires || cfg.workers == 1 || MaxOf(cfg.maxCPU, cfg.maxMem, name) <= 0
             || !Active(spec) || !CanLower(KnobsOf(spec, name))
             || !CanPass(KnobsOf(spec, name), most, cfg.maxPods, MaxOf(cfg.maxCPU, cfg.maxMem, name))
    ensures Holds(s.shared.ledger, name)
  {
    if cfg.workers == 1 {
      SoleWorkerNeverExceeds(cfg, acts, s);
    } else if MaxOf(cfg.maxCPU, cfg.maxMem, name) <= 0 {
      NoMaximumHolds(cfg, acts, s, name);
    } else if !Active(spec) || !CanLower(KnobsOf(spec, name)) {
      NeverLoweredHolds(cfg, acts, s, listed, metricsFailed, spec, name, most);
    } else {
      SmallRisesHold(cfg, acts, s, listed, metricsFailed, spec, name, most);
    }
  }

  /** The maximum of a resource is a hard cap for a policy and pods of bounded size exactly when a single worker runs,
      no maximum is set, the policy never lowers the resource, or all but one of the resizes that a run allows cannot
      together rise above the maximum. */
  lemma CapExact(spec: Spec, name: ResourceName, most: nat, maxPods: nat, workers: nat, maxCPU: int, maxMem: int)
    requires 1 <= workers <= maxPods && SoundSpec(spec) && name in {CPU, Memory} && 2 <= most <= MOST_CONTAINERS
    ensures CapHolds(spec, name, most, maxPods, workers, maxCPU, maxMem) <==>
            || workers == 1 || MaxOf(maxCPU, maxMem, name) <= 0
            || !Active(spec) || !CanLower(KnobsOf(spec, name))
            || !CanPass(KnobsOf(spec, name), most, maxPods, MaxOf(maxCPU, maxMem, name))
  {
    var k, cap := KnobsOf(spec, name), MaxOf(maxCPU, maxMem, name);
    if workers == 1 || cap <= 0 || !Active(spec) || !CanLower(k) || !CanPass(k, most, maxPods, cap) {
      forall cfg: Config, listed: seq<Listed>, metricsFailed: bool, acts: seq<Action>, s: Pool |
        && cfg.maxPods == maxPods && cfg.workers == workers && cfg.maxCPU == maxCPU && cfg.maxMem == maxMem
        && RunsPolicy(cfg, listed, metricsFailed, spec) && SoundListing(listed, most) && Reaches(cfg, acts, s)
        ensures Holds(s.shared.ledger, name)
      {
        HoldsWithin(spec, name, most, cfg, listed, metricsFailed, acts, s);
      }
    } else {
      var listed, cfg, acts, s := ExceedsOnSoundPods(spec, name, most, maxPods, workers, maxCPU, maxMem);
      assert !CapHolds(spec, name, most, maxPods, workers, maxCPU, maxMem);
    }
  }
}
