/**
 A policy that keeps proposing the next state is stopped neither by cooldown nor by stabilization: the pod is resized
 once per cooldown and window, for as long as the proposals go on. Under constant usage that can be for ever.
 */
module SwingingVisits {
  import opened Wrappers
  import opened Rounding
  import opened Resources
  import opened PodHash
  import opened MergePatch
  import opened PolicySpec
  import opened PolicyLaws
  import opened Stabilization
  import opened ClosedLoop
  import opened SmallPods
  import opened PolicyVisits

  ghost predicate ProposesNext(before: Pod, metrics: PodMetrics, spec: Spec, next: Pod) {
    IsProposed(before, metrics, spec) && DesiredOf(before, metrics, spec) == next
  }

  /** The policy proposes each state from the one before. */
  ghost predicate Orbit(state: nat -> Pod, metrics: PodMetrics, spec: Spec) {
    && (forall c: nat :: DistinctNames(state(c).All()))
    && forall c: nat :: ProposesNext(state(c), metrics, spec, state(c + 1))
  }

  /** Two visits a cycle, one window apart, and the cooldown between the cycles. */
  function SwingTime(timing: Timing, t: int, k: nat): int {
    t + k / 2 * (Max(timing.cooldown, 0) + timing.window) + (if k % 2 == 0 then 0 else timing.window)
  }

  /** Cycle c brings digest c + 1. */
  function SwingVisit(digest: nat -> Digest, timing: Timing, t: int, k: nat): Visit {
    var now := SwingTime(timing, t, k);
    Visit(now, Reached(now, digest(k / 2 + 1), true, true))
  }

  function SwingVisits(digest: nat -> Digest, timing: Timing, t: int, n: nat): seq<Visit> {
    seq(2 * n, k requires 0 <= k => SwingVisit(digest, timing, t, k))
  }

  lemma SwingTick(timing: Timing, t: int, k: nat)
    ensures SwingTime(timing, t, k + 1) - SwingTime(timing, t, k) ==
            if k % 2 == 0 then timing.window else Max(timing.cooldown, 0)
    ensures SwingTime(timing, t, k + 2) - SwingTime(timing, t, k) == Max(timing.cooldown, 0) + timing.window
  {
    var period := Max(timing.cooldown, 0) + timing.window;
    assert (k / 2 + 1) * period == k / 2 * period + period;
  }

  lemma {:induction false} SwingTimeMonotone(timing: Timing, t: int, i: nat, j: nat)
    requires i <= j && timing.window > 0
    ensures SwingTime(timing, t, i) <= SwingTime(timing, t, j)
    decreases j
  {
    if i == j {
    } else {
      SwingTimeMonotone(timing, t, i, j - 1);
      SwingTick(timing, t, j - 1);
    }
  }

  lemma SwingClock(digest: nat -> Digest, timing: Timing, t: int, n: nat)
    requires timing.window > 0
    ensures MonotoneClock(SwingVisits(digest, timing, t, n))
  {
    forall i, j | 0 <= i < j < 2 * n ensures SwingTime(timing, t, i) <= SwingTime(timing, t, j) {
      SwingTimeMonotone(timing, t, i, j);
    }
  }

  // ----- the annotations -----

  /** Consecutive targets are different ones. */
  ghost predicate DigestsMove(digest: nat -> Digest) {
    forall c: nat :: digest(c) != digest(c + 1)
  }

  /** The annotations before visit k. */
  ghost predicate SwingState(ann: Annotations, digest: nat -> Digest, timing: Timing, t: int, k: nat) {
    var target := Hash(digest(k / 2 + 1));
    && !ShouldSkipByCooldown(ann, timing.cooldown, SwingTime(timing, t, k))
    && Lookup(ann, LAST_APPLIED_HASH) != target
    && if k % 2 == 0 then Lookup(ann, PENDING_HASH) == EMPTY_TEXT
       else Lookup(ann, PENDING_HASH) == target && Lookup(ann, PENDING_SINCE) == Stamp(SwingTime(timing, t, k - 1))
  }

  lemma SwingRecords(ann: Annotations, digest: nat -> Digest, timing: Timing, t: int, k: nat)
    requires timing.window > 0 && SwingState(ann, digest, timing, t, k) && k % 2 == 0
    ensures !Applies(ann, timing, SwingVisit(digest, timing, t, k))
    ensures SwingState(AfterVisit(ann, timing, SwingVisit(digest, timing, t, k)), digest, timing, t, k + 1)
  {
    VisitRecords(ann, timing, SwingVisit(digest, timing, t, k));
    SwingTick(timing, t, k);
  }

  lemma SwingApplies(ann: Annotations, digest: nat -> Digest, timing: Timing, t: int, k: nat)
    requires timing.window > 0 && SwingState(ann, digest, timing, t, k) && k % 2 == 1 && DigestsMove(digest)
    ensures Applies(ann, timing, SwingVisit(digest, timing, t, k))
    ensures SwingState(AfterVisit(ann, timing, SwingVisit(digest, timing, t, k)), digest, timing, t, k + 1)
  {
    var v := SwingVisit(digest, timing, t, k);
    SwingTick(timing, t, k - 1);
    VisitApplies(ann, timing, v, SwingTime(timing, t, k - 1));
    LookupResized(ann, v.gate.digest, v.gate.at);
    SwingTick(timing, t, k);
    assert digest(k / 2 + 1) != digest(k / 2 + 1 + 1);
  }

  lemma {:induction false} SwingStateAt(digest: nat -> Digest, timing: Timing, t: int, n: nat, k: nat)
    requires timing.window > 0 && DigestsMove(digest) && k <= 2 * n
    ensures SwingState(Before(map[], timing, SwingVisits(digest, timing, t, n), k), digest, timing, t, k)
  {
    if k == 0 {
    } else {
      SwingStateAt(digest, timing, t, n, k - 1);
      SwingStep(Before(map[], timing, SwingVisits(digest, timing, t, n), k - 1), digest, timing, t, k - 1);
    }
  }

  lemma SwingStep(ann: Annotations, digest: nat -> Digest, timing: Timing, t: int, k: nat)
    requires timing.window > 0 && DigestsMove(digest) && SwingState(ann, digest, timing, t, k)
    ensures SwingState(AfterVisit(ann, timing, SwingVisit(digest, timing, t, k)), digest, timing, t, k + 1)
    ensures Applies(ann, timing, SwingVisit(digest, timing, t, k)) <==> k % 2 == 1
  {
    if k % 2 == 0 {
      SwingRecords(ann, digest, timing, t, k);
    } else {
      SwingApplies(ann, digest, timing, t, k);
    }
  }

  lemma SwingAppliesAt(digest: nat -> Digest, timing: Timing, t: int, n: nat, k: nat)
    requires timing.window > 0 && DigestsMove(digest) && k < 2 * n
    ensures AppliesAt(map[], timing, SwingVisits(digest, timing, t, n), k) <==> k % 2 == 1
  {
    SwingStateAt(digest, timing, t, n, k);
    SwingStep(Before(map[], timing, SwingVisits(digest, timing, t, n), k), digest, timing, t, k);
  }

  lemma SwingResizes(digest: nat -> Digest, timing: Timing, t: int, n: nat)
    requires timing.window > 0 && DigestsMove(digest)
    ensures var vs := SwingVisits(digest, timing, t, n);
            && (forall k | 0 <= k < 2 * n :: AppliesAt(map[], timing, vs, k) <==> k % 2 == 1)
            && (forall k | 0 <= k < 2 * n - 2 ::
                  vs[k + 2].gate.at - vs[k].gate.at == Max(timing.cooldown, 0) + timing.window)
  {
    var vs := SwingVisits(digest, timing, t, n);
    forall k | 0 <= k < 2 * n ensures AppliesAt(map[], timing, vs, k) <==> k % 2 == 1 {
      SwingAppliesAt(digest, timing, t, n, k);
    }
    forall k | 0 <= k < 2 * n - 2
      ensures vs[k + 2].gate.at - vs[k].gate.at == Max(timing.cooldown, 0) + timing.window
    {
      SwingTick(timing, t, k);
    }
  }

  // ----- the pod -----

  function DigestOf(state: nat -> Pod): nat -> Digest { (c: nat) => Canonical(state(c)) }

  lemma OrbitMoves(state: nat -> Pod, metrics: PodMetrics, spec: Spec)
    requires Orbit(state, metrics, spec)
    ensures DigestsMove(DigestOf(state))
  {
    forall c: nat ensures DigestOf(state)(c) != DigestOf(state)(c + 1) {
      assert ProposesNext(state(c), metrics, spec, state(c + 1));
      DesiredKeepsNames(state(c), metrics, spec);
    }
  }

  function OrbitPods(state: nat -> Pod, n: nat): seq<Pod> {
    seq(2 * n + 1, k requires 0 <= k => state(k / 2))
  }

  function SameMetrics(metrics: PodMetrics, n: nat): seq<PodMetrics> { seq(2 * n, k => metrics) }

  lemma NextIsVisit(spec: Spec, before: Pod, metrics: PodMetrics, next: Pod, ann: Annotations, timing: Timing, v: Visit)
    requires ProposesNext(before, metrics, spec, next) && v.gate.Reached? && v.gate.digest == Canonical(next)
    ensures IsVisit(spec, before, metrics, if Applies(ann, timing, v) then next else before, ann, timing, v)
  {
  }

  lemma OrbitPodAt(state: nat -> Pod, n: nat, k: nat)
    requires k < 2 * n
    ensures OrbitPods(state, n)[k] == state(k / 2)
    ensures OrbitPods(state, n)[k + 1] == if k % 2 == 1 then state(k / 2 + 1) else state(k / 2)
  {
    assert (k + 1) / 2 == if k % 2 == 1 then k / 2 + 1 else k / 2;
  }

  lemma OrbitVisit(state: nat -> Pod, metrics: PodMetrics, spec: Spec, ann: Annotations, timing: Timing, t: int,
      n: nat, k: nat)
    requires Orbit(state, metrics, spec) && k < 2 * n
    requires Applies(ann, timing, SwingVisit(DigestOf(state), timing, t, k)) <==> k % 2 == 1
    ensures IsVisit(spec, OrbitPods(state, n)[k], metrics, OrbitPods(state, n)[k + 1], ann, timing,
                    SwingVisit(DigestOf(state), timing, t, k))
  {
    OrbitPodAt(state, n, k);
    assert ProposesNext(state(k / 2), metrics, spec, state(k / 2 + 1));
    NextIsVisit(spec, state(k / 2), metrics, state(k / 2 + 1), ann, timing, SwingVisit(DigestOf(state), timing, t, k));
  }

  lemma OrbitIsHistory(state: nat -> Pod, metrics: PodMetrics, spec: Spec, timing: Timing, t: int, n: nat)
    requires Orbit(state, metrics, spec) && timing.window > 0 && DigestsMove(DigestOf(state))
    ensures IsHistory(spec, OrbitPods(state, n), SameMetrics(metrics, n), map[], timing,
                      SwingVisits(DigestOf(state), timing, t, n))
  {
    var vs := SwingVisits(DigestOf(state), timing, t, n);
    SwingClock(DigestOf(state), timing, t, n);
    forall k | 0 <= k < 2 * n
      ensures IsVisit(spec, OrbitPods(state, n)[k], SameMetrics(metrics, n)[k], OrbitPods(state, n)[k + 1],
                      Before(map[], timing, vs, k), timing, vs[k])
    {
      SwingAppliesAt(DigestOf(state), timing, t, n, k);
      OrbitVisit(state, metrics, spec, Before(map[], timing, vs, k), timing, t, n, k);
    }
  }

  /** Every second visit resizes the pod to the next state, once per cooldown and window, for as many cycles as one
      likes: the block on the target applied last never catches the next one. */
  lemma ResizedForEver(state: nat -> Pod, metrics: PodMetrics, spec: Spec, timing: Timing, t: int, n: nat)
    requires Orbit(state, metrics, spec) && timing.window > 0
    ensures var vs := SwingVisits(DigestOf(state), timing, t, n);
            && IsHistory(spec, OrbitPods(state, n), SameMetrics(metrics, n), map[], timing, vs)
            && (forall k | 0 <= k < 2 * n :: AppliesAt(map[], timing, vs, k) <==> k % 2 == 1)
            && (forall k | 0 <= k < 2 * n - 2 ::
                  vs[k + 2].gate.at - vs[k].gate.at == Max(timing.cooldown, 0) + timing.window)
  {
    OrbitMoves(state, metrics, spec);
    OrbitIsHistory(state, metrics, spec, timing, t, n);
    SwingResizes(DigestOf(state), timing, t, n);
  }

  // ----- constant usage -----

  function SwingAmount(low: int, high: int, c: nat): int { if c % 2 == 0 then low else high }

  /** Under the default thresholds and constant usage, the pods whose CPU target is below 250m and off the grid go on
      for ever between two states. */
  lemma ConstantUsageOrbit(spec: Spec, usage: int)
    requires DefaultCpuPolicy(spec) && usage > 0
    requires var t := Target(usage, 100 + spec.headroomPercent); t % 50 != 0 && t < 250
    ensures var t := Target(usage, 100 + spec.headroomPercent);
            Orbit((c: nat) => One(CpuOnly(SwingAmount(t / 50 * 50, RoundUp(t, 50), c))),
                  Measured("app", map[CPU := usage]), spec)
  {
    var t := Target(usage, 100 + spec.headroomPercent);
    SwingingAmounts(usage, CpuKnobs(spec));
    var low, high := t / 50 * 50, RoundUp(t, 50);
    SwingOrbit(spec, usage, low, high, (c: nat) => One(CpuOnly(SwingAmount(low, high, c))));
  }

  lemma SwingOrbit(spec: Spec, usage: int, low: int, high: int, state: nat -> Pod)
    requires DefaultCpuPolicy(spec) && low != high
    requires Next(low, usage, CpuKnobs(spec), None) == high && Next(high, usage, CpuKnobs(spec), None) == low
    requires forall c: nat :: state(c) == One(CpuOnly(SwingAmount(low, high, c)))
    ensures Orbit(state, Measured("app", map[CPU := usage]), spec)
  {
    forall c: nat ensures ProposesNext(state(c), Measured("app", map[CPU := usage]), spec, state(c + 1)) {
      CpuProposed(spec, usage, SwingAmount(low, high, c), SwingAmount(low, high, c + 1));
    }
  }
}
