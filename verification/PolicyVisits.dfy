/**
 The policy behind the stabilization gate: histories of visits to one pod in which every target is what the policy
 proposes for the pod as it is, and a resize makes it so.
 */
module PolicyVisits {
  import opened Wrappers
  import opened Rounding
  import opened ClosedLoop
  import opened Resources
  import opened PodHash
  import opened MergePatch
  import opened PolicySpec
  import opened PolicyLaws
  import opened Stabilization
  import opened SmallPods

  /** The policy proposes a state that gets as far as the gate. */
  ghost predicate IsProposed(pod: Pod, metrics: PodMetrics, spec: Spec) {
    var (r, e) := Plan(Some(pod), Some(metrics), spec);
    e.NoError? && r.changed && r.delta != ZERO_DELTA
  }

  ghost function DesiredOf(pod: Pod, metrics: PodMetrics, spec: Spec): Pod {
    Plan(Some(pod), Some(metrics), spec).0.desired.GetOr(pod)
  }

  /** A visit that gets to the gate brings what the policy proposes for the pod, and a resize makes it so. */
  ghost predicate IsVisit(spec: Spec, before: Pod, metrics: PodMetrics, after: Pod, ann: Annotations, timing: Timing,
      v: Visit)
  {
    var desired := DesiredOf(before, metrics, spec);
    && (AtGate(ann, timing, v) ==> IsProposed(before, metrics, spec) && v.gate.digest == Canonical(desired))
    && after == if Applies(ann, timing, v) then desired else before
  }

  /** The pod before each visit and after the last, when nobody but these visits resizes it. */
  ghost predicate IsHistory(spec: Spec, pods: seq<Pod>, ms: seq<PodMetrics>, ann: Annotations, timing: Timing,
      vs: seq<Visit>)
  {
    && |pods| == |vs| + 1 && |ms| == |vs| && MonotoneClock(vs)
    && forall n | 0 <= n < |vs| ::
         IsVisit(spec, pods[n], ms[n], pods[n + 1], Before(ann, timing, vs, n), timing, vs[n])
  }

  // ----- distances -----

  lemma DesiredKeepsNames(pod: Pod, metrics: PodMetrics, spec: Spec)
    requires DistinctNames(pod.All()) && IsProposed(pod, metrics, spec)
    ensures DistinctNames(DesiredOf(pod, metrics, spec).All())
    ensures Canonical(DesiredOf(pod, metrics, spec)) != Canonical(pod)
  {
    PlanKeepsNames(pod, metrics, spec);
    DesiredKeepsInits(pod, metrics, spec);
    ChangeHasNewDigest(pod, metrics, spec);
    NamesStayDistinct(pod, DesiredOf(pod, metrics, spec));
  }

  lemma NamesStayDistinct(p: Pod, d: Pod)
    requires DistinctNames(p.All()) && p.initContainers == d.initContainers && SameNames(p.containers, d.containers)
    ensures DistinctNames(d.All())
  {
    forall i | 0 <= i < |d.All()| ensures d.All()[i].name == p.All()[i].name {
      var n := |p.initContainers|;
      if i >= n {
        assert p.All()[i] == p.containers[i - n] && d.All()[i] == d.containers[i - n];
      }
    }
  }

  lemma VisitOf(spec: Spec, pods: seq<Pod>, ms: seq<PodMetrics>, ann: Annotations, timing: Timing, vs: seq<Visit>,
      n: nat)
    requires IsHistory(spec, pods, ms, ann, timing, vs) && n < |vs|
    ensures AtGateAt(ann, timing, vs, n) ==>
              IsProposed(pods[n], ms[n], spec) && vs[n].gate.digest == Canonical(DesiredOf(pods[n], ms[n], spec))
    ensures pods[n + 1] == if AppliesAt(ann, timing, vs, n) then DesiredOf(pods[n], ms[n], spec) else pods[n]
  {
    assert IsVisit(spec, pods[n], ms[n], pods[n + 1], Before(ann, timing, vs, n), timing, vs[n]);
  }

  lemma VisitDigest(spec: Spec, before: Pod, metrics: PodMetrics, after: Pod, ann: Annotations, timing: Timing,
      v: Visit)
    requires IsVisit(spec, before, metrics, after, ann, timing, v) && DistinctNames(before.All())
    ensures DistinctNames(after.All())
    ensures if Applies(ann, timing, v) then v.gate.digest == Canonical(after) else after == before
  {
    if Applies(ann, timing, v) {
      DesiredKeepsNames(before, metrics, spec);
    }
  }

  /** Resizes make the pod what the visit brought, and nothing else changes it. */
  ghost predicate Linked(pods: seq<Pod>, ann: Annotations, timing: Timing, vs: seq<Visit>) {
    && |pods| == |vs| + 1
    && forall n | 0 <= n < |vs| && DistinctNames(pods[n].All()) ::
         && DistinctNames(pods[n + 1].All())
         && if AppliesAt(ann, timing, vs, n) then vs[n].gate.digest == Canonical(pods[n + 1])
            else pods[n + 1] == pods[n]
  }

  lemma HistoryIsLinked(spec: Spec, pods: seq<Pod>, ms: seq<PodMetrics>, ann: Annotations, timing: Timing,
      vs: seq<Visit>)
    requires IsHistory(spec, pods, ms, ann, timing, vs)
    ensures Linked(pods, ann, timing, vs)
  {
    forall n | 0 <= n < |vs| && DistinctNames(pods[n].All())
      ensures && DistinctNames(pods[n + 1].All())
              && if AppliesAt(ann, timing, vs, n) then vs[n].gate.digest == Canonical(pods[n + 1])
                 else pods[n + 1] == pods[n]
    {
      VisitDigest(spec, pods[n], ms[n], pods[n + 1], Before(ann, timing, vs, n), timing, vs[n]);
    }
  }

  lemma {:induction false} LinkedDigest(pods: seq<Pod>, ann: Annotations, timing: Timing, vs: seq<Visit>, n: nat)
    requires Linked(pods, ann, timing, vs) && DistinctNames(pods[0].All()) && n <= |vs|
    ensures DistinctNames(pods[n].All()) && PodBefore(Canonical(pods[0]), ann, timing, vs, n) == Canonical(pods[n])
  {
    if n == 0 {
    } else {
      LinkedDigest(pods, ann, timing, vs, n - 1);
      assert pods[n - 1 + 1] == pods[n];
    }
  }

  lemma HistoryIsFresh(spec: Spec, pods: seq<Pod>, ms: seq<PodMetrics>, ann: Annotations, timing: Timing,
      vs: seq<Visit>)
    requires IsHistory(spec, pods, ms, ann, timing, vs) && DistinctNames(pods[0].All())
    ensures FreshProposals(Canonical(pods[0]), ann, timing, vs)
  {
    HistoryIsLinked(spec, pods, ms, ann, timing, vs);
    forall n | 0 <= n < |vs| && AtGateAt(ann, timing, vs, n)
      ensures vs[n].gate.digest != PodBefore(Canonical(pods[0]), ann, timing, vs, n)
    {
      LinkedDigest(pods, ann, timing, vs, n);
      VisitOf(spec, pods, ms, ann, timing, vs, n);
      DesiredKeepsNames(pods[n], ms[n], spec);
    }
  }

  /** The full distance is kept on every history of every policy that starts without operator annotations, whichever
      patches fail. */
  ghost predicate PacedRegardless(timing: Timing) {
    forall spec: Spec, pods: seq<Pod>, ms: seq<PodMetrics>, vs: seq<Visit>, i: nat, j: nat |
      && i < j < |vs| && IsHistory(spec, pods, ms, map[], timing, vs) && DistinctNames(pods[0].All())
      && AppliesAt(map[], timing, vs, i) && AppliesAt(map[], timing, vs, j) ::
      vs[j].gate.at - vs[i].gate.at >= Max(timing.cooldown, 0) + Max(timing.window, 0)
  }

  /** Failed patches never shorten the distance exactly when no cooldown is configured. */
  lemma PacedRegardlessExact(timing: Timing)
    ensures PacedRegardless(timing) <==> timing.cooldown <= 0
  {
    if timing.cooldown <= 0 {
      forall spec: Spec, pods: seq<Pod>, ms: seq<PodMetrics>, vs: seq<Visit>, i: nat, j: nat |
        && i < j < |vs| && IsHistory(spec, pods, ms, map[], timing, vs) && DistinctNames(pods[0].All())
        && AppliesAt(map[], timing, vs, i) && AppliesAt(map[], timing, vs, j)
        ensures vs[j].gate.at - vs[i].gate.at >= Max(timing.cooldown, 0) + Max(timing.window, 0)
      {
        HistoryIsFresh(spec, pods, ms, map[], timing, vs);
        WindowAlwaysHolds(Canonical(pods[0]), map[], timing, vs, i, j);
      }
    } else {
      var pods, ms, vs, i, j := UnpatchedPod(timing, 0);
      assert !PacedRegardless(timing);
    }
  }

  // ----- a pod whose CPU usage moves in wide steps -----

  const FOLLOWING_SPEC := Spec(true, false, Unset, 0, true, Bounds(None, None, None, None, None, None), 20, 20)

  function Cores(n: nat): Pod { One(CpuOnly(1000 * n)) }

  function Using(n: nat): PodMetrics { Measured("app", map[CPU := 1000 * n]) }

  lemma CpuProposed(spec: Spec, usage: int, x: int, y: int)
    requires DefaultCpuPolicy(spec) && x != y && Next(x, usage, CpuKnobs(spec), None) == y
    ensures IsProposed(One(CpuOnly(x)), Measured("app", map[CPU := usage]), spec)
    ensures DesiredOf(One(CpuOnly(x)), Measured("app", map[CPU := usage]), spec) == One(CpuOnly(y))
  {
    CpuSteps(spec, usage, x, y);
    CpuDelta(spec, Measured("app", map[CPU := usage]), x, y);
  }

  lemma CpuDelta(spec: Spec, metrics: PodMetrics, x: int, y: int)
    requires Gives(One(CpuOnly(x)), metrics, spec, [CpuOnly(y)]) && x != y
    ensures Plan(Some(One(CpuOnly(x))), Some(metrics), spec).0.delta != ZERO_DELTA
  {
    DeltaIsConserved(One(CpuOnly(x)), metrics, spec);
    CpuSum(x);
    CpuSum(y);
  }

  lemma CpuSum(x: int)
    ensures SumRequests([CpuOnly(x)], 1) == Delta(x, 0)
  {
    assert SumRequests([CpuOnly(x)], 0) == ZERO_DELTA;
  }

  lemma CpuDigest(x: int)
    ensures Canonical(One(CpuOnly(x))) == [CpuOnly(x)]
  {
    assert One(CpuOnly(x)).All() == [CpuOnly(x)];
    assert [CpuOnly(x)][..0] == [];
  }

  /** A usage on the grid and a gap of at least 20 percent. */
  lemma CoresNext(x: int, y: int)
    requires x > 0 && y > 0 && y % 50 == 0 && (if y > x then (y - x) * 5 >= x else (x - y) * 5 >= x)
    ensures Next(x, y, CpuKnobs(FOLLOWING_SPEC), None) == y
  {
    NextCases(x, y, CpuKnobs(FOLLOWING_SPEC), None);
    ExactMultiple(y, 50);
  }

  lemma CoresFollow(n: nat, m: nat)
    requires {n, m} <= {1, 2, 3} && n != m
    ensures IsProposed(Cores(n), Using(m), FOLLOWING_SPEC)
    ensures DesiredOf(Cores(n), Using(m), FOLLOWING_SPEC) == Cores(m) && Canonical(Cores(m)) == [CpuOnly(1000 * m)]
  {
    CoresNext(1000 * n, 1000 * m);
    CpuProposed(FOLLOWING_SPEC, 1000 * m, 1000 * n, 1000 * m);
    CpuDigest(1000 * m);
  }

  lemma CoresVisit(n: nat, m: nat, ann: Annotations, timing: Timing, v: Visit)
    requires {n, m} <= {1, 2, 3} && n != m && v.gate.Reached? && v.gate.digest == [CpuOnly(1000 * m)]
    ensures IsVisit(FOLLOWING_SPEC, Cores(n), Using(m), Cores(if Applies(ann, timing, v) then m else n), ann, timing, v)
  {
    CoresFollow(n, m);
  }

  lemma DigestsDiffer(x: int, y: int)
    requires x != y
    ensures [CpuOnly(x)] != [CpuOnly(y)]
  {
    assert CpuOnly(x).req[CPU] != CpuOnly(y).req[CPU];
    assert [CpuOnly(x)][0] != [CpuOnly(y)][0];
  }

  /** The pod has so many cores before visit n and after it, and the usage asks for so many. */
  ghost predicate Follows(cores: seq<nat>, asked: seq<nat>, ann: Annotations, timing: Timing, vs: seq<Visit>) {
    && |cores| == |vs| + 1 && |asked| == |vs|
    && forall n | 0 <= n < |vs| ::
         && {cores[n], asked[n]} <= {1, 2, 3} && cores[n] != asked[n]
         && vs[n].gate.Reached? && vs[n].gate.digest == [CpuOnly(1000 * asked[n])]
         && cores[n + 1] == if AppliesAt(ann, timing, vs, n) then asked[n] else cores[n]
  }

  lemma FollowingHistory(cores: seq<nat>, asked: seq<nat>, ann: Annotations, timing: Timing, vs: seq<Visit>)
    returns (pods: seq<Pod>, ms: seq<PodMetrics>)
    requires Follows(cores, asked, ann, timing, vs) && MonotoneClock(vs)
    ensures IsHistory(FOLLOWING_SPEC, pods, ms, ann, timing, vs)
    ensures forall n | 0 <= n < |cores| :: pods[n] == Cores(cores[n])
  {
    pods := seq(|cores|, n requires 0 <= n < |cores| => Cores(cores[n]));
    ms := seq(|asked|, n requires 0 <= n < |asked| => Using(asked[n]));
    forall n | 0 <= n < |vs|
      ensures IsVisit(FOLLOWING_SPEC, pods[n], ms[n], pods[n + 1], Before(ann, timing, vs, n), timing, vs[n])
    {
      CoresVisit(cores[n], asked[n], Before(ann, timing, vs, n), timing, vs[n]);
      assert pods[n + 1] == Cores(cores[n + 1]);
    }
  }

  lemma FollowsAtOnce(ann: Annotations, timing: Timing, vs: seq<Visit>)
    requires |vs| == 2 && vs[0].gate.Reached? && vs[1].gate.Reached?
    requires vs[0].gate.digest == [CpuOnly(2000)] && vs[1].gate.digest == [CpuOnly(3000)]
    requires AppliesAt(ann, timing, vs, 0) && AppliesAt(ann, timing, vs, 1)
    ensures Follows([1, 2, 3], [2, 3], ann, timing, vs)
  {
  }

  lemma FollowsInPairs(ann: Annotations, timing: Timing, vs: seq<Visit>)
    requires |vs| == 4 && forall n | 0 <= n < 4 :: vs[n].gate.Reached?
    requires vs[0].gate.digest == vs[1].gate.digest == [CpuOnly(2000)]
    requires vs[2].gate.digest == vs[3].gate.digest == [CpuOnly(3000)]
    requires !AppliesAt(ann, timing, vs, 0) && AppliesAt(ann, timing, vs, 1)
    requires !AppliesAt(ann, timing, vs, 2) && AppliesAt(ann, timing, vs, 3)
    ensures Follows([1, 1, 2, 2, 3], [2, 2, 3, 3], ann, timing, vs)
  {
  }

  /** From one core to two, whose patch fails, and on to three, for any timing. */
  lemma UnpatchedPod(timing: Timing, t: int)
    returns (pods: seq<Pod>, ms: seq<PodMetrics>, vs: seq<Visit>, i: nat, j: nat)
    ensures i < j < |vs| && IsHistory(FOLLOWING_SPEC, pods, ms, map[], timing, vs) && DistinctNames(pods[0].All())
    ensures AppliesAt(map[], timing, vs, i) && AppliesAt(map[], timing, vs, j) && !vs[i].gate.patched
    ensures vs[j].gate.at - vs[i].gate.at == Max(timing.window, 0)
  {
    var start, h, g := [CpuOnly(1000)], [CpuOnly(2000)], [CpuOnly(3000)];
    vs := UnpatchedHistory(timing.window, h, g, t);
    DigestsDiffer(1000, 2000);
    DigestsDiffer(2000, 3000);
    UnpatchedClock(timing.window, h, g, t);
    if timing.window <= 0 {
      WindowlessHistory(timing, start, h, g, t);
      FollowsAtOnce(map[], timing, vs);
      pods, ms := FollowingHistory([1, 2, 3], [2, 3], map[], timing, vs);
      i, j := 0, 1;
    } else {
      WindowedHistory(timing, start, h, g, t);
      FollowsInPairs(map[], timing, vs);
      pods, ms := FollowingHistory([1, 1, 2, 2, 3], [2, 2, 3, 3], map[], timing, vs);
      i, j := 1, 3;
    }
  }

  // ----- locked out -----

  /** Two cores are recorded as applied, three are applied with a failing patch, all by this operator. */
  function LockingHistory(timing: Timing, t: int): seq<Visit> {
    var w, u := timing.window, t + timing.window + Max(timing.cooldown, 0);
    var h, g := [CpuOnly(2000)], [CpuOnly(3000)];
    [Visit(t, Reached(t, h, true, true)), Visit(t + w, Reached(t + w, h, true, true)),
     Visit(u, Reached(u, g, true, true)), Visit(u + w, Reached(u + w, g, true, false))]
  }

  lemma LockingClock(timing: Timing, t: int)
    requires timing.window > 0
    ensures MonotoneClock(LockingHistory(timing, t))
  {
  }

  lemma LockingVisits(timing: Timing, t: int)
    requires timing.window > 0
    ensures var vs := LockingHistory(timing, t);
            && !AppliesAt(map[], timing, vs, 0) && AppliesAt(map[], timing, vs, 1)
            && !AppliesAt(map[], timing, vs, 2) && AppliesAt(map[], timing, vs, 3)
            && Lookup(Before(map[], timing, vs, 4), LAST_APPLIED_HASH) == Hash([CpuOnly(2000)])
  {
    var vs, none: Annotations := LockingHistory(timing, t), map[];
    var a1, a2 := FirstTarget(none, timing, vs[0], vs[1]);
    DigestsDiffer(2000, 3000);
    VisitRecords(a2, timing, vs[2]);
    var a3 := AfterVisit(a2, timing, vs[2]);
    VisitApplies(a3, timing, vs[3], vs[2].gate.at);
    BeforeFour(none, timing, vs, a1, a2, a3);
    assert Before(none, timing, vs, 4) == AfterVisit(a3, timing, vs[3]);
  }

  /** A target becomes pending on one visit and is applied on the next, one window later. */
  lemma FirstTarget(ann: Annotations, timing: Timing, v: Visit, w: Visit) returns (mid: Annotations, after: Annotations)
    requires timing.window > 0 && AtGate(ann, timing, v) && v.gate.patched && v.checkedAt <= w.checkedAt
    requires w.gate == Reached(v.gate.at + timing.window, v.gate.digest, true, true)
    requires Lookup(ann, PENDING_HASH) != Hash(v.gate.digest) && Lookup(ann, LAST_APPLIED_HASH) != Hash(v.gate.digest)
    ensures mid == AfterVisit(ann, timing, v) && after == AfterVisit(mid, timing, w)
    ensures AtGate(mid, timing, w) && !Applies(ann, timing, v) && Applies(mid, timing, w)
    ensures Lookup(after, LAST_RESIZE_TIME) == Stamp(w.gate.at) && Lookup(after, PENDING_HASH) == EMPTY_TEXT
    ensures Lookup(after, LAST_APPLIED_HASH) == Hash(w.gate.digest)
  {
    VisitRecords(ann, timing, v);
    mid := AfterVisit(ann, timing, v);
    VisitApplies(mid, timing, w, v.gate.at);
    after := AfterVisit(mid, timing, w);
    LookupResized(mid, w.gate.digest, w.gate.at);
  }

  lemma LockingPods(timing: Timing, t: int)
    requires timing.window > 0
    ensures Follows([1, 1, 2, 2, 3], [2, 2, 3, 3], map[], timing, LockingHistory(timing, t))
  {
    LockingVisits(timing, t);
    FollowsInPairs(map[], timing, LockingHistory(timing, t));
  }

  /** With a stabilization window a pod can end up locked out of a target it does not have, without anybody else
      touching it: after this history the policy proposes two cores for a pod of three, and no sequence of visits with
      that target ever applies it. */
  lemma LockedOut(timing: Timing, t: int) returns (pods: seq<Pod>, ms: seq<PodMetrics>)
    requires timing.window > 0
    ensures var vs := LockingHistory(timing, t);
            && IsHistory(FOLLOWING_SPEC, pods, ms, map[], timing, vs) && pods[4] == Cores(3)
            && IsProposed(Cores(3), Using(2), FOLLOWING_SPEC)
            && forall more: seq<Visit>, n: nat |
                 Computes(more, Canonical(DesiredOf(Cores(3), Using(2), FOLLOWING_SPEC))) && n < |more| ::
                 !AppliesAt(Before(map[], timing, vs, 4), timing, more, n)
  {
    LockingClock(timing, t);
    LockingPods(timing, t);
    pods, ms := FollowingHistory([1, 1, 2, 2, 3], [2, 2, 3, 3], map[], timing, LockingHistory(timing, t));
    CoresFollow(3, 2);
    LockedForever(timing, t);
  }

  lemma LockedForever(timing: Timing, t: int)
    requires timing.window > 0
    ensures forall more: seq<Visit>, n: nat | Computes(more, [CpuOnly(2000)]) && n < |more| ::
              !AppliesAt(Before(map[], timing, LockingHistory(timing, t), 4), timing, more, n)
  {
    LockingVisits(timing, t);
    var ann := Before(map[], timing, LockingHistory(timing, t), 4);
    forall more: seq<Visit>, n: nat | Computes(more, [CpuOnly(2000)]) && n < |more|
      ensures !AppliesAt(ann, timing, more, n)
    {
      LastAppliedIsBlocked(ann, timing, more, n, [CpuOnly(2000)]);
    }
  }
}
