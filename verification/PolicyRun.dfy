/** The policy inside the worker pool: which pods a run may resize, and what its committed budget stands for. */
module PolicyRun {
  import opened Wrappers
  import opened Resources
  import opened PodHash
  import opened PolicySpec
  import opened Policy
  import opened PolicyLaws
  import opened QoSSafety
  import opened PlanExact
  import opened WorkerPool
  import opened PoolInvariant
  import opened PoolTheorems

  /** A listed pod with the metrics that were listed for it. */
  datatype Listed = Listed(namespace: string, pod: Pod, metrics: Option<PodMetrics>)

  /** What processOne learns before stabilization; the metrics listing fails for all pods or for none. */
  ghost function VerdictFor(l: Listed, metricsFailed: bool, spec: Spec): Verdict {
    if metricsFailed then MetricsFailed
    else if l.metrics.None? then MetricsMissing
    else
      var (r, e) := Plan(Some(l.pod), l.metrics, spec);
      if e.QoSChange? then ClassRefused
      else if !e.NoError? then PolicyFailed
      else if !r.changed || r.delta == ZERO_DELTA then NothingToDo
      else Proposed(r.delta)
  }

  method Assess(l: Listed, metricsFailed: bool, spec: Spec) returns (verdict: Verdict, desired: Option<Pod>)
    ensures verdict == VerdictFor(l, metricsFailed, spec)
    ensures verdict.Proposed? ==> desired == Plan(Some(l.pod), l.metrics, spec).0.desired
  {
    desired := None;
    if metricsFailed {
      return MetricsFailed, None;
    }
    if l.metrics.None? {
      return MetricsMissing, None;
    }
    var res, err := ComputeDesired(Some(l.pod), l.metrics, spec);
    if err != NoError {
      return if err.QoSChange? then ClassRefused else PolicyFailed, None;
    }
    if !res.changed {
      return NothingToDo, None;
    }
    if res.delta.cpu == 0 && res.delta.memory == 0 {
      return NothingToDo, None;
    }
    return Proposed(res.delta), res.desired;
  }

  /** Which verdict a pod gets, and when: the failed listing first, then the missing metrics, then the errors of the
      policy; and only a change with a delta is proposed. */
  lemma VerdictExact(l: Listed, metricsFailed: bool, spec: Spec)
    ensures var verdict := VerdictFor(l, metricsFailed, spec);
            var (r, e) := Plan(Some(l.pod), l.metrics, spec);
            var evaluated := !metricsFailed && l.metrics.Some?;
            && (verdict == MetricsFailed <==> metricsFailed)
            && (verdict == MetricsMissing <==> !metricsFailed && l.metrics.None?)
            && (verdict == ClassRefused <==> evaluated && e.QoSChange?)
            && (verdict == PolicyFailed <==> evaluated && e.UnsupportedLimitsMode?)
            && (verdict == NothingToDo <==>
                  evaluated && e.NoError? && (!r.changed || (r.delta.cpu == 0 && r.delta.memory == 0)))
            && forall d :: verdict == Proposed(d) <==>
                 && evaluated && e.NoError? && r.changed
                 && d.cpu == r.delta.cpu && d.memory == r.delta.memory && (d.cpu != 0 || d.memory != 0)
  {
    ErrorsExact(Some(l.pod), l.metrics, spec);
  }

  ghost function Candidates(listed: seq<Listed>, metricsFailed: bool, spec: Spec): seq<Candidate> {
    seq(|listed|, i requires 0 <= i < |listed| =>
      Candidate(listed[i].namespace, VerdictFor(listed[i], metricsFailed, spec)))
  }

  ghost predicate RunsPolicy(cfg: Config, listed: seq<Listed>, metricsFailed: bool, spec: Spec) {
    cfg.candidates == Candidates(listed, metricsFailed, spec)
  }

  lemma ProposalComesFromPlan(l: Listed, metricsFailed: bool, spec: Spec)
    requires VerdictFor(l, metricsFailed, spec).Proposed?
    ensures l.metrics.Some?
    ensures var (r, e) := Plan(Some(l.pod), l.metrics, spec);
            e.NoError? && r.changed && r.delta == VerdictFor(l, metricsFailed, spec).delta != ZERO_DELTA
  {
  }

  /** What a run proposes for a pod is never what the pod has already, so the digest at the stabilization gate differs
      from the digest of the pod that was read. */
  lemma ProposalHasNewDigest(l: Listed, metricsFailed: bool, spec: Spec)
    requires VerdictFor(l, metricsFailed, spec).Proposed? && DistinctNames(l.pod.All())
    ensures Plan(Some(l.pod), l.metrics, spec).0.hash != Some(Canonical(l.pod))
  {
    ProposalComesFromPlan(l, metricsFailed, spec);
    ChangeHasNewDigest(l.pod, l.metrics.value, spec);
  }

  /** No run, however it is scheduled, resizes a BestEffort pod, a Guaranteed pod that keeps its limits, or any pod
      to a state of another class. */
  lemma ResizesKeepClass(cfg: Config, acts: seq<Action>, s: Pool, listed: seq<Listed>, metricsFailed: bool,
      spec: Spec, i: nat)
    requires Reaches(cfg, acts, s) && RunsPolicy(cfg, listed, metricsFailed, spec) && i < |s.history.applied|
    ensures var c := s.history.applied[i];
            && c < |listed| && listed[c].metrics.Some?
            && var r := Plan(Some(listed[c].pod), listed[c].metrics, spec).0;
               && r.desired.Some? && QoS(r.desired.value) == QoS(listed[c].pod)
               && (QoS(listed[c].pod) == Burstable || (QoS(listed[c].pod) == Guaranteed
                   && spec.limitsMode == EqualRequests))
  {
    AppliedWereProposed(cfg, acts, s);
    var c := s.history.applied[i];
    ProposalComesFromPlan(listed[c], metricsFailed, spec);
    ClassIsKept(listed[c].pod, listed[c].metrics.value, spec);
  }

  /** How much an applied candidate's total requests grow. */
  ghost function Growth(l: Listed, spec: Spec): Delta {
    match Plan(Some(l.pod), l.metrics, spec).0.desired
    case None => ZERO_DELTA
    case Some(d) => SumRequests(d.containers, |d.containers|).Minus(SumRequests(l.pod.containers, |l.pod.containers|))
  }

  ghost function TotalGrowth(listed: seq<Listed>, applied: seq<nat>, spec: Spec): Delta
    requires forall i | 0 <= i < |applied| :: applied[i] < |listed|
  {
    if applied == [] then ZERO_DELTA
    else TotalGrowth(listed, applied[..|applied| - 1], spec).Plus(Growth(listed[applied[|applied| - 1]], spec))
  }

  lemma GrowthIsDelta(l: Listed, metricsFailed: bool, spec: Spec)
    requires VerdictFor(l, metricsFailed, spec).Proposed? && DistinctNames(l.pod.containers)
    ensures Growth(l, spec) == VerdictFor(l, metricsFailed, spec).delta
  {
    ProposalComesFromPlan(l, metricsFailed, spec);
    DeltaIsConserved(l.pod, l.metrics.value, spec);
  }

  lemma {:induction false} TotalIsGrowth(cfg: Config, listed: seq<Listed>, metricsFailed: bool, spec: Spec,
      applied: seq<nat>)
    requires RunsPolicy(cfg, listed, metricsFailed, spec)
    requires forall i | 0 <= i < |applied| ::
               && applied[i] < |listed|
               && VerdictOf(cfg, applied[i]).Proposed?
               && DistinctNames(listed[applied[i]].pod.containers)
    ensures Total(cfg, applied) == TotalGrowth(listed, applied, spec)
  {
    if applied == [] {
    } else {
      var front, c := applied[..|applied| - 1], applied[|applied| - 1];
      TotalIsGrowth(cfg, listed, metricsFailed, spec, front);
      assert VerdictOf(cfg, c) == VerdictFor(listed[c], metricsFailed, spec);
      GrowthIsDelta(listed[c], metricsFailed, spec);
    }
  }

  /** In every reachable state the committed budget is the growth of the total requests of the pods resized so far. */
  lemma CommittedIsGrowth(cfg: Config, acts: seq<Action>, s: Pool, listed: seq<Listed>, metricsFailed: bool, spec: Spec)
    requires Reaches(cfg, acts, s) && RunsPolicy(cfg, listed, metricsFailed, spec)
    requires forall l | l in listed :: DistinctNames(l.pod.containers)
    ensures forall i | 0 <= i < |s.history.applied| :: s.history.applied[i] < |listed|
    ensures s.shared.ledger.committed == TotalGrowth(listed, s.history.applied, spec)
  {
    AppliedWereProposed(cfg, acts, s);
    forall i | 0 <= i < |s.history.applied|
      ensures s.history.applied[i] < |listed| && DistinctNames(listed[s.history.applied[i]].pod.containers)
    {
      assert VerdictOf(cfg, s.history.applied[i]).Proposed?;
      assert listed[s.history.applied[i]] in listed;
    }
    TotalIsGrowth(cfg, listed, metricsFailed, spec, s.history.applied);
  }

  /** With a recognised limits mode every candidate of a run that is not cancelled lands in exactly one counter. */
  lemma EveryCandidateCounted(cfg: Config, acts: seq<Action>, s: Pool, listed: seq<Listed>, metricsFailed: bool,
      spec: Spec)
    requires Reaches(cfg, acts, s) && RunsPolicy(cfg, listed, metricsFailed, spec)
    requires s.Final() && !s.shared.cancelled && !spec.limitsMode.Unrecognised?
    ensures AllCounters(s.shared) == |listed|
  {
    forall c | 0 <= c < |cfg.candidates| ensures !VerdictOf(cfg, c).PolicyFailed? {
      RecognisedModeNeverFails(listed[c], metricsFailed, spec);
    }
    CountersPartition(cfg, acts, s);
  }

  lemma RecognisedModeNeverFails(l: Listed, metricsFailed: bool, spec: Spec)
    requires !spec.limitsMode.Unrecognised?
    ensures !VerdictFor(l, metricsFailed, spec).PolicyFailed?
  {
  }
}
