/** Which of the listed pods become candidates of a run. */
module Selection {
  import opened MergePatch
  import opened Stabilization

  datatype Phase = Pending | RunningPhase | Succeeded | FailedPhase | UnknownPhase

  datatype ListedPod = ListedPod(namespace: string, deleting: bool, phase: Phase, nodeName: string,
                                 annotations: Annotations, checkedAt: int)

  predicate IsEligible(p: ListedPod) {
    !p.deleting && p.phase.RunningPhase? && p.nodeName != ""
  }

  predicate Cooling(p: ListedPod, cooldown: int) {
    ShouldSkipByCooldown(p.annotations, cooldown, p.checkedAt)
  }

  /** A pod is picked when its namespace matches, it is eligible and it is not cooling down. */
  predicate Picked(p: ListedPod, matches: string -> bool, cooldown: int) {
    matches(p.namespace) && IsEligible(p) && !Cooling(p, cooldown)
  }

  function Count(pods: seq<ListedPod>, n: nat, f: ListedPod -> bool): nat
    requires n <= |pods|
  {
    if n == 0 then 0 else Count(pods, n - 1, f) + if f(pods[n - 1]) then 1 else 0
  }

  function Filtered(pods: seq<ListedPod>, n: nat, f: ListedPod -> bool): seq<ListedPod>
    requires n <= |pods|
  {
    if n == 0 then [] else Filtered(pods, n - 1, f) + if f(pods[n - 1]) then [pods[n - 1]] else []
  }

  /** The loop over the listed pods. Every eligible pod of a matched namespace is counted as cooling down or becomes a
      candidate, in listing order. */
  method SelectCandidates(pods: seq<ListedPod>, matches: string -> bool, cooldown: int)
    returns (candidates: seq<ListedPod>, eligible: int, skippedCooldown: int, namespacesMatched: int)
    ensures candidates == Filtered(pods, |pods|, (p: ListedPod) => Picked(p, matches, cooldown))
    ensures eligible == skippedCooldown + |candidates|
    ensures eligible == Count(pods, |pods|, (p: ListedPod) => matches(p.namespace) && IsEligible(p))
    ensures skippedCooldown == Count(pods, |pods|,
        (p: ListedPod) => matches(p.namespace) && IsEligible(p) && Cooling(p, cooldown))
    ensures namespacesMatched == |set p | p in pods && matches(p.namespace) :: p.namespace|
  {
    candidates, eligible, skippedCooldown := [], 0, 0;
    for i := 0 to |pods|
      invariant candidates == Filtered(pods, i, (p: ListedPod) => Picked(p, matches, cooldown))
      invariant eligible == skippedCooldown + |candidates|
      invariant eligible == Count(pods, i, (p: ListedPod) => matches(p.namespace) && IsEligible(p))
      invariant skippedCooldown == Count(pods, i,
          (p: ListedPod) => matches(p.namespace) && IsEligible(p) && Cooling(p, cooldown))
    {
      var pod := pods[i];
      if !matches(pod.namespace) {
        continue;
      }
      if !IsEligible(pod) {
        continue;
      }
      eligible := eligible + 1;
      if ShouldSkipByCooldown(pod.annotations, cooldown, pod.checkedAt) {
        skippedCooldown := skippedCooldown + 1;
        continue;
      }
      candidates := candidates + [pod];
    }
    var seen: set<string> := {};
    namespacesMatched := 0;
    for i := 0 to |pods|
      invariant seen == set p | p in pods[..i] && matches(p.namespace) :: p.namespace
      invariant namespacesMatched == |seen|
    {
      assert pods[..i + 1] == pods[..i] + [pods[i]];
      if matches(pods[i].namespace) {
        if pods[i].namespace !in seen {
          seen := seen + {pods[i].namespace};
          namespacesMatched := namespacesMatched + 1;
        }
      }
    }
    assert pods[..|pods|] == pods;
  }

  lemma {:induction false} FilteredCount(pods: seq<ListedPod>, n: nat, f: ListedPod -> bool)
    requires n <= |pods|
    ensures |Filtered(pods, n, f)| == Count(pods, n, f)
  {
    if n == 0 {
    } else {
      FilteredCount(pods, n - 1, f);
    }
  }

  /** The candidates are exactly the picked pods, each as often as it is listed. */
  lemma {:induction false} FilteredIsExact(pods: seq<ListedPod>, n: nat, f: ListedPod -> bool, p: ListedPod)
    requires n <= |pods|
    ensures multiset(Filtered(pods, n, f))[p] == if f(p) then multiset(pods[..n])[p] else 0
  {
    if n == 0 {
    } else {
      FilteredIsExact(pods, n - 1, f, p);
      OneMore(pods[..n - 1], pods[n - 1], p);
      OneMore(Filtered(pods, n - 1, f), pods[n - 1], p);
      assert pods[..n] == pods[..n - 1] + [pods[n - 1]];
      assert f(pods[n - 1]) || Filtered(pods, n, f) == Filtered(pods, n - 1, f);
    }
  }

  lemma OneMore(pods: seq<ListedPod>, last: ListedPod, p: ListedPod)
    ensures multiset(pods + [last])[p] == multiset(pods)[p] + if last == p then 1 else 0
  {
  }

  /** A listed pod is a candidate, as often as it is listed, exactly when its namespace matches, it is running on a node
      and not being deleted, and no resize was recorded within the cooldown. */
  lemma CandidateExact(pods: seq<ListedPod>, matches: string -> bool, cooldown: int, p: ListedPod)
    ensures var cooling := CoolsDown(p.annotations, cooldown, p.checkedAt);
            multiset(Filtered(pods, |pods|, (p: ListedPod) => Picked(p, matches, cooldown)))[p] ==
            if matches(p.namespace) && !p.deleting && p.phase == RunningPhase && p.nodeName != "" && !cooling
            then multiset(pods)[p] else 0
  {
    FilteredIsExact(pods, |pods|, (p: ListedPod) => Picked(p, matches, cooldown), p);
    assert pods[..|pods|] == pods;
  }
}
