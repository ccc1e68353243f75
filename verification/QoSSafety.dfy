/** The evaluation never changes the quality-of-service class of a pod, and when exactly it refuses to act. */
module QoSSafety {
  import opened Wrappers
  import opened Resources
  import opened ResourceStep
  import opened PolicySpec

  // ----- single containers -----

  lemma KeepLimitsKeepsLimits(c: Container, usage: ResourceList, spec: Spec)
    ensures var r := Refit(c, usage, spec, KeepLimits);
            Get(r.lim, CPU) == Get(c.lim, CPU) && Get(r.lim, Memory) == Get(c.lim, Memory)
  {
  }

  /** With limits kept, a change takes a fully reserved container out of its reservation. */
  lemma ReservedMoves(c: Container, usages: map<string, ResourceList>, spec: Spec)
    requires FullyReserved(c) && Moves(c, usages, spec, KeepLimits)
    ensures !FullyReserved(Stepped(c, usages, spec, KeepLimits))
  {
  }

  lemma UnspecifiedMoves(c: Container, usages: map<string, ResourceList>, spec: Spec)
    requires Unspecified(c) && Moves(c, usages, spec, KeepLimits)
    ensures !Unspecified(Stepped(c, usages, spec, KeepLimits))
  {
  }

  lemma SpecifiedStays(c: Container, usages: map<string, ResourceList>, spec: Spec, mode: EffectiveMode)
    requires !Unspecified(c)
    ensures !Unspecified(Stepped(c, usages, spec, mode))
  {
  }

  // ----- pods -----

  lemma UnmovedPod(pod: Pod, usages: map<string, ResourceList>, spec: Spec, mode: EffectiveMode)
    requires !AnyMoves(pod, usages, spec, mode)
    ensures Unadjusted(pod, usages, spec, mode) == pod
  {
  }

  /** The stepped version of a container of the pod is a container of the unadjusted pod. */
  lemma SteppedIsThere(pod: Pod, c: Container, usages: map<string, ResourceList>, spec: Spec, mode: EffectiveMode)
    requires c in pod.containers
    ensures Stepped(c, usages, spec, mode) in Unadjusted(pod, usages, spec, mode).All()
  {
  }

  lemma MovingChangesClass(pod: Pod, usages: map<string, ResourceList>, spec: Spec)
    requires QoS(pod) != Burstable && AnyMoves(pod, usages, spec, KeepLimits)
    ensures QoS(Unadjusted(pod, usages, spec, KeepLimits)) != QoS(pod)
  {
    var c :| c in pod.containers && Moves(c, usages, spec, KeepLimits);
    assert c in pod.All();
    SteppedIsThere(pod, c, usages, spec, KeepLimits);
    if QoS(pod) == Guaranteed {
      ReservedMoves(c, usages, spec);
    } else {
      UnspecifiedMoves(c, usages, spec);
    }
  }

  lemma NeverBecomesBestEffort(pod: Pod, usages: map<string, ResourceList>, spec: Spec, mode: EffectiveMode)
    requires QoS(pod) != BestEffort
    ensures QoS(Unadjusted(pod, usages, spec, mode)) != BestEffort
  {
    if pod.All() == [] {
      assert Unadjusted(pod, usages, spec, mode).All() == [];
    } else {
      assert pod.All()[0] in pod.All();
      var c :| c in pod.All() && !Unspecified(c);
      if c in pod.containers {
        SteppedIsThere(pod, c, usages, spec, mode);
        SpecifiedStays(c, usages, spec, mode);
      } else {
        assert c in Unadjusted(pod, usages, spec, mode).All();
      }
    }
  }

  // ----- the repair -----

  /** Some managed resource of a container has a limit above its minimum bound. */
  predicate HasRoom(c: Container, spec: Spec) {
    || (spec.manageCPU && CPU in c.lim && c.lim[CPU] > spec.bounds.cpuMin.GetOr(0))
    || (spec.manageMemory && Memory in c.lim && c.lim[Memory] > spec.bounds.memoryMin.GetOr(0))
  }

  /** One container lowered, in its CPU request if that has room and else in its memory request. */
  ghost predicate LoweredBy(c: Container, d: Container, spec: Spec) {
    if spec.manageCPU && CPU in c.lim && c.lim[CPU] > spec.bounds.cpuMin.GetOr(0)
    then LoweredResource(c, d, CPU, CPU_STEP_MILLI, spec.bounds.cpuMin.GetOr(0))
    else spec.manageMemory && LoweredResource(c, d, Memory, MEMORY_STEP_BYTES, spec.bounds.memoryMin.GetOr(0))
  }

  /** A request that equals its limit falls by a step, or to its minimum when a step would go below it. */
  predicate LoweredResource(c: Container, d: Container, name: ResourceName, step: int, least: int) {
    && name in c.req && name in c.lim && c.req[name] == c.lim[name]
    && name in d.req && d == c.(req := c.req[name := d.req[name]])
    && d.req[name] == (if c.lim[name] - step < least then least else c.lim[name] - step) < c.lim[name]
  }

  lemma LowerContainerExact(c: Container, spec: Spec)
    requires FullyReserved(c)
    ensures LowerContainer(c, spec).Some? <==> HasRoom(c, spec)
    ensures HasRoom(c, spec) ==> LoweredBy(c, LowerContainer(c, spec).value, spec)
  {
  }

  /** Exactly one container differs: the first one that has room is lowered. */
  ghost predicate OneLowered(cs: seq<Container>, ds: seq<Container>, spec: Spec) {
    && |ds| == |cs|
    && exists i | 0 <= i < |cs| ::
         LoweredBy(cs[i], ds[i], spec) && ds == cs[i := ds[i]] && forall j | 0 <= j < i :: !HasRoom(cs[j], spec)
  }

  lemma {:induction false} ForcedExact(cs: seq<Container>, spec: Spec)
    requires forall c | c in cs :: FullyReserved(c)
    ensures Forced(cs, spec).Some? <==> exists c | c in cs :: HasRoom(c, spec)
    ensures Forced(cs, spec).Some? ==> OneLowered(cs, Forced(cs, spec).value, spec)
  {
    if cs == [] {
    } else {
      LowerContainerExact(cs[0], spec);
      assert forall c :: c in cs <==> c == cs[0] || c in cs[1..];
      if HasRoom(cs[0], spec) {
        LoweredFirst(cs, LowerContainer(cs[0], spec).value, spec);
      } else {
        ForcedExact(cs[1..], spec);
        if Forced(cs[1..], spec).Some? {
          LoweredLater(cs, Forced(cs[1..], spec).value, spec);
        }
      }
    }
  }

  lemma LoweredFirst(cs: seq<Container>, d: Container, spec: Spec)
    requires cs != [] && LoweredBy(cs[0], d, spec)
    ensures OneLowered(cs, [d] + cs[1..], spec)
  {
    assert [d] + cs[1..] == cs[0 := d];
  }

  lemma LoweredLater(cs: seq<Container>, rest: seq<Container>, spec: Spec)
    requires cs != [] && !HasRoom(cs[0], spec) && OneLowered(cs[1..], rest, spec)
    ensures OneLowered(cs, [cs[0]] + rest, spec)
  {
    var i :| 0 <= i < |cs[1..]| && LoweredBy(cs[1..][i], rest[i], spec) && rest == cs[1..][i := rest[i]]
             && forall j | 0 <= j < i :: !HasRoom(cs[1..][j], spec);
    var ds := [cs[0]] + rest;
    assert ds[i + 1] == rest[i] && ds == cs[i + 1 := ds[i + 1]];
    forall j | 0 <= j < i + 1 ensures !HasRoom(cs[j], spec) {
      assert j > 0 ==> cs[j] == cs[1..][j - 1];
    }
  }

  /** The evaluation goes through the repair. */
  ghost predicate Repairs(pod: Pod, usages: map<string, ResourceList>, spec: Spec, mode: EffectiveMode) {
    QoS(pod) == Burstable && QoS(Unadjusted(pod, usages, spec, mode)) == Guaranteed
  }

  lemma LoweredIsBurstable(pod: Pod, repaired: Pod, i: nat, spec: Spec)
    requires QoS(pod) == Guaranteed && i < |pod.containers| == |repaired.containers|
    requires LoweredBy(pod.containers[i], repaired.containers[i], spec)
    ensures QoS(repaired) == Burstable
  {
    assert repaired.containers[i] in repaired.All();
    assert pod.containers[i] in pod.All();
  }

  /** A Burstable pod whose computed state would be Guaranteed is accepted exactly when some container has a
      managed resource with a limit above its minimum bound. The accepted state is then Burstable and differs from the
      computed one in a single request: that of the first container with room, CPU before memory. */
  lemma RepairExact(pod: Pod, usages: map<string, ResourceList>, spec: Spec)
    requires Repairs(pod, usages, spec, KeepLimits)
    ensures var (r, e) := Evaluate(pod, usages, spec, KeepLimits);
            && (e.NoError? <==> exists c | c in pod.containers :: HasRoom(c, spec))
            && (e.NoError? ==>
                  && r.desired.Some? && QoS(r.desired.value) == Burstable
                  && r.desired.value.initContainers == pod.initContainers
                  && OneLowered(Unadjusted(pod, usages, spec, KeepLimits).containers, r.desired.value.containers, spec))
  {
    var u := Unadjusted(pod, usages, spec, KeepLimits);
    if !AnyMoves(pod, usages, spec, KeepLimits) {
      UnmovedPod(pod, usages, spec, KeepLimits);
    }
    forall c | c in u.containers ensures FullyReserved(c) {
      assert c in u.All();
    }
    ForcedExact(u.containers, spec);
    RoomIsBeforehand(pod, usages, spec);
    if Forced(u.containers, spec).Some? {
      ForcedIsBurstable(u, Settled(pod, u, true, spec), spec);
    }
  }

  lemma ForcedIsBurstable(u: Pod, repaired: Pod, spec: Spec)
    requires QoS(u) == Guaranteed && OneLowered(u.containers, repaired.containers, spec)
    ensures QoS(repaired) == Burstable
  {
    var i :| 0 <= i < |u.containers| && LoweredBy(u.containers[i], repaired.containers[i], spec);
    LoweredIsBurstable(u, repaired, i, spec);
  }

  /** Limits are kept, so the room to lower a request can be read off the pod as it is. */
  lemma RoomIsBeforehand(pod: Pod, usages: map<string, ResourceList>, spec: Spec)
    ensures (exists c | c in Unadjusted(pod, usages, spec, KeepLimits).containers :: HasRoom(c, spec))
            <==> exists c | c in pod.containers :: HasRoom(c, spec)
  {
    var u := Unadjusted(pod, usages, spec, KeepLimits).containers;
    forall i | 0 <= i < |u| ensures HasRoom(u[i], spec) == HasRoom(pod.containers[i], spec) {
      var c := pod.containers[i];
      if c.name in usages {
        KeepLimitsKeepsLimits(c, usages[c.name], spec);
      }
      assert Get(u[i].lim, CPU) == Get(c.lim, CPU) && Get(u[i].lim, Memory) == Get(c.lim, Memory);
    }
    if c :| c in u && HasRoom(c, spec) {
      var i :| 0 <= i < |u| && u[i] == c;
      assert pod.containers[i] in pod.containers;
    }
    if c :| c in pod.containers && HasRoom(c, spec) {
      var i :| 0 <= i < |u| && pod.containers[i] == c;
      assert u[i] in u;
    }
  }

  // ----- Guaranteed pods whose limits follow -----

  predicate InBounds(v: int, least: Option<int>, most: Option<int>) {
    !(least.Some? && v < least.value) && !(most.Some? && v > most.value)
  }

  /** Every resource that is bounded but not managed already lies in its bounds. */
  predicate UnmanagedInBounds(c: Container, spec: Spec) {
    && (!spec.manageCPU ==> InBounds(Amount(c.req, CPU), spec.bounds.cpuMin, spec.bounds.cpuMax))
    && (!spec.manageMemory ==> InBounds(Amount(c.req, Memory), spec.bounds.memoryMin, spec.bounds.memoryMax))
  }

  lemma FollowingContainer(c: Container, usages: map<string, ResourceList>, spec: Spec)
    requires FullyReserved(c)
    ensures FullyReserved(Stepped(c, usages, spec, LimitsFollowRequests))
            <==> c.name !in usages || UnmanagedInBounds(c, spec)
  {
  }

  // ----- the theorems -----

  /** A successful evaluation keeps the class of the pod; it changes something only for a Burstable pod, or for
      a Guaranteed one when limits follow requests. A failed one changes nothing. */
  lemma ClassIsKept(pod: Pod, metrics: PodMetrics, spec: Spec)
    ensures var (r, e) := Plan(Some(pod), Some(metrics), spec);
            && (e.NoError? ==> r.desired.Some? && QoS(r.desired.value) == QoS(pod))
            && (e.NoError? && !r.changed ==> r.desired == Some(pod))
            && (r.changed ==> e.NoError? && (QoS(pod) == Burstable
                              || (QoS(pod) == Guaranteed && spec.limitsMode == EqualRequests)))
            && (!e.NoError? ==> !r.changed && r.delta == ZERO_DELTA && r.desired in {None, Some(pod)})
  {
    var usages := Usages(metrics);
    if (spec.manageCPU || spec.manageMemory) && ModeFor(pod, spec).Some? {
      var mode := ModeFor(pod, spec).value;
      if !AnyMoves(pod, usages, spec, mode) {
        UnmovedPod(pod, usages, spec, mode);
      } else if mode == KeepLimits && QoS(pod) != Burstable {
        MovingChangesClass(pod, usages, spec);
      }
    }
  }

  /** When an evaluation is refused because of the class, for each class: a pod that is not Burstable and keeps its
      limits whenever something would change; a Guaranteed pod whose limits follow whenever an unmanaged resource of
      a measured container is outside its bounds; a Burstable pod whenever it would turn Guaranteed and no container
      leaves room. */
  lemma RefusalExact(pod: Pod, metrics: PodMetrics, spec: Spec)
    requires (spec.manageCPU || spec.manageMemory) && ModeFor(pod, spec).Some?
    ensures var usages, mode := Usages(metrics), ModeFor(pod, spec).value;
            var refused := !Plan(Some(pod), Some(metrics), spec).1.NoError?;
            match QoS(pod)
            case BestEffort => refused <==> AnyMoves(pod, usages, spec, mode)
            case Guaranteed =>
              if mode == KeepLimits then refused <==> AnyMoves(pod, usages, spec, mode)
              else refused <==> exists c | c in pod.containers :: c.name in usages && !UnmanagedInBounds(c, spec)
            case Burstable =>
              refused <==> QoS(Unadjusted(pod, usages, spec, mode)) == Guaranteed
                           && forall c | c in pod.containers :: !HasRoom(c, spec)
  {
    var usages, mode := Usages(metrics), ModeFor(pod, spec).value;
    if !AnyMoves(pod, usages, spec, mode) {
      UnmovedPod(pod, usages, spec, mode);
    }
    if QoS(pod) == Burstable {
      NeverBecomesBestEffort(pod, usages, spec, mode);
      if QoS(Unadjusted(pod, usages, spec, mode)) == Guaranteed {
        RepairExact(pod, usages, spec);
      }
    } else if mode == KeepLimits {
      if AnyMoves(pod, usages, spec, mode) {
        MovingChangesClass(pod, usages, spec);
      }
    } else {
      FollowingPod(pod, usages, spec);
    }
  }

  /** Every container of a Guaranteed pod stays fully reserved exactly when the unmanaged bounds hold. */
  lemma FollowingClass(pod: Pod, usages: map<string, ResourceList>, spec: Spec)
    requires QoS(pod) == Guaranteed
    ensures QoS(Unadjusted(pod, usages, spec, LimitsFollowRequests)) == Guaranteed
            <==> forall c | c in pod.containers :: FullyReserved(Stepped(c, usages, spec, LimitsFollowRequests))
  {
  }

  lemma FollowingPod(pod: Pod, usages: map<string, ResourceList>, spec: Spec)
    requires QoS(pod) == Guaranteed
    ensures Evaluate(pod, usages, spec, LimitsFollowRequests).1.NoError?
            <==> forall c | c in pod.containers :: c.name !in usages || UnmanagedInBounds(c, spec)
  {
    forall c | c in pod.containers
      ensures FullyReserved(Stepped(c, usages, spec, LimitsFollowRequests))
              <==> c.name !in usages || UnmanagedInBounds(c, spec)
    {
      assert c in pod.All();
      FollowingContainer(c, usages, spec);
    }
    FollowingClass(pod, usages, spec);
    if !AnyMoves(pod, usages, spec, LimitsFollowRequests) {
      UnmovedPod(pod, usages, spec, LimitsFollowRequests);
    }
  }
}
