/** Pods, containers and resource lists, and the quality-of-service class of a pod. */
module Resources {
  import opened Wrappers

  datatype ResourceName = CPU | Memory | Other(id: string)

  /** CPU quantities count milli-cores, every other quantity its own unit (bytes for memory).
      A missing entry and a zero entry are different lists. */
  type ResourceList = map<ResourceName, int>

  datatype Container = Container(name: string, req: ResourceList, lim: ResourceList)

  datatype Pod = Pod(initContainers: seq<Container>, containers: seq<Container>) {
    function All(): seq<Container> {
      initContainers + containers
    }
  }

  /** A change of requests: milli-cores and bytes. */
  datatype Delta = Delta(cpu: int, memory: int) {
    function Plus(that: Delta): Delta {
      Delta(cpu + that.cpu, memory + that.memory)
    }

    function Minus(that: Delta): Delta {
      Delta(cpu - that.cpu, memory - that.memory)
    }

    function Times(n: int): Delta {
      Delta(cpu * n, memory * n)
    }

    function Of(name: ResourceName): int {
      if name == CPU then cpu else memory
    }
  }

  const ZERO_DELTA := Delta(0, 0)

  datatype QoSClass = Guaranteed | Burstable | BestEffort

  /** The other one of CPU and memory. */
  function OtherOf(name: ResourceName): ResourceName { if name == CPU then Memory else CPU }

  function Get(rl: ResourceList, name: ResourceName): Option<int> {
    if name in rl then Some(rl[name]) else None
  }

  /** What the policy reads from a list: a missing entry counts as zero. */
  function Amount(rl: ResourceList, name: ResourceName): int {
    if name in rl then rl[name] else 0
  }

  function Put(rl: ResourceList, name: ResourceName, q: Option<int>): ResourceList {
    match q
    case None => rl
    case Some(v) => rl[name := v]
  }

  // ----- equality of resource lists -----

  /** Equality up to the difference between a missing and a zero entry. */
  ghost predicate SameAmounts(a: ResourceList, b: ResourceList) {
    forall k :: Amount(a, k) == Amount(b, k)
  }

  method ResourceListEqual(a: ResourceList, b: ResourceList) returns (equal: bool)
    ensures equal <==> SameAmounts(a, b)
    ensures equal <==> forall k :: (if k in a then a[k] else 0) == if k in b then b[k] else 0
  {
    equal := Covers(a, b);
    if equal {
      equal := Covers(b, a);
    }
  }

  /** One of the two symmetric loops of the comparison. */
  method Covers(a: ResourceList, b: ResourceList) returns (covered: bool)
    ensures covered <==> forall k | k in a :: Amount(a, k) == Amount(b, k)
  {
    var todo := a.Keys;
    while todo != {}
      invariant todo <= a.Keys
      invariant forall k | k in a.Keys - todo :: Amount(a, k) == Amount(b, k)
      decreases todo
    {
      var k :| k in todo;
      if k !in b {
        if a[k] != 0 {
          assert Amount(a, k) != Amount(b, k);
          return false;
        }
      } else if a[k] != b[k] {
        assert Amount(a, k) != Amount(b, k);
        return false;
      }
      todo := todo - {k};
    }
    return true;
  }

  // ----- quality of service -----

  /** Neither CPU nor memory appears in the container. */
  predicate Unspecified(c: Container) {
    CPU !in c.req && Memory !in c.req && CPU !in c.lim && Memory !in c.lim
  }

  /** CPU and memory are both requested and limited, at the same amounts. */
  predicate FullyReserved(c: Container) {
    && CPU in c.req && CPU in c.lim && c.req[CPU] == c.lim[CPU]
    && Memory in c.req && Memory in c.lim && c.req[Memory] == c.lim[Memory]
  }

  function ClassOf(cs: seq<Container>): QoSClass {
    if forall c | c in cs :: FullyReserved(c) then Guaranteed
    else if forall c | c in cs :: Unspecified(c) then BestEffort
    else Burstable
  }

  function QoS(pod: Pod): QoSClass {
    ClassOf(pod.All())
  }

  method PodQoSClass(pod: Option<Pod>) returns (class_: QoSClass)
    ensures class_ == match pod case None => BestEffort case Some(p) => QoS(p)
    ensures class_ == Guaranteed <==>
            pod.Some? && forall c | c in pod.value.initContainers + pod.value.containers ::
              && CPU in c.req && CPU in c.lim && Memory in c.req && Memory in c.lim
              && c.req[CPU] == c.lim[CPU] && c.req[Memory] == c.lim[Memory]
    ensures class_ == BestEffort <==>
            class_ != Guaranteed && (pod.Some? ==> forall c | c in pod.value.initContainers + pod.value.containers ::
              CPU !in c.req && CPU !in c.lim && Memory !in c.req && Memory !in c.lim)
  {
    if pod.None? {
      return BestEffort;
    }
    var containers := pod.value.initContainers + pod.value.containers;
    var bestEffort, guaranteed := true, true;
    for i := 0 to |containers|
      invariant bestEffort <==> forall c | c in containers[..i] :: Unspecified(c)
      invariant guaranteed <==> forall c | c in containers[..i] :: FullyReserved(c)
    {
      var c := containers[i];
      assert containers[..i + 1] == containers[..i] + [c];
      assert c in containers[..i + 1];
      if CPU in c.req || Memory in c.req || CPU in c.lim || Memory in c.lim {
        bestEffort := false;
      }
      if CPU !in c.req || Memory !in c.req || CPU !in c.lim || Memory !in c.lim {
        guaranteed := false;
        continue;
      }
      if c.req[CPU] != c.lim[CPU] || c.req[Memory] != c.lim[Memory] {
        guaranteed := false;
      }
    }
    assert containers[..|containers|] == containers;
    class_ := if guaranteed then Guaranteed else if bestEffort then BestEffort else Burstable;
  }
}
