/** What the policy asks of a container: its two resources by themselves, by the last metrics listed for its name. */
module ContainerMeaning {
  import opened Resources
  import opened PolicySpec
  import opened Policy
  import opened PolicyMeaning

  // ----- containers -----

  ghost predicate EndsIn(c: Container, usage: ResourceList, spec: Spec, follow: bool, name: ResourceName,
                         d: Container)
  {
    Ends(Get(c.req, name), Get(c.lim, name), Amount(usage, name), spec, name, follow,
         Get(d.req, name), Get(d.lim, name))
  }

  /** What a container with metrics is to become; every other resource stays. */
  ghost predicate Becomes(c: Container, usage: ResourceList, spec: Spec, follow: bool, d: Container) {
    && d.name == c.name && SameElsewhere(d.req, c.req) && SameElsewhere(d.lim, c.lim)
    && EndsIn(c, usage, spec, follow, CPU, d) && EndsIn(c, usage, spec, follow, Memory, d)
  }

  lemma EndsInRefit(c: Container, usage: ResourceList, spec: Spec, follow: bool, name: ResourceName, d: Container)
    requires name in {CPU, Memory}
    ensures var r := Refit(c, usage, spec, Mode(follow));
            EndsIn(c, usage, spec, follow, name, d) <==>
            Get(d.req, name) == Get(r.req, name) && Get(d.lim, name) == Get(r.lim, name)
  {
    RefitLists(c, usage, spec, Mode(follow));
    EndsExact(Get(c.req, name), Get(c.lim, name), Amount(usage, name), spec, name, follow,
              Get(d.req, name), Get(d.lim, name));
  }

  lemma BecomesExact(c: Container, usage: ResourceList, spec: Spec, follow: bool, d: Container)
    ensures Becomes(c, usage, spec, follow, d) <==> d == Refit(c, usage, spec, Mode(follow))
  {
    var r := Refit(c, usage, spec, Mode(follow));
    RefitLists(c, usage, spec, Mode(follow));
    EndsInRefit(c, usage, spec, follow, CPU, d);
    EndsInRefit(c, usage, spec, follow, Memory, d);
    if Becomes(c, usage, spec, follow, d) {
      SameLists(d.req, r.req);
      SameLists(d.lim, r.lim);
    }
  }

  // ----- metrics -----

  predicate Unmeasured(metrics: PodMetrics, name: string) {
    forall k | 0 <= k < |metrics.containers| :: metrics.containers[k].name != name
  }

  /** The last entry for a container name is the one that counts. */
  predicate IsUsage(metrics: PodMetrics, name: string, usage: ResourceList) {
    exists k | 0 <= k < |metrics.containers| ::
      && metrics.containers[k] == ContainerMetrics(name, usage)
      && forall j | k < j < |metrics.containers| :: metrics.containers[j].name != name
  }

  lemma {:induction false} UsagesUpTo(ms: seq<ContainerMetrics>, n: nat, name: string)
    requires n <= |ms|
    ensures name in UsageByContainer(ms, n) <==> exists k | 0 <= k < n :: ms[k].name == name
    ensures name in UsageByContainer(ms, n) ==>
              exists k | 0 <= k < n :: ms[k] == ContainerMetrics(name, UsageByContainer(ms, n)[name])
                                       && forall j | k < j < n :: ms[j].name != name
  {
    if n == 0 {
    } else {
      UsagesUpTo(ms, n - 1, name);
      if ms[n - 1].name == name {
        assert ms[n - 1] == ContainerMetrics(name, UsageByContainer(ms, n)[name]);
      }
    }
  }

  /** The map of usages holds the last entry for every name. */
  lemma UsagesAreLast(metrics: PodMetrics, name: string)
    ensures name !in Usages(metrics) <==> Unmeasured(metrics, name)
    ensures forall usage ::
              IsUsage(metrics, name, usage) <==> name in Usages(metrics) && usage == Usages(metrics)[name]
  {
    UsagesUpTo(metrics.containers, |metrics.containers|, name);
  }

  /** A container without metrics, or whose amounts would not change, stays as it is. */
  ghost predicate Treated(c: Container, metrics: PodMetrics, spec: Spec, follow: bool, d: Container) {
    if Unmeasured(metrics, c.name) then d == c
    else exists usage, e :: IsUsage(metrics, c.name, usage) && Becomes(c, usage, spec, follow, e)
                            && d == if Differs(c, e) then e else c
  }

  lemma TreatedExact(c: Container, metrics: PodMetrics, spec: Spec, follow: bool, d: Container)
    ensures Treated(c, metrics, spec, follow, d) <==> d == Stepped(c, Usages(metrics), spec, Mode(follow))
  {
    UsagesAreLast(metrics, c.name);
    if !Unmeasured(metrics, c.name) {
      var usage := Usages(metrics)[c.name];
      BecomesExact(c, usage, spec, follow, Refit(c, usage, spec, Mode(follow)));
      assert IsUsage(metrics, c.name, usage);
      if Treated(c, metrics, spec, follow, d) {
        var u, e :| IsUsage(metrics, c.name, u) && Becomes(c, u, spec, follow, e)
                    && d == if Differs(c, e) then e else c;
        BecomesExact(c, u, spec, follow, e);
      }
    }
  }
}
