/** The sums of a run on 64-bit integers: the delta of a pod and the budget. */
module MachineSums {
  import opened Rounding
  import opened MachineArithmetic
  import opened Resources
  import opened PolicySpec
  import opened Budget
  import opened WorkerPool
  import opened PoolInvariant
  import opened PoolTheorems
  import opened BudgetCap

  predicate Below(x: int, most: int) { -most <= x <= most }

  // ----- the delta of a pod -----

  function WrapDelta(d: Delta): Delta { Delta(Wrap(d.cpu), Wrap(d.memory)) }

  /** The loop over the new containers, every sum and difference wrapping. */
  function DeltaByName64(was: map<string, ResourceList>, cs: seq<Container>, n: nat): Delta
    requires n <= |cs|
  {
    if n == 0 then ZERO_DELTA
    else
      var c := cs[n - 1];
      var old_ := if c.name in was then was[c.name] else map[];
      WrapDelta(DeltaByName64(was, cs, n - 1).Plus(WrapDelta(Requested(c.req).Minus(Requested(old_)))))
  }

  /** CPU and memory requests between zero and a largest amount. */
  ghost predicate RequestsUpTo(rl: ResourceList, most: int) {
    0 <= Amount(rl, CPU) <= most && 0 <= Amount(rl, Memory) <= most
  }

  /** With requests up to `most` the delta of n containers fits whenever n * most does, and no sum on the way wraps. */
  lemma {:induction false} DeltaFits(was: map<string, ResourceList>, cs: seq<Container>, n: nat, most: int)
    requires n <= |cs| && 0 <= most < TWO_63 && n * most < TWO_63
    requires forall name | name in was :: RequestsUpTo(was[name], most)
    requires forall i | 0 <= i < n :: RequestsUpTo(cs[i].req, most)
    ensures DeltaByName64(was, cs, n) == DeltaByName(was, cs, n)
    ensures Below(DeltaByName(was, cs, n).cpu, n * most) && Below(DeltaByName(was, cs, n).memory, n * most)
  {
    if n == 0 {
    } else {
      assert n * most == (n - 1) * most + most;
      DeltaFits(was, cs, n - 1, most);
      var c := cs[n - 1];
      var old_ := if c.name in was then was[c.name] else map[];
      assert RequestsUpTo(old_, most);
      var change, sum := Requested(c.req).Minus(Requested(old_)), DeltaByName(was, cs, n);
      WrapIsIdentity(change.cpu);
      WrapIsIdentity(change.memory);
      WrapIsIdentity(sum.cpu);
      WrapIsIdentity(sum.memory);
    }
  }

  // ----- the budget of a run -----

  /** The admission test with both sums wrapping. */
  predicate Admits64(l: Ledger, add: Delta) {
    && (l.maxCPU > 0 ==> Wrap(Wrap(l.committed.cpu + l.reserved.cpu) + add.cpu) <= l.maxCPU)
    && (l.maxMem > 0 ==> Wrap(Wrap(l.committed.memory + l.reserved.memory) + add.memory) <= l.maxMem)
  }

  /** No proposal moves a resource by more than `most`. */
  ghost predicate ProposalsBelow(cfg: Config, most: int) {
    most >= 0 && forall c | 0 <= c < |cfg.candidates| ::
                   Below(DeltaOf(cfg, c).cpu, most) && Below(DeltaOf(cfg, c).memory, most)
  }

  lemma {:induction false} TotalBelow(cfg: Config, applied: seq<nat>, most: int)
    requires ProposalsBelow(cfg, most)
    ensures Below(Total(cfg, applied).cpu, |applied| * most) && Below(Total(cfg, applied).memory, |applied| * most)
  {
    if applied == [] {
    } else {
      TotalBelow(cfg, applied[..|applied| - 1], most);
      assert |applied| * most == (|applied| - 1) * most + most;
    }
  }

  lemma HeldBelow(cfg: Config, p: Worker, most: int)
    requires CarriesProposal(cfg, p) && ProposalsBelow(cfg, most)
    ensures Below(HeldCpu(p), HoldsBudget(p) * most) && Below(HeldMem(p), HoldsBudget(p) * most)
  {
    assert CarriesDelta(p) ==> DeltaOf(cfg, p.cand) == CarriedDelta(p);
  }

  lemma {:induction false} ReservedBelow(cfg: Config, ws: seq<Worker>, most: int)
    requires ProposalsBelow(cfg, most) && forall i | 0 <= i < |ws| :: CarriesProposal(cfg, ws[i])
    ensures Below(Sum(ws, HeldCpu), Sum(ws, HoldsBudget) * most) && Below(Sum(ws, HeldMem), Sum(ws, HoldsBudget) * most)
  {
    if ws == [] {
    } else {
      ReservedBelow(cfg, ws[1..], most);
      HeldBelow(cfg, ws[0], most);
      assert Sum(ws, HoldsBudget) * most == HoldsBudget(ws[0]) * most + Sum(ws[1..], HoldsBudget) * most;
    }
  }

  /** What is committed and reserved, separately and together, never moves by more than the allowed resizes can. */
  lemma LedgerBelow(cfg: Config, s: Pool, most: int)
    requires Inv(cfg, s) && ProposalsBelow(cfg, most)
    ensures var l := s.shared.ledger;
            && Below(l.committed.cpu + l.reserved.cpu, cfg.maxPods * most)
            && Below(l.committed.memory + l.reserved.memory, cfg.maxPods * most)
  {
    var applied, held := |s.history.applied|, Sum(s.workers, HoldsBudget);
    TotalBelow(cfg, s.history.applied, most);
    ReservedBelow(cfg, s.workers, most);
    ReservationsHaveTokens(s.workers);
    BothBelow(s.shared.ledger.committed.cpu, s.shared.ledger.reserved.cpu, applied, held, cfg.maxPods, most);
    BothBelow(s.shared.ledger.committed.memory, s.shared.ledger.reserved.memory, applied, held, cfg.maxPods, most);
  }

  lemma BothBelow(x: int, y: int, a: nat, b: nat, n: int, most: int)
    requires Below(x, a * most) && Below(y, b * most) && a + b <= n && most >= 0
    ensures Below(x + y, n * most)
  {
    MulMonotone(a + b, n, most);
    assert a * most + b * most == (a + b) * most;
  }

  lemma ReachableBelow(cfg: Config, acts: seq<Action>, s: Pool, most: int)
    requires Reaches(cfg, acts, s) && ProposalsBelow(cfg, most)
    ensures var l := s.shared.ledger;
            && Below(l.committed.cpu + l.reserved.cpu, cfg.maxPods * most)
            && Below(l.committed.memory + l.reserved.memory, cfg.maxPods * most)
  {
    ReachableInv(cfg, acts, s);
    LedgerBelow(cfg, s, most);
  }

  /** While one more resize than a run allows fits, the admission test of every reachable state is the ideal one. */
  lemma AdmissionFits(cfg: Config, acts: seq<Action>, s: Pool, cand: nat, most: int)
    requires Reaches(cfg, acts, s) && ProposalsBelow(cfg, most) && cand < |cfg.candidates|
    requires (cfg.maxPods + 1) * most < TWO_63
    ensures Admits64(s.shared.ledger, DeltaOf(cfg, cand)) == s.shared.ledger.Admits(DeltaOf(cfg, cand))
  {
    ReachableBelow(cfg, acts, s, most);
    assert (cfg.maxPods + 1) * most == cfg.maxPods * most + most;
    AdmitsAgrees(s.shared.ledger, DeltaOf(cfg, cand), cfg.maxPods * most, most);
  }

  lemma AdmitsAgrees(l: Ledger, d: Delta, sum: int, most: int)
    requires sum + most < TWO_63 && sum >= 0 && most >= 0 && Below(d.cpu, most) && Below(d.memory, most)
    requires Below(l.committed.cpu + l.reserved.cpu, sum) && Below(l.committed.memory + l.reserved.memory, sum)
    ensures Admits64(l, d) == l.Admits(d)
  {
    WrapIsIdentity(l.committed.cpu + l.reserved.cpu);
    WrapIsIdentity(l.committed.memory + l.reserved.memory);
    WrapIsIdentity(l.committed.cpu + l.reserved.cpu + d.cpu);
    WrapIsIdentity(l.committed.memory + l.reserved.memory + d.memory);
  }
}
