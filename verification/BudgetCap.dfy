/** When the configured maximum of a run is a hard cap on what it commits: exactly when a single worker runs. */
module BudgetCap {
  import opened Resources
  import opened Rounding
  import opened Budget
  import opened WorkerPool
  import opened PoolInvariant
  import opened PoolTheorems

  // ----- a single worker -----

  lemma SoleWorkerHolds(cfg: Config, s: Pool)
    requires LedgerConserved(cfg, s) && |s.workers| == 1
    ensures s.shared.ledger.reserved == HeldDelta(s.workers[0])
  {
    assert Sum(s.workers[1..], HeldCpu) == 0 && Sum(s.workers[1..], HeldMem) == 0;
  }

  lemma SoleWorkerStep(cfg: Config, s: Pool, a: Action)
    requires Inv(cfg, s) && cfg.workers == 1 && Enabled(cfg, s, a)
    requires HoldsAll(s.shared.ledger)
    ensures HoldsAll(Apply(cfg, s, a).shared.ledger)
  {
    if a.Work? {
      SoleWorkerHolds(cfg, s);
      ProgramBalance(cfg, s.shared, s.workers[0], a.gateOpen, a.result);
      ProgramReleasesAll(cfg, s.shared, s.workers[0], a.gateOpen, a.result);
      var op := Step(cfg, s, a).1;
      SettlingStaysWithin(s.shared, op);
    }
  }

  /** Reserving what is admitted, and settling the whole reservation, keeps the ledger within its maxima. */
  lemma SettlingStaysWithin(sh: Shared, op: Op)
    requires HoldsAll(sh.ledger)
    requires op.Reserve? ==> sh.ledger.Admits(op.delta)
    requires op.Release? || op.Commit? ==> op.delta == sh.ledger.reserved
    ensures HoldsAll(Perform(sh, op).ledger)
  {
  }

  lemma ProgramReleasesAll(cfg: Config, sh: Shared, p: Worker, gateOpen: bool, result: ApiResult)
    ensures var op := Program(cfg, sh, p, gateOpen, result).1;
            op.Release? || op.Commit? ==> op.delta == HeldDelta(p)
  {
  }

  lemma {:induction false} SoleWorkerAlongRun(cfg: Config, s: Pool, acts: seq<Action>)
    requires Inv(cfg, s) && cfg.workers == 1 && CanRun(cfg, s, acts)
    requires HoldsAll(s.shared.ledger)
    ensures HoldsAll(Run(cfg, s, acts).shared.ledger)
    decreases |acts|
  {
    if acts == [] {
    } else {
      SoleWorkerStep(cfg, s, acts[0]);
      InvKept(cfg, s, acts[0]);
      SoleWorkerAlongRun(cfg, Apply(cfg, s, acts[0]), acts[1..]);
    }
  }

  /** With a single worker the maxima are never exceeded. */
  lemma SoleWorkerNeverExceeds(cfg: Config, acts: seq<Action>, s: Pool)
    requires Reaches(cfg, acts, s) && cfg.workers == 1
    ensures HoldsAll(s.shared.ledger)
  {
    InvAtStart(cfg);
    SoleWorkerAlongRun(cfg, Start(cfg), acts);
  }

  lemma NoMaximumHolds(cfg: Config, acts: seq<Action>, s: Pool, name: ResourceName)
    requires Reaches(cfg, acts, s) && MaxOf(cfg.maxCPU, cfg.maxMem, name) <= 0
    ensures Holds(s.shared.ledger, name)
  {
    ReachableInv(cfg, acts, s);
  }

  // ----- two workers -----

  ghost predicate Leads(cfg: Config, s: Pool, acts: seq<Action>, t: Pool) {
    CanRun(cfg, s, acts) && Run(cfg, s, acts) == t
  }

  lemma LeadsByOne(cfg: Config, s: Pool, a: Action)
    requires Enabled(cfg, s, a)
    ensures Leads(cfg, s, [a], Apply(cfg, s, a))
  {
  }

  lemma {:induction false} LeadsOn(cfg: Config, s: Pool, acts: seq<Action>, t: Pool, more: seq<Action>, u: Pool)
    requires Leads(cfg, s, acts, t) && Leads(cfg, t, more, u)
    ensures Leads(cfg, s, acts + more, u)
    decreases |acts|
  {
    if acts == [] {
      assert acts + more == more;
    } else {
      assert (acts + more)[1..] == acts[1..] + more;
      LeadsOn(cfg, Apply(cfg, s, acts[0]), acts[1..], t, more, u);
    }
  }

  /** One worker step, given its outcome. */
  lemma LeadsByWork(cfg: Config, s: Pool, acts: seq<Action>, t: Pool, w: nat, result: ApiResult, q: Worker,
      op: Op) returns (more: seq<Action>, u: Pool)
    requires Leads(cfg, s, acts, t) && w < |t.workers| && !t.workers[w].Idle? && !t.workers[w].Exited?
        && !t.workers[w].Returning?
    requires Program(cfg, t.shared, t.workers[w], true, result) == (q, op)
    ensures u == After(t, w, q, op) && Leads(cfg, s, more, u)
  {
    var a := Work(w, true, result);
    u := Apply(cfg, t, a);
    LeadsByOne(cfg, t, a);
    LeadsOn(cfg, s, acts, t, [a], u);
    more := acts + [a];
  }

  /** A worker that has received a candidate can go on to reserve its delta. */
  lemma LeadsToReserved(cfg: Config, s: Pool, acts0: seq<Action>, t: Pool, w: nat, c: nat, d: Delta)
      returns (acts: seq<Action>, u: Pool)
    requires Leads(cfg, s, acts0, t) && w < |t.workers| && t.workers[w] == Received(c)
    requires !t.shared.cancelled && t.shared.slots > 0 && VerdictOf(cfg, c) == Proposed(d) && t.shared.ledger.Admits(d)
    ensures Leads(cfg, s, acts, u)
    ensures u.workers == t.workers[w := Reserved(c, d)]
    ensures u.shared == t.shared.(slots := t.shared.slots - 1, ledger := t.shared.ledger.Reserve(d))
  {
    acts, u := LeadsByWork(cfg, s, acts0, t, w, Succeeds, Entered(c), Local);
    acts, u := LeadsByWork(cfg, s, acts, u, w, Succeeds, AtSlots(c), Local);
    acts, u := LeadsByWork(cfg, s, acts, u, w, Succeeds, Evaluating(c), TakeToken);
    acts, u := LeadsByWork(cfg, s, acts, u, w, Succeeds, Reserving(c, d), Local);
    acts, u := LeadsByWork(cfg, s, acts, u, w, Succeeds, Reserved(c, d), Reserve(d));
  }

  /** It can go on to commit, when the capability is there and the API accepts. */
  lemma LeadsToCommitted(cfg: Config, s: Pool, acts0: seq<Action>, t: Pool, w: nat, c: nat, d: Delta)
      returns (acts: seq<Action>, u: Pool)
    requires Leads(cfg, s, acts0, t) && w < |t.workers| && t.workers[w] == Reserved(c, d) && cfg.capabilitySupported
    ensures Leads(cfg, s, acts, u)
    ensures u.workers == t.workers[w := Recording(c, d)]
    ensures u.shared == t.shared.(ledger := t.shared.ledger.Commit(d))
  {
    acts, u := LeadsByWork(cfg, s, acts0, t, w, Succeeds, Applying(c, d), Local);
    acts, u := LeadsByWork(cfg, s, acts, u, w, Succeeds, Accepted(c, d), Local);
    acts, u := LeadsByWork(cfg, s, acts, u, w, Succeeds, Recording(c, d), Commit(c, d));
  }

  /** Or to release, when the API fails. */
  lemma LeadsToReleased(cfg: Config, s: Pool, acts0: seq<Action>, t: Pool, w: nat, c: nat, d: Delta)
      returns (acts: seq<Action>, u: Pool)
    requires Leads(cfg, s, acts0, t) && w < |t.workers| && t.workers[w] == Reserved(c, d) && cfg.capabilitySupported
    ensures Leads(cfg, s, acts, u)
    ensures u.shared.ledger == t.shared.ledger.Release(d)
  {
    acts, u := LeadsByWork(cfg, s, acts0, t, w, Fails, Applying(c, d), Local);
    acts, u := LeadsByWork(cfg, s, acts, u, w, Fails, Counting(c, ApplyFailed, TokenAndBudget(d), GoOn), Local);
    acts, u := LeadsByWork(cfg, s, acts, u, w, Fails, Releasing(c, d), Tick(c, ApplyFailed));
    acts, u := LeadsByWork(cfg, s, acts, u, w, Fails, Returning(c), Release(d));
  }

  /** The producer hands the next candidate to an idle worker. */
  lemma LeadsToReceived(cfg: Config, s: Pool, acts: seq<Action>, t: Pool, w: nat) returns (more: seq<Action>, u: Pool)
    requires Leads(cfg, s, acts, t) && w < |t.workers| && t.workers[w].Idle?
    requires !t.shared.closed && t.shared.next < |cfg.candidates|
    ensures Leads(cfg, s, more, u)
    ensures u.workers == t.workers[w := Received(t.shared.next)]
    ensures u.shared == t.shared.(next := t.shared.next + 1)
  {
    u := Apply(cfg, t, Send(w));
    LeadsByOne(cfg, t, Send(w));
    LeadsOn(cfg, s, acts, t, [Send(w)], u);
    more := acts + [Send(w)];
  }

  /** After a commit, the counters and the annotation patch are left before the worker is idle again. */
  lemma LeadsToIdle(cfg: Config, s: Pool, acts0: seq<Action>, t: Pool, w: nat, c: nat, d: Delta)
      returns (acts: seq<Action>, u: Pool)
    requires Leads(cfg, s, acts0, t) && w < |t.workers| && t.workers[w] == Recording(c, d)
    ensures Leads(cfg, s, acts, u)
    ensures u.workers == t.workers[w := Idle]
    ensures u.shared == t.shared.(counters := u.shared.counters, aggregates := u.shared.aggregates)
  {
    var ns := NamespaceOf(cfg, c);
    acts, u := LeadsByWork(cfg, s, acts0, t, w, Succeeds, Annotating(c), Record(c, ns, d));
    acts, u := LeadsByWork(cfg, s, acts, u, w, Succeeds, Idle, Local);
  }

  /** An idle worker takes the next candidate and commits it. */
  lemma LeadsThroughCandidate(cfg: Config, s: Pool, acts0: seq<Action>, t: Pool, w: nat, d: Delta)
      returns (acts: seq<Action>, u: Pool)
    requires Leads(cfg, s, acts0, t) && w < |t.workers| && t.workers[w].Idle? && cfg.capabilitySupported
    requires !t.shared.closed && !t.shared.cancelled && t.shared.next < |cfg.candidates| && t.shared.slots > 0
    requires VerdictOf(cfg, t.shared.next) == Proposed(d) && t.shared.ledger.Admits(d)
    ensures Leads(cfg, s, acts, u) && u.workers == t.workers
    ensures u.shared.next == t.shared.next + 1 && u.shared.slots == t.shared.slots - 1
    ensures !u.shared.cancelled && !u.shared.closed
    ensures u.shared.ledger == t.shared.ledger.Reserve(d).Commit(d)
  {
    var c := t.shared.next;
    acts, u := LeadsToReceived(cfg, s, acts0, t, w);
    acts, u := LeadsToReserved(cfg, s, acts, u, w, c, d);
    acts, u := LeadsToCommitted(cfg, s, acts, u, w, c, d);
    acts, u := LeadsToIdle(cfg, s, acts, u, w, c, d);
    assert u.workers == t.workers;
  }

  /** One candidate whose proposal falls, and n candidates whose proposal rises. */
  function Rivals(maxPods: nat, workers: nat, maxCPU: int, maxMem: int, fall: Delta, rise: Delta, n: nat): Config {
    Config(maxPods, workers, maxCPU, maxMem, true,
           [Candidate("", Proposed(fall))] + seq(n, i => Candidate("", Proposed(rise))))
  }

  /** With the fall out of the way, everything that rises is admitted. */
  predicate RoomFor(maxCPU: int, maxMem: int, fall: Delta, rise: Delta, n: nat) {
    forall j | 0 <= j <= n :: Ledger(ZERO_DELTA, ZERO_DELTA, maxCPU, maxMem).Admits(fall.Plus(rise.Times(j)))
  }

  /** The first worker holds the falling reservation, the second has committed j of the others. */
  ghost predicate Midway(cfg: Config, t: Pool, fall: Delta, rise: Delta, j: nat) {
    && |t.workers| == cfg.workers >= 2 && t.workers[0] == Reserved(0, fall) && t.workers[1] == Idle
    && t.shared.slots == cfg.maxPods - 1 - j && t.shared.next == 1 + j && !t.shared.cancelled && !t.shared.closed
    && t.shared.ledger == Ledger(rise.Times(j), fall, cfg.maxCPU, cfg.maxMem)
  }

  lemma MidwayStart(cfg: Config, fall: Delta, rise: Delta, n: nat) returns (acts: seq<Action>, s: Pool)
    requires cfg == Rivals(cfg.maxPods, cfg.workers, cfg.maxCPU, cfg.maxMem, fall, rise, n)
    requires 2 <= cfg.workers <= cfg.maxPods && RoomFor(cfg.maxCPU, cfg.maxMem, fall, rise, n)
    ensures Leads(cfg, Start(cfg), acts, s) && Midway(cfg, s, fall, rise, 0)
  {
    var start := Start(cfg);
    assert fall.Plus(rise.Times(0)) == fall && rise.Times(0) == ZERO_DELTA;
    acts, s := LeadsToReceived(cfg, start, [], start, 0);
    acts, s := LeadsToReserved(cfg, start, acts, s, 0, 0, fall);
  }

  lemma MidwayNext(cfg: Config, fall: Delta, rise: Delta, n: nat, j: nat, acts0: seq<Action>, t: Pool)
      returns (acts: seq<Action>, s: Pool)
    requires cfg == Rivals(cfg.maxPods, cfg.workers, cfg.maxCPU, cfg.maxMem, fall, rise, n)
    requires j < n < cfg.maxPods && RoomFor(cfg.maxCPU, cfg.maxMem, fall, rise, n)
    requires Leads(cfg, Start(cfg), acts0, t) && Midway(cfg, t, fall, rise, j)
    ensures Leads(cfg, Start(cfg), acts, s) && Midway(cfg, s, fall, rise, j + 1)
  {
    assert rise.Times(j).Plus(rise) == rise.Times(j + 1);
    assert Ledger(ZERO_DELTA, ZERO_DELTA, cfg.maxCPU, cfg.maxMem).Admits(fall.Plus(rise.Times(j + 1)));
    acts, s := LeadsThroughCandidate(cfg, Start(cfg), acts0, t, 1, rise);
  }

  lemma {:induction false} MidwayAt(cfg: Config, fall: Delta, rise: Delta, n: nat, j: nat)
      returns (acts: seq<Action>, s: Pool)
    requires cfg == Rivals(cfg.maxPods, cfg.workers, cfg.maxCPU, cfg.maxMem, fall, rise, n)
    requires 2 <= cfg.workers <= cfg.maxPods && j <= n < cfg.maxPods
    requires RoomFor(cfg.maxCPU, cfg.maxMem, fall, rise, n)
    ensures Leads(cfg, Start(cfg), acts, s) && Midway(cfg, s, fall, rise, j)
  {
    if j == 0 {
      acts, s := MidwayStart(cfg, fall, rise, n);
    } else {
      acts, s := MidwayAt(cfg, fall, rise, n, j - 1);
      acts, s := MidwayNext(cfg, fall, rise, n, j - 1, acts, s);
    }
  }

  /** With two workers, one reserves a decrease, the other uses the room and commits one candidate after the other, and
      the decrease is released: the committed budget ends where the increases put it, however far above the maximum. */
  lemma OvershootIsReachable(maxPods: nat, workers: nat, maxCPU: int, maxMem: int, fall: Delta, rise: Delta, n: nat)
    returns (acts: seq<Action>, s: Pool)
    requires 2 <= workers <= maxPods && n < maxPods && RoomFor(maxCPU, maxMem, fall, rise, n)
    ensures Reaches(Rivals(maxPods, workers, maxCPU, maxMem, fall, rise, n), acts, s)
    ensures s.shared.ledger == Ledger(rise.Times(n), ZERO_DELTA, maxCPU, maxMem)
  {
    var cfg := Rivals(maxPods, workers, maxCPU, maxMem, fall, rise, n);
    acts, s := MidwayAt(cfg, fall, rise, n, n);
    acts, s := LeadsToReleased(cfg, Start(cfg), acts, s, 0, 0, fall);
  }

  // ----- proposals too small to exceed the maximum -----

  /** The worker holds a reservation. */
  function HoldsBudget(p: Worker): int {
    match p
    case Reserved(_, _) | Applying(_, _) | Retrying(_, _) | Accepted(_, _) | Releasing(_, _) => 1
    case Counting(_, _, h, _) => if h.TokenAndBudget? then 1 else 0
    case Stopping(_, h, _) => if h.TokenAndBudget? then 1 else 0
    case _ => 0
  }

  lemma ProgramHolds(cfg: Config, sh: Shared, p: Worker, gateOpen: bool, result: ApiResult)
    ensures var (q, op) := Program(cfg, sh, p, gateOpen, result);
            HoldsBudget(q) - HoldsBudget(p) == if op.Reserve? then 1 else if op.Release? || op.Commit? then -1 else 0
  {
  }

  /** When applied candidates and reservations take up all tokens, the last of them was admitted against all others. */
  ghost predicate FullHolds(cfg: Config, s: Pool, name: ResourceName) {
    var l := s.shared.ledger;
    |s.history.applied| + Sum(s.workers, HoldsBudget) == cfg.maxPods && MaxOf(l.maxCPU, l.maxMem, name) > 0 ==>
      l.committed.Of(name) + l.reserved.Of(name) <= MaxOf(l.maxCPU, l.maxMem, name)
  }

  lemma {:induction false} ReservationsHaveTokens(ws: seq<Worker>)
    ensures 0 <= Sum(ws, HoldsBudget) <= Sum(ws, HoldsToken)
  {
    if ws == [] {
    } else {
      ReservationsHaveTokens(ws[1..]);
    }
  }

  lemma FullStep(cfg: Config, s: Pool, a: Action, name: ResourceName)
    requires TokensConserved(cfg, s) && FullHolds(cfg, s, name) && name in {CPU, Memory} && Enabled(cfg, s, a)
    ensures FullHolds(cfg, Apply(cfg, s, a), name)
  {
    if a.Send? {
      SumUpdate(s.workers, a.worker, Received(s.shared.next), HoldsBudget);
    } else if a.Work? {
      var (q, op) := Step(cfg, s, a);
      ProgramHolds(cfg, s.shared, s.workers[a.worker], a.gateOpen, a.result);
      ProgramBalance(cfg, s.shared, s.workers[a.worker], a.gateOpen, a.result);
      ReservationsHaveTokens(s.workers);
      FullAfter(cfg, s, a.worker, q, op, name);
    }
  }

  lemma FullAfter(cfg: Config, s: Pool, w: nat, q: Worker, op: Op, name: ResourceName)
    requires FullHolds(cfg, s, name) && w < |s.workers| && name in {CPU, Memory}
    requires |s.history.applied| + Sum(s.workers, HoldsBudget) <= cfg.maxPods
    requires HoldsBudget(q) - HoldsBudget(s.workers[w]) ==
             if op.Reserve? then 1 else if op.Release? || op.Commit? then -1 else 0
    requires op.Reserve? ==> s.shared.ledger.Admits(op.delta)
    ensures FullHolds(cfg, After(s, w, q, op), name)
  {
    SumUpdate(s.workers, w, q, HoldsBudget);
  }

  lemma {:induction false} FullAlongRun(cfg: Config, s: Pool, acts: seq<Action>, name: ResourceName)
    requires TokensConserved(cfg, s) && FullHolds(cfg, s, name) && name in {CPU, Memory} && CanRun(cfg, s, acts)
    ensures FullHolds(cfg, Run(cfg, s, acts), name)
    decreases |acts|
  {
    if acts == [] {
    } else {
      FullStep(cfg, s, acts[0], name);
      TokensKept(cfg, s, acts[0]);
      FullAlongRun(cfg, Apply(cfg, s, acts[0]), acts[1..], name);
    }
  }

  ghost predicate ProposalsUpTo(cfg: Config, name: ResourceName, most: int) {
    most >= 0 && forall c | 0 <= c < |cfg.candidates| :: DeltaOf(cfg, c).Of(name) <= most
  }

  lemma {:induction false} TotalUpTo(cfg: Config, applied: seq<nat>, name: ResourceName, most: int)
    requires ProposalsUpTo(cfg, name, most)
    ensures Total(cfg, applied).Of(name) <= |applied| * most
  {
    if applied == [] {
    } else {
      TotalUpTo(cfg, applied[..|applied| - 1], name, most);
      assert |applied| * most == (|applied| - 1) * most + most;
    }
  }

  lemma HeldUpTo(cfg: Config, p: Worker, name: ResourceName, most: int)
    requires CarriesProposal(cfg, p) && ProposalsUpTo(cfg, name, most)
    ensures HeldDelta(p).Of(name) <= HoldsBudget(p) * most
    ensures HoldsBudget(p) == 0 ==> HeldDelta(p) == ZERO_DELTA
  {
    assert CarriesDelta(p) ==> DeltaOf(cfg, p.cand) == CarriedDelta(p);
  }

  lemma {:induction false} ReservedUpTo(cfg: Config, ws: seq<Worker>, name: ResourceName, most: int)
    requires ProposalsUpTo(cfg, name, most) && name in {CPU, Memory}
    requires forall i | 0 <= i < |ws| :: CarriesProposal(cfg, ws[i])
    ensures Delta(Sum(ws, HeldCpu), Sum(ws, HeldMem)).Of(name) <= Sum(ws, HoldsBudget) * most
    ensures Sum(ws, HoldsBudget) >= 0
    ensures Sum(ws, HoldsBudget) == 0 ==> Delta(Sum(ws, HeldCpu), Sum(ws, HeldMem)) == ZERO_DELTA
  {
    if ws == [] {
    } else {
      ReservedUpTo(cfg, ws[1..], name, most);
      HeldUpTo(cfg, ws[0], name, most);
      assert Sum(ws, HoldsBudget) * most == HoldsBudget(ws[0]) * most + Sum(ws[1..], HoldsBudget) * most;
    }
  }

  /** When all but one of the resizes that a run allows cannot together exceed the maximum, it is never exceeded: the
      reservation that could go further is admitted without a decrease beside it. */
  lemma SmallProposalsHold(cfg: Config, acts: seq<Action>, s: Pool, name: ResourceName, most: int)
    requires Reaches(cfg, acts, s) && ProposalsUpTo(cfg, name, most) && name in {CPU, Memory}
    requires (cfg.maxPods - 1) * most <= MaxOf(cfg.maxCPU, cfg.maxMem, name)
    ensures Holds(s.shared.ledger, name)
  {
    ReachableInv(cfg, acts, s);
    TokensAtStart(cfg);
    FullAtStart(cfg, name);
    FullAlongRun(cfg, Start(cfg), acts, name);
    SmallLedger(cfg, s, name, most);
  }

  lemma SmallLedger(cfg: Config, s: Pool, name: ResourceName, most: int)
    requires Inv(cfg, s) && FullHolds(cfg, s, name) && ProposalsUpTo(cfg, name, most) && name in {CPU, Memory}
    requires (cfg.maxPods - 1) * most <= MaxOf(cfg.maxCPU, cfg.maxMem, name)
    ensures Holds(s.shared.ledger, name)
  {
    TotalUpTo(cfg, s.history.applied, name, most);
    ReservedUpTo(cfg, s.workers, name, most);
    ReservationsHaveTokens(s.workers);
    SmallSums(s.shared.ledger, |s.history.applied|, Sum(s.workers, HoldsBudget), cfg.maxPods, most, name);
  }

  lemma FullAtStart(cfg: Config, name: ResourceName)
    ensures FullHolds(cfg, Start(cfg), name)
  {
  }

  lemma SmallSums(l: Ledger, applied: nat, held: nat, maxPods: int, most: int, name: ResourceName)
    requires most >= 0 && applied + held <= maxPods
    requires (maxPods - 1) * most <= MaxOf(l.maxCPU, l.maxMem, name)
    requires l.committed.Of(name) <= applied * most && l.reserved.Of(name) <= held * most
    requires held == 0 ==> l.reserved.Of(name) == 0
    requires applied + held == maxPods && MaxOf(l.maxCPU, l.maxMem, name) > 0 ==>
               l.committed.Of(name) + l.reserved.Of(name) <= MaxOf(l.maxCPU, l.maxMem, name)
    ensures Holds(l, name)
  {
    if applied < maxPods {
      MulMonotone(applied, maxPods - 1, most);
    }
    if applied + held < maxPods {
      MulMonotone(applied + held, maxPods - 1, most);
      assert applied * most + held * most == (applied + held) * most;
    }
  }

  // ----- the exact condition -----

  /** The maxima are never exceeded, whatever the candidates, the interleaving and the outcomes. */
  ghost predicate HardCap(maxPods: nat, workers: nat, maxCPU: int, maxMem: int) {
    forall cfg: Config, acts: seq<Action>, s: Pool |
      cfg.maxPods == maxPods && cfg.workers == workers && cfg.maxCPU == maxCPU && cfg.maxMem == maxMem
          && Reaches(cfg, acts, s) ::
      HoldsAll(s.shared.ledger)
  }

  /** The configured maxima are a hard cap exactly when the run has a single worker (or no maximum is set). */
  lemma HardCapExact(maxPods: nat, workers: nat, maxCPU: int, maxMem: int)
    requires 1 <= workers <= maxPods
    ensures HardCap(maxPods, workers, maxCPU, maxMem) <==> workers == 1 || (maxCPU <= 0 && maxMem <= 0)
  {
    if workers == 1 {
      forall cfg: Config, acts: seq<Action>, s: Pool |
        cfg.maxPods == maxPods && cfg.workers == workers && cfg.maxCPU == maxCPU && cfg.maxMem == maxMem
            && Reaches(cfg, acts, s)
        ensures HoldsAll(s.shared.ledger)
      {
        SoleWorkerNeverExceeds(cfg, acts, s);
      }
    } else if maxCPU <= 0 && maxMem <= 0 {
      forall cfg: Config, acts: seq<Action>, s: Pool |
        cfg.maxPods == maxPods && cfg.workers == workers && cfg.maxCPU == maxCPU && cfg.maxMem == maxMem
            && Reaches(cfg, acts, s)
        ensures HoldsAll(s.shared.ledger)
      {
        NoMaximumHolds(cfg, acts, s, CPU);
        NoMaximumHolds(cfg, acts, s, Memory);
      }
    } else {
      var fall := Delta(if maxCPU > 0 then -1 else 0, if maxMem > 0 then -1 else 0);
      var rise := Delta(if maxCPU > 0 then maxCPU + 1 else 0, if maxMem > 0 then maxMem + 1 else 0);
      var acts, s := OvershootIsReachable(maxPods, workers, maxCPU, maxMem, fall, rise, 1);
      assert !HoldsAll(s.shared.ledger);
    }
  }
}
