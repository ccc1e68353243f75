/** What holds of every run of the worker pool. */
module PoolTheorems {
  import opened Resources
  import opened Budget
  import opened WorkerPool
  import opened PoolInvariant

  ghost predicate Inv(cfg: Config, s: Pool) {
    && Shape(cfg, s) && Ownership(s) && Proposals(cfg, s)
    && TokensConserved(cfg, s) && LedgerConserved(cfg, s) && BudgetBounded(s) && AppliedOnce(s)
    && OutcomesFit(s) && FatesFit(s) && DropsExplained(cfg, s) && CountersFit(s) && AggregatesFit(s)
    && OutcomesExplained(cfg, s) && SkipsFair(cfg, s)
  }

  lemma InvAtStart(cfg: Config)
    requires cfg.Valid()
    ensures Inv(cfg, Start(cfg))
  {
    var s := Start(cfg);
    assert forall i | 0 <= i < |s.workers| :: s.workers[i] == Idle;
    TokensAtStart(cfg);
    FatesAtStart(s);
    CountersAtStart(s);
    AggregatesAtStart(s);
  }

  lemma TokensAtStart(cfg: Config)
    ensures TokensConserved(cfg, Start(cfg)) && LedgerConserved(cfg, Start(cfg))
  {
    var ws := Start(cfg).workers;
    SumOfZeros(ws, HoldsToken);
    SumOfZeros(ws, HeldCpu);
    SumOfZeros(ws, HeldMem);
  }

  lemma IdleWorkers(ws: seq<Worker>)
    requires forall i | 0 <= i < |ws| :: ws[i] == Idle
    ensures Sum(ws, UndecidedBit) == Sum(ws, Unrecorded) == Sum(ws, UnrecordedCpu) == Sum(ws, UnrecordedMem) == 0
  {
  }

  lemma FatesAtStart(s: Pool)
    requires forall i | 0 <= i < |s.workers| :: s.workers[i] == Idle
    requires s.shared.next == 0 && forall c | 0 <= c < |s.history.fates| :: s.history.fates[c] == Unsent
    ensures FatesFit(s)
  {
    IdleWorkers(s.workers);
    NoneOfThem(s.history.fates, Running);
  }

  lemma CountersAtStart(s: Pool)
    requires forall i | 0 <= i < |s.workers| :: s.workers[i] == Idle
    requires forall c | 0 <= c < |s.history.fates| :: s.history.fates[c] == Unsent
    requires s.shared.counters == map[] && s.history.applied == []
    ensures CountersFit(s)
  {
    IdleWorkers(s.workers);
    forall o ensures CountFates(s.history.fates, Counted(o)) == 0 {
      NoneOfThem(s.history.fates, Counted(o));
    }
  }

  lemma AggregatesAtStart(s: Pool)
    requires forall i | 0 <= i < |s.workers| :: s.workers[i] == Idle
    requires s.shared.counters == map[] && s.shared.aggregates == map[] && s.shared.ledger.committed == ZERO_DELTA
    ensures AggregatesFit(s)
  {
    IdleWorkers(s.workers);
  }

  lemma {:induction false} NoneOfThem(fates: seq<Fate>, f: Fate)
    requires forall i | 0 <= i < |fates| :: fates[i] != f
    ensures CountFates(fates, f) == 0
  {
    if fates == [] {
    } else {
      NoneOfThem(fates[1..], f);
    }
  }

  lemma InvKept(cfg: Config, s: Pool, a: Action)
    requires Inv(cfg, s) && Enabled(cfg, s, a)
    ensures Inv(cfg, Apply(cfg, s, a))
  {
    ShapeKept(cfg, s, a);
    OwnershipKept(cfg, s, a);
    ProposalsKept(cfg, s, a);
    TokensKept(cfg, s, a);
    LedgerKept(cfg, s, a);
    BudgetKept(cfg, s, a);
    AppliedOnceKept(cfg, s, a);
    OutcomesKept(cfg, s, a);
    FatesKept(cfg, s, a);
    DropsKept(cfg, s, a);
    CountersKept(cfg, s, a);
    AggregatesKept(cfg, s, a);
    ExplainedKept(cfg, s, a);
    SkipsKept(cfg, s, a);
  }

  lemma {:induction false} InvAlongRun(cfg: Config, s: Pool, acts: seq<Action>)
    requires Inv(cfg, s) && CanRun(cfg, s, acts)
    ensures Inv(cfg, Run(cfg, s, acts))
    decreases |acts|
  {
    if acts == [] {
    } else {
      InvKept(cfg, s, acts[0]);
      InvAlongRun(cfg, Apply(cfg, s, acts[0]), acts[1..]);
    }
  }

  ghost predicate Reaches(cfg: Config, acts: seq<Action>, s: Pool) {
    cfg.Valid() && CanRun(cfg, Start(cfg), acts) && s == Run(cfg, Start(cfg), acts)
  }

  lemma ReachableInv(cfg: Config, acts: seq<Action>, s: Pool)
    requires Reaches(cfg, acts, s)
    ensures Inv(cfg, s)
  {
    InvAtStart(cfg);
    InvAlongRun(cfg, Start(cfg), acts);
  }

  // ----- the end of a run -----

  /** After the wait every reservation is settled, tokens and resizes make up the limit, and counters, aggregates and
      committed budget agree. */
  lemma FinalState(cfg: Config, acts: seq<Action>, s: Pool)
    requires Reaches(cfg, acts, s) && s.Final()
    ensures s.shared.ledger.reserved == ZERO_DELTA
    ensures s.shared.slots + |s.history.applied| == cfg.maxPods
    ensures s.shared.Count(Resized) == |s.history.applied| <= cfg.maxPods
    ensures s.shared.ledger.committed == Total(cfg, s.history.applied)
    ensures TotalAggregate(s.shared.aggregates) == Aggregate(s.shared.Count(Resized), s.shared.ledger.committed)
  {
    ReachableInv(cfg, acts, s);
    SumOfZeros(s.workers, HoldsToken);
    SumOfZeros(s.workers, HeldCpu);
    SumOfZeros(s.workers, HeldMem);
    SumOfZeros(s.workers, Unrecorded);
    SumOfZeros(s.workers, UnrecordedCpu);
    SumOfZeros(s.workers, UnrecordedMem);
  }

  function AllCounters(sh: Shared): int {
    sh.Count(MaxPodsSkipped) + sh.Count(MetricsErrors) + sh.Count(MetricsNotFound) + sh.Count(QoSSkipped)
    + sh.Count(NoChange) + sh.Count(PendingStabilization) + sh.Count(BudgetSkipped) + sh.Count(ApplyFailed)
    + sh.Count(ConflictSkipped) + sh.Count(Resized)
  }

  function CountedFates(fates: seq<Fate>): int {
    CountFates(fates, Counted(MaxPodsSkipped)) + CountFates(fates, Counted(MetricsErrors))
    + CountFates(fates, Counted(MetricsNotFound)) + CountFates(fates, Counted(QoSSkipped))
    + CountFates(fates, Counted(NoChange)) + CountFates(fates, Counted(PendingStabilization))
    + CountFates(fates, Counted(BudgetSkipped)) + CountFates(fates, Counted(ApplyFailed))
    + CountFates(fates, Counted(ConflictSkipped)) + CountFates(fates, Counted(Resized))
  }

  lemma {:induction false} EveryFateIsOne(fates: seq<Fate>)
    ensures CountedFates(fates) + CountFates(fates, Unsent) + CountFates(fates, Running) + CountFates(fates, Dropped)
            == |fates|
  {
    if fates == [] {
    } else {
      EveryFateIsOne(fates[1..]);
      FirstFateIsOne(fates[0]);
      CountedSplits(fates);
      FirstAndRest(fates, Unsent);
      FirstAndRest(fates, Running);
      FirstAndRest(fates, Dropped);
    }
  }

  lemma CountedSplits(fates: seq<Fate>)
    requires fates != []
    ensures CountedFates(fates) == CountedFates([fates[0]]) + CountedFates(fates[1..])
  {
    forall o ensures CountFates(fates, Counted(o)) ==
                     CountFates([fates[0]], Counted(o)) + CountFates(fates[1..], Counted(o)) {
      FirstAndRest(fates, Counted(o));
    }
  }

  lemma FirstAndRest(fates: seq<Fate>, f: Fate)
    requires fates != []
    ensures CountFates(fates, f) == CountFates([fates[0]], f) + CountFates(fates[1..], f)
  {
    assert [fates[0]][1..] == [];
  }

  lemma FirstFateIsOne(f: Fate)
    ensures CountedFates([f]) + CountFates([f], Unsent) + CountFates([f], Running) + CountFates([f], Dropped) == 1
  {
    forall g ensures CountFates([f], g) == if f == g then 1 else 0 {
      assert [f][1..] == [];
    }
    if f.Counted? {
      match f.outcome
      case MaxPodsSkipped =>
      case MetricsErrors =>
      case MetricsNotFound =>
      case QoSSkipped =>
      case NoChange =>
      case PendingStabilization =>
      case BudgetSkipped =>
      case ApplyFailed =>
      case ConflictSkipped =>
      case Resized =>
    }
  }

  /** No candidate is counted twice; in a run that was not cancelled and met no policy failure every candidate
      is counted exactly once. */
  lemma CountersPartition(cfg: Config, acts: seq<Action>, s: Pool)
    requires Reaches(cfg, acts, s)
    ensures AllCounters(s.shared) <= |cfg.candidates|
    ensures s.Final() && !s.shared.cancelled && (forall c | 0 <= c < |cfg.candidates| ::
        !VerdictOf(cfg, c).PolicyFailed?)
            ==> AllCounters(s.shared) == |cfg.candidates|
  {
    ReachableInv(cfg, acts, s);
    EveryFateIsOne(s.history.fates);
    if s.Final() && !s.shared.cancelled && (forall c | 0 <= c < |cfg.candidates| :: !VerdictOf(cfg, c).PolicyFailed?) {
      SumOfZeros(s.workers, UndecidedBit);
      NoneOfThem(s.history.fates, Unsent);
      NoneOfThem(s.history.fates, Dropped);
    }
  }

  /** Every outcome counted has its cause, and the candidates counted as resized are applied ones. */
  lemma OutcomesHaveCauses(cfg: Config, acts: seq<Action>, s: Pool, c: nat)
    requires Reaches(cfg, acts, s) && c < |s.history.fates| && s.history.fates[c].Counted?
    ensures Explains(cfg, c, s.history.fates[c].outcome)
    ensures s.history.fates[c].outcome == Resized ==> c in s.history.applied
  {
    ReachableInv(cfg, acts, s);
  }

  // ----- tokens -----

  /** Giving a token back never blocks. */
  lemma TokenReturnNeverBlocks(cfg: Config, acts: seq<Action>, s: Pool, w: nat)
    requires Reaches(cfg, acts, s) && w < |s.workers| && s.workers[w].Returning?
    ensures s.shared.slots < cfg.maxPods
  {
    ReachableInv(cfg, acts, s);
    ReturnHasRoom(cfg, s, w);
  }

  lemma ReturnHasRoom(cfg: Config, s: Pool, w: nat)
    requires TokensConserved(cfg, s) && w < |s.workers| && s.workers[w].Returning?
    ensures s.shared.slots < cfg.maxPods
  {
    SumBounds(s.workers, HoldsToken);
    assert HoldsToken(s.workers[w]) == 1;
  }

  /** Once any candidate has been turned away for the pod limit, all but fewer than maxConcurrentPods of the allowed
      resizes have been applied. */
  lemma SkippedOnlyWhenNearlyFull(cfg: Config, acts: seq<Action>, s: Pool)
    requires Reaches(cfg, acts, s) && s.shared.Count(MaxPodsSkipped) > 0
    ensures |s.history.applied| >= cfg.maxPods - (cfg.workers - 1)
  {
    ReachableInv(cfg, acts, s);
  }

  // ----- the budget bound -----

  ghost predicate NonNegativeProposals(cfg: Config, name: ResourceName) {
    forall c | 0 <= c < |cfg.candidates| :: DeltaOf(cfg, c).Of(name) >= 0
  }

  lemma RefundsStayZero(cfg: Config, s: Pool, a: Action, name: ResourceName)
    requires Proposals(cfg, s) && NonNegativeProposals(cfg, name) && s.history.refunds.Of(name) == 0
    requires Enabled(cfg, s, a)
    ensures Apply(cfg, s, a).history.refunds.Of(name) == 0
  {
    if a.Work? {
      var p := s.workers[a.worker];
      assert CarriesProposal(cfg, p);
      var op := Step(cfg, s, a).1;
      if op.Release? {
        assert p == Releasing(p.cand, op.delta);
        assert DeltaOf(cfg, p.cand) == op.delta;
      }
    }
  }

  lemma {:induction false} RefundsZeroAlongRun(cfg: Config, s: Pool, acts: seq<Action>, name: ResourceName)
    requires Inv(cfg, s) && NonNegativeProposals(cfg, name) && s.history.refunds.Of(name) == 0 && CanRun(cfg, s, acts)
    ensures Run(cfg, s, acts).history.refunds.Of(name) == 0
    decreases |acts|
  {
    if acts == [] {
    } else {
      RefundsStayZero(cfg, s, acts[0], name);
      InvKept(cfg, s, acts[0]);
      RefundsZeroAlongRun(cfg, Apply(cfg, s, acts[0]), acts[1..], name);
    }
  }

  /** When no proposal lowers a resource, its maximum is never exceeded. */
  lemma NeverExceeded(cfg: Config, acts: seq<Action>, s: Pool, name: ResourceName)
    requires Reaches(cfg, acts, s) && NonNegativeProposals(cfg, name) && name in {CPU, Memory}
    ensures Holds(s.shared.ledger, name)
  {
    ReachableInv(cfg, acts, s);
    InvAtStart(cfg);
    RefundsZeroAlongRun(cfg, Start(cfg), acts, name);
    ReservedNonNegative(cfg, s, name);
  }

  lemma ReservedNonNegative(cfg: Config, s: Pool, name: ResourceName)
    requires LedgerConserved(cfg, s) && Proposals(cfg, s) && NonNegativeProposals(cfg, name) && name in {CPU, Memory}
    ensures s.shared.ledger.reserved.Of(name) >= 0
  {
    var held := if name == CPU then HeldCpu else HeldMem;
    forall i | 0 <= i < |s.workers| ensures held(s.workers[i]) >= 0 {
      HeldNonNegative(cfg, s.workers[i], name);
    }
    SumNonNegative(s.workers, held);
  }

  lemma HeldNonNegative(cfg: Config, p: Worker, name: ResourceName)
    requires CarriesProposal(cfg, p) && NonNegativeProposals(cfg, name)
    ensures HeldDelta(p).Of(name) >= 0
  {
    assert CarriesDelta(p) ==> DeltaOf(cfg, p.cand) == CarriedDelta(p);
  }

  /** What a worker would give back by releasing a negative reservation. */
  function HeldFallCpu(p: Worker): int { Refund(HeldDelta(p)).cpu }

  function HeldFallMem(p: Worker): int { Refund(HeldDelta(p)).memory }

  /** Negative reservations still held are the most by which reserved can fall below zero. */
  lemma {:induction false} FallsBelow(ws: seq<Worker>)
    ensures Sum(ws, HeldCpu) + Sum(ws, HeldFallCpu) >= 0 && Sum(ws, HeldMem) + Sum(ws, HeldFallMem) >= 0
  {
    if ws == [] {
    } else {
      FallsBelow(ws[1..]);
    }
  }

  /** Committed plus reserved exceeds a positive maximum by no more than the negative reservations released so far, and
      what is committed by no more than these and the ones still held. For a resource that no proposal lowers the
      maximum is not exceeded at all. */
  lemma BudgetBound(cfg: Config, acts: seq<Action>, s: Pool)
    requires Reaches(cfg, acts, s)
    ensures s.shared.ledger.Within(s.history.refunds)
    ensures cfg.maxCPU > 0 ==>
              s.shared.ledger.committed.cpu <= cfg.maxCPU + s.history.refunds.cpu + Sum(s.workers, HeldFallCpu)
    ensures cfg.maxMem > 0 ==>
              s.shared.ledger.committed.memory <= cfg.maxMem + s.history.refunds.memory + Sum(s.workers, HeldFallMem)
    ensures NonNegativeProposals(cfg, CPU) ==> Holds(s.shared.ledger, CPU)
    ensures NonNegativeProposals(cfg, Memory) ==> Holds(s.shared.ledger, Memory)
    ensures s.Final() && cfg.maxCPU > 0 ==> s.shared.ledger.committed.cpu <= cfg.maxCPU + s.history.refunds.cpu
    ensures s.Final() && cfg.maxMem > 0 ==> s.shared.ledger.committed.memory <= cfg.maxMem + s.history.refunds.memory
  {
    ReachableInv(cfg, acts, s);
    FallsBelow(s.workers);
    if NonNegativeProposals(cfg, CPU) {
      NeverExceeded(cfg, acts, s, CPU);
    }
    if NonNegativeProposals(cfg, Memory) {
      NeverExceeded(cfg, acts, s, Memory);
    }
    if s.Final() {
      FinalState(cfg, acts, s);
    }
  }

  // ----- termination -----

  function Rank(p: Worker): int {
    match p
    case Exited => 0
    case Idle => 1
    case Annotating(_) => 2
    case Returning(_) => 2
    case Releasing(_, _) => 3
    case Stopping(_, _, _) => 4
    case Counting(_, _, _, _) => 5
    case Recording(_, _) => 6
    case Accepted(_, _) => 7
    case Retrying(_, _) => 8
    case Applying(_, _) => 9
    case Reserved(_, _) => 10
    case Reserving(_, _) => 11
    case Evaluating(_) => 12
    case AtSlots(_) => 13
    case Entered(_) => 14
    case Received(_) => 15
  }

  /** An upper bound on the steps a run can still take. */
  function Fuel(cfg: Config, s: Pool): int {
    16 * (|cfg.candidates| - s.shared.next) + Sum(s.workers, Rank)
    + (if s.shared.closed then 0 else 1) + (if s.shared.cancelled then 0 else 1)
  }

  lemma ProgramDescends(cfg: Config, sh: Shared, p: Worker, gateOpen: bool, result: ApiResult)
    requires !p.Exited?
    ensures var (q, op) := Program(cfg, sh, p, gateOpen, result);
            Rank(q) < Rank(p) && !op.HandOut? && !op.CloseChannel?
  {
  }

  lemma FuelAfter(cfg: Config, s: Pool, w: nat, q: Worker, op: Op)
    requires w < |s.workers| && Rank(q) < Rank(s.workers[w]) && !op.HandOut? && !op.CloseChannel?
    ensures Fuel(cfg, After(s, w, q, op)) < Fuel(cfg, s)
  {
    SumUpdate(s.workers, w, q, Rank);
  }

  lemma FuelBurns(cfg: Config, s: Pool, a: Action)
    requires Enabled(cfg, s, a)
    ensures Fuel(cfg, Apply(cfg, s, a)) < Fuel(cfg, s)
  {
    if a.Send? {
      SumUpdate(s.workers, a.worker, Received(s.shared.next), Rank);
    } else if a.Work? {
      ProgramDescends(cfg, s.shared, s.workers[a.worker], a.gateOpen, a.result);
      var (q, op) := Step(cfg, s, a);
      FuelAfter(cfg, s, a.worker, q, op);
    }
  }

  lemma {:induction false} RunsBurnFuel(cfg: Config, s: Pool, acts: seq<Action>)
    requires Shape(cfg, s) && CanRun(cfg, s, acts)
    ensures Shape(cfg, Run(cfg, s, acts))
    ensures |acts| <= Fuel(cfg, s) - Fuel(cfg, Run(cfg, s, acts))
    decreases |acts|
  {
    if acts == [] {
    } else {
      FuelBurns(cfg, s, acts[0]);
      ShapeKept(cfg, s, acts[0]);
      RunsBurnFuel(cfg, Apply(cfg, s, acts[0]), acts[1..]);
    }
  }

  /** The pool itself always has a next step until the wait is over; it never needs to be cancelled from outside. */
  lemma AlwaysEnabled(cfg: Config, s: Pool)
    requires Shape(cfg, s) && TokensConserved(cfg, s) && !s.Final()
    ensures exists a: Action :: !a.CancelOutside? && Enabled(cfg, s, a)
  {
    if w :| 0 <= w < |s.workers| && Busy(s.workers[w]) {
      if s.workers[w].Returning? {
        ReturnHasRoom(cfg, s, w);
      }
      assert Enabled(cfg, s, Work(w, true, Succeeds));
    } else if s.shared.closed {
      var w :| 0 <= w < |s.workers| && !s.workers[w].Exited?;
      assert Enabled(cfg, s, Work(w, true, Succeeds));
    } else if s.shared.next == |cfg.candidates| {
      assert Enabled(cfg, s, Close);
    } else {
      assert s.workers[0].Idle?;
      assert Enabled(cfg, s, Send(0));
    }
  }

  lemma FuelNonNegative(cfg: Config, s: Pool)
    requires Shape(cfg, s)
    ensures Fuel(cfg, s) >= 0
  {
    SumNonNegative(s.workers, Rank);
  }

  lemma FuelAtStart(cfg: Config)
    ensures Fuel(cfg, Start(cfg)) == 16 * |cfg.candidates| + cfg.workers + 2
  {
    RanksOfIdle(Start(cfg).workers);
  }

  /** Whatever the interleaving and the outcomes, a run takes at most a fixed number of steps, and when no step is left
      every worker has exited and the channel is closed. */
  lemma EveryRunReachesTheWait(cfg: Config, acts: seq<Action>, s: Pool)
    requires Reaches(cfg, acts, s)
    ensures |acts| <= 16 * |cfg.candidates| + cfg.workers + 2
    ensures s.Final() || exists a: Action :: !a.CancelOutside? && Enabled(cfg, s, a)
  {
    ReachableInv(cfg, acts, s);
    InvAtStart(cfg);
    RunsBurnFuel(cfg, Start(cfg), acts);
    FuelAtStart(cfg);
    FuelNonNegative(cfg, s);
    if !s.Final() {
      AlwaysEnabled(cfg, s);
    }
  }

  lemma {:induction false} RanksOfIdle(ws: seq<Worker>)
    requires forall i | 0 <= i < |ws| :: ws[i] == Idle
    ensures Sum(ws, Rank) == |ws|
  {
    if ws == [] {
    } else {
      RanksOfIdle(ws[1..]);
    }
  }

  // ----- draining after a cancellation -----

  /** The worker is past both context checks and has not committed: it may still resize its pod. */
  function MayCommit(p: Worker): int {
    if p.AtSlots? || p.Evaluating? || p.Reserving? || p.Reserved? || p.Applying? || p.Retrying? || p.Accepted?
        then 1 else 0
  }

  lemma ProgramDrains(cfg: Config, sh: Shared, p: Worker, gateOpen: bool, result: ApiResult)
    requires sh.cancelled
    ensures var (q, op) := Program(cfg, sh, p, gateOpen, result);
            (if op.Commit? then 1 else 0) + MayCommit(q) <= MayCommit(p)
  {
  }

  lemma {:induction false} DrainAlongRun(cfg: Config, s: Pool, acts: seq<Action>)
    requires s.shared.cancelled && CanRun(cfg, s, acts)
    ensures var t := Run(cfg, s, acts);
            |t.history.applied| + Sum(t.workers, MayCommit) <= |s.history.applied| + Sum(s.workers, MayCommit)
    decreases |acts|
  {
    if acts == [] {
    } else {
      var a := acts[0];
      DrainStep(cfg, s, a);
      DrainAlongRun(cfg, Apply(cfg, s, a), acts[1..]);
    }
  }

  lemma DrainStep(cfg: Config, s: Pool, a: Action)
    requires s.shared.cancelled && Enabled(cfg, s, a)
    ensures var t := Apply(cfg, s, a);
            && t.shared.cancelled
            && |t.history.applied| + Sum(t.workers, MayCommit) <= |s.history.applied| + Sum(s.workers, MayCommit)
  {
    if a.Send? {
      SumUpdate(s.workers, a.worker, Received(s.shared.next), MayCommit);
    } else if a.Work? {
      ProgramDrains(cfg, s.shared, s.workers[a.worker], a.gateOpen, a.result);
      SumUpdate(s.workers, a.worker, Step(cfg, s, a).0, MayCommit);
    }
  }

  lemma ProgramCancels(cfg: Config, sh: Shared, p: Worker, gateOpen: bool, result: ApiResult)
    ensures var (q, op) := Program(cfg, sh, p, gateOpen, result); op.Cancel? ==> MayCommit(q) == 0
  {
  }

  lemma CancelledBy(s: Pool, w: nat, q: Worker, op: Op)
    requires w < |s.workers| && !s.shared.cancelled && After(s, w, q, op).shared.cancelled
    ensures op.Cancel? && After(s, w, q, op).history.applied == s.history.applied
  {
  }

  /** The action that cancels commits nothing, and the worker that cancels is not one that may still resize. */
  lemma AtTheCancellation(cfg: Config, s: Pool, a: Action)
    requires Shape(cfg, s) && !s.shared.cancelled && Enabled(cfg, s, a) && Apply(cfg, s, a).shared.cancelled
    ensures var t := Apply(cfg, s, a);
            && |t.history.applied| == |s.history.applied|
            && 0 <= Sum(t.workers, MayCommit) <= (if a.Work? then cfg.workers - 1 else cfg.workers)
  {
    var t := Apply(cfg, s, a);
    ShapeKept(cfg, s, a);
    SumBounds(t.workers, MayCommit);
    if a.Work? {
      ProgramCancels(cfg, s.shared, s.workers[a.worker], a.gateOpen, a.result);
      var (q, op) := Step(cfg, s, a);
      CancelledBy(s, a.worker, q, op);
      assert t.workers[a.worker] == q;
    }
  }

  /** After the action that cancels the run, at most maxConcurrentPods - 1 further resizes are committed, or one more
      when the cancellation came from outside. */
  lemma DrainBound(cfg: Config, acts: seq<Action>, s: Pool, a: Action, rest: seq<Action>)
    requires Reaches(cfg, acts, s) && !s.shared.cancelled
    requires Enabled(cfg, s, a) && Apply(cfg, s, a).shared.cancelled && CanRun(cfg, Apply(cfg, s, a), rest)
    ensures |Run(cfg, Apply(cfg, s, a), rest).history.applied|
            <= |s.history.applied| + (if a.Work? then cfg.workers - 1 else cfg.workers)
  {
    ReachableInv(cfg, acts, s);
    AtTheCancellation(cfg, s, a);
    DrainAlongRun(cfg, Apply(cfg, s, a), rest);
    SumBounds(Run(cfg, Apply(cfg, s, a), rest).workers, MayCommit);
  }

  // ----- the capability mark -----

  /** A resize is answered with a fatal error. */
  ghost predicate FatalStep(s: Pool, a: Action) {
    a.Work? && a.worker < |s.workers| && s.workers[a.worker].Applying? && a.result.Fatal?
  }

  ghost predicate FatalSeen(cfg: Config, s: Pool, acts: seq<Action>)
    decreases |acts|
  {
    acts != [] && (FatalStep(s, acts[0]) || FatalSeen(cfg, Apply(cfg, s, acts[0]), acts[1..]))
  }

  /** The worker is on its way to mark the capability. */
  predicate Marks(p: Worker) { (p.Counting? || p.Stopping?) && p.then_.MarkUnsupported? }

  ghost predicate MarkDue(s: Pool) {
    s.shared.unsupported || exists i :: 0 <= i < |s.workers| && Marks(s.workers[i])
  }

  lemma ProgramMarks(cfg: Config, sh: Shared, p: Worker, gateOpen: bool, result: ApiResult)
    ensures var (q, op) := Program(cfg, sh, p, gateOpen, result);
            && (Marks(q) || Perform(sh, op).unsupported
                <==> sh.unsupported || Marks(p) || (p.Applying? && result.Fatal?))
            && (sh.unsupported ==> Perform(sh, op).unsupported)
  {
  }

  lemma MarkStep(cfg: Config, s: Pool, a: Action)
    requires Enabled(cfg, s, a)
    ensures MarkDue(Apply(cfg, s, a)) <==> MarkDue(s) || FatalStep(s, a)
  {
    var t := Apply(cfg, s, a);
    if a.Work? {
      ProgramMarks(cfg, s.shared, s.workers[a.worker], a.gateOpen, a.result);
      assert t.workers[a.worker] == Step(cfg, s, a).0;
    }
    if i :| 0 <= i < |s.workers| && Marks(s.workers[i]) {
      assert ((a.Send? || a.Work?) && i == a.worker) || t.workers[i] == s.workers[i];
    }
    if i :| 0 <= i < |t.workers| && Marks(t.workers[i]) {
      assert ((a.Send? || a.Work?) && i == a.worker) || t.workers[i] == s.workers[i];
    }
  }

  lemma {:induction false} MarkAlongRun(cfg: Config, s: Pool, acts: seq<Action>)
    requires CanRun(cfg, s, acts)
    ensures MarkDue(Run(cfg, s, acts)) <==> MarkDue(s) || FatalSeen(cfg, s, acts)
    decreases |acts|
  {
    if acts == [] {
    } else {
      MarkStep(cfg, s, acts[0]);
      MarkAlongRun(cfg, Apply(cfg, s, acts[0]), acts[1..]);
    }
  }

  /** When the wait is over the capability has been marked unsupported exactly if some resize failed fatally. */
  lemma MarkedExactly(cfg: Config, acts: seq<Action>, s: Pool)
    requires Reaches(cfg, acts, s) && s.Final()
    ensures s.shared.unsupported <==> FatalSeen(cfg, Start(cfg), acts)
  {
    MarkAlongRun(cfg, Start(cfg), acts);
  }

  // ----- what is resized -----

  /** Every applied candidate was proposed by the policy, none twice, and the committed budget is the sum of their
      deltas. */
  lemma AppliedWereProposed(cfg: Config, acts: seq<Action>, s: Pool)
    requires Reaches(cfg, acts, s)
    ensures forall i | 0 <= i < |s.history.applied| :: VerdictOf(cfg, s.history.applied[i]).Proposed?
    ensures forall i, j | 0 <= i < j < |s.history.applied| :: s.history.applied[i] != s.history.applied[j]
    ensures s.shared.ledger.committed == Total(cfg, s.history.applied)
    ensures !cfg.capabilitySupported ==> s.history.applied == []
  {
    ReachableInv(cfg, acts, s);
    if !cfg.capabilitySupported {
      UnsupportedAlongRun(cfg, Start(cfg), acts);
    }
  }

  /** Without the capability no worker gets as far as an API call. */
  ghost predicate NothingApplied(s: Pool) {
    && s.history.applied == []
    && forall i | 0 <= i < |s.workers| ::
         !s.workers[i].Applying? && !s.workers[i].Retrying? && !s.workers[i].Accepted?
  }

  lemma {:induction false} UnsupportedAlongRun(cfg: Config, s: Pool, acts: seq<Action>)
    requires !cfg.capabilitySupported && NothingApplied(s) && CanRun(cfg, s, acts)
    ensures NothingApplied(Run(cfg, s, acts))
    decreases |acts|
  {
    if acts == [] {
    } else {
      UnsupportedStep(cfg, s, acts[0]);
      UnsupportedAlongRun(cfg, Apply(cfg, s, acts[0]), acts[1..]);
    }
  }

  lemma UnsupportedStep(cfg: Config, s: Pool, a: Action)
    requires !cfg.capabilitySupported && NothingApplied(s) && Enabled(cfg, s, a)
    ensures NothingApplied(Apply(cfg, s, a))
  {
  }
}
