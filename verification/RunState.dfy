/**
 The shared variables of a run as the program holds them, and the code of a worker on them: one atomic step at a time,
 as the scheduler sees it, and the whole treatment of a candidate, as the program text has it.
 */
module RunState {
  import opened Resources
  import opened Budget
  import opened WorkerPool
  import opened PoolInvariant
  import opened PoolTheorems
  import opened PoolAnswers

  /** What the surroundings answer while one candidate is treated. */
  datatype Answers = Answers(gateOpen: bool, first: ApiResult, second: ApiResult)

  function Move(cfg: Config, sh: Shared, p: Worker, env: Answers): (Worker, Op) {
    Program(cfg, sh, p, env.gateOpen, if p.Retrying? then env.second else env.first)
  }

  /** The shared variables after a worker has gone on alone from program counter p until it is idle. */
  function Alone(cfg: Config, sh: Shared, p: Worker, env: Answers): Shared
    decreases Rank(p)
  {
    if p.Idle? || p.Exited? then sh
    else
      var (q, op) := Move(cfg, sh, p, env);
      Alone(cfg, Perform(sh, op), q, env)
  }

  lemma AloneMoves(cfg: Config, sh: Shared, p: Worker, env: Answers, q: Worker, op: Op)
    requires !p.Idle? && !p.Exited? && Move(cfg, sh, p, env) == (q, op)
    ensures Alone(cfg, sh, p, env) == Alone(cfg, Perform(sh, op), q, env)
  {
  }

  /** Going on alone is a run of the pool in which only this worker acts. */
  lemma {:induction false} AloneIsARun(cfg: Config, s: Pool, w: nat, env: Answers) returns (acts: seq<Action>)
    requires TokensConserved(cfg, s) && w < |s.workers| && Busy(s.workers[w])
    ensures CanRun(cfg, s, acts) && Run(cfg, s, acts).shared == Alone(cfg, s.shared, s.workers[w], env)
    ensures forall i | 0 <= i < |acts| :: acts[i].Work? && acts[i].worker == w
    decreases Rank(s.workers[w])
  {
    var p := s.workers[w];
    var a := Work(w, env.gateOpen, if p.Retrying? then env.second else env.first);
    if p.Returning? {
      ReturnHasRoom(cfg, s, w);
    }
    var t := Apply(cfg, s, a);
    TokensKept(cfg, s, a);
    ProgramDescends(cfg, s.shared, p, a.gateOpen, a.result);
    BusyStaysOrIdles(cfg, s.shared, p, a.gateOpen, a.result);
    acts := [a];
    if Busy(t.workers[w]) {
      var rest := AloneIsARun(cfg, t, w, env);
      acts := [a] + rest;
      assert acts[1..] == rest;
    }
  }

  lemma BusyStaysOrIdles(cfg: Config, sh: Shared, p: Worker, gateOpen: bool, result: ApiResult)
    requires Busy(p)
    ensures !Program(cfg, sh, p, gateOpen, result).0.Exited?
  {
  }

  /** The answers with which a reserved resize goes through. */
  predicate GoesThrough(cfg: Config, env: Answers) {
    cfg.capabilitySupported && (env.first.Succeeds? || (env.first.Conflicts? && env.second.Succeeds?))
  }

  /** The resize is asked for, and answered with a fatal error. */
  predicate FailsFatally(cfg: Config, env: Answers) {
    cfg.capabilitySupported && env.first.Fatal?
  }

  function Bumped(counters: map<Outcome, int>, o: Outcome): map<Outcome, int> {
    counters[o := (if o in counters then counters[o] else 0) + 1]
  }

  /** The aggregate of a namespace after one more resize there. */
  function WithResize(aggregates: map<string, Aggregate>, ns: string, d: Delta): map<string, Aggregate> {
    var agg := if ns in aggregates then aggregates[ns] else Aggregate(0, ZERO_DELTA);
    aggregates[ns := Aggregate(agg.resized + 1, Delta(agg.delta.cpu + d.cpu, agg.delta.memory + d.memory))]
  }

  /** How a proposal behind an open gate is counted, given whether the budget has room for it. */
  function Settled(cfg: Config, room: bool, env: Answers): Outcome {
    if !room then BudgetSkipped
    else if GoesThrough(cfg, env) then Resized
    else if cfg.capabilitySupported && env.first.Conflicts? then ConflictSkipped
    else ApplyFailed
  }

  /** The counters after the treatment of a candidate that has a token. */
  function Recounted(cfg: Config, counters: map<Outcome, int>, c: nat, room: bool, env: Answers): map<Outcome, int> {
    match VerdictOf(cfg, c)
    case MetricsFailed => Bumped(counters, MetricsErrors)
    case MetricsMissing => Bumped(counters, MetricsNotFound)
    case ClassRefused => Bumped(counters, QoSSkipped)
    case PolicyFailed => counters
    case NothingToDo => Bumped(counters, NoChange)
    case Proposed(_) => Bumped(counters, if env.gateOpen then Settled(cfg, room, env) else PendingStabilization)
  }

  /** Both positive maxima have room for the proposal. */
  predicate HasRoom(cfg: Config, l: Ledger, c: nat) {
    Fits(l, DeltaOf(cfg, c).cpu, DeltaOf(cfg, c).memory)
  }

  /** The API call for a candidate that has a token is answered with a fatal error. */
  predicate EndsFatally(cfg: Config, l: Ledger, c: nat, env: Answers) {
    VerdictOf(cfg, c).Proposed? && env.gateOpen && HasRoom(cfg, l, c) && FailsFatally(cfg, env)
  }

  class SharedRun {
    const maxPods: nat
    const budget: BudgetManager
    var slots: nat
    var cancelled: bool
    var unsupported: bool
    var counters: map<Outcome, int>
    var aggregates: map<string, Aggregate>
    var next: nat
    var closed: bool

    function View(): Shared
      reads this, budget
    {
      Shared(slots, budget.View(), cancelled, unsupported, counters, aggregates, next, closed)
    }

    constructor (maxPodsPerRun: int, maxConcurrentPods: int, maxCPU: int, maxMem: int)
      ensures fresh(budget) && maxPods == Limits(maxPodsPerRun, maxConcurrentPods).0
      ensures forall supported: bool, candidates: seq<Candidate> ::
                var cfg := Configure(maxPodsPerRun, maxConcurrentPods, maxCPU, maxMem, supported, candidates);
                View() == Start(cfg).shared
    {
      maxPods := Limits(maxPodsPerRun, maxConcurrentPods).0;
      budget := new BudgetManager(maxCPU, maxMem);
      cancelled, unsupported, counters, aggregates, next, closed := false, false, map[], map[], 0, false;
      slots := 0;
      new;
      for i := 0 to maxPods
        invariant slots == i && budget.View() == Ledger(ZERO_DELTA, ZERO_DELTA, maxCPU, maxMem)
        invariant !cancelled && !unsupported && counters == map[] && aggregates == map[] && next == 0 && !closed
      {
        slots := slots + 1;
      }
    }

    /** The non-blocking receive from the token channel. */
    method TakeSlot() returns (taken: bool)
      modifies this`slots
      ensures taken <==> old(slots) > 0
      ensures slots == old(slots) - if taken then 1 else 0
      ensures View() == if taken then Perform(old(View()), TakeToken) else old(View())
    {
      if slots == 0 {
        return false;
      }
      slots := slots - 1;
      return true;
    }

    /** The send on the token channel; it would block on a full channel. */
    method ReturnSlot()
      requires slots < maxPods
      modifies this`slots
      ensures View() == Perform(old(View()), GiveToken) && slots == old(slots) + 1
    {
      slots := slots + 1;
    }

    method CountOutcome(cand: nat, o: Outcome)
      modifies this`counters
      ensures View() == Perform(old(View()), Tick(cand, o)) && counters == Bumped(old(counters), o)
    {
      counters := counters[o := (if o in counters then counters[o] else 0) + 1];
    }

    method RecordResize(cand: nat, ns: string, d: Delta)
      modifies this`counters, this`aggregates
      ensures View() == Perform(old(View()), Record(cand, ns, d))
      ensures counters == Bumped(old(counters), Resized) && aggregates == WithResize(old(aggregates), ns, d)
    {
      counters := counters[Resized := (if Resized in counters then counters[Resized] else 0) + 1];
      var agg := if ns in aggregates then aggregates[ns] else Aggregate(0, ZERO_DELTA);
      var delta := Delta(agg.delta.cpu + d.cpu, agg.delta.memory + d.memory);
      aggregates := aggregates[ns := Aggregate(agg.resized + 1, delta)];
    }

    method CancelRun(mark: bool)
      modifies this`cancelled, this`unsupported
      ensures View() == Perform(old(View()), Cancel(mark)) && cancelled && unsupported == (old(unsupported) || mark)
    {
      if mark {
        unsupported := true;
      }
      cancelled := true;
    }

    method TryReserve(d: Delta) returns (ok: bool)
      modifies budget
      ensures ok == old(View()).ledger.Admits(d)
      ensures View() == if ok then Perform(old(View()), Reserve(d)) else old(View())
      ensures ok == Fits(old(budget.View()), d.cpu, d.memory)
      ensures budget.committed == old(budget.committed)
      ensures budget.reserved == if ok then old(budget.reserved).Plus(d) else old(budget.reserved)
    {
      ok := budget.TryReserve(d);
    }

    method ReleaseBudget(d: Delta)
      modifies budget
      ensures View() == Perform(old(View()), Release(d))
      ensures budget.committed == old(budget.committed) && budget.reserved == old(budget.reserved).Minus(d)
    {
      budget.Release(d);
    }

    method CommitBudget(cand: nat, d: Delta)
      modifies budget
      ensures View() == Perform(old(View()), Commit(cand, d))
      ensures budget.committed == old(budget.committed).Plus(d) && budget.reserved == old(budget.reserved).Minus(d)
    {
      budget.Commit(d);
    }

    // ----- a worker -----

    /** One atomic step of a worker: what the program does between two points where others can interfere. */
    method StepWorker(cfg: Config, p: Worker, gateOpen: bool, result: ApiResult) returns (q: Worker)
      requires p.Returning? ==> slots < maxPods
      modifies this, budget
      ensures var (next, op) := Program(cfg, old(View()), p, gateOpen, result);
              q == next && View() == Perform(old(View()), op)
    {
      match p
      case Received(c) => q := if cancelled then Idle else Entered(c);
      case Entered(c) => q := if cancelled then Idle else AtSlots(c);
      case AtSlots(c) =>
        var taken := TakeSlot();
        q := if taken then Evaluating(c) else Counting(c, MaxPodsSkipped, Empty, GoOn);
      case Reserving(c, d) =>
        var ok := TryReserve(d);
        q := if ok then Reserved(c, d) else Counting(c, BudgetSkipped, Token, GoOn);
      case Accepted(_, _) | Recording(_, _) | Counting(_, _, _, _) | Stopping(_, _, _)
        | Releasing(_, _) | Returning(_) =>
        q := StepAfterOutcome(cfg, p);
      case _ => q := StepLocally(cfg, p, gateOpen, result);
    }

    /** The steps that look at the answers of policy and API only. */
    static method StepLocally(cfg: Config, p: Worker, gateOpen: bool, result: ApiResult) returns (q: Worker)
      requires p.Idle? || p.Evaluating? || p.Reserved? || p.Applying? || p.Retrying? || p.Annotating? || p.Exited?
      ensures forall sh: Shared :: var (next, op) := Program(cfg, sh, p, gateOpen, result);
                                   q == next && Perform(sh, op) == sh
    {
      match p
      case Evaluating(c) =>
        match VerdictOf(cfg, c) {
          case MetricsFailed => q := Counting(c, MetricsErrors, Token, Aftermath.CancelRun);
          case MetricsMissing => q := Counting(c, MetricsNotFound, Token, GoOn);
          case ClassRefused => q := Counting(c, QoSSkipped, Token, GoOn);
          case PolicyFailed => q := Returning(c);
          case NothingToDo => q := Counting(c, NoChange, Token, GoOn);
          case Proposed(d) =>
            q := if gateOpen then Worker.Reserving(c, d) else Counting(c, PendingStabilization, Token, GoOn);
        }
      case Reserved(c, d) =>
        q := if cfg.capabilitySupported then Applying(c, d) else Counting(c, ApplyFailed, TokenAndBudget(d), GoOn);
      case Applying(c, d) =>
        match result {
          case Succeeds => q := Accepted(c, d);
          case Conflicts => q := Retrying(c, d);
          case Fatal => q := Counting(c, ApplyFailed, TokenAndBudget(d), MarkUnsupported);
          case Fails => q := Counting(c, ApplyFailed, TokenAndBudget(d), GoOn);
        }
      case Retrying(c, d) =>
        q := if result.Succeeds? then Accepted(c, d) else Counting(c, ConflictSkipped, TokenAndBudget(d), GoOn);
      case Annotating(_) => q := Idle;
      case Idle | Exited => q := Exited;
    }

    /** The steps of a worker whose candidate has met its outcome. */
    method StepAfterOutcome(cfg: Config, p: Worker) returns (q: Worker)
      requires p.Accepted? || p.Recording? || p.Counting? || p.Stopping? || p.Releasing? || p.Returning?
      requires p.Returning? ==> slots < maxPods
      modifies this, budget
      ensures var (next, op) := Program(cfg, old(View()), p, true, Succeeds);
              q == next && View() == Perform(old(View()), op)
    {
      match p
      case Accepted(c, d) =>
        CommitBudget(c, d);
        q := Recording(c, d);
      case Recording(c, d) =>
        RecordResize(c, NamespaceOf(cfg, c), d);
        q := Annotating(c);
      case Counting(c, o, h, t) =>
        CountOutcome(c, o);
        q := if t.GoOn? then Unwind(c, h) else Stopping(c, h, t);
      case Stopping(c, h, t) =>
        CancelRun(t.MarkUnsupported?);
        q := Unwind(c, h);
      case Releasing(c, d) =>
        ReleaseBudget(d);
        q := Returning(c);
      case Returning(c) =>
        ReturnSlot();
        q := Idle;
    }

    /** The treatment of one candidate. The deferred return of the token runs last. */
    method ProcessOne(cfg: Config, c: nat, env: Answers)
      requires slots <= maxPods
      modifies this`slots, this`counters, this`aggregates, this`cancelled, this`unsupported, budget
      ensures View() == Alone(cfg, old(View()), Entered(c), env)
      ensures old(cancelled) ==> counters == old(counters)
      ensures !old(cancelled) && old(slots) == 0 ==> counters == Bumped(old(counters), MaxPodsSkipped)
      ensures var resized := !old(cancelled) && old(slots) > 0 && VerdictOf(cfg, c).Proposed? && env.gateOpen
                             && HasRoom(cfg, old(budget.View()), c) && GoesThrough(cfg, env);
              && slots == old(slots) - (if resized then 1 else 0)
              && budget.reserved == old(budget.reserved)
              && budget.committed ==
                 (if resized then old(budget.committed).Plus(DeltaOf(cfg, c)) else old(budget.committed))
              && aggregates == (if resized then WithResize(old(aggregates), NamespaceOf(cfg, c), DeltaOf(cfg, c))
                                else old(aggregates))
      ensures !old(cancelled) && old(slots) > 0 ==>
                counters == Recounted(cfg, old(counters), c, HasRoom(cfg, old(budget.View()), c), env)
      ensures var treated := !old(cancelled) && old(slots) > 0;
              var fatal := treated && EndsFatally(cfg, old(budget.View()), c, env);
              && unsupported == (old(unsupported) || fatal)
              && cancelled == (old(cancelled) || fatal || (treated && VerdictOf(cfg, c).MetricsFailed?))
    {
      if cancelled {
        return;
      }
      ghost var sh := View();
      AloneMoves(cfg, sh, Entered(c), env, AtSlots(c), Local);
      var slotReserved := TakeSlot();
      if !slotReserved {
        CountOutcome(c, MaxPodsSkipped);
        AloneMoves(cfg, sh, AtSlots(c), env, Counting(c, MaxPodsSkipped, Empty, GoOn), Local);
        return;
      }
      AloneMoves(cfg, sh, AtSlots(c), env, Evaluating(c), TakeToken);
      var applied := TreatWithToken(cfg, c, env);
      if !applied {
        ReturnSlot();
      }
    }

    /** Counts an outcome and leaves; the ghost parameters say where the worker is and what its defers still hold. */
    method Leave(cfg: Config, ghost p: Worker, c: nat, o: Outcome, ghost hold: Hold, env: Answers)
      requires !p.Idle? && !p.Exited? && Move(cfg, View(), p, env) == (Counting(c, o, hold, GoOn), Local)
      modifies this`counters
      ensures Alone(cfg, old(View()), p, env) == GivenBack(View(), hold) && counters == Bumped(old(counters), o)
    {
      AloneCounts(cfg, View(), p, c, o, hold, env);
      CountOutcome(c, o);
    }

    method CountAndCancel(c: nat, o: Outcome, mark: bool)
      modifies this`counters, this`cancelled, this`unsupported
      ensures View() == Perform(Perform(old(View()), Tick(c, o)), Cancel(mark))
      ensures counters == Bumped(old(counters), o) && cancelled && unsupported == (old(unsupported) || mark)
    {
      CountOutcome(c, o);
      CancelRun(mark);
    }

    /** Counts an outcome, cancels the run and leaves. */
    method Stop(cfg: Config, ghost p: Worker, c: nat, o: Outcome, ghost hold: Hold, then_: Aftermath, env: Answers)
      requires !then_.GoOn? && !p.Idle? && !p.Exited?
      requires Move(cfg, View(), p, env) == (Counting(c, o, hold, then_), Local)
      modifies this`counters, this`cancelled, this`unsupported
      ensures Alone(cfg, old(View()), p, env) == GivenBack(View(), hold) && counters == Bumped(old(counters), o)
      ensures cancelled && unsupported == (old(unsupported) || then_.MarkUnsupported?)
    {
      AloneStops(cfg, View(), p, c, o, hold, then_, env);
      CountAndCancel(c, o, then_.MarkUnsupported?);
    }

    /** From the metrics to the reservation; the deferred release of an unused reservation comes before the token. */
    method TreatWithToken(cfg: Config, c: nat, env: Answers) returns (applied: bool)
      modifies this`counters, this`aggregates, this`cancelled, this`unsupported, budget
      ensures Alone(cfg, old(View()), Evaluating(c), env) == if applied then View() else GivenBack(View(), Token)
      ensures applied <==> VerdictOf(cfg, c).Proposed? && env.gateOpen && HasRoom(cfg, old(budget.View()), c)
                           && GoesThrough(cfg, env)
      ensures budget.committed ==
              if applied then old(budget.committed).Plus(DeltaOf(cfg, c)) else old(budget.committed)
      ensures budget.reserved == old(budget.reserved)
      ensures aggregates ==
              if applied then WithResize(old(aggregates), NamespaceOf(cfg, c), DeltaOf(cfg, c)) else old(aggregates)
      ensures counters == Recounted(cfg, old(counters), c, HasRoom(cfg, old(budget.View()), c), env)
      ensures unsupported == (old(unsupported) || EndsFatally(cfg, old(budget.View()), c, env))
      ensures cancelled ==
              (old(cancelled) || VerdictOf(cfg, c).MetricsFailed? || EndsFatally(cfg, old(budget.View()), c, env))
    {
      applied := false;
      ghost var p := Evaluating(c);
      match VerdictOf(cfg, c)
      case MetricsFailed => Stop(cfg, p, c, MetricsErrors, Token, Aftermath.CancelRun, env);
      case MetricsMissing => Leave(cfg, p, c, MetricsNotFound, Token, env);
      case ClassRefused => Leave(cfg, p, c, QoSSkipped, Token, env);
      case PolicyFailed => AloneMoves(cfg, View(), p, env, Returning(c), Drop(c));
      case NothingToDo => Leave(cfg, p, c, NoChange, Token, env);
      case Proposed(d) =>
        if !env.gateOpen {
          Leave(cfg, p, c, PendingStabilization, Token, env);
        } else {
          AloneMoves(cfg, View(), p, env, Reserving(c, d), Local);
          applied := ReserveAndApply(cfg, c, d, env);
        }
    }

    method ReserveAndApply(cfg: Config, c: nat, d: Delta, env: Answers) returns (applied: bool)
      modifies this`counters, this`aggregates, this`cancelled, this`unsupported, budget
      ensures Alone(cfg, old(View()), Reserving(c, d), env) == if applied then View() else GivenBack(View(), Token)
      ensures budget.committed == if applied then old(budget.committed).Plus(d) else old(budget.committed)
      ensures budget.reserved == old(budget.reserved)
      ensures aggregates == if applied then WithResize(old(aggregates), NamespaceOf(cfg, c), d) else old(aggregates)
      ensures var room := Fits(old(budget.View()), d.cpu, d.memory);
              && (applied <==> room && GoesThrough(cfg, env))
              && counters == Bumped(old(counters), Settled(cfg, room, env))
              && cancelled == (old(cancelled) || (room && FailsFatally(cfg, env)))
              && unsupported == (old(unsupported) || (room && FailsFatally(cfg, env)))
    {
      var budgetReserved := TryReserve(d);
      if !budgetReserved {
        Leave(cfg, Reserving(c, d), c, BudgetSkipped, Token, env);
        return false;
      }
      AloneMoves(cfg, old(View()), Reserving(c, d), env, Reserved(c, d), Reserve(d));
      applied := ApplyReserved(cfg, c, d, env);
      if !applied {
        ReleaseBudget(d);
      }
    }

    /** From the capability check to the counters of a resize. A conflict is retried once on a fresh pod; a fatal
        failure marks the capability and cancels the run. */
    method ApplyReserved(cfg: Config, c: nat, d: Delta, env: Answers) returns (applied: bool)
      modifies this`counters, this`aggregates, this`cancelled, this`unsupported, budget
      ensures Alone(cfg, old(View()), Reserved(c, d), env) ==
              if applied then View() else GivenBack(View(), TokenAndBudget(d))
      ensures applied <==> GoesThrough(cfg, env)
      ensures budget.committed == if applied then old(budget.committed).Plus(d) else old(budget.committed)
      ensures budget.reserved == if applied then old(budget.reserved).Minus(d) else old(budget.reserved)
      ensures aggregates == if applied then WithResize(old(aggregates), NamespaceOf(cfg, c), d) else old(aggregates)
      ensures applied ==> counters == Bumped(old(counters), Resized)
      ensures !applied && cfg.capabilitySupported && env.first.Conflicts? ==>
                counters == Bumped(old(counters), ConflictSkipped)
      ensures !applied && !(cfg.capabilitySupported && env.first.Conflicts?) ==>
                counters == Bumped(old(counters), ApplyFailed)
      ensures cancelled == (old(cancelled) || FailsFatally(cfg, env))
      ensures unsupported == (old(unsupported) || FailsFatally(cfg, env))
    {
      ghost var p := Applying(c, d);
      if !cfg.capabilitySupported {
        Leave(cfg, Reserved(c, d), c, ApplyFailed, TokenAndBudget(d), env);
        return false;
      }
      AloneMoves(cfg, View(), Reserved(c, d), env, p, Local);
      if env.first.Conflicts? {
        AloneMoves(cfg, View(), p, env, Retrying(c, d), Local);
        p := Retrying(c, d);
        if !env.second.Succeeds? {
          Leave(cfg, p, c, ConflictSkipped, TokenAndBudget(d), env);
          return false;
        }
      } else if env.first.Fails? {
        Leave(cfg, p, c, ApplyFailed, TokenAndBudget(d), env);
        return false;
      } else if env.first.Fatal? {
        Stop(cfg, p, c, ApplyFailed, TokenAndBudget(d), MarkUnsupported, env);
        return false;
      }
      AloneMoves(cfg, View(), p, env, Accepted(c, d), Local);
      CommitAndRecord(cfg, c, d, env);
      return true;
    }

    method CommitAndRecord(cfg: Config, c: nat, d: Delta, env: Answers)
      modifies this`counters, this`aggregates, budget
      ensures View() == Alone(cfg, old(View()), Accepted(c, d), env)
      ensures budget.committed == old(budget.committed).Plus(d) && budget.reserved == old(budget.reserved).Minus(d)
      ensures counters == Bumped(old(counters), Resized)
      ensures aggregates == WithResize(old(aggregates), NamespaceOf(cfg, c), d)
    {
      AloneCommits(cfg, View(), c, d, env);
      CommitBudget(c, d);
      RecordResize(c, NamespaceOf(cfg, c), d);
    }
  }

  /** What a worker gives back once it has nothing left but its hold. */
  function GivenBack(sh: Shared, hold: Hold): Shared {
    match hold
    case Empty => sh
    case Token => Perform(sh, GiveToken)
    case TokenAndBudget(d) => Perform(Perform(sh, Release(d)), GiveToken)
  }

  lemma AloneUnwinds(cfg: Config, sh: Shared, c: nat, hold: Hold, env: Answers)
    ensures Alone(cfg, sh, Unwind(c, hold), env) == GivenBack(sh, hold)
  {
    if hold.TokenAndBudget? {
      AloneMoves(cfg, sh, Releasing(c, hold.delta), env, Returning(c), Release(hold.delta));
    }
  }

  lemma AloneCounts(cfg: Config, sh: Shared, p: Worker, c: nat, o: Outcome, hold: Hold, env: Answers)
    requires !p.Idle? && !p.Exited? && Move(cfg, sh, p, env) == (Counting(c, o, hold, GoOn), Local)
    ensures Alone(cfg, sh, p, env) == GivenBack(Perform(sh, Tick(c, o)), hold)
  {
    AloneMoves(cfg, sh, p, env, Counting(c, o, hold, GoOn), Local);
    AloneMoves(cfg, sh, Counting(c, o, hold, GoOn), env, Unwind(c, hold), Tick(c, o));
    AloneUnwinds(cfg, Perform(sh, Tick(c, o)), c, hold, env);
  }

  lemma AloneStops(cfg: Config, sh: Shared, p: Worker, c: nat, o: Outcome, hold: Hold, then_: Aftermath, env: Answers)
    requires !then_.GoOn? && !p.Idle? && !p.Exited?
    requires Move(cfg, sh, p, env) == (Counting(c, o, hold, then_), Local)
    ensures Alone(cfg, sh, p, env) ==
            GivenBack(Perform(Perform(sh, Tick(c, o)), Cancel(then_.MarkUnsupported?)), hold)
  {
    var counted := Perform(sh, Tick(c, o));
    AloneMoves(cfg, sh, p, env, Counting(c, o, hold, then_), Local);
    AloneMoves(cfg, sh, Counting(c, o, hold, then_), env, Stopping(c, hold, then_), Tick(c, o));
    AloneMoves(cfg, counted, Stopping(c, hold, then_), env, Unwind(c, hold), Cancel(then_.MarkUnsupported?));
    AloneUnwinds(cfg, Perform(counted, Cancel(then_.MarkUnsupported?)), c, hold, env);
  }

  lemma AloneCommits(cfg: Config, sh: Shared, c: nat, d: Delta, env: Answers)
    ensures Alone(cfg, sh, Accepted(c, d), env) ==
            Perform(Perform(sh, Commit(c, d)), Record(c, NamespaceOf(cfg, c), d))
  {
    var committed := Perform(sh, Commit(c, d));
    AloneMoves(cfg, sh, Accepted(c, d), env, Recording(c, d), Commit(c, d));
    AloneMoves(cfg, committed, Recording(c, d), env, Annotating(c), Record(c, NamespaceOf(cfg, c), d));
  }
}
