/**
 What a run makes of the answers it gets: whether a candidate is resized, and how it is counted otherwise, is decided by
 its verdict and by the log of what its worker asked and was answered.
 */
module PoolAnswers {
  import opened Budget
  import opened WorkerPool
  import opened PoolInvariant
  import opened PoolTheorems

  /** A question that a worker asks on behalf of its candidate, with the answer. */
  datatype Event =
    | Slot(taken: bool)              // is there a token left in the channel?
    | Gate(open: bool)                // may the proposal go through stabilization?
    | Room(fits: bool)                // do both positive maxima leave room for the delta?
    | First(result: ApiResult)        // the first resize request
    | Second(accepted: bool)          // the retry after a conflict

  /** Both positive maxima leave room. */
  predicate Fits(l: Ledger, cpu: int, memory: int) {
    && (l.maxCPU > 0 ==> l.committed.cpu + l.reserved.cpu + cpu <= l.maxCPU)
    && (l.maxMem > 0 ==> l.committed.memory + l.reserved.memory + memory <= l.maxMem)
  }

  /** What a worker asks in its next step. Only a proposal is taken to the gate. */
  function Asks(cfg: Config, sh: Shared, p: Worker, gateOpen: bool, result: ApiResult): seq<Event> {
    match p
    case AtSlots(_) => [Slot(sh.slots > 0)]
    case Evaluating(c) => if VerdictOf(cfg, c).Proposed? then [Gate(gateOpen)] else []
    case Reserving(_, d) => [Room(Fits(sh.ledger, d.cpu, d.memory))]
    case Applying(_, _) => [First(result)]
    case Retrying(_, _) => [Second(result.Succeeds?)]
    case _ => []
  }

  /** What an action adds to the log of a candidate. */
  function Entry(cfg: Config, s: Pool, a: Action, c: nat): seq<Event> {
    if a.Work? && a.worker < |s.workers| && Busy(s.workers[a.worker]) && s.workers[a.worker].cand == c
      then Asks(cfg, s.shared, s.workers[a.worker], a.gateOpen, a.result)
    else []
  }

  /** All that is asked for a candidate along a sequence of actions, in order. */
  function Log(cfg: Config, s: Pool, acts: seq<Action>, c: nat): seq<Event>
    decreases |acts|
  {
    if acts == [] then [] else Entry(cfg, s, acts[0], c) + Log(cfg, Apply(cfg, s, acts[0]), acts[1..], c)
  }

  // ----- what a log stands for -----

  const ADMITTED: seq<Event> := [Slot(true), Gate(true), Room(true)]

  /** The resize was accepted, at once or on the retry. */
  predicate Accepts(log: seq<Event>) {
    log == ADMITTED + [First(Succeeds)] || log == ADMITTED + [First(Conflicts), Second(true)]
  }

  /** The logs that lead to an outcome. */
  predicate LeadsTo(cfg: Config, log: seq<Event>, o: Outcome) {
    match o
    case MaxPodsSkipped => log == [Slot(false)]
    case PendingStabilization => log == [Slot(true), Gate(false)]
    case BudgetSkipped => log == [Slot(true), Gate(true), Room(false)]
    case ApplyFailed =>
      if cfg.capabilitySupported then log == ADMITTED + [First(Fails)] || log == ADMITTED + [First(Fatal)]
      else log == ADMITTED
    case ConflictSkipped => log == ADMITTED + [First(Conflicts), Second(false)]
    case Resized => Accepts(log)
    case _ => log == [Slot(true)]
  }

  /** The logs of a candidate whose worker is at a program counter. */
  predicate LogAt(cfg: Config, log: seq<Event>, p: Worker) {
    match p
    case Received(_) => log == []
    case Entered(_) => log == []
    case AtSlots(_) => log == []
    case Evaluating(_) => log == [Slot(true)]
    case Reserving(_, _) => log == [Slot(true), Gate(true)]
    case Reserved(_, _) => log == ADMITTED
    case Applying(_, _) => log == ADMITTED
    case Retrying(_, _) => log == ADMITTED + [First(Conflicts)]
    case Accepted(_, _) => Accepts(log)
    case Recording(_, _) => Accepts(log)
    case Counting(_, o, _, _) => LeadsTo(cfg, log, o)
    case _ => true
  }

  predicate LeavesUncounted(cfg: Config, log: seq<Event>, c: nat) {
    log == [] || (log == [Slot(true)] && VerdictOf(cfg, c).PolicyFailed?)
  }

  ghost predicate LogFits(cfg: Config, s: Pool, log: seq<Event>, c: nat) {
    && (c >= s.shared.next ==> log == [])
    && (forall i | 0 <= i < |s.workers| && Busy(s.workers[i]) && s.workers[i].cand == c ::
          LogAt(cfg, log, s.workers[i]))
    && (c in s.history.applied ==> Accepts(log))
    && (c < |s.history.fates| && s.history.fates[c].Counted? ==> LeadsTo(cfg, log, s.history.fates[c].outcome))
    && (c < |s.history.fates| && s.history.fates[c].Dropped? ==> LeavesUncounted(cfg, log, c))
  }

  // ----- every step keeps the log -----

  lemma ProgramLogs(cfg: Config, sh: Shared, p: Worker, gateOpen: bool, result: ApiResult, log: seq<Event>)
    requires LogAt(cfg, log, p) && (p.Applying? || p.Retrying? ==> cfg.capabilitySupported)
    ensures LogAt(cfg, log + Asks(cfg, sh, p, gateOpen, result), Program(cfg, sh, p, gateOpen, result).0)
  {
  }

  /** What the log holds when an operation decides about the candidate. */
  lemma DecisionsAreLogged(cfg: Config, sh: Shared, p: Worker, gateOpen: bool, result: ApiResult, log: seq<Event>)
    requires LogAt(cfg, log, p)
    ensures var op := Program(cfg, sh, p, gateOpen, result).1;
            var now := log + Asks(cfg, sh, p, gateOpen, result);
            && (op.Commit? ==> Accepts(now))
            && (op.Tick? ==> LeadsTo(cfg, now, op.outcome))
            && (op.Record? ==> LeadsTo(cfg, now, Resized))
            && (op.Drop? ==> LeavesUncounted(cfg, now, op.cand))
  {
  }

  /** Only a worker whose candidate is neither applied nor decided asks anything. */
  lemma AsksBeforeDeciding(cfg: Config, s: Pool, w: nat, gateOpen: bool, result: ApiResult, c: nat)
    requires AppliedOnce(s) && FatesFit(s) && w < |s.workers| && Busy(s.workers[w]) && s.workers[w].cand == c
    requires Asks(cfg, s.shared, s.workers[w], gateOpen, result) != []
    ensures c !in s.history.applied && c < |s.history.fates| && s.history.fates[c] == Running
  {
    assert Uncommitted(s.workers[w]);
  }

  /** The worker that has the candidate takes a step. */
  lemma LogKeptByOwner(cfg: Config, s: Pool, w: nat, q: Worker, op: Op, log: seq<Event>, now: seq<Event>, c: nat)
    requires Ownership(s) && LogFits(cfg, s, log, c)
    requires w < |s.workers| && Busy(s.workers[w]) && s.workers[w].cand == c && !op.HandOut?
    requires now == log || (c !in s.history.applied && c < |s.history.fates| && s.history.fates[c] == Running)
    requires Busy(q) ==> q.cand == c
    requires LogAt(cfg, now, q)
    requires op.Commit? ==> Accepts(now)
    requires op.Tick? ==> LeadsTo(cfg, now, op.outcome)
    requires op.Record? ==> LeadsTo(cfg, now, Resized)
    requires op.Drop? ==> LeavesUncounted(cfg, now, op.cand) && op.cand == c
    ensures LogFits(cfg, After(s, w, q, op), now, c)
  {
  }

  /** Another worker takes a step. */
  lemma LogKeptByOther(cfg: Config, s: Pool, w: nat, q: Worker, op: Op, log: seq<Event>, c: nat)
    requires LogFits(cfg, s, log, c) && w < |s.workers| && !op.HandOut?
    requires Busy(q) ==> q.cand != c
    requires op.Commit? || Decides(op) ==> op.cand != c
    ensures LogFits(cfg, After(s, w, q, op), log, c)
  {
  }

  lemma LogAfterWork(cfg: Config, s: Pool, a: Action, log: seq<Event>, c: nat)
    requires Inv(cfg, s) && Enabled(cfg, s, a) && LogFits(cfg, s, log, c)
    requires a.Work? && Busy(s.workers[a.worker]) && s.workers[a.worker].cand == c
    ensures LogFits(cfg, Apply(cfg, s, a), log + Entry(cfg, s, a, c), c)
  {
    var p := s.workers[a.worker];
    var (q, op) := Step(cfg, s, a);
    assert Entry(cfg, s, a, c) == Asks(cfg, s.shared, p, a.gateOpen, a.result);
    if Entry(cfg, s, a, c) != [] {
      AsksBeforeDeciding(cfg, s, a.worker, a.gateOpen, a.result, c);
    }
    CandidateOfStep(cfg, s.shared, p, a.gateOpen, a.result);
    ProgramLogs(cfg, s.shared, p, a.gateOpen, a.result, log);
    DecisionsAreLogged(cfg, s.shared, p, a.gateOpen, a.result, log);
    LogKeptByOwner(cfg, s, a.worker, q, op, log, log + Entry(cfg, s, a, c), c);
  }

  lemma CandidateOfStep(cfg: Config, sh: Shared, p: Worker, gateOpen: bool, result: ApiResult)
    ensures var (q, op) := Program(cfg, sh, p, gateOpen, result);
            && !op.HandOut?
            && (Busy(q) ==> Busy(p) && q.cand == p.cand)
            && (op.Commit? || Decides(op) ==> Busy(p) && op.cand == p.cand)
  {
  }

  lemma LogStep(cfg: Config, s: Pool, a: Action, log: seq<Event>, c: nat)
    requires Inv(cfg, s) && Enabled(cfg, s, a) && LogFits(cfg, s, log, c)
    ensures LogFits(cfg, Apply(cfg, s, a), log + Entry(cfg, s, a, c), c)
  {
    if a.Work? && Busy(s.workers[a.worker]) && s.workers[a.worker].cand == c {
      LogAfterWork(cfg, s, a, log, c);
    } else {
      assert log + Entry(cfg, s, a, c) == log;
      if a.Work? {
        var (q, op) := Step(cfg, s, a);
        CandidateOfStep(cfg, s.shared, s.workers[a.worker], a.gateOpen, a.result);
        LogKeptByOther(cfg, s, a.worker, q, op, log, c);
      } else {
        LogAfterOthers(cfg, s, a, log, c);
      }
    }
  }

  lemma LogAfterOthers(cfg: Config, s: Pool, a: Action, log: seq<Event>, c: nat)
    requires Enabled(cfg, s, a) && !a.Work? && LogFits(cfg, s, log, c)
    ensures LogFits(cfg, Apply(cfg, s, a), log, c)
  {
  }

  lemma {:induction false} LogAlongRun(cfg: Config, s: Pool, acts: seq<Action>, log: seq<Event>, c: nat)
    requires Inv(cfg, s) && CanRun(cfg, s, acts) && LogFits(cfg, s, log, c)
    ensures LogFits(cfg, Run(cfg, s, acts), log + Log(cfg, s, acts, c), c)
    decreases |acts|
  {
    if acts == [] {
      assert log + [] == log;
    } else {
      var longer := log + Entry(cfg, s, acts[0], c);
      InvKept(cfg, s, acts[0]);
      LogStep(cfg, s, acts[0], log, c);
      LogAlongRun(cfg, Apply(cfg, s, acts[0]), acts[1..], longer, c);
      LogSplits(cfg, s, acts, log, c);
    }
  }

  lemma LogSplits(cfg: Config, s: Pool, acts: seq<Action>, log: seq<Event>, c: nat)
    requires acts != []
    ensures log + Log(cfg, s, acts, c) ==
            log + Entry(cfg, s, acts[0], c) + Log(cfg, Apply(cfg, s, acts[0]), acts[1..], c)
  {
  }

  lemma LogFromStart(cfg: Config, acts: seq<Action>, s: Pool, c: nat)
    requires Reaches(cfg, acts, s)
    ensures LogFits(cfg, s, Log(cfg, Start(cfg), acts, c), c)
  {
    InvAtStart(cfg);
    LogAlongRun(cfg, Start(cfg), acts, [], c);
    assert [] + Log(cfg, Start(cfg), acts, c) == Log(cfg, Start(cfg), acts, c);
  }

  // ----- the main results -----

  /** Whoever is resized had a token, an open gate and room in the budget, asked for in this order, and the API accepted
      the resize, at once or on the one retry after a conflict; and every candidate counted has a log of its outcome. */
  lemma ResizesAreAccepted(cfg: Config, acts: seq<Action>, s: Pool, c: nat)
    requires Reaches(cfg, acts, s)
    ensures c in s.history.applied ==> Accepts(Log(cfg, Start(cfg), acts, c)) && cfg.capabilitySupported
    ensures c < |s.history.fates| && s.history.fates[c].Counted? ==>
              LeadsTo(cfg, Log(cfg, Start(cfg), acts, c), s.history.fates[c].outcome)
  {
    LogFromStart(cfg, acts, s, c);
    AppliedWereProposed(cfg, acts, s);
  }

  lemma DecidedInTheEnd(cfg: Config, s: Pool, c: nat)
    requires FatesFit(s) && s.Final() && c < |s.history.fates|
    ensures s.history.fates[c] != Running
  {
    SumOfZeros(s.workers, UndecidedBit);
    NoFateLeft(s.history.fates, Running, c);
  }

  lemma {:induction false} NoFateLeft(fates: seq<Fate>, f: Fate, c: nat)
    requires CountFates(fates, f) == 0 && c < |fates|
    ensures fates[c] != f
  {
    if c == 0 {
    } else {
      NoFateLeft(fates[1..], f, c - 1);
    }
  }

  /** The outcomes that agree on their log are told apart by the verdict. */
  lemma LogsDiffer(cfg: Config, log: seq<Event>, c: nat, o: Outcome, other: Outcome)
    requires LeadsTo(cfg, log, o) && LeadsTo(cfg, log, other)
    requires Explains(cfg, c, o) && Explains(cfg, c, other)
    ensures o == other
  {
    assert |log| > 1 ==> log[1] == Gate(|log| > 2);
    assert |log| > 3 ==> log[3].First? && (log[|log| - 1].Second? <==> |log| > 4);
  }

  /** A log leads to one fate only. */
  lemma LogsTell(cfg: Config, fate: Fate, log: seq<Event>, c: nat)
    requires !fate.Running? && (fate.Unsent? ==> log == [])
    requires fate.Counted? ==> LeadsTo(cfg, log, fate.outcome) && Explains(cfg, c, fate.outcome)
    requires fate.Dropped? ==> LeavesUncounted(cfg, log, c)
    ensures forall o: Outcome :: fate == Counted(o) <==> LeadsTo(cfg, log, o) && Explains(cfg, c, o)
    ensures Accepts(log) ==> fate == Counted(Resized)
    ensures !fate.Counted? <==> LeavesUncounted(cfg, log, c)
  {
    forall o: Outcome | LeadsTo(cfg, log, o) && Explains(cfg, c, o) ensures fate == Counted(o) {
      if fate.Counted? {
        LogsDiffer(cfg, log, c, o, fate.outcome);
      }
    }
  }

  lemma FateAndLog(cfg: Config, s: Pool, log: seq<Event>, c: nat)
    requires Inv(cfg, s) && s.Final() && LogFits(cfg, s, log, c) && c < |s.history.fates|
    ensures var fate := s.history.fates[c];
            && !fate.Running? && (fate.Unsent? ==> log == [])
            && (fate.Counted? ==> LeadsTo(cfg, log, fate.outcome) && Explains(cfg, c, fate.outcome))
            && (fate.Dropped? ==> LeavesUncounted(cfg, log, c))
            && (fate == Counted(Resized) ==> c in s.history.applied)
  {
    DecidedInTheEnd(cfg, s, c);
  }

  /** After the wait the log and the verdict of a candidate say exactly how it was counted and whether it was resized;
      without a count it was left aside by a cancellation before anything was asked, or by a policy failure. */
  lemma FateExact(cfg: Config, acts: seq<Action>, s: Pool, c: nat)
    requires Reaches(cfg, acts, s) && s.Final() && c < |cfg.candidates|
    ensures c < |s.history.fates|
    ensures forall o: Outcome :: s.history.fates[c] == Counted(o) <==>
              LeadsTo(cfg, Log(cfg, Start(cfg), acts, c), o) && Explains(cfg, c, o)
    ensures c in s.history.applied <==> Accepts(Log(cfg, Start(cfg), acts, c))
    ensures !s.history.fates[c].Counted? <==> LeavesUncounted(cfg, Log(cfg, Start(cfg), acts, c), c)
  {
    ReachableInv(cfg, acts, s);
    LogFromStart(cfg, acts, s, c);
    var log := Log(cfg, Start(cfg), acts, c);
    FateAndLog(cfg, s, log, c);
    LogsTell(cfg, s.history.fates[c], log, c);
  }
}
