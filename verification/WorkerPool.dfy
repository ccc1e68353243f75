/**
 One run over its candidates: a producer hands candidates to workers over an unbuffered channel, and the workers
 share a token channel, the budget, a cancellable context and the counters. A state holds one program
 counter per worker; an action lets the producer, the surroundings or one worker take one atomic step. The
 outcomes of API calls are part of the action, so every outcome is covered.
 */
module WorkerPool {
  import opened Resources
  import opened Budget

  // ----- what a run is given -----

  /** What metrics and policy say about a candidate, before stabilization, budget and API calls. */
  datatype Verdict =
    | MetricsFailed
    | MetricsMissing
    | ClassRefused
    | PolicyFailed
    | NothingToDo
    | Proposed(delta: Delta)

  datatype Candidate = Candidate(namespace: string, verdict: Verdict)

  datatype Config = Config(maxPods: nat, workers: nat, maxCPU: int, maxMem: int,
                           capabilitySupported: bool, candidates: seq<Candidate>)
  {
    predicate Valid() { 1 <= workers <= maxPods }
  }

  /** The defaults and the cap that the run applies to its two limits. */
  function Limits(maxPodsPerRun: int, maxConcurrentPods: int): (r: (nat, nat))
    ensures 1 <= r.1 <= r.0
    ensures r.0 == if maxPodsPerRun > 0 then maxPodsPerRun else 20
    ensures 0 < maxConcurrentPods <= r.0 ==> r.1 == maxConcurrentPods
    ensures maxConcurrentPods > r.0 ==> r.1 == r.0
    ensures maxConcurrentPods <= 0 ==> r.1 == 10 || (r.1 == r.0 < 10)
  {
    var maxPods := if maxPodsPerRun <= 0 then 20 else maxPodsPerRun;
    var workers := if maxConcurrentPods <= 0 then 10 else maxConcurrentPods;
    (maxPods, if workers > maxPods then maxPods else workers)
  }

  /** What a run is configured with. */
  function Configure(maxPodsPerRun: int, maxConcurrentPods: int, maxCPU: int, maxMem: int, supported: bool,
      candidates: seq<Candidate>): (cfg: Config)
    ensures cfg.Valid()
  {
    var (maxPods, workers) := Limits(maxPodsPerRun, maxConcurrentPods);
    Config(maxPods, workers, maxCPU, maxMem, supported, candidates)
  }

  // ----- program counters -----

  datatype Outcome = MaxPodsSkipped | MetricsErrors | MetricsNotFound | QoSSkipped | NoChange
                   | PendingStabilization | BudgetSkipped | ApplyFailed | ConflictSkipped | Resized

  /** What a worker still holds while it counts an outcome. */
  datatype Hold = Empty | Token | TokenAndBudget(delta: Delta)

  /** What follows the counting of an outcome. */
  datatype Aftermath = GoOn | CancelRun | MarkUnsupported

  datatype Worker =
    | Idle                                            // receiving from the work channel
    | Received(cand: nat)                             // before the context check of the worker loop
    | Entered(cand: nat)                              // before the context check of processOne
    | AtSlots(cand: nat)                              // before the select on the token channel
    | Evaluating(cand: nat)                           // holds a token: metrics, policy, stabilization
    | Reserving(cand: nat, delta: Delta)              // before tryReserveBudget
    | Reserved(cand: nat, delta: Delta)               // before the capability check
    | Applying(cand: nat, delta: Delta)               // first UpdateResize under way
    | Retrying(cand: nat, delta: Delta)               // fresh read and second UpdateResize under way
    | Accepted(cand: nat, delta: Delta)               // before commitBudget
    | Recording(cand: nat, delta: Delta)              // committed, before the resized counters
    | Annotating(cand: nat)                           // before the annotation patch returns
    | Counting(cand: nat, outcome: Outcome, hold: Hold, then_: Aftermath)
    | Stopping(cand: nat, hold: Hold, then_: Aftermath)  // before cancel
    | Releasing(cand: nat, delta: Delta)              // deferred releaseBudget
    | Returning(cand: nat)                            // deferred return of the token
    | Exited

  datatype Aggregate = Aggregate(resized: int, delta: Delta)

  /** The variables that the producer and the workers share. */
  datatype Shared = Shared(
    slots: int,                        // tokens in the channel
    ledger: Ledger,
    cancelled: bool,
    unsupported: bool,                 // the capability has been marked unsupported
    counters: map<Outcome, int>,
    aggregates: map<string, Aggregate>,
    next: nat,                         // candidates handed out so far
    closed: bool)
  {
    function Count(o: Outcome): int {
      if o in counters then counters[o] else 0
    }

    function AggregateOf(ns: string): Aggregate {
      if ns in aggregates then aggregates[ns] else Aggregate(0, ZERO_DELTA)
    }
  }

  /** What became of a candidate. */
  datatype Fate = Unsent | Running | Counted(outcome: Outcome) | Dropped

  /** Not part of the program: what has happened so far. */
  datatype History = History(
    applied: seq<nat>,                 // candidates whose delta was committed, in order
    fates: seq<Fate>,
    refunds: Delta)                    // magnitude of the negative reservations released so far

  datatype Pool = Pool(shared: Shared, workers: seq<Worker>, history: History) {
    predicate Final() {
      shared.closed && forall i | 0 <= i < |workers| :: workers[i].Exited?
    }
  }

  function Start(cfg: Config): Pool {
    Pool(Shared(cfg.maxPods, Ledger(ZERO_DELTA, ZERO_DELTA, cfg.maxCPU, cfg.maxMem), false, false, map[], map[], 0,
        false),
         seq(cfg.workers, i => Idle),
         History([], seq(|cfg.candidates|, i => Unsent), ZERO_DELTA))
  }

  // ----- operations on the shared variables -----

  /** Each operation is atomic in the program: a channel operation, or a section under one mutex. */
  datatype Op =
    | Local
    | HandOut
    | CloseChannel
    | TakeToken
    | GiveToken
    | Reserve(delta: Delta)
    | Release(delta: Delta)
    | Commit(cand: nat, delta: Delta)
    | Record(cand: nat, namespace: string, delta: Delta)
    | Tick(cand: nat, outcome: Outcome)
    | Drop(cand: nat)                  // leaves no trace in the program
    | Cancel(mark: bool)

  function Perform(sh: Shared, op: Op): Shared {
    match op
    case Local => sh
    case HandOut => sh.(next := sh.next + 1)
    case CloseChannel => sh.(closed := true)
    case TakeToken => sh.(slots := sh.slots - 1)
    case GiveToken => sh.(slots := sh.slots + 1)
    case Reserve(d) => sh.(ledger := sh.ledger.Reserve(d))
    case Release(d) => sh.(ledger := sh.ledger.Release(d))
    case Commit(_, d) => sh.(ledger := sh.ledger.Commit(d))
    case Record(_, ns, d) =>
      var agg := sh.AggregateOf(ns);
      sh.(counters := sh.counters[Resized := sh.Count(Resized) + 1],
          aggregates := sh.aggregates[ns := Aggregate(agg.resized + 1, agg.delta.Plus(d))])
    case Tick(_, o) => sh.(counters := sh.counters[o := sh.Count(o) + 1])
    case Drop(_) => sh
    case Cancel(mark) => sh.(cancelled := true, unsupported := sh.unsupported || mark)
  }

  function SetFate(fates: seq<Fate>, cand: nat, f: Fate): seq<Fate> {
    if cand < |fates| then fates[cand := f] else fates
  }

  function Remember(h: History, next: nat, op: Op): History {
    match op
    case HandOut => h.(fates := SetFate(h.fates, next, Running))
    case Release(d) => h.(refunds := h.refunds.Plus(Refund(d)))
    case Commit(c, _) => h.(applied := h.applied + [c])
    case Record(c, _, _) => h.(fates := SetFate(h.fates, c, Counted(Resized)))
    case Tick(c, o) => h.(fates := SetFate(h.fates, c, Counted(o)))
    case Drop(c) => h.(fates := SetFate(h.fates, c, Dropped))
    case _ => h
  }

  // ----- the program of a worker -----

  datatype ApiResult = Succeeds | Conflicts | Fatal | Fails

  /** Where a worker goes after counting an outcome. */
  function Unwind(cand: nat, hold: Hold): Worker {
    match hold
    case Empty => Idle
    case Token => Returning(cand)
    case TokenAndBudget(d) => Releasing(cand, d)
  }

  function AfterVerdict(cand: nat, verdict: Verdict, gateOpen: bool): (Worker, Op) {
    match verdict
    case MetricsFailed => (Counting(cand, MetricsErrors, Token, CancelRun), Local)
    case MetricsMissing => (Counting(cand, MetricsNotFound, Token, GoOn), Local)
    case ClassRefused => (Counting(cand, QoSSkipped, Token, GoOn), Local)
    case PolicyFailed => (Returning(cand), Drop(cand))
    case NothingToDo => (Counting(cand, NoChange, Token, GoOn), Local)
    case Proposed(d) =>
      if gateOpen then (Reserving(cand, d), Local) else (Counting(cand, PendingStabilization, Token, GoOn), Local)
  }

  function AfterApply(cand: nat, d: Delta, result: ApiResult): Worker {
    match result
    case Succeeds => Accepted(cand, d)
    case Conflicts => Retrying(cand, d)
    case Fatal => Counting(cand, ApplyFailed, TokenAndBudget(d), MarkUnsupported)
    case Fails => Counting(cand, ApplyFailed, TokenAndBudget(d), GoOn)
  }

  function VerdictOf(cfg: Config, cand: nat): Verdict {
    if cand < |cfg.candidates| then cfg.candidates[cand].verdict else PolicyFailed
  }

  function NamespaceOf(cfg: Config, cand: nat): string {
    if cand < |cfg.candidates| then cfg.candidates[cand].namespace else ""
  }

  /** One atomic step of a worker at program counter p: the next program counter and the shared operation. */
  function Program(cfg: Config, sh: Shared, p: Worker, gateOpen: bool, result: ApiResult): (Worker, Op) {
    match p
    case Idle => (Exited, Local)
    case Received(c) => if sh.cancelled then (Idle, Drop(c)) else (Entered(c), Local)
    case Entered(c) => if sh.cancelled then (Idle, Drop(c)) else (AtSlots(c), Local)
    case AtSlots(c) =>
      if sh.slots > 0 then (Evaluating(c), TakeToken) else (Counting(c, MaxPodsSkipped, Empty, GoOn), Local)
    case Evaluating(c) => AfterVerdict(c, VerdictOf(cfg, c), gateOpen)
    case Reserving(c, d) =>
      if sh.ledger.Admits(d) then (Reserved(c, d), Reserve(d)) else (Counting(c, BudgetSkipped, Token, GoOn), Local)
    case Reserved(c, d) =>
      if cfg.capabilitySupported then (Applying(c, d), Local)
      else (Counting(c, ApplyFailed, TokenAndBudget(d), GoOn), Local)
    case Applying(c, d) => (AfterApply(c, d, result), Local)
    case Retrying(c, d) =>
      if result.Succeeds? then (Accepted(c, d), Local)
      else (Counting(c, ConflictSkipped, TokenAndBudget(d), GoOn), Local)
    case Accepted(c, d) => (Recording(c, d), Commit(c, d))
    case Recording(c, d) => (Annotating(c), Record(c, NamespaceOf(cfg, c), d))
    case Annotating(c) => (Idle, Local)
    case Counting(c, o, h, t) => (if t.GoOn? then Unwind(c, h) else Stopping(c, h, t), Tick(c, o))
    // Marking the capability and cancelling happen once in the program; repeating them would change nothing.
    case Stopping(c, h, t) => (Unwind(c, h), Cancel(t.MarkUnsupported?))
    case Releasing(c, d) => (Returning(c), Release(d))
    case Returning(c) => (Idle, GiveToken)
    case Exited => (Exited, Local)
  }

  // ----- actions -----

  datatype Action =
    | Send(worker: nat)                 // the producer hands the next candidate to an idle worker
    | Close                             // the producer closes the channel
    | CancelOutside                     // the surrounding context is cancelled
    | Work(worker: nat, gateOpen: bool, result: ApiResult)

  ghost predicate Enabled(cfg: Config, s: Pool, a: Action) {
    match a
    case Send(w) => !s.shared.closed && s.shared.next < |cfg.candidates| && w < |s.workers| && s.workers[w].Idle?
    case Close => !s.shared.closed && (s.shared.next == |cfg.candidates| || s.shared.cancelled)
    case CancelOutside => !s.shared.cancelled
    case Work(w, _, _) =>
      && w < |s.workers|
      && (s.workers[w].Idle? ==> s.shared.closed)
      && !s.workers[w].Exited?
      && (s.workers[w].Returning? ==> s.shared.slots < cfg.maxPods)   // a send on the full token channel would block
  }

  /** The next program counter of the worker that acts, and the shared operation of the action. */
  function Step(cfg: Config, s: Pool, a: Action): (Worker, Op) {
    match a
    case Send(_) => (Received(s.shared.next), HandOut)
    case Close => (Idle, CloseChannel)
    case CancelOutside => (Idle, Cancel(false))
    case Work(w, gateOpen, result) =>
      if w < |s.workers| then Program(cfg, s.shared, s.workers[w], gateOpen, result) else (Idle, Local)
  }

  /** Worker w moves to program counter q while the shared operation takes place. */
  function After(s: Pool, w: nat, q: Worker, op: Op): Pool
    requires w < |s.workers|
  {
    Pool(Perform(s.shared, op), s.workers[w := q], Remember(s.history, s.shared.next, op))
  }

  function Apply(cfg: Config, s: Pool, a: Action): Pool {
    var (q, op) := Step(cfg, s, a);
    if (a.Send? || a.Work?) && a.worker < |s.workers| then After(s, a.worker, q, op)
    else Pool(Perform(s.shared, op), s.workers, Remember(s.history, s.shared.next, op))
  }

  // ----- runs -----

  /** The actions are enabled one after the other. */
  ghost predicate CanRun(cfg: Config, s: Pool, acts: seq<Action>)
    decreases |acts|
  {
    acts == [] || (Enabled(cfg, s, acts[0]) && CanRun(cfg, Apply(cfg, s, acts[0]), acts[1..]))
  }

  function Run(cfg: Config, s: Pool, acts: seq<Action>): Pool
    decreases |acts|
  {
    if acts == [] then s else Run(cfg, Apply(cfg, s, acts[0]), acts[1..])
  }
}
