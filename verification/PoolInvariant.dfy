/** What every step of a run keeps, for every interleaving and every outcome of the API calls. */
module PoolInvariant {
  import opened Resources
  import opened WorkerPool

  // ----- sums over workers -----

  function Sum<T>(ws: seq<T>, f: T -> int): int {
    if ws == [] then 0 else f(ws[0]) + Sum(ws[1..], f)
  }

  lemma {:induction false} SumUpdate<T>(ws: seq<T>, i: nat, w: T, f: T -> int)
    requires i < |ws|
    ensures Sum(ws[i := w], f) == Sum(ws, f) - f(ws[i]) + f(w)
  {
    if i == 0 {
      assert ws[i := w][1..] == ws[1..];
    } else {
      assert ws[i := w][1..] == ws[1..][i - 1 := w];
      SumUpdate(ws[1..], i - 1, w, f);
    }
  }

  lemma {:induction false} SumOfZeros<T>(ws: seq<T>, f: T -> int)
    requires forall i | 0 <= i < |ws| :: f(ws[i]) == 0
    ensures Sum(ws, f) == 0
  {
    if ws == [] {
    } else {
      SumOfZeros(ws[1..], f);
    }
  }

  lemma {:induction false} SumNonNegative<T>(ws: seq<T>, f: T -> int)
    requires forall i | 0 <= i < |ws| :: f(ws[i]) >= 0
    ensures Sum(ws, f) >= 0
  {
    if ws == [] {
    } else {
      SumNonNegative(ws[1..], f);
    }
  }

  lemma {:induction false} SumBounds<T>(ws: seq<T>, f: T -> int)
    requires forall i | 0 <= i < |ws| :: 0 <= f(ws[i]) <= 1
    ensures 0 <= Sum(ws, f) <= |ws|
    ensures forall i | 0 <= i < |ws| :: f(ws[i]) <= Sum(ws, f) <= |ws| - 1 + f(ws[i])
  {
    if ws == [] {
    } else {
      SumBounds(ws[1..], f);
      forall i | 0 <= i < |ws| ensures f(ws[i]) <= Sum(ws, f) <= |ws| - 1 + f(ws[i]) {
        if i > 0 {
          assert ws[1..][i - 1] == ws[i];
        }
      }
    }
  }

  // ----- what a program counter stands for -----

  function HoldsToken(p: Worker): int {
    match p
    case Evaluating(_) | Reserving(_, _) | Reserved(_, _) | Applying(_, _) | Retrying(_, _) | Accepted(_, _) => 1
    case Releasing(_, _) | Returning(_) => 1
    case Counting(_, _, h, _) => if h.Empty? then 0 else 1
    case Stopping(_, h, _) => if h.Empty? then 0 else 1
    case _ => 0
  }

  function HeldDelta(p: Worker): Delta {
    match p
    case Reserved(_, d) => d
    case Applying(_, d) => d
    case Retrying(_, d) => d
    case Accepted(_, d) => d
    case Releasing(_, d) => d
    case Counting(_, _, h, _) => if h.TokenAndBudget? then h.delta else ZERO_DELTA
    case Stopping(_, h, _) => if h.TokenAndBudget? then h.delta else ZERO_DELTA
    case _ => ZERO_DELTA
  }

  function HeldCpu(p: Worker): int { HeldDelta(p).cpu }

  function HeldMem(p: Worker): int { HeldDelta(p).memory }

  /** Committed, but not yet in the counters. */
  function Unrecorded(p: Worker): int { if p.Recording? then 1 else 0 }

  function UnrecordedCpu(p: Worker): int { if p.Recording? then p.delta.cpu else 0 }

  function UnrecordedMem(p: Worker): int { if p.Recording? then p.delta.memory else 0 }

  predicate Busy(p: Worker) { !p.Idle? && !p.Exited? }

  /** The candidate has neither been counted nor dropped yet. */
  predicate Undecided(p: Worker) {
    Busy(p) && !p.Annotating? && !p.Stopping? && !p.Releasing? && !p.Returning?
  }

  function UndecidedBit(p: Worker): int { if Undecided(p) then 1 else 0 }

  /** The worker knows the delta of its candidate. */
  predicate CarriesDelta(p: Worker) {
    match p
    case Counting(_, _, h, _) => h.TokenAndBudget?
    case Stopping(_, h, _) => h.TokenAndBudget?
    case _ => p.Reserving? || p.Reserved? || p.Applying? || p.Retrying? || p.Accepted? || p.Recording? || p.Releasing?
  }

  function CarriedDelta(p: Worker): Delta
    requires CarriesDelta(p)
  {
    match p
    case Counting(_, _, h, _) => h.delta
    case Stopping(_, h, _) => h.delta
    case _ => p.delta
  }

  predicate Uncommitted(p: Worker) { Undecided(p) && !p.Recording? }

  // ----- the invariant -----

  ghost predicate Shape(cfg: Config, s: Pool) {
    && cfg.Valid() && |s.workers| == cfg.workers
    && s.shared.next <= |cfg.candidates| == |s.history.fates|
    && s.shared.ledger.maxCPU == cfg.maxCPU && s.shared.ledger.maxMem == cfg.maxMem
    && (s.shared.closed ==> s.shared.next == |cfg.candidates| || s.shared.cancelled)
    && (!s.shared.closed ==> forall i | 0 <= i < |s.workers| :: !s.workers[i].Exited?)
  }

  /** Every candidate is with at most one worker. */
  ghost predicate Ownership(s: Pool) {
    && (forall i | 0 <= i < |s.workers| && Busy(s.workers[i]) :: s.workers[i].cand < s.shared.next)
    && (forall i, j | 0 <= i < j < |s.workers| ::
          Busy(s.workers[i]) && Busy(s.workers[j]) ==> s.workers[i].cand != s.workers[j].cand)
  }

  /** A worker's delta is the one the policy proposed for its candidate. */
  ghost predicate CarriesProposal(cfg: Config, p: Worker) {
    CarriesDelta(p) ==> VerdictOf(cfg, p.cand) == Proposed(CarriedDelta(p))
  }

  ghost predicate Proposals(cfg: Config, s: Pool) {
    && (forall i | 0 <= i < |s.workers| :: CarriesProposal(cfg, s.workers[i]))
    && (forall c | c in s.history.applied :: VerdictOf(cfg, c).Proposed?)
  }

  /** Tokens in the channel, tokens held and applied candidates make up the limit of the run. */
  ghost predicate TokensConserved(cfg: Config, s: Pool) {
    s.shared.slots >= 0 && s.shared.slots + Sum(s.workers, HoldsToken) + |s.history.applied| == cfg.maxPods
  }

  function DeltaOf(cfg: Config, cand: nat): Delta {
    match VerdictOf(cfg, cand)
    case Proposed(d) => d
    case _ => ZERO_DELTA
  }

  function Total(cfg: Config, applied: seq<nat>): Delta {
    if applied == [] then ZERO_DELTA
    else Total(cfg, applied[..|applied| - 1]).Plus(DeltaOf(cfg, applied[|applied| - 1]))
  }

  /** Reserved is what the workers hold, committed is what was applied. */
  ghost predicate LedgerConserved(cfg: Config, s: Pool) {
    && s.shared.ledger.reserved == Delta(Sum(s.workers, HeldCpu), Sum(s.workers, HeldMem))
    && s.shared.ledger.committed == Total(cfg, s.history.applied)
  }

  ghost predicate BudgetBounded(s: Pool) {
    s.shared.ledger.Within(s.history.refunds) && s.history.refunds.cpu >= 0 && s.history.refunds.memory >= 0
  }

  ghost predicate AppliedOnce(s: Pool) {
    && (forall i, j | 0 <= i < j < |s.history.applied| :: s.history.applied[i] != s.history.applied[j])
    && (forall c | c in s.history.applied :: c < s.shared.next)
    && (forall i | 0 <= i < |s.workers| && Uncommitted(s.workers[i]) :: s.workers[i].cand !in s.history.applied)
  }

  // ----- preservation -----

  /** What a step of the program does to the tokens and deltas a worker holds. */
  lemma ProgramBalance(cfg: Config, sh: Shared, p: Worker, gateOpen: bool, result: ApiResult)
    ensures var (q, op) := Program(cfg, sh, p, gateOpen, result);
            && HoldsToken(q) - HoldsToken(p) ==
                 (match op case TakeToken => 1 case GiveToken => -1 case Commit(_, _) => -1 case _ => 0)
            && HeldDelta(q).Minus(HeldDelta(p)) == BalanceOf(op)
            && (op.Reserve? ==> sh.ledger.Admits(op.delta))
            && (op.TakeToken? ==> sh.slots > 0)
            && (op.Commit? ==> p == Accepted(op.cand, op.delta))
            && !op.HandOut? && !op.CloseChannel?
  {
  }

  lemma ShapeKept(cfg: Config, s: Pool, a: Action)
    requires Shape(cfg, s) && Enabled(cfg, s, a)
    ensures Shape(cfg, Apply(cfg, s, a))
  {
    if a.Work? {
      ProgramBalance(cfg, s.shared, s.workers[a.worker], a.gateOpen, a.result);
      ProgramExits(cfg, s.shared, s.workers[a.worker], a.gateOpen, a.result);
      var (q, op) := Step(cfg, s, a);
      ShapeAfter(cfg, s, a.worker, q, op);
    }
  }

  lemma ProgramExits(cfg: Config, sh: Shared, p: Worker, gateOpen: bool, result: ApiResult)
    ensures Program(cfg, sh, p, gateOpen, result).0.Exited? ==> p.Idle? || p.Exited?
  {
  }

  lemma ShapeAfter(cfg: Config, s: Pool, w: nat, q: Worker, op: Op)
    requires Shape(cfg, s) && w < |s.workers| && !op.HandOut? && !op.CloseChannel?
    requires q.Exited? ==> s.shared.closed
    ensures Shape(cfg, After(s, w, q, op))
  {
  }

  lemma TokensKept(cfg: Config, s: Pool, a: Action)
    requires TokensConserved(cfg, s) && Enabled(cfg, s, a)
    ensures TokensConserved(cfg, Apply(cfg, s, a))
  {
    if a.Work? || a.Send? {
      SumUpdate(s.workers, a.worker, Step(cfg, s, a).0, HoldsToken);
    }
    if a.Work? {
      ProgramBalance(cfg, s.shared, s.workers[a.worker], a.gateOpen, a.result);
    }
  }

  lemma LedgerKept(cfg: Config, s: Pool, a: Action)
    requires Proposals(cfg, s) && LedgerConserved(cfg, s) && Enabled(cfg, s, a)
    ensures LedgerConserved(cfg, Apply(cfg, s, a))
  {
    if a.Send? {
      SumUpdate(s.workers, a.worker, Step(cfg, s, a).0, HeldCpu);
      SumUpdate(s.workers, a.worker, Step(cfg, s, a).0, HeldMem);
    } else if a.Work? {
      var p := s.workers[a.worker];
      assert CarriesProposal(cfg, p);
      ProgramBalance(cfg, s.shared, p, a.gateOpen, a.result);
      var (q, op) := Step(cfg, s, a);
      LedgerKeptAfter(cfg, s, a.worker, q, op);
    }
  }

  /** The change of the held delta that an operation on the budget accounts for. */
  function BalanceOf(op: Op): Delta {
    match op
    case Reserve(d) => d
    case Release(d) => ZERO_DELTA.Minus(d)
    case Commit(_, d) => ZERO_DELTA.Minus(d)
    case _ => ZERO_DELTA
  }

  lemma LedgerKeptAfter(cfg: Config, s: Pool, w: nat, q: Worker, op: Op)
    requires LedgerConserved(cfg, s) && w < |s.workers|
    requires HeldDelta(q).Minus(HeldDelta(s.workers[w])) == BalanceOf(op)
    requires op.Commit? ==> op.delta == DeltaOf(cfg, op.cand)
    ensures LedgerConserved(cfg, After(s, w, q, op))
  {
    SumUpdate(s.workers, w, q, HeldCpu);
    SumUpdate(s.workers, w, q, HeldMem);
    if op.Commit? {
      var applied := s.history.applied + [op.cand];
      assert applied[..|applied| - 1] == s.history.applied;
    }
  }

  lemma BudgetKept(cfg: Config, s: Pool, a: Action)
    requires BudgetBounded(s) && Enabled(cfg, s, a)
    ensures BudgetBounded(Apply(cfg, s, a))
  {
    if a.Work? {
      ProgramBalance(cfg, s.shared, s.workers[a.worker], a.gateOpen, a.result);
    }
  }

  /** A worker keeps its candidate until it is idle again. */
  lemma ProgramKeepsCandidate(cfg: Config, sh: Shared, p: Worker, gateOpen: bool, result: ApiResult)
    ensures var (q, op) := Program(cfg, sh, p, gateOpen, result);
            && (Busy(q) ==> Busy(p) && q.cand == p.cand)
            && (Uncommitted(q) ==> Uncommitted(p))
            && (op.Commit? ==> Uncommitted(p) && p.cand == op.cand && !Uncommitted(q))
            && (CarriesDelta(q) ==> VerdictOf(cfg, p.cand) == Proposed(CarriedDelta(q))
                                    || (CarriesDelta(p) && CarriedDelta(p) == CarriedDelta(q)))
  {
  }

  lemma OwnershipKept(cfg: Config, s: Pool, a: Action)
    requires Ownership(s) && Enabled(cfg, s, a)
    ensures Ownership(Apply(cfg, s, a))
  {
    if a.Work? {
      ProgramBalance(cfg, s.shared, s.workers[a.worker], a.gateOpen, a.result);
      ProgramKeepsCandidate(cfg, s.shared, s.workers[a.worker], a.gateOpen, a.result);
    }
  }

  lemma ProposalsKept(cfg: Config, s: Pool, a: Action)
    requires Proposals(cfg, s) && Enabled(cfg, s, a)
    ensures Proposals(cfg, Apply(cfg, s, a))
  {
    if a.Work? {
      var p := s.workers[a.worker];
      assert CarriesProposal(cfg, p);
      WorkCarriesProposal(cfg, s.shared, p, a.gateOpen, a.result);
    }
  }

  lemma WorkCarriesProposal(cfg: Config, sh: Shared, p: Worker, gateOpen: bool, result: ApiResult)
    requires CarriesProposal(cfg, p)
    ensures var (q, op) := Program(cfg, sh, p, gateOpen, result);
            CarriesProposal(cfg, q) && (op.Commit? ==> VerdictOf(cfg, op.cand).Proposed?)
  {
  }

  lemma AppliedOnceKept(cfg: Config, s: Pool, a: Action)
    requires Ownership(s) && AppliedOnce(s) && Enabled(cfg, s, a)
    ensures AppliedOnce(Apply(cfg, s, a))
  {
    if a.Work? {
      ProgramBalance(cfg, s.shared, s.workers[a.worker], a.gateOpen, a.result);
      ProgramKeepsCandidate(cfg, s.shared, s.workers[a.worker], a.gateOpen, a.result);
      var (q, op) := Step(cfg, s, a);
      AppliedOnceAfter(s, a.worker, q, op);
    }
  }

  lemma AppliedOnceAfter(s: Pool, w: nat, q: Worker, op: Op)
    requires Ownership(s) && AppliedOnce(s) && w < |s.workers| && !op.HandOut?
    requires Uncommitted(q) ==> Uncommitted(s.workers[w]) && q.cand == s.workers[w].cand
    requires op.Commit? ==> Uncommitted(s.workers[w]) && s.workers[w].cand == op.cand && !Uncommitted(q)
    ensures AppliedOnce(After(s, w, q, op))
  {
  }

  // ----- fair skipping -----

  /** The worker has found the token channel empty. */
  predicate TurnsAway(p: Worker) { p.Counting? && p.outcome == MaxPodsSkipped }

  /** A candidate is turned away only when all but the tokens of the other workers have gone into resizes. */
  ghost predicate SkipsFair(cfg: Config, s: Pool) {
    && (s.shared.Count(MaxPodsSkipped) > 0 ==> |s.history.applied| >= cfg.maxPods - (cfg.workers - 1))
    && ((exists i :: 0 <= i < |s.workers| && TurnsAway(s.workers[i]))
        ==> |s.history.applied| >= cfg.maxPods - (cfg.workers - 1))
  }

  lemma ProgramTurnsAway(cfg: Config, sh: Shared, p: Worker, gateOpen: bool, result: ApiResult)
    ensures var (q, op) := Program(cfg, sh, p, gateOpen, result);
            && (TurnsAway(q) ==> p.AtSlots? && sh.slots <= 0)
            && (Perform(sh, op).Count(MaxPodsSkipped) > 0 ==> sh.Count(MaxPodsSkipped) > 0 || TurnsAway(p))
  {
  }

  lemma SkipsKept(cfg: Config, s: Pool, a: Action)
    requires Shape(cfg, s) && TokensConserved(cfg, s) && SkipsFair(cfg, s) && Enabled(cfg, s, a)
    ensures SkipsFair(cfg, Apply(cfg, s, a))
  {
    if a.Work? {
      var p := s.workers[a.worker];
      ProgramTurnsAway(cfg, s.shared, p, a.gateOpen, a.result);
      var (q, op) := Step(cfg, s, a);
      if TurnsAway(q) {
        SumBounds(s.workers, HoldsToken);
        assert HoldsToken(p) == 0;
      }
      SkipsAfter(cfg, s, a.worker, q, op);
    }
  }

  lemma SkipsAfter(cfg: Config, s: Pool, w: nat, q: Worker, op: Op)
    requires SkipsFair(cfg, s) && w < |s.workers|
    requires TurnsAway(q) ==> |s.history.applied| >= cfg.maxPods - (cfg.workers - 1)
    requires Perform(s.shared, op).Count(MaxPodsSkipped) > 0
             ==> s.shared.Count(MaxPodsSkipped) > 0 || TurnsAway(s.workers[w])
    ensures SkipsFair(cfg, After(s, w, q, op))
  {
    var t := After(s, w, q, op);
    assert |t.history.applied| >= |s.history.applied|;
    if i :| 0 <= i < |t.workers| && TurnsAway(t.workers[i]) && i != w {
      assert TurnsAway(s.workers[i]);
    }
  }

  // ----- counters, fates and aggregates -----

  function CountFates(fates: seq<Fate>, f: Fate): nat {
    if fates == [] then 0 else (if fates[0] == f then 1 else 0) + CountFates(fates[1..], f)
  }

  lemma {:induction false} CountUpdate(fates: seq<Fate>, i: nat, g: Fate, f: Fate)
    requires i < |fates|
    ensures CountFates(fates[i := g], f) ==
            CountFates(fates, f) - (if fates[i] == f then 1 else 0) + (if g == f then 1 else 0)
  {
    if i == 0 {
      assert fates[i := g][1..] == fates[1..];
    } else {
      assert fates[i := g][1..] == fates[1..][i - 1 := g];
      CountUpdate(fates[1..], i - 1, g, f);
    }
  }

  /** Candidates not handed out yet are unsent; an undecided candidate of a worker is running, and nothing else is. */
  ghost predicate FatesFit(s: Pool) {
    && (forall c | 0 <= c < |s.history.fates| :: s.history.fates[c].Unsent? <==> c >= s.shared.next)
    && (forall i | 0 <= i < |s.workers| && Undecided(s.workers[i]) ::
          s.workers[i].cand < |s.history.fates| && s.history.fates[s.workers[i].cand] == Running)
    && CountFates(s.history.fates, Running) == Sum(s.workers, UndecidedBit)
  }

  /** Only a cancellation or a policy failure drops a candidate. */
  ghost predicate DropsExplained(cfg: Config, s: Pool) {
    forall c | 0 <= c < |s.history.fates| && s.history.fates[c].Dropped? ::
      s.shared.cancelled || VerdictOf(cfg, c).PolicyFailed?
  }

  /** Every counter counts the candidates with its outcome. */
  ghost predicate CountersFit(s: Pool) {
    && (forall o :: s.shared.Count(o) == CountFates(s.history.fates, Counted(o)))
    && s.shared.Count(Resized) + Sum(s.workers, Unrecorded) == |s.history.applied|
  }

  /** How a step of the program decides the fate of its candidate. */
  lemma ProgramDecides(cfg: Config, sh: Shared, p: Worker, gateOpen: bool, result: ApiResult)
    ensures var (q, op) := Program(cfg, sh, p, gateOpen, result);
            && (Decides(op) <==> UndecidedBit(q) != UndecidedBit(p))
            && (Undecided(q) ==> Undecided(p))
            && (Decides(op) ==> Undecided(p) && op.cand == p.cand && !Undecided(q))
            && (op.Drop? ==> sh.cancelled || VerdictOf(cfg, op.cand).PolicyFailed?)
            && (op.Tick? ==> p.Counting? && op.outcome == p.outcome)
            && Unrecorded(q) - Unrecorded(p) == (if op.Commit? then 1 else if op.Record? then -1 else 0)
            && (op.Record? <==> p.Recording?)
            && (op.Record? ==> op.delta == p.delta && op.namespace == NamespaceOf(cfg, op.cand))
            && (op.Commit? <==> q.Recording?)
            && (op.Commit? ==> q == Recording(op.cand, op.delta))
            && (q.Counting? ==> q.outcome != Resized)
            && !op.HandOut? && !op.CloseChannel?
  {
  }

  /** The resized counter is bumped in one place only. */
  ghost predicate OutcomesFit(s: Pool) {
    forall i | 0 <= i < |s.workers| && s.workers[i].Counting? :: s.workers[i].outcome != Resized
  }

  lemma OutcomesKept(cfg: Config, s: Pool, a: Action)
    requires OutcomesFit(s) && Enabled(cfg, s, a)
    ensures OutcomesFit(Apply(cfg, s, a))
  {
  }

  /** The operations that decide a candidate's fate. */
  predicate Decides(op: Op) { op.Tick? || op.Record? || op.Drop? }

  function DecidedFate(op: Op): Fate
    requires Decides(op)
  {
    match op
    case Tick(_, o) => Counted(o)
    case Record(_, _, _) => Counted(Resized)
    case _ => Dropped
  }

  lemma FatesKept(cfg: Config, s: Pool, a: Action)
    requires Shape(cfg, s) && Ownership(s) && FatesFit(s) && Enabled(cfg, s, a)
    ensures FatesFit(Apply(cfg, s, a))
  {
    if a.Send? {
      FatesAfterSend(s, a.worker);
    } else if a.Work? {
      var p := s.workers[a.worker];
      ProgramDecides(cfg, s.shared, p, a.gateOpen, a.result);
      ProgramKeepsCandidate(cfg, s.shared, p, a.gateOpen, a.result);
      var (q, op) := Step(cfg, s, a);
      FatesKeptAfter(s, a.worker, q, op);
    }
  }

  lemma FatesAfterSend(s: Pool, w: nat)
    requires Ownership(s) && FatesFit(s) && w < |s.workers| && s.workers[w].Idle?
    requires s.shared.next < |s.history.fates|
    ensures FatesFit(After(s, w, Received(s.shared.next), HandOut))
  {
    SumUpdate(s.workers, w, Received(s.shared.next), UndecidedBit);
    CountUpdate(s.history.fates, s.shared.next, Running, Running);
  }

  lemma FatesKeptAfter(s: Pool, w: nat, q: Worker, op: Op)
    requires Ownership(s) && FatesFit(s) && w < |s.workers| && !op.HandOut?
    requires Undecided(q) ==> Undecided(s.workers[w]) && q.cand == s.workers[w].cand
    requires Decides(op) <==> UndecidedBit(q) != UndecidedBit(s.workers[w])
    requires Decides(op) ==> Undecided(s.workers[w]) && op.cand == s.workers[w].cand
    ensures FatesFit(After(s, w, q, op))
  {
    SumUpdate(s.workers, w, q, UndecidedBit);
    if Decides(op) {
      CountUpdate(s.history.fates, op.cand, DecidedFate(op), Running);
    }
  }

  lemma DropsKept(cfg: Config, s: Pool, a: Action)
    requires Shape(cfg, s) && DropsExplained(cfg, s) && Enabled(cfg, s, a)
    ensures DropsExplained(cfg, Apply(cfg, s, a))
  {
    if a.Work? {
      ProgramDecides(cfg, s.shared, s.workers[a.worker], a.gateOpen, a.result);
    }
  }

  lemma CountersKept(cfg: Config, s: Pool, a: Action)
    requires Shape(cfg, s) && FatesFit(s) && OutcomesFit(s) && CountersFit(s) && Enabled(cfg, s, a)
    ensures CountersFit(Apply(cfg, s, a))
  {
    if a.Send? {
      SumUpdate(s.workers, a.worker, Step(cfg, s, a).0, Unrecorded);
      CountHandOut(s.history.fates, s.shared.next);
    } else if a.Work? {
      ProgramDecides(cfg, s.shared, s.workers[a.worker], a.gateOpen, a.result);
      var (q, op) := Step(cfg, s, a);
      CountersKeptAfter(s, a.worker, q, op);
    }
  }

  lemma CountHandOut(fates: seq<Fate>, next: nat)
    requires next < |fates| && fates[next].Unsent?
    ensures forall o :: CountFates(SetFate(fates, next, Running), Counted(o)) == CountFates(fates, Counted(o))
  {
    forall o ensures CountFates(SetFate(fates, next, Running), Counted(o)) == CountFates(fates, Counted(o)) {
      CountUpdate(fates, next, Running, Counted(o));
    }
  }

  lemma CountersKeptAfter(s: Pool, w: nat, q: Worker, op: Op)
    requires FatesFit(s) && CountersFit(s) && w < |s.workers| && !op.HandOut?
    requires Decides(op) ==> Undecided(s.workers[w]) && op.cand == s.workers[w].cand
    requires op.Tick? ==> op.outcome != Resized
    requires Unrecorded(q) - Unrecorded(s.workers[w]) == (if op.Commit? then 1 else if op.Record? then -1 else 0)
    ensures CountersFit(After(s, w, q, op))
  {
    var t := After(s, w, q, op);
    SumUpdate(s.workers, w, q, Unrecorded);
    if Decides(op) {
      forall o ensures t.shared.Count(o) == CountFates(t.history.fates, Counted(o)) {
        CountUpdate(s.history.fates, op.cand, DecidedFate(op), Counted(o));
      }
    }
  }

  // ----- what an outcome says about its candidate -----

  /** The verdicts under which a candidate can be counted with an outcome. */
  predicate Explains(cfg: Config, cand: nat, o: Outcome) {
    match o
    case MaxPodsSkipped => true
    case MetricsErrors => VerdictOf(cfg, cand).MetricsFailed?
    case MetricsNotFound => VerdictOf(cfg, cand).MetricsMissing?
    case QoSSkipped => VerdictOf(cfg, cand).ClassRefused?
    case NoChange => VerdictOf(cfg, cand).NothingToDo?
    case ConflictSkipped => VerdictOf(cfg, cand).Proposed? && cfg.capabilitySupported
    case _ => VerdictOf(cfg, cand).Proposed?
  }

  ghost predicate OutcomesExplained(cfg: Config, s: Pool) {
    && (forall i | 0 <= i < |s.workers| && s.workers[i].Counting? ::
        Explains(cfg, s.workers[i].cand, s.workers[i].outcome))
    && (forall i | 0 <= i < |s.workers| && (s.workers[i].Applying? || s.workers[i].Retrying?) ::
        cfg.capabilitySupported)
    && (forall c | 0 <= c < |s.history.fates| && s.history.fates[c].Counted? ::
        Explains(cfg, c, s.history.fates[c].outcome))
    && (forall c | 0 <= c < |s.history.fates| && s.history.fates[c] == Counted(Resized) :: c in s.history.applied)
    && (forall i | 0 <= i < |s.workers| && s.workers[i].Recording? :: s.workers[i].cand in s.history.applied)
  }

  lemma ProgramExplains(cfg: Config, sh: Shared, p: Worker, gateOpen: bool, result: ApiResult)
    requires CarriesProposal(cfg, p) && (p.Applying? || p.Retrying? ==> cfg.capabilitySupported)
    ensures var (q, op) := Program(cfg, sh, p, gateOpen, result);
            && (q.Counting? ==> Explains(cfg, q.cand, q.outcome))
            && (q.Applying? || q.Retrying? ==> cfg.capabilitySupported)
  {
  }

  lemma ExplainedKept(cfg: Config, s: Pool, a: Action)
    requires Shape(cfg, s) && Proposals(cfg, s) && OutcomesFit(s) && OutcomesExplained(cfg, s) && Enabled(cfg, s, a)
    ensures OutcomesExplained(cfg, Apply(cfg, s, a))
  {
    if a.Work? {
      var p := s.workers[a.worker];
      assert CarriesProposal(cfg, p);
      ProgramExplains(cfg, s.shared, p, a.gateOpen, a.result);
      ProgramDecides(cfg, s.shared, p, a.gateOpen, a.result);
      var (q, op) := Step(cfg, s, a);
      ExplainedAfter(cfg, s, a.worker, q, op);
    }
  }

  lemma ExplainedAfter(cfg: Config, s: Pool, w: nat, q: Worker, op: Op)
    requires Proposals(cfg, s) && OutcomesFit(s) && OutcomesExplained(cfg, s) && w < |s.workers| && !op.HandOut?
    requires q.Counting? ==> Explains(cfg, q.cand, q.outcome)
    requires q.Applying? || q.Retrying? ==> cfg.capabilitySupported
    requires op.Tick? ==> s.workers[w].Counting? && op.cand == s.workers[w].cand && op.outcome == s.workers[w].outcome
    requires op.Record? ==> s.workers[w].Recording? && op.cand == s.workers[w].cand
    requires op.Commit? <==> q.Recording?
    requires op.Commit? ==> q.cand == op.cand
    ensures OutcomesExplained(cfg, After(s, w, q, op))
  {
    assert CarriesProposal(cfg, s.workers[w]);
  }

  // ----- aggregates per namespace -----

  /** The sum of all aggregates, in whatever order. */
  ghost function TotalAggregate(m: map<string, Aggregate>): Aggregate {
    if m == map[] then Aggregate(0, ZERO_DELTA)
    else
      var ns :| ns in m;
      var rest := TotalAggregate(m - {ns});
      Aggregate(m[ns].resized + rest.resized, m[ns].delta.Plus(rest.delta))
  }

  lemma {:induction false} TotalTakesOut(m: map<string, Aggregate>, ns: string)
    requires ns in m
    ensures TotalAggregate(m) == Aggregate(m[ns].resized + TotalAggregate(m - {ns}).resized,
                                           m[ns].delta.Plus(TotalAggregate(m - {ns}).delta))
    decreases |m|
  {
    var first :| first in m && TotalAggregate(m) ==
      Aggregate(m[first].resized + TotalAggregate(m - {first}).resized,
          m[first].delta.Plus(TotalAggregate(m - {first}).delta));
    if first != ns {
      var both := m - {first} - {ns};
      assert both == m - {ns} - {first};
      TotalTakesOut(m - {first}, ns);
      TotalTakesOut(m - {ns}, first);
      assert TotalAggregate(m - {first}) == Aggregate(m[ns].resized + TotalAggregate(both).resized,
                                                      m[ns].delta.Plus(TotalAggregate(both).delta));
      assert TotalAggregate(m - {ns}) == Aggregate(m[first].resized + TotalAggregate(both).resized,
                                                   m[first].delta.Plus(TotalAggregate(both).delta));
      assert TotalAggregate(m).resized == m[ns].resized + TotalAggregate(m - {ns}).resized;
      assert TotalAggregate(m).delta == m[first].delta.Plus(m[ns].delta.Plus(TotalAggregate(both).delta));
      assert m[ns].delta.Plus(TotalAggregate(m - {ns}).delta) ==
          m[ns].delta.Plus(m[first].delta.Plus(TotalAggregate(both).delta));
    }
  }

  lemma TotalUpdates(m: map<string, Aggregate>, ns: string, agg: Aggregate)
    ensures var was := if ns in m then m[ns] else Aggregate(0, ZERO_DELTA);
            TotalAggregate(m[ns := agg]) ==
              Aggregate(TotalAggregate(m).resized - was.resized + agg.resized,
                        TotalAggregate(m).delta.Minus(was.delta).Plus(agg.delta))
  {
    TotalTakesOut(m[ns := agg], ns);
    assert m[ns := agg] - {ns} == m - {ns};
    if ns in m {
      TotalTakesOut(m, ns);
    } else {
      assert m - {ns} == m;
    }
  }

  /** Aggregates and what is committed but not recorded yet add up to the committed budget. */
  ghost predicate AggregatesFit(s: Pool) {
    && TotalAggregate(s.shared.aggregates).resized == s.shared.Count(Resized)
    && TotalAggregate(s.shared.aggregates).delta.cpu + Sum(s.workers, UnrecordedCpu) == s.shared.ledger.committed.cpu
    && TotalAggregate(s.shared.aggregates).delta.memory + Sum(s.workers,
        UnrecordedMem) == s.shared.ledger.committed.memory
  }

  lemma AggregatesKept(cfg: Config, s: Pool, a: Action)
    requires OutcomesFit(s) && AggregatesFit(s) && Enabled(cfg, s, a)
    ensures AggregatesFit(Apply(cfg, s, a))
  {
    if a.Send? {
      SumUpdate(s.workers, a.worker, Step(cfg, s, a).0, UnrecordedCpu);
      SumUpdate(s.workers, a.worker, Step(cfg, s, a).0, UnrecordedMem);
    } else if a.Work? {
      ProgramDecides(cfg, s.shared, s.workers[a.worker], a.gateOpen, a.result);
      var (q, op) := Step(cfg, s, a);
      AggregatesKeptAfter(s, a.worker, q, op);
    }
  }

  lemma AggregatesKeptAfter(s: Pool, w: nat, q: Worker, op: Op)
    requires AggregatesFit(s) && w < |s.workers|
    requires op.Tick? ==> op.outcome != Resized
    requires op.Record? <==> s.workers[w].Recording?
    requires op.Record? ==> op.delta == s.workers[w].delta
    requires op.Commit? <==> q.Recording?
    requires op.Commit? ==> op.delta == q.delta
    ensures AggregatesFit(After(s, w, q, op))
  {
    SumUpdate(s.workers, w, q, UnrecordedCpu);
    SumUpdate(s.workers, w, q, UnrecordedMem);
    if op.Record? {
      RecordTotals(s.shared, op);
    } else {
      OthersKeepAggregates(s.shared, op);
    }
  }

  lemma OthersKeepAggregates(sh: Shared, op: Op)
    requires !op.Record?
    ensures var t := Perform(sh, op);
            && t.aggregates == sh.aggregates
            && ((op.Tick? && op.outcome == Resized) || t.Count(Resized) == sh.Count(Resized))
            && t.ledger.committed == (if op.Commit? then sh.ledger.committed.Plus(op.delta) else sh.ledger.committed)
  {
  }

  lemma RecordTotals(sh: Shared, op: Op)
    requires op.Record?
    ensures TotalAggregate(Perform(sh, op).aggregates) ==
            Aggregate(TotalAggregate(sh.aggregates).resized + 1, TotalAggregate(sh.aggregates).delta.Plus(op.delta))
    ensures Perform(sh, op).Count(Resized) == sh.Count(Resized) + 1 && Perform(sh, op).ledger == sh.ledger
  {
    var agg := sh.AggregateOf(op.namespace);
    TotalUpdates(sh.aggregates, op.namespace, Aggregate(agg.resized + 1, agg.delta.Plus(op.delta)));
  }
}
