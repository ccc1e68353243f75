/** What a run leaves behind besides its counters: the aggregates per namespace, and whether it was cancelled. */
module PoolAccounts {
  import opened Resources
  import opened WorkerPool
  import opened PoolInvariant
  import opened PoolTheorems

  // ----- aggregates per namespace -----

  /** How many of the first candidates of a namespace were resized, and the sum of their deltas. */
  function ResizedIn(cfg: Config, fates: seq<Fate>, ns: string): Aggregate
    requires |fates| <= |cfg.candidates|
  {
    if fates == [] then Aggregate(0, ZERO_DELTA)
    else
      var last := |fates| - 1;
      var rest := ResizedIn(cfg, fates[..last], ns);
      if fates[last] == Counted(Resized) && cfg.candidates[last].namespace == ns
        then Aggregate(rest.resized + 1, rest.delta.Plus(DeltaOf(cfg, last)))
      else rest
  }

  ghost predicate NamespaceFits(cfg: Config, s: Pool, ns: string) {
    |s.history.fates| == |cfg.candidates| && s.shared.AggregateOf(ns) == ResizedIn(cfg, s.history.fates, ns)
  }

  /** A candidate that was not resized gets another fate. */
  lemma {:induction false} ResizedUpdate(cfg: Config, fates: seq<Fate>, c: nat, f: Fate, ns: string)
    requires c < |fates| <= |cfg.candidates| && fates[c] != Counted(Resized)
    ensures var was := ResizedIn(cfg, fates, ns);
            ResizedIn(cfg, fates[c := f], ns) ==
            if f == Counted(Resized) && cfg.candidates[c].namespace == ns
              then Aggregate(was.resized + 1, was.delta.Plus(DeltaOf(cfg, c))) else was
  {
    var last := |fates| - 1;
    if c == last {
      assert fates[c := f][..last] == fates[..last];
    } else {
      assert fates[c := f][..last] == fates[..last][c := f];
      ResizedUpdate(cfg, fates[..last], c, f, ns);
    }
  }

  lemma NamespaceAfter(cfg: Config, s: Pool, w: nat, q: Worker, op: Op, ns: string)
    requires FatesFit(s) && NamespaceFits(cfg, s, ns) && w < |s.workers|
    requires op.HandOut? ==> s.shared.next < |s.history.fates|
    requires Decides(op) ==> Undecided(s.workers[w]) && op.cand == s.workers[w].cand
    requires op.Tick? ==> op.outcome != Resized
    requires op.Record? ==> VerdictOf(cfg, op.cand) == Proposed(op.delta) && op.namespace == NamespaceOf(cfg, op.cand)
    ensures NamespaceFits(cfg, After(s, w, q, op), ns)
  {
    if op.HandOut? {
      ResizedUpdate(cfg, s.history.fates, s.shared.next, Running, ns);
    } else if Decides(op) {
      ResizedUpdate(cfg, s.history.fates, op.cand, DecidedFate(op), ns);
    }
  }

  lemma NamespaceStep(cfg: Config, s: Pool, a: Action, ns: string)
    requires Inv(cfg, s) && NamespaceFits(cfg, s, ns) && Enabled(cfg, s, a)
    ensures NamespaceFits(cfg, Apply(cfg, s, a), ns)
  {
    if a.Send? {
      NamespaceAfter(cfg, s, a.worker, Step(cfg, s, a).0, HandOut, ns);
    } else if a.Work? {
      var p := s.workers[a.worker];
      assert CarriesProposal(cfg, p);
      ProgramDecides(cfg, s.shared, p, a.gateOpen, a.result);
      var (q, op) := Step(cfg, s, a);
      NamespaceAfter(cfg, s, a.worker, q, op, ns);
    }
  }

  lemma {:induction false} NamespaceAlongRun(cfg: Config, s: Pool, acts: seq<Action>, ns: string)
    requires Inv(cfg, s) && NamespaceFits(cfg, s, ns) && CanRun(cfg, s, acts)
    ensures NamespaceFits(cfg, Run(cfg, s, acts), ns)
    decreases |acts|
  {
    if acts == [] {
    } else {
      NamespaceStep(cfg, s, acts[0], ns);
      InvKept(cfg, s, acts[0]);
      NamespaceAlongRun(cfg, Apply(cfg, s, acts[0]), acts[1..], ns);
    }
  }

  lemma {:induction false} NoneResized(cfg: Config, fates: seq<Fate>, ns: string)
    requires |fates| <= |cfg.candidates| && forall i | 0 <= i < |fates| :: fates[i] == Unsent
    ensures ResizedIn(cfg, fates, ns) == Aggregate(0, ZERO_DELTA)
  {
    if fates == [] {
    } else {
      NoneResized(cfg, fates[..|fates| - 1], ns);
    }
  }

  /** In every reachable state the aggregate of a namespace counts its resized candidates and sums their deltas. */
  lemma NamespacesExact(cfg: Config, acts: seq<Action>, s: Pool, ns: string)
    requires Reaches(cfg, acts, s)
    ensures |s.history.fates| == |cfg.candidates|
    ensures s.shared.AggregateOf(ns) == ResizedIn(cfg, s.history.fates, ns)
  {
    InvAtStart(cfg);
    NoneResized(cfg, Start(cfg).history.fates, ns);
    NamespaceAlongRun(cfg, Start(cfg), acts, ns);
  }

  // ----- the cancellation -----

  /** The metrics of a candidate turn out unreadable, or its resize is answered with a fatal error. */
  ghost predicate StopStep(cfg: Config, s: Pool, a: Action) {
    && a.Work? && a.worker < |s.workers|
    && match s.workers[a.worker]
       case Evaluating(c) => VerdictOf(cfg, c).MetricsFailed?
       case Applying(_, _) => a.result.Fatal?
       case _ => false
  }

  ghost predicate StopSeen(cfg: Config, s: Pool, acts: seq<Action>)
    decreases |acts|
  {
    acts != [] && (StopStep(cfg, s, acts[0]) || StopSeen(cfg, Apply(cfg, s, acts[0]), acts[1..]))
  }

  /** The worker is on its way to cancel the run. */
  predicate Cancels(p: Worker) { p.Stopping? || (p.Counting? && !p.then_.GoOn?) }

  ghost predicate CancelDue(s: Pool) {
    s.shared.cancelled || exists i :: 0 <= i < |s.workers| && Cancels(s.workers[i])
  }

  lemma ProgramStops(cfg: Config, sh: Shared, p: Worker, gateOpen: bool, result: ApiResult)
    ensures var (q, op) := Program(cfg, sh, p, gateOpen, result);
            && (Cancels(q) || Perform(sh, op).cancelled
                <==> sh.cancelled || Cancels(p) || (p.Applying? && result.Fatal?)
                     || (p.Evaluating? && VerdictOf(cfg, p.cand).MetricsFailed?))
            && (sh.cancelled ==> Perform(sh, op).cancelled)
  {
  }

  lemma CancelStep(cfg: Config, s: Pool, a: Action)
    requires Enabled(cfg, s, a)
    ensures CancelDue(Apply(cfg, s, a)) <==> CancelDue(s) || a.CancelOutside? || StopStep(cfg, s, a)
  {
    var t := Apply(cfg, s, a);
    if a.Work? {
      ProgramStops(cfg, s.shared, s.workers[a.worker], a.gateOpen, a.result);
      assert t.workers[a.worker] == Step(cfg, s, a).0;
    }
    if i :| 0 <= i < |s.workers| && Cancels(s.workers[i]) {
      assert ((a.Send? || a.Work?) && i == a.worker) || t.workers[i] == s.workers[i];
    }
    if i :| 0 <= i < |t.workers| && Cancels(t.workers[i]) {
      assert ((a.Send? || a.Work?) && i == a.worker) || t.workers[i] == s.workers[i];
    }
  }

  lemma {:induction false} CancelAlongRun(cfg: Config, s: Pool, acts: seq<Action>)
    requires CanRun(cfg, s, acts)
    ensures CancelDue(Run(cfg, s, acts)) <==> CancelDue(s) || CancelOutside in acts || StopSeen(cfg, s, acts)
    decreases |acts|
  {
    if acts == [] {
    } else {
      CancelStep(cfg, s, acts[0]);
      CancelAlongRun(cfg, Apply(cfg, s, acts[0]), acts[1..]);
    }
  }

  /** When the wait is over the run has been cancelled exactly if it was from outside, metrics were unreadable, or a
      resize failed fatally. */
  lemma CancelledExactly(cfg: Config, acts: seq<Action>, s: Pool)
    requires Reaches(cfg, acts, s) && s.Final()
    ensures s.shared.cancelled <==> CancelOutside in acts || StopSeen(cfg, Start(cfg), acts)
  {
    CancelAlongRun(cfg, Start(cfg), acts);
  }
}
