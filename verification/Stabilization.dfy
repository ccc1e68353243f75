/** Cooldown and stabilization of one pod across runs, kept in four annotations of the pod. */
module Stabilization {
  import opened PodHash
  import opened MergePatch
  import opened Rounding

  const LAST_RESIZE_TIME := "resize.halje.ru/last-resize-time"
  const LAST_APPLIED_HASH := "resize.halje.ru/last-applied-hash"
  const PENDING_HASH := "resize.halje.ru/pending-hash"
  const PENDING_SINCE := "resize.halje.ru/pending-since"

  /** A missing annotation reads as the empty text. */
  function Lookup(ann: Annotations, key: string): Text {
    if key in ann then ann[key] else EMPTY_TEXT
  }

  function ShouldSkipByCooldown(ann: Annotations, cooldown: int, now: int): bool {
    if cooldown <= 0 then false
    else
      match Lookup(ann, LAST_RESIZE_TIME)
      case Stamp(t) => now - t < cooldown
      case _ => false
  }

  function StabilizationAllows(ann: Annotations, desired: Digest, window: int, now: int): bool {
    if window <= 0 then true
    else if Lookup(ann, LAST_APPLIED_HASH) == Hash(desired) then false
    else if Lookup(ann, PENDING_HASH) != Hash(desired) then false
    else
      match Lookup(ann, PENDING_SINCE)
      case Stamp(since) => now - since >= window
      case _ => false
  }

  /** What ensurePending writes. */
  function PendingPatch(ann: Annotations, desired: Digest, now: int): Annotations {
    if Lookup(ann, PENDING_HASH) != Hash(desired) then map[PENDING_HASH := Hash(desired), PENDING_SINCE := Stamp(now)]
    else if Lookup(ann, PENDING_SINCE) == EMPTY_TEXT then map[PENDING_SINCE := Stamp(now)]
    else map[]
  }

  function ResizePatch(desired: Digest, now: int): Annotations {
    map[LAST_RESIZE_TIME := Stamp(now), LAST_APPLIED_HASH := Hash(desired),
        PENDING_HASH := EMPTY_TEXT, PENDING_SINCE := EMPTY_TEXT]
  }

  // ----- one visit of a run to the pod -----

  datatype Timing = Timing(cooldown: int, window: int)

  /** Whether a visit got to the stabilization gate, and with what. `applies` says that budget, capability and API
      let an open gate through, `patched` that the annotation patch went through. */
  datatype Gate = NotReached | Reached(at: int, digest: Digest, applies: bool, patched: bool)

  datatype Visit = Visit(checkedAt: int, gate: Gate)

  predicate AtGate(ann: Annotations, timing: Timing, v: Visit) {
    v.gate.Reached? && !ShouldSkipByCooldown(ann, timing.cooldown, v.checkedAt)
  }

  predicate Applies(ann: Annotations, timing: Timing, v: Visit) {
    AtGate(ann, timing, v) && v.gate.applies && StabilizationAllows(ann, v.gate.digest, timing.window, v.gate.at)
  }

  function AfterVisit(ann: Annotations, timing: Timing, v: Visit): Annotations {
    if !AtGate(ann, timing, v) then ann
    else if !StabilizationAllows(ann, v.gate.digest, timing.window, v.gate.at) then
      if v.gate.patched then Patched(ann, PendingPatch(ann, v.gate.digest, v.gate.at)) else ann
    else if v.gate.applies && v.gate.patched then Patched(ann, ResizePatch(v.gate.digest, v.gate.at))
    else ann
  }

  /** A resize was recorded within the cooldown. */
  predicate CoolsDown(ann: Annotations, cooldown: int, now: int) {
    && cooldown > 0 && LAST_RESIZE_TIME in ann && ann[LAST_RESIZE_TIME].Stamp?
    && now - ann[LAST_RESIZE_TIME].time < cooldown
  }

  /** The target is not the one applied last, and has been pending for a window. */
  predicate IsOpen(ann: Annotations, target: Digest, window: int, now: int) {
    || window <= 0
    || (&& PENDING_HASH in ann && ann[PENDING_HASH] == Hash(target)
        && PENDING_SINCE in ann && ann[PENDING_SINCE].Stamp? && now - ann[PENDING_SINCE].time >= window
        && !(LAST_APPLIED_HASH in ann && ann[LAST_APPLIED_HASH] == Hash(target)))
  }

  lemma GateExact(ann: Annotations, target: Digest, timing: Timing, now: int)
    ensures ShouldSkipByCooldown(ann, timing.cooldown, now) <==> CoolsDown(ann, timing.cooldown, now)
    ensures StabilizationAllows(ann, target, timing.window, now) <==> IsOpen(ann, target, timing.window, now)
  {
  }

  /** What a visit does, in terms of the four annotations: whether the pod is still cooling down, whether the gate is
      open, what is resized and what is written. */
  lemma VisitExact(ann: Annotations, timing: Timing, v: Visit)
    ensures var after := AfterVisit(ann, timing, v);
            if v.gate.NotReached? || CoolsDown(ann, timing.cooldown, v.checkedAt) then
              !Applies(ann, timing, v) && after == ann
            else
              var h, at := Hash(v.gate.digest), v.gate.at;
              var open := IsOpen(ann, v.gate.digest, timing.window, at);
              && (Applies(ann, timing, v) <==> open && v.gate.applies)
              && after == if !v.gate.patched || (open && !v.gate.applies) then ann
                          else if open then
                            (ann - {PENDING_HASH, PENDING_SINCE})[LAST_RESIZE_TIME := Stamp(at)][LAST_APPLIED_HASH := h]
                          else if PENDING_HASH !in ann || ann[PENDING_HASH] != h then
                            ann[PENDING_HASH := h][PENDING_SINCE := Stamp(at)]
                          else if PENDING_SINCE !in ann || ann[PENDING_SINCE] == Plain("") then
                            ann[PENDING_SINCE := Stamp(at)]
                          else ann
  {
    if v.gate.Reached? {
      GateExact(ann, v.gate.digest, timing, v.checkedAt);
      GateExact(ann, v.gate.digest, timing, v.gate.at);
      ResizePatched(ann, v.gate.digest, v.gate.at);
      PendingPatched(ann, v.gate.digest, v.gate.at);
    }
  }

  lemma ResizePatched(ann: Annotations, target: Digest, at: int)
    ensures Patched(ann, ResizePatch(target, at)) ==
            (ann - {PENDING_HASH, PENDING_SINCE})[LAST_RESIZE_TIME := Stamp(at)][LAST_APPLIED_HASH := Hash(target)]
  {
  }

  lemma PendingPatched(ann: Annotations, target: Digest, at: int)
    ensures Patched(ann, PendingPatch(ann, target, at)) ==
            if PENDING_HASH !in ann || ann[PENDING_HASH] != Hash(target) then
              ann[PENDING_HASH := Hash(target)][PENDING_SINCE := Stamp(at)]
            else if PENDING_SINCE !in ann || ann[PENDING_SINCE] == Plain("") then ann[PENDING_SINCE := Stamp(at)]
            else ann
  {
  }

  /** The pod object; the API server's copy of its annotations is what later runs read. */
  class AnnotatedPod {
    var annotations: Annotations

    method PatchAnnotations(set_: Annotations, patched: bool)
      modifies this
      ensures annotations == if patched then Patched(old(annotations), set_) else old(annotations)
    {
      if patched {
        annotations := map key | key in annotations.Keys + set_.Keys && !(key in set_ && set_[key] == EMPTY_TEXT) ::
          if key in set_ then set_[key] else annotations[key];
      }
    }

    method EnsurePending(desired: Digest, now: int, patched: bool)
      modifies this
      ensures annotations ==
              if patched then Patched(old(annotations), PendingPatch(old(annotations), desired, now))
              else old(annotations)
    {
      var pending, since := Lookup(annotations, PENDING_HASH), Lookup(annotations, PENDING_SINCE);
      var patch: Annotations := map[];
      if pending != Hash(desired) {
        patch := patch[PENDING_HASH := Hash(desired)];
        patch := patch[PENDING_SINCE := Stamp(now)];
      } else if since == EMPTY_TEXT {
        patch := patch[PENDING_SINCE := Stamp(now)];
      }
      assert patch == PendingPatch(annotations, desired, now);
      if patch == map[] {
        assert Patched(annotations, map[]) == annotations;
        return;
      }
      PatchAnnotations(patch, patched);
    }

    /** One run's visit, from the cooldown check to the annotation patch. */
    method VisitByRun(timing: Timing, v: Visit) returns (applied: bool)
      modifies this
      ensures annotations == AfterVisit(old(annotations), timing, v)
      ensures applied == Applies(old(annotations), timing, v)
    {
      if ShouldSkipByCooldown(annotations, timing.cooldown, v.checkedAt) || v.gate.NotReached? {
        return false;
      }
      if !StabilizationAllows(annotations, v.gate.digest, timing.window, v.gate.at) {
        EnsurePending(v.gate.digest, v.gate.at, v.gate.patched);
        return false;
      }
      if !v.gate.applies {
        return false;
      }
      PatchAnnotations(ResizePatch(v.gate.digest, v.gate.at), v.gate.patched);
      return true;
    }
  }

  // ----- many visits -----

  /** The annotations before visit n. */
  function Before(ann: Annotations, timing: Timing, vs: seq<Visit>, n: nat): Annotations
    requires n <= |vs|
  {
    if n == 0 then ann else AfterVisit(Before(ann, timing, vs, n - 1), timing, vs[n - 1])
  }

  predicate AppliesAt(ann: Annotations, timing: Timing, vs: seq<Visit>, n: nat)
    requires n < |vs|
  {
    Applies(Before(ann, timing, vs, n), timing, vs[n])
  }

  predicate AtGateAt(ann: Annotations, timing: Timing, vs: seq<Visit>, n: nat)
    requires n < |vs|
  {
    AtGate(Before(ann, timing, vs, n), timing, vs[n])
  }

  /** The clock does not run backwards. */
  ghost predicate MonotoneClock(vs: seq<Visit>) {
    && (forall i | 0 <= i < |vs| && vs[i].gate.Reached? :: vs[i].checkedAt <= vs[i].gate.at)
    && (forall i, j | 0 <= i < j < |vs| :: vs[i].checkedAt <= vs[j].checkedAt
                                         && (vs[i].gate.Reached? ==> vs[i].gate.at <= vs[j].checkedAt))
  }

  // ----- pacing -----

  /** After a resize at t: the recorded resize time is at least t, and a pending record is younger than the cooldown. */
  ghost predicate Paced(ann: Annotations, timing: Timing, t: int) {
    && (match Lookup(ann, LAST_RESIZE_TIME) case Stamp(u) => u >= t case _ => false)
    && (match Lookup(ann, PENDING_SINCE)
        case Stamp(s) => s >= t + Max(timing.cooldown, 0)
        case other => other == EMPTY_TEXT)
  }

  lemma LookupResized(ann: Annotations, desired: Digest, now: int)
    ensures var after := Patched(ann, ResizePatch(desired, now));
            && Lookup(after, LAST_RESIZE_TIME) == Stamp(now) && Lookup(after, LAST_APPLIED_HASH) == Hash(desired)
            && Lookup(after, PENDING_HASH) == EMPTY_TEXT && Lookup(after, PENDING_SINCE) == EMPTY_TEXT
  {
  }

  lemma LookupPended(ann: Annotations, desired: Digest, now: int)
    ensures var after := Patched(ann, PendingPatch(ann, desired, now));
            && Lookup(after, LAST_RESIZE_TIME) == Lookup(ann, LAST_RESIZE_TIME)
            && Lookup(after, LAST_APPLIED_HASH) == Lookup(ann, LAST_APPLIED_HASH)
            && Lookup(after, PENDING_HASH) == Hash(desired)
            && Lookup(after, PENDING_SINCE) ==
                 if Lookup(ann, PENDING_HASH) != Hash(desired) || Lookup(ann, PENDING_SINCE) == EMPTY_TEXT
                 then Stamp(now)
                 else Lookup(ann, PENDING_SINCE)
  {
  }

  lemma VisitKeepsPace(ann: Annotations, timing: Timing, v: Visit, t: int)
    requires Paced(ann, timing, t) && v.checkedAt >= t && (v.gate.Reached? ==> v.gate.at >= v.checkedAt)
    ensures Paced(AfterVisit(ann, timing, v), timing, t)
    ensures Applies(ann, timing, v) ==> v.gate.at >= t + Max(timing.cooldown, 0) + Max(timing.window, 0)
  {
  }

  lemma {:induction false} PacedSince(ann: Annotations, timing: Timing, vs: seq<Visit>, i: nat, n: nat)
    requires i < n <= |vs| && MonotoneClock(vs) && AppliesAt(ann, timing, vs, i) && vs[i].gate.patched
    ensures Paced(Before(ann, timing, vs, n), timing, vs[i].gate.at)
    decreases n
  {
    if n == i + 1 {
      LookupResized(Before(ann, timing, vs, i), vs[i].gate.digest, vs[i].gate.at);
    } else {
      PacedSince(ann, timing, vs, i, n - 1);
      VisitKeepsPace(Before(ann, timing, vs, n - 1), timing, vs[n - 1], vs[i].gate.at);
    }
  }

  /** Two resizes of a pod are at least cooldown plus stabilization window apart, provided the annotation patch of
      the earlier one went through; whatever the other visits computed, applied or failed to patch. */
  lemma Pacing(ann: Annotations, timing: Timing, vs: seq<Visit>, i: nat, j: nat)
    requires i < j < |vs| && MonotoneClock(vs)
    requires AppliesAt(ann, timing, vs, i) && AppliesAt(ann, timing, vs, j) && vs[i].gate.patched
    ensures vs[j].gate.at - vs[i].gate.at >= Max(timing.cooldown, 0) + Max(timing.window, 0)
  {
    PacedSince(ann, timing, vs, i, j);
    VisitKeepsPace(Before(ann, timing, vs, j), timing, vs[j], vs[i].gate.at);
  }

  // ----- pacing when the patch of a resize fails -----

  /** The digest of the pod itself before visit n, when nobody but these visits resizes it. */
  function PodBefore(start: Digest, ann: Annotations, timing: Timing, vs: seq<Visit>, n: nat): Digest
    requires n <= |vs|
  {
    if n == 0 then start
    else if AppliesAt(ann, timing, vs, n - 1) then vs[n - 1].gate.digest
    else PodBefore(start, ann, timing, vs, n - 1)
  }

  /** With fresh reads a visit gets to the gate only with a target that the pod does not have already, because nothing
      is proposed that leaves the pod as it is (PolicyLaws.ChangeHasNewDigest). */
  ghost predicate FreshProposals(start: Digest, ann: Annotations, timing: Timing, vs: seq<Visit>) {
    forall n | 0 <= n < |vs| && AtGateAt(ann, timing, vs, n) ::
      vs[n].gate.digest != PodBefore(start, ann, timing, vs, n)
  }

  /** After a resize to h at t whose patch failed: a pending record of another target is no older than t. */
  ghost predicate PendingSince(ann: Annotations, h: Digest, t: int) {
    || Lookup(ann, PENDING_HASH) == Hash(h)
    || (Lookup(ann, PENDING_SINCE).Stamp? ==> Lookup(ann, PENDING_SINCE).time >= t)
  }

  lemma {:induction false} PendingAfter(ann: Annotations, timing: Timing, vs: seq<Visit>, i: nat, n: nat)
    requires i < n <= |vs| && MonotoneClock(vs) && timing.window > 0
    requires AppliesAt(ann, timing, vs, i) && !vs[i].gate.patched
    requires forall k | i < k < n :: !AppliesAt(ann, timing, vs, k)
    ensures PendingSince(Before(ann, timing, vs, n), vs[i].gate.digest, vs[i].gate.at)
    decreases n
  {
    if n == i + 1 {
    } else {
      PendingAfter(ann, timing, vs, i, n - 1);
      assert !AppliesAt(ann, timing, vs, n - 1);
      if AtGateAt(ann, timing, vs, n - 1) {
        LookupPended(Before(ann, timing, vs, n - 1), vs[n - 1].gate.digest, vs[n - 1].gate.at);
      }
    }
  }

  lemma {:induction false} PodStays(start: Digest, ann: Annotations, timing: Timing, vs: seq<Visit>, i: nat, n: nat)
    requires i < n <= |vs| && AppliesAt(ann, timing, vs, i)
    requires forall k | i < k < n :: !AppliesAt(ann, timing, vs, k)
    ensures PodBefore(start, ann, timing, vs, n) == vs[i].gate.digest
    decreases n
  {
    if n == i + 1 {
    } else {
      PodStays(start, ann, timing, vs, i, n - 1);
      assert !AppliesAt(ann, timing, vs, n - 1);
    }
  }

  /** Whatever patches fail, two resizes of a pod are at least one stabilization window apart: the pod has the first
      target by then, so the second is another one, and has to become pending first. */
  lemma {:induction false} WindowAlwaysHolds(start: Digest, ann: Annotations, timing: Timing, vs: seq<Visit>,
      i: nat, j: nat)
    requires i < j < |vs| && MonotoneClock(vs) && FreshProposals(start, ann, timing, vs)
    requires AppliesAt(ann, timing, vs, i) && AppliesAt(ann, timing, vs, j)
    ensures vs[j].gate.at - vs[i].gate.at >= Max(timing.window, 0)
    decreases j
  {
    if vs[i].gate.patched {
      Pacing(ann, timing, vs, i, j);
    } else if k :| i < k < j && AppliesAt(ann, timing, vs, k) {
      WindowAlwaysHolds(start, ann, timing, vs, i, k);
    } else if timing.window > 0 {
      PendingAfter(ann, timing, vs, i, j);
      PodStays(start, ann, timing, vs, i, j);
      assert AtGateAt(ann, timing, vs, j);
    }
  }

  /** A visit at the gate with a new target records it. */
  lemma VisitRecords(ann: Annotations, timing: Timing, v: Visit)
    requires timing.window > 0 && AtGate(ann, timing, v) && v.gate.patched
    requires Lookup(ann, PENDING_HASH) != Hash(v.gate.digest)
    ensures !Applies(ann, timing, v)
    ensures var after := AfterVisit(ann, timing, v);
            && Lookup(after, LAST_RESIZE_TIME) == Lookup(ann, LAST_RESIZE_TIME)
            && Lookup(after, LAST_APPLIED_HASH) == Lookup(ann, LAST_APPLIED_HASH)
            && Lookup(after, PENDING_HASH) == Hash(v.gate.digest)
            && Lookup(after, PENDING_SINCE) == Stamp(v.gate.at)
  {
    LookupPended(ann, v.gate.digest, v.gate.at);
  }

  /** A visit at the gate with a target that has been pending for a window applies it. */
  lemma VisitApplies(ann: Annotations, timing: Timing, v: Visit, since: int)
    requires AtGate(ann, timing, v) && v.gate.applies && Lookup(ann, LAST_APPLIED_HASH) != Hash(v.gate.digest)
    requires Lookup(ann, PENDING_HASH) == Hash(v.gate.digest) && Lookup(ann, PENDING_SINCE) == Stamp(since)
    requires v.gate.at - since >= timing.window
    ensures Applies(ann, timing, v)
    ensures AfterVisit(ann, timing, v) ==
            if v.gate.patched then Patched(ann, ResizePatch(v.gate.digest, v.gate.at)) else ann
  {
  }

  /** One target becomes pending and is applied, but the patch of the resize fails. Without a window a second target
      follows at once; with one, it becomes pending at once and is let through one window later. */
  function UnpatchedHistory(window: int, h: Digest, g: Digest, t: int): seq<Visit> {
    if window <= 0 then [Visit(t, Reached(t, h, true, false)), Visit(t, Reached(t, g, true, true))]
    else [Visit(t, Reached(t, h, true, true)), Visit(t + window, Reached(t + window, h, true, false)),
          Visit(t + window, Reached(t + window, g, true, true)),
          Visit(t + window + window, Reached(t + window + window, g, true, true))]
  }

  lemma UnpatchedClock(window: int, h: Digest, g: Digest, t: int)
    ensures MonotoneClock(UnpatchedHistory(window, h, g, t))
  {
  }

  /** In this history the two resizes are one window apart, with the whole cooldown still to come. */
  lemma UnpatchedResize(timing: Timing, start: Digest, h: Digest, g: Digest, t: int) returns (i: nat, j: nat)
    requires start != h && h != g && g != start
    ensures var vs := UnpatchedHistory(timing.window, h, g, t);
            && i < j < |vs| && MonotoneClock(vs) && FreshProposals(start, map[], timing, vs)
            && AppliesAt(map[], timing, vs, i) && AppliesAt(map[], timing, vs, j)
            && vs[j].gate.at - vs[i].gate.at == Max(timing.window, 0)
  {
    UnpatchedClock(timing.window, h, g, t);
    if timing.window <= 0 {
      WindowlessHistory(timing, start, h, g, t);
      i, j := 0, 1;
    } else {
      WindowedHistory(timing, start, h, g, t);
      i, j := 1, 3;
    }
  }

  lemma WindowlessHistory(timing: Timing, start: Digest, h: Digest, g: Digest, t: int)
    requires timing.window <= 0 && start != h && h != g
    ensures var vs := UnpatchedHistory(timing.window, h, g, t);
            && FreshProposals(start, map[], timing, vs)
            && AppliesAt(map[], timing, vs, 0) && AppliesAt(map[], timing, vs, 1)
  {
    var vs, none: Annotations := UnpatchedHistory(timing.window, h, g, t), map[];
    assert Before(none, timing, vs, 0) == none && Before(none, timing, vs, 1) == none;
    assert PodBefore(start, none, timing, vs, 0) == start && PodBefore(start, none, timing, vs, 1) == h;
  }

  lemma WindowedHistory(timing: Timing, start: Digest, h: Digest, g: Digest, t: int)
    requires timing.window > 0 && start != h && h != g
    ensures var vs := UnpatchedHistory(timing.window, h, g, t);
            && FreshProposals(start, map[], timing, vs)
            && AppliesAt(map[], timing, vs, 1) && AppliesAt(map[], timing, vs, 3)
            && !AppliesAt(map[], timing, vs, 0) && !AppliesAt(map[], timing, vs, 2)
  {
    var vs, none: Annotations := UnpatchedHistory(timing.window, h, g, t), map[];
    VisitRecords(none, timing, vs[0]);
    var first := AfterVisit(none, timing, vs[0]);
    VisitApplies(first, timing, vs[1], t);
    VisitRecords(first, timing, vs[2]);
    var second := AfterVisit(first, timing, vs[2]);
    VisitApplies(second, timing, vs[3], t + timing.window);
    BeforeFour(none, timing, vs, first, first, second);
    assert PodBefore(start, none, timing, vs, 0) == start && PodBefore(start, none, timing, vs, 1) == start;
    assert PodBefore(start, none, timing, vs, 2) == h && PodBefore(start, none, timing, vs, 3) == h;
  }

  lemma BeforeFour(ann: Annotations, timing: Timing, vs: seq<Visit>, a1: Annotations, a2: Annotations, a3: Annotations)
    requires |vs| == 4 && AfterVisit(ann, timing, vs[0]) == a1 && AfterVisit(a1, timing, vs[1]) == a2
    requires AfterVisit(a2, timing, vs[2]) == a3
    ensures Before(ann, timing, vs, 0) == ann && Before(ann, timing, vs, 1) == a1
    ensures Before(ann, timing, vs, 2) == a2 && Before(ann, timing, vs, 3) == a3
  {
    assert Before(ann, timing, vs, 0) == ann;
    assert Before(ann, timing, vs, 1) == a1;
    assert Before(ann, timing, vs, 2) == a2;
  }

  // ----- the target must be stable -----

  ghost predicate NoOperatorAnnotations(ann: Annotations) {
    LAST_RESIZE_TIME !in ann && LAST_APPLIED_HASH !in ann && PENDING_HASH !in ann && PENDING_SINCE !in ann
  }

  /** Visit i recorded h as pending, and every later visit before n that got to the gate computed h too. */
  ghost predicate PendingFrom(ann: Annotations, timing: Timing, vs: seq<Visit>, i: nat, n: nat, h: Digest)
    requires n <= |vs|
  {
    && i < n && AtGateAt(ann, timing, vs, i) && vs[i].gate.digest == h
    && forall k | i < k < n && AtGateAt(ann, timing, vs, k) :: vs[k].gate.digest == h
  }

  /** Visits at a closed gate get their pending record written. */
  ghost predicate PendingRecorded(vs: seq<Visit>) {
    forall i | 0 <= i < |vs| && vs[i].gate.Reached? :: vs[i].gate.patched
  }

  ghost predicate PendingExplained(ann: Annotations, timing: Timing, vs: seq<Visit>, n: nat)
    requires n <= |vs|
  {
    var now := Before(ann, timing, vs, n);
    match Lookup(now, PENDING_HASH)
    case Hash(h) =>
      exists i: nat :: PendingFrom(ann, timing, vs, i, n, h) && Lookup(now, PENDING_SINCE) == Stamp(vs[i].gate.at)
    case other => other == EMPTY_TEXT
  }

  lemma PendingExtends(ann: Annotations, timing: Timing, vs: seq<Visit>, i: nat, n: nat, h: Digest)
    requires 0 < n <= |vs| && PendingFrom(ann, timing, vs, i, n - 1, h)
    requires AtGateAt(ann, timing, vs, n - 1) ==> vs[n - 1].gate.digest == h
    ensures PendingFrom(ann, timing, vs, i, n, h)
  {
  }

  lemma {:induction false} PendingHasOrigin(ann: Annotations, timing: Timing, vs: seq<Visit>, n: nat)
    requires n <= |vs| && NoOperatorAnnotations(ann) && timing.window > 0 && PendingRecorded(vs)
    ensures PendingExplained(ann, timing, vs, n)
  {
    if n == 0 {
    } else {
      PendingHasOrigin(ann, timing, vs, n - 1);
      if AtGateAt(ann, timing, vs, n - 1) {
        PendingStep(ann, timing, vs, n);
      } else {
        PendingUnmoved(ann, timing, vs, n);
      }
    }
  }

  lemma PendingUnmoved(ann: Annotations, timing: Timing, vs: seq<Visit>, n: nat)
    requires 0 < n <= |vs| && PendingExplained(ann, timing, vs, n - 1) && !AtGateAt(ann, timing, vs, n - 1)
    ensures PendingExplained(ann, timing, vs, n)
  {
    var was := Before(ann, timing, vs, n - 1);
    match Lookup(was, PENDING_HASH)
    case Hash(h) =>
      var i: nat :| PendingFrom(ann, timing, vs, i, n - 1, h) && Lookup(was, PENDING_SINCE) == Stamp(vs[i].gate.at);
      PendingExtends(ann, timing, vs, i, n, h);
    case _ =>
  }

  lemma PendingStep(ann: Annotations, timing: Timing, vs: seq<Visit>, n: nat)
    requires 0 < n <= |vs| && timing.window > 0 && PendingRecorded(vs)
    requires PendingExplained(ann, timing, vs, n - 1) && AtGateAt(ann, timing, vs, n - 1)
    ensures PendingExplained(ann, timing, vs, n)
  {
    var was, v := Before(ann, timing, vs, n - 1), vs[n - 1];
    LookupResized(was, v.gate.digest, v.gate.at);
    LookupPended(was, v.gate.digest, v.gate.at);
    if Lookup(was, PENDING_HASH) == Hash(v.gate.digest) {
      var i: nat :| PendingFrom(ann, timing, vs, i, n - 1, v.gate.digest)
                    && Lookup(was, PENDING_SINCE) == Stamp(vs[i].gate.at);
      PendingExtends(ann, timing, vs, i, n, v.gate.digest);
    } else {
      assert PendingFrom(ann, timing, vs, n - 1, n, v.gate.digest);
    }
  }

  /** A resize to h at time t needs an earlier visit that computed h at least one stabilization window before, with
      every visit in between that got to the gate computing h as well. */
  lemma StableTarget(ann: Annotations, timing: Timing, vs: seq<Visit>, n: nat)
    requires n < |vs| && NoOperatorAnnotations(ann) && timing.window > 0 && PendingRecorded(vs)
    requires AppliesAt(ann, timing, vs, n)
    ensures exists i: nat :: PendingFrom(ann, timing, vs, i, n, vs[n].gate.digest)
                        && vs[i].gate.at <= vs[n].gate.at - timing.window
  {
    PendingHasOrigin(ann, timing, vs, n);
  }

  // ----- and a stable target gets through -----

  ghost predicate Computes(vs: seq<Visit>, h: Digest) {
    forall i | 0 <= i < |vs| && vs[i].gate.Reached? :: vs[i].gate.digest == h
  }

  /** While the same target stays pending and is not applied, the annotations do not move at all, so the pending time
      stands; the gate is open exactly from one window after it, and never for the target that was recorded last. */
  lemma {:induction false} PendingStands(ann: Annotations, timing: Timing, vs: seq<Visit>, n: nat, h: Digest,
      since: int)
    requires n <= |vs| && Computes(vs, h) && timing.window > 0
    requires Lookup(ann, PENDING_HASH) == Hash(h) && Lookup(ann, PENDING_SINCE) == Stamp(since)
    requires forall k | 0 <= k < n :: !AppliesAt(ann, timing, vs, k)
    ensures Before(ann, timing, vs, n) == ann
    ensures forall now :: StabilizationAllows(Before(ann, timing, vs, n), h, timing.window, now) <==>
                          Lookup(ann, LAST_APPLIED_HASH) != Hash(h) && now >= since + timing.window
  {
    if n == 0 {
    } else {
      PendingStands(ann, timing, vs, n - 1, h, since);
      var v := vs[n - 1];
      assert !AppliesAt(ann, timing, vs, n - 1);
      if AtGate(ann, timing, v) {
        assert PendingPatch(ann, h, v.gate.at) == map[];
        assert Patched(ann, map[]) == ann;
      }
    }
  }

  /** From the first visit that computes a target which is not pending, a later visit that computes nothing else in
      between is let through exactly from one window later on, and never if the target is the one recorded last. */
  lemma ConstantTargetOpens(ann: Annotations, timing: Timing, vs: seq<Visit>, n: nat, h: Digest)
    requires 0 < n < |vs| && Computes(vs, h) && timing.window > 0
    requires Lookup(ann, PENDING_HASH) != Hash(h)
    requires AtGate(ann, timing, vs[0]) && vs[0].gate.patched
    requires forall k | 0 <= k < n :: !AppliesAt(ann, timing, vs, k)
    requires AtGateAt(ann, timing, vs, n)
    ensures StabilizationAllows(Before(ann, timing, vs, n), h, timing.window, vs[n].gate.at)
            <==> Lookup(ann, LAST_APPLIED_HASH) != Hash(h) && vs[n].gate.at >= vs[0].gate.at + timing.window
  {
    var first := Before(ann, timing, vs, 1);
    assert Before(ann, timing, vs, 0) == ann;
    LookupPended(ann, h, vs[0].gate.at);
    forall k | 1 <= k <= n ensures Before(ann, timing, vs, k) == Before(first, timing, vs[1..], k - 1) {
      BeforeShifts(ann, timing, vs, k);
    }
    forall k | 0 <= k < n - 1 ensures !AppliesAt(first, timing, vs[1..], k) {
      assert !AppliesAt(ann, timing, vs, k + 1);
    }
    PendingStands(first, timing, vs[1..], n - 1, h, vs[0].gate.at);
  }

  lemma {:induction false} BeforeShifts(ann: Annotations, timing: Timing, vs: seq<Visit>, k: nat)
    requires 1 <= k <= |vs|
    ensures Before(ann, timing, vs, k) == Before(Before(ann, timing, vs, 1), timing, vs[1..], k - 1)
  {
    if k == 1 {
    } else {
      BeforeShifts(ann, timing, vs, k - 1);
    }
  }

  /** The hash applied last is never applied again while it stays the target, however long the visits go on. */
  lemma {:induction false} LastAppliedIsBlocked(ann: Annotations, timing: Timing, vs: seq<Visit>, n: nat, h: Digest)
    requires n < |vs| && Computes(vs, h) && timing.window > 0
    requires Lookup(ann, LAST_APPLIED_HASH) == Hash(h)
    ensures Lookup(Before(ann, timing, vs, n), LAST_APPLIED_HASH) == Hash(h)
    ensures !AppliesAt(ann, timing, vs, n)
  {
    if n == 0 {
    } else {
      LastAppliedIsBlocked(ann, timing, vs, n - 1, h);
      var was, v := Before(ann, timing, vs, n - 1), vs[n - 1];
      if AtGate(was, timing, v) {
        LookupPended(was, h, v.gate.at);
      }
    }
  }
}
