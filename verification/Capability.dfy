/** The cached answer to whether the cluster supports in-place resizes, and what a failed resize does to later runs. */
module Capability {
  import opened Wrappers
  import opened WorkerPool
  import opened PoolTheorems

  datatype SupportState = Unknown | Supported | Unsupported

  /** `checked` is None for the zero time of a cache that was never filled. */
  datatype Support = Support(state: SupportState, reason: string, checked: Option<int>)

  datatype ApiResource = ApiResource(name: string, verbs: seq<string>)

  datatype Discovery = NoClient | Failed | Listing(resources: seq<ApiResource>)

  const PODS_RESIZE := "pods/resize"

  predicate IsFresh(cache: Support, ttl: int, now: int) {
    ttl > 0 && cache.checked.Some? && now - cache.checked.value < ttl
  }

  /** The first pods/resize entry decides. */
  ghost function Probe(d: Discovery, now: int): Support {
    match d
    case NoClient => Support(Unknown, "DiscoveryClientMissing", Some(now))
    case Failed => Support(Unknown, "DiscoveryFailed", Some(now))
    case Listing(rs) =>
      if !(exists i :: 0 <= i < |rs| && rs[i].name == PODS_RESIZE) then Support(Unsupported, "NotFound", Some(now))
      else
        var i := FirstResize(rs);
        if "update" in rs[i].verbs then Support(Supported, "Discovered", Some(now))
        else Support(Unknown, "VerbMissing", Some(now))
  }

  ghost function FirstResize(rs: seq<ApiResource>): (i: nat)
    requires exists i :: 0 <= i < |rs| && rs[i].name == PODS_RESIZE
    ensures i < |rs| && rs[i].name == PODS_RESIZE && forall j | 0 <= j < i :: rs[j].name != PODS_RESIZE
  {
    if rs[0].name == PODS_RESIZE then 0 else
      assert exists i :: 0 <= i < |rs[1..]| && rs[1..][i].name == PODS_RESIZE by {
        var i :| 0 <= i < |rs| && rs[i].name == PODS_RESIZE;
        assert rs[1..][i - 1] == rs[i];
      }
      FirstResize(rs[1..]) + 1
  }

  function Marked(cache: Support, unsupported: bool, at: int): Support {
    if unsupported then Support(Unsupported, "ApplyFailed", Some(at)) else cache
  }

  ghost function Answer(cache: Support, ttl: int, now: int, d: Discovery): Support {
    if IsFresh(cache, ttl, now) then cache else Probe(d, now)
  }

  /** The cache was never filled, or is as old as its time to live. */
  predicate Stale(cache: Support, ttl: int, now: int) {
    ttl <= 0 || cache.checked.None? || now >= cache.checked.value + ttl
  }

  ghost predicate FirstEntry(rs: seq<ApiResource>, i: int) {
    0 <= i < |rs| && rs[i].name == "pods/resize" && forall j | 0 <= j < i :: rs[j].name != "pods/resize"
  }

  /** A stale cache asks discovery: only a listing whose first pods/resize entry can be updated says `Supported`, only a
      listing without such an entry says `Unsupported`, and a failure says neither. A fresh cache is the answer. */
  lemma AnswerExact(cache: Support, ttl: int, now: int, d: Discovery)
    ensures var answer := Answer(cache, ttl, now, d);
            if Stale(cache, ttl, now) then
              && answer.checked == Some(now)
              && (answer.state == Supported <==>
                    d.Listing? && exists i :: FirstEntry(d.resources, i) && "update" in d.resources[i].verbs)
              && (answer.state == Unsupported <==>
                    d.Listing? && forall i | 0 <= i < |d.resources| :: d.resources[i].name != "pods/resize")
            else answer == cache
  {
    if d.Listing? && exists i :: 0 <= i < |d.resources| && d.resources[i].name == PODS_RESIZE {
      assert FirstEntry(d.resources, FirstResize(d.resources));
    }
  }

  method HasVerb(verbs: seq<string>, verb: string) returns (found: bool)
    ensures found <==> verb in verbs
  {
    for i := 0 to |verbs|
      invariant verb !in verbs[..i]
    {
      if verbs[i] == verb {
        return true;
      }
    }
    return false;
  }

  class Prober {
    var cache: Support

    constructor ()
      ensures cache == Support(Unknown, "", None)
    {
      cache := Support(Unknown, "", None);
    }

    /** The answer, which is also what the cache holds afterwards. */
    method CheckSupport(ttl: int, now: int, d: Discovery) returns (answer: Support)
      modifies this
      ensures answer == Answer(old(cache), ttl, now, d) && cache == answer
      ensures Stale(old(cache), ttl, now) ==>
                && answer.checked == Some(now)
                && (answer.state == Supported <==>
                      d.Listing? && exists i :: FirstEntry(d.resources, i) && "update" in d.resources[i].verbs)
                && (answer.state == Unsupported <==>
                      d.Listing? && forall i | 0 <= i < |d.resources| :: d.resources[i].name != "pods/resize")
      ensures !Stale(old(cache), ttl, now) ==> answer == old(cache)
    {
      if ttl > 0 && cache.checked.Some? && now - cache.checked.value < ttl {
        return cache;
      }
      answer := Support(Unsupported, "NotFound", Some(now));
      match d {
        case NoClient =>
          answer := Support(Unknown, "DiscoveryClientMissing", Some(now));
        case Failed =>
          answer := Support(Unknown, "DiscoveryFailed", Some(now));
        case Listing(rs) =>
          for i := 0 to |rs|
            invariant forall j | 0 <= j < i :: rs[j].name != PODS_RESIZE
            invariant answer == Support(Unsupported, "NotFound", Some(now))
          {
            if rs[i].name != PODS_RESIZE {
              continue;
            }
            assert FirstResize(rs) == i;
            var hasUpdate := HasVerb(rs[i].verbs, "update");
            answer := if hasUpdate then Support(Supported, "Discovered", Some(now))
                      else Support(Unknown, "VerbMissing", Some(now));
            cache := answer;
            return;
          }
      }
      cache := answer;
    }

    method Mark(s: Support)
      modifies this
      ensures cache == s
    {
      cache := s;
    }

    /** The mark of the first fatal failure of a run, if it had one. */
    method MarkAfter(unsupported: bool, at: int)
      modifies this
      ensures cache == Marked(old(cache), unsupported, at)
    {
      if unsupported {
        Mark(Support(Unsupported, "ApplyFailed", Some(at)));
      }
    }
  }

  // ----- later runs -----

  /** One run asks once, at its start. */
  datatype Check = Check(ttl: int, now: int, discovery: Discovery)

  ghost function CacheBefore(cache: Support, checks: seq<Check>, n: nat): Support
    requires n <= |checks|
  {
    if n == 0 then cache
    else Answer(CacheBefore(cache, checks, n - 1), checks[n - 1].ttl, checks[n - 1].now, checks[n - 1].discovery)
  }

  ghost function AnswerOf(cache: Support, checks: seq<Check>, n: nat): Support
    requires n < |checks|
  {
    CacheBefore(cache, checks, n + 1)
  }

  /** A mark made at time c answers every check before c + ttl, whatever discovery would say, and is not refreshed by
      being read; so the first check at or after that time probes again. */
  lemma {:induction false} MarkHolds(cache: Support, checks: seq<Check>, n: nat, c: int, least: int)
    requires n < |checks| && cache.checked == Some(c) && least > 0
    requires forall k | 0 <= k <= n :: checks[k].ttl >= least
    requires forall k | 0 <= k < n :: checks[k].now < c + least
    ensures checks[n].now < c + least ==> AnswerOf(cache, checks, n) == cache
    ensures checks[n].now >= c + checks[n].ttl ==>
              AnswerOf(cache, checks, n) == Probe(checks[n].discovery, checks[n].now)
  {
    if n == 0 {
    } else {
      MarkHolds(cache, checks, n - 1, c, least);
      assert CacheBefore(cache, checks, n) == AnswerOf(cache, checks, n - 1);
    }
    assert CacheBefore(cache, checks, n) == cache;
    assert AnswerOf(cache, checks, n) == Answer(cache, checks[n].ttl, checks[n].now, checks[n].discovery);
  }

  /** What the run makes of the answer: an unsupported capability ends it, anything but a supported one keeps workers
      from the API. */
  ghost predicate RunUnder(cfg: Config, answer: Support) {
    answer.state != Unsupported && (cfg.capabilitySupported <==> answer.state == Supported)
  }

  /** The cache after a run that may have marked it at the given time. */
  function CacheAfterRun(cache: Support, s: Pool, at: int): Support {
    Marked(cache, s.shared.unsupported, at)
  }

  /** After a run in which a resize failed fatally, and which marked the capability at time c, no run that asks before
      c + least resizes anything: it does not even start. Runs that start later and hear anything but `Supported`
      apply nothing either. */
  lemma NoResizeWhileBlocked(failed: Config, failedActs: seq<Action>, end: Pool, cache: Support, c: int,
                             checks: seq<Check>, n: nat, least: int, cfg: Config, acts: seq<Action>, s: Pool)
    requires Reaches(failed, failedActs, end) && end.Final() && FatalSeen(failed, Start(failed), failedActs)
    requires n < |checks| && least > 0
    requires forall k | 0 <= k <= n :: checks[k].ttl >= least
    requires forall k | 0 <= k < n :: checks[k].now < c + least
    requires RunUnder(cfg, AnswerOf(CacheAfterRun(cache, end, c), checks, n)) && Reaches(cfg, acts, s)
    ensures checks[n].now >= c + least
    ensures AnswerOf(CacheAfterRun(cache, end, c), checks, n).state != Supported ==> s.history.applied == []
  {
    MarkedExactly(failed, failedActs, end);
    MarkHolds(CacheAfterRun(cache, end, c), checks, n, c, least);
    AppliedWereProposed(cfg, acts, s);
  }

  /** A run resizes something only when the cache it found was fresh and said `Supported`, or when it was stale and
      discovery listed a pods/resize entry that can be updated. So a stale cache and a discovery that is missing or
      fails keep every pod as it is. */
  lemma ResizesNeedSupport(cfg: Config, acts: seq<Action>, s: Pool, cache: Support, ttl: int, now: int, d: Discovery)
    requires Reaches(cfg, acts, s) && RunUnder(cfg, Answer(cache, ttl, now, d)) && s.history.applied != []
    ensures if Stale(cache, ttl, now)
            then d.Listing? && exists i :: FirstEntry(d.resources, i) && "update" in d.resources[i].verbs
            else cache.state == Supported
  {
    AnswerExact(cache, ttl, now, d);
    AppliedWereProposed(cfg, acts, s);
  }
}
