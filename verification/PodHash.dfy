/**
 The canonical form that is serialised and digested to recognise a desired state. The digest itself
 is taken to be injective, so the canonical form stands for it.
 */
module PodHash {
  import opened Wrappers
  import opened Resources

  type Digest = seq<Container>

  /** Go's byte-wise string order. */
  predicate NameLess(a: string, b: string) {
    if b == "" then false
    else if a == "" then true
    else a[0] < b[0] || (a[0] == b[0] && NameLess(a[1..], b[1..]))
  }

  lemma {:induction false} NameLessTotal(a: string, b: string)
    ensures !(NameLess(a, b) && NameLess(b, a))
    ensures NameLess(a, b) || NameLess(b, a) || a == b
    ensures !NameLess(a, a)
  {
    if a != "" {
      NameLessTotal(a[1..], a[1..]);
    }
    if a != "" && b != "" {
      NameLessTotal(a[1..], b[1..]);
      assert a == [a[0]] + a[1..] && b == [b[0]] + b[1..];
    }
  }

  lemma {:induction false} NameLessTransitive(a: string, b: string, c: string)
    requires NameLess(a, b) && !NameLess(c, b)
    ensures NameLess(a, c)
  {
    NameLessTotal(b, c);
    if a != "" && c != "" && a[0] == b[0] == c[0] {
      NameLessTransitive(a[1..], b[1..], c[1..]);
    }
  }

  /** Insertion from the back; what the library sort is used for here. */
  function Insert(s: seq<Container>, x: Container): (r: seq<Container>)
    ensures |r| == |s| + 1
  {
    if s == [] || !NameLess(x.name, s[|s| - 1].name) then s + [x]
    else Insert(s[..|s| - 1], x) + [s[|s| - 1]]
  }

  function SortByName(s: seq<Container>): (r: seq<Container>)
    ensures |r| == |s|
  {
    if s == [] then [] else Insert(SortByName(s[..|s| - 1]), s[|s| - 1])
  }

  function Canonical(pod: Pod): Digest {
    SortByName(pod.All())
  }

  ghost predicate DistinctNames(cs: seq<Container>) {
    forall i, j :: 0 <= i < j < |cs| ==> cs[i].name != cs[j].name
  }

  ghost predicate StrictlySorted(s: seq<Container>) {
    forall i, j :: 0 <= i < j < |s| ==> NameLess(s[i].name, s[j].name)
  }

  /** The element being inserted, on its way back: it stands before position j of the sorted part. */
  function Moving(sorted: seq<Container>, x: Container, j: nat, rest: seq<Container>): seq<Container>
    requires j <= |sorted|
  {
    sorted[..j] + [x] + sorted[j..] + rest
  }

  lemma MoveBack(sorted: seq<Container>, x: Container, j: nat, rest: seq<Container>)
    requires 0 < j <= |sorted|
    ensures var now := Moving(sorted, x, j, rest);
            && now[j] == x && now[j - 1] == sorted[j - 1]
            && now[j := now[j - 1]][j - 1 := x] == Moving(sorted, x, j - 1, rest)
    ensures NameLess(x.name, sorted[j - 1].name)
            ==> Insert(sorted[..j], x) + sorted[j..] == Insert(sorted[..j - 1], x) + sorted[j - 1..]
  {
    assert sorted[..j][..j - 1] == sorted[..j - 1];
    assert sorted[j - 1..] == [sorted[j - 1]] + sorted[j..];
  }

  /** One round of the sort: the element at index i moves back to its place among the first i. */
  method InsertInPlace(cs: array<Container>, i: nat)
    requires i < cs.Length
    modifies cs
    ensures cs[..] == old(Insert(cs[..i], cs[i]) + cs[i + 1..])
  {
    ghost var sorted, x, rest := cs[..i], cs[i], cs[i + 1..];
    var j := i;
    assert sorted[..j] == sorted;
    while j > 0 && NameLess(cs[j].name, cs[j - 1].name)
      invariant j <= i
      invariant cs[..] == Moving(sorted, x, j, rest)
      invariant Insert(sorted, x) == Insert(sorted[..j], x) + sorted[j..]
    {
      MoveBack(sorted, x, j, rest);
      ghost var now := cs[..];
      assert cs[j] == now[j] && cs[j - 1] == now[j - 1];
      cs[j], cs[j - 1] := cs[j - 1], cs[j];
      assert cs[..] == now[j := now[j - 1]][j - 1 := x];
      j := j - 1;
    }
    assert j > 0 ==> cs[..][j - 1] == sorted[j - 1] && cs[..][j] == x;
    assert j == 0 ==> sorted[..j] == [];
    assert Insert(sorted[..j], x) == sorted[..j] + [x];
  }

  lemma SortOneMore(was: seq<Container>, now: seq<Container>, i: nat)
    requires i < |was| && now == SortByName(was[..i]) + was[i..]
    ensures Insert(now[..i], now[i]) + now[i + 1..] == SortByName(was[..i + 1]) + was[i + 1..]
  {
    assert now[..i] == SortByName(was[..i]) && now[i + 1..] == was[i + 1..];
    assert was[..i + 1][..i] == was[..i];
  }

  method SortInPlace(cs: array<Container>)
    modifies cs
    ensures cs[..] == SortByName(old(cs[..]))
  {
    ghost var was := cs[..];
    for i := 0 to cs.Length
      invariant cs[..] == SortByName(was[..i]) + was[i..]
    {
      ghost var before := cs[..];
      SortOneMore(was, before, i);
      assert before[..i] == cs[..i] && before[i + 1..] == cs[i + 1..];
      InsertInPlace(cs, i);
    }
    assert was[..cs.Length] == was;
  }

  method HashPodResources(pod: Option<Pod>) returns (h: Option<Digest>)
    ensures h == match pod case None => None case Some(p) => Some(Canonical(p))
  {
    if pod.None? {
      return None;
    }
    var all := pod.value.initContainers + pod.value.containers;
    var cs := new Container[|all|](i requires 0 <= i < |all| => all[i]);
    assert cs[..] == all;
    SortInPlace(cs);
    h := Some(cs[..]);
  }

  // ----- what the canonical form depends on -----

  lemma {:induction false} InsertKeepsElements(s: seq<Container>, x: Container)
    ensures multiset(Insert(s, x)) == multiset(s) + multiset{x}
  {
    if s != [] && NameLess(x.name, s[|s| - 1].name) {
      InsertKeepsElements(s[..|s| - 1], x);
      assert s == s[..|s| - 1] + [s[|s| - 1]];
    }
  }

  lemma {:induction false} SortKeepsElements(s: seq<Container>)
    ensures multiset(SortByName(s)) == multiset(s)
  {
    if s == [] {
    } else {
      SortKeepsElements(s[..|s| - 1]);
      InsertKeepsElements(SortByName(s[..|s| - 1]), s[|s| - 1]);
      assert s == s[..|s| - 1] + [s[|s| - 1]];
    }
  }

  lemma SortedEnd(s: seq<Container>, x: Container)
    requires StrictlySorted(s) && forall c | c in s :: NameLess(c.name, x.name)
    ensures StrictlySorted(s + [x])
  {
  }

  lemma {:induction false} InsertSorts(s: seq<Container>, x: Container)
    requires StrictlySorted(s) && forall c | c in s :: c.name != x.name
    ensures StrictlySorted(Insert(s, x))
  {
    if s == [] {
    } else {
      var front, last := s[..|s| - 1], s[|s| - 1];
      NameLessTotal(x.name, last.name);
      assert last in s;
      if NameLess(x.name, last.name) {
        InsertSorts(front, x);
        InsertKeepsElements(front, x);
        forall c | c in Insert(front, x) ensures NameLess(c.name, last.name) {
          assert c in multiset(Insert(front, x));
        }
        SortedEnd(Insert(front, x), last);
      } else {
        forall c | c in s ensures NameLess(c.name, x.name) {
          if c != last {
            NameLessTransitive(c.name, last.name, x.name);
          }
        }
        SortedEnd(s, x);
      }
    }
  }

  lemma {:induction false} SortSorts(s: seq<Container>)
    requires DistinctNames(s)
    ensures StrictlySorted(SortByName(s))
  {
    if s == [] {
    } else {
      var front := s[..|s| - 1];
      SortSorts(front);
      SortKeepsElements(front);
      forall c | c in SortByName(front) ensures c.name != s[|s| - 1].name {
        assert c in multiset(front);
      }
      InsertSorts(SortByName(front), s[|s| - 1]);
    }
  }

  /** Strictly sorted sequences over the same elements are the same sequence. */
  lemma {:induction false} SortedUnique(s: seq<Container>, t: seq<Container>)
    requires StrictlySorted(s) && StrictlySorted(t)
    requires forall c :: c in s <==> c in t
    ensures s == t
  {
    assert (s != [] ==> s[0] in t) && (t != [] ==> t[0] in s);
    if s != [] && t != [] {
      NameLessTotal(s[0].name, t[0].name);
      assert s[0] == t[0];
      NameLessTotal(s[0].name, s[0].name);
      forall c ensures c in s[1..] <==> c in t[1..] {
        if c in s[1..] { assert c in t; assert NameLess(s[0].name, c.name); }
        if c in t[1..] { assert c in s; assert NameLess(t[0].name, c.name); }
      }
      SortedUnique(s[1..], t[1..]);
      assert s == [s[0]] + s[1..] && t == [t[0]] + t[1..];
    }
  }

  /** For pods with distinct container names the canonical form tells apart exactly the pods that assign different
      resources to some name: the order of the containers does not matter, anything else does. */
  lemma CanonicalExact(p: Pod, q: Pod)
    requires DistinctNames(p.All()) && DistinctNames(q.All())
    ensures Canonical(p) == Canonical(q) <==> forall c :: c in p.All() <==> c in q.All()
  {
    SortKeepsElements(p.All());
    SortKeepsElements(q.All());
    SortSorts(p.All());
    SortSorts(q.All());
    forall c ensures (c in p.All() <==> c in Canonical(p)) && (c in q.All() <==> c in Canonical(q)) {
      assert c in p.All() <==> c in multiset(p.All());
      assert c in Canonical(p) <==> c in multiset(Canonical(p));
      assert c in q.All() <==> c in multiset(q.All());
      assert c in Canonical(q) <==> c in multiset(Canonical(q));
    }
    if forall c :: c in p.All() <==> c in q.All() {
      SortedUnique(Canonical(p), Canonical(q));
    }
  }
}
