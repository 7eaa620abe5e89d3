/** The bounded cache of built versions (internal/controller/previewenvironmentinstance_builder.go). */
module Versions {

  datatype BuiltVersion = BuiltVersion(tag: string, timestamp: nat)

  const KEEP := 10

  predicate Sorted(s: seq<BuiltVersion>) {
    forall i, j | 0 <= i < j < |s| :: s[i].timestamp <= s[j].timestamp
  }

  predicate StrictlyIncreasing(s: seq<BuiltVersion>) {
    forall i, j | 0 <= i < j < |s| :: s[i].timestamp < s[j].timestamp
  }

  function Tags(s: seq<BuiltVersion>): set<string> { set v | v in s :: v.tag }

  /** `kept` is part of `all` and nothing that was dropped is newer than anything kept. */
  predicate KeepsNewest(all: seq<BuiltVersion>, kept: seq<BuiltVersion>) {
    && multiset(kept) <= multiset(all)
    && forall d, k | d in multiset(all) - multiset(kept) && k in kept :: d.timestamp <= k.timestamp
  }

  /** Everything updateBuiltVersions may return: with an unstable sort, ties leave it a choice. */
  predicate UpdateResult(versions: seq<BuiltVersion>, added: BuiltVersion, keep: nat, r: seq<BuiltVersion>) {
    var all := versions + [added];
    if |all| <= keep then r == all else |r| == keep && Sorted(r) && KeepsNewest(all, r)
  }

  function InsertByTime(s: seq<BuiltVersion>, v: BuiltVersion): seq<BuiltVersion> {
    if s == [] || s[|s| - 1].timestamp <= v.timestamp then s + [v]
    else InsertByTime(s[..|s| - 1], v) + [s[|s| - 1]]
  }

  lemma {:induction false} InsertKeeps(s: seq<BuiltVersion>, v: BuiltVersion)
    ensures multiset(InsertByTime(s, v)) == multiset(s) + multiset{v}
  {
    if s != [] {
      InsertKeeps(s[..|s| - 1], v);
      assert s == s[..|s| - 1] + [s[|s| - 1]];
    }
  }

  lemma {:induction false} InsertSorts(s: seq<BuiltVersion>, v: BuiltVersion)
    requires Sorted(s)
    ensures var r := InsertByTime(s, v);
            Sorted(r) && forall i | 0 <= i < |r| :: r[i].timestamp <= v.timestamp || (s != [] && r[i].timestamp <= s[|s| - 1].timestamp)
  {
    if s != [] {
      InsertSorts(s[..|s| - 1], v);
    }
  }

  function Arrange(s: seq<BuiltVersion>): seq<BuiltVersion> {
    if s == [] then [] else InsertByTime(Arrange(s[..|s| - 1]), s[|s| - 1])
  }

  lemma {:induction false} ArrangeSorts(s: seq<BuiltVersion>)
    ensures Sorted(Arrange(s)) && multiset(Arrange(s)) == multiset(s)
  {
    if s != [] {
      var front := s[..|s| - 1];
      ArrangeSorts(front);
      InsertKeeps(Arrange(front), s[|s| - 1]);
      InsertSorts(Arrange(front), s[|s| - 1]);
      assert s == front + [s[|s| - 1]];
    }
  }

  /** Stands for slices.SortFunc by timestamp. Callers rely on the contract alone, which leaves the
      order of equal timestamps open, as the library does. */
  method SortByTime(s: seq<BuiltVersion>) returns (r: seq<BuiltVersion>)
    ensures Sorted(r) && multiset(r) == multiset(s)
  {
    ArrangeSorts(s);
    r := Arrange(s);
  }

  method UpdateBuiltVersions(versions: seq<BuiltVersion>, tag: string, now: nat, keep: nat)
    returns (r: seq<BuiltVersion>)
    ensures UpdateResult(versions, BuiltVersion(tag, now), keep, r)
  {
    r := versions + [BuiltVersion(tag, now)];
    ghost var all := r;
    while |r| > keep
      invariant r == all || (Sorted(r) && keep <= |r| < |all|)
      invariant KeepsNewest(all, r)
    {
      var sorted := SortByTime(r);
      DropOldest(all, r, sorted);
      r := sorted[1..];
    }
  }

  lemma SameSize(a: seq<BuiltVersion>, b: seq<BuiltVersion>)
    requires multiset(a) == multiset(b)
    ensures |a| == |b|
  {
    assert |multiset(a)| == |a| && |multiset(b)| == |b|;
  }

  lemma DroppedBefore(all: seq<BuiltVersion>, r: seq<BuiltVersion>, sorted: seq<BuiltVersion>, d: BuiltVersion)
    requires sorted != [] && multiset(sorted) == multiset(r) && d != sorted[0]
    requires d in multiset(all) - multiset(sorted[1..])
    ensures d in multiset(all) - multiset(r)
  {
    assert sorted == [sorted[0]] + sorted[1..];
    assert multiset(sorted)[d] == multiset(sorted[1..])[d];
  }

  lemma TailIsPart(all: seq<BuiltVersion>, r: seq<BuiltVersion>, sorted: seq<BuiltVersion>)
    requires sorted != [] && multiset(sorted) == multiset(r) && multiset(r) <= multiset(all)
    ensures multiset(sorted[1..]) <= multiset(all)
    ensures forall k | k in sorted[1..] :: k in r
  {
    assert sorted == [sorted[0]] + sorted[1..];
    forall k | k in sorted[1..] ensures k in r { assert k in multiset(sorted) && k in multiset(r); }
  }

  lemma DropOldest(all: seq<BuiltVersion>, r: seq<BuiltVersion>, sorted: seq<BuiltVersion>)
    requires |r| > 0 && KeepsNewest(all, r) && Sorted(sorted) && multiset(sorted) == multiset(r)
    ensures |sorted| == |r| && Sorted(sorted[1..]) && KeepsNewest(all, sorted[1..])
  {
    SameSize(sorted, r);
    TailIsPart(all, r, sorted);
    forall d, k | d in multiset(all) - multiset(sorted[1..]) && k in sorted[1..]
      ensures d.timestamp <= k.timestamp
    {
      if d != sorted[0] { DroppedBefore(all, r, sorted, d); }
    }
  }

  lemma UpdateExists(versions: seq<BuiltVersion>, added: BuiltVersion, keep: nat) returns (r: seq<BuiltVersion>)
    ensures UpdateResult(versions, added, keep, r)
  {
    var all := versions + [added];
    r := all;
    while |r| > keep
      invariant r == all || (Sorted(r) && keep <= |r| < |all|)
      invariant KeepsNewest(all, r)
    {
      ArrangeSorts(r);
      DropOldest(all, r, Arrange(r));
      r := Arrange(r)[1..];
    }
  }

  /** With room for at least one entry, a strictly newest entry is never dropped. */
  lemma NewestSurvives(versions: seq<BuiltVersion>, added: BuiltVersion, keep: nat, r: seq<BuiltVersion>)
    requires UpdateResult(versions, added, keep, r) && keep >= 1
    requires forall v | v in versions :: v.timestamp < added.timestamp
    ensures added in r
  {
    var all := versions + [added];
    assert added in multiset(all);
    if |all| > keep {
      assert r[0] in multiset(r);
    }
  }

  predicate NewestPart(all: seq<BuiltVersion>, r: seq<BuiltVersion>) {
    && StrictlyIncreasing(all) && StrictlyIncreasing(r)
    && (forall k | k in r :: k in all)
    && (forall d, k | d in all && d !in r && k in r :: d.timestamp <= k.timestamp)
  }

  lemma {:induction false} DistinctCount(all: seq<BuiltVersion>, v: BuiltVersion)
    requires StrictlyIncreasing(all)
    ensures multiset(all)[v] <= 1
  {
    if all != [] {
      var rest := all[..|all| - 1];
      DistinctCount(rest, v);
      assert all == rest + [all[|all| - 1]];
      assert all[|all| - 1] !in rest;
    }
  }

  lemma CountTwo(r: seq<BuiltVersion>, i: nat, j: nat)
    requires i < j < |r| && r[i] == r[j]
    ensures multiset(r)[r[i]] >= 2
  {
    assert r == r[..j] + r[j..];
    assert r[i] in r[..j] && r[i] in r[j..];
  }

  lemma KeptIsNewestPart(all: seq<BuiltVersion>, r: seq<BuiltVersion>)
    requires StrictlyIncreasing(all) && Sorted(r) && KeepsNewest(all, r)
    ensures NewestPart(all, r)
  {
    forall k | k in r ensures k in all { assert k in multiset(r); }
    forall i, j | 0 <= i < j < |r| ensures r[i].timestamp < r[j].timestamp {
      assert r[i] in all && r[j] in all;
      if r[i] == r[j] {
        CountTwo(r, i, j);
        DistinctCount(all, r[i]);
      }
    }
    forall d, k | d in all && d !in r && k in r ensures d.timestamp <= k.timestamp {
      assert d in multiset(all) - multiset(r);
    }
  }

  lemma TopsAgree(rest: seq<BuiltVersion>, v: BuiltVersion, kept: seq<BuiltVersion>, top: BuiltVersion)
    requires NewestPart(rest + [v], kept + [top])
    ensures top == v
  {
    var all, r := rest + [v], kept + [top];
    assert r[|kept|] in r && all[|rest|] in all;
    var j :| 0 <= j < |all| && all[j] == top;
    assert j < |rest| ==> top.timestamp < v.timestamp;
    assert forall i | 0 <= i < |kept| :: r[i].timestamp < r[|kept|].timestamp;
  }

  lemma FrontsAgree(rest: seq<BuiltVersion>, v: BuiltVersion, kept: seq<BuiltVersion>)
    requires NewestPart(rest + [v], kept + [v])
    ensures NewestPart(rest, kept)
  {
    var all, r := rest + [v], kept + [v];
    forall i, j | 0 <= i < j < |rest| ensures rest[i].timestamp < rest[j].timestamp {
      assert all[i].timestamp < all[j].timestamp;
    }
    forall i, j | 0 <= i < j < |kept| ensures kept[i].timestamp < kept[j].timestamp {
      assert r[i].timestamp < r[j].timestamp;
    }
    forall i | 0 <= i < |kept| ensures kept[i] in rest {
      assert r[i] in all && r[i].timestamp < r[|kept|].timestamp;
    }
    forall d, k | d in rest && d !in kept && k in kept ensures d.timestamp <= k.timestamp {
      var i :| 0 <= i < |rest| && rest[i] == d;
      assert all[i].timestamp < all[|rest|].timestamp;
      assert d in all && d !in r && k in r;
    }
  }

  lemma SplitLast(s: seq<BuiltVersion>) returns (front: seq<BuiltVersion>, last: BuiltVersion)
    requires s != []
    ensures s == front + [last]
  {
    front, last := s[..|s| - 1], s[|s| - 1];
  }

  lemma KeptNeedsAll(all: seq<BuiltVersion>, r: seq<BuiltVersion>)
    requires NewestPart(all, r) && r != []
    ensures all != []
  {
    assert r[0] in all;
  }

  lemma Peel(all: seq<BuiltVersion>, r: seq<BuiltVersion>)
    returns (rest: seq<BuiltVersion>, kept: seq<BuiltVersion>, v: BuiltVersion)
    requires NewestPart(all, r) && r != []
    ensures all == rest + [v] && r == kept + [v] && NewestPart(rest, kept)
  {
    KeptNeedsAll(all, r);
    rest, v := SplitLast(all);
    var top;
    kept, top := SplitLast(r);
    TopsAgree(rest, v, kept, top);
    FrontsAgree(rest, v, kept);
  }

  lemma {:induction false} NewestPartIsSuffix(all: seq<BuiltVersion>, r: seq<BuiltVersion>)
    requires NewestPart(all, r)
    ensures |r| <= |all| && r == all[|all| - |r|..]
    decreases |r|
  {
    hide NewestPart;
    if r != [] {
      var rest, kept, v := Peel(all, r);
      NewestPartIsSuffix(rest, kept);
    }
  }

  lemma SuffixKeepsNewest(all: seq<BuiltVersion>, k: nat)
    requires StrictlyIncreasing(all) && k <= |all|
    ensures Sorted(all[k..]) && KeepsNewest(all, all[k..])
  {
    assert all == all[..k] + all[k..];
    assert multiset(all) == multiset(all[..k]) + multiset(all[k..]);
    assert multiset(all) - multiset(all[k..]) == multiset(all[..k]);
  }

  function Window(s: seq<BuiltVersion>, keep: nat): seq<BuiltVersion> {
    if |s| <= keep then s else s[|s| - keep..]
  }

  /** When time only moves forward the choice disappears: the sort changes nothing and the result is
      the last `keep` entries in the order they were built. */
  lemma UpdateIsSlidingWindow(versions: seq<BuiltVersion>, added: BuiltVersion, keep: nat, r: seq<BuiltVersion>)
    requires StrictlyIncreasing(versions + [added])
    ensures UpdateResult(versions, added, keep, r) <==> r == Window(versions + [added], keep)
  {
    hide KeepsNewest, NewestPart, Sorted, StrictlyIncreasing;
    var all := versions + [added];
    if |all| > keep {
      SuffixKeepsNewest(all, |all| - keep);
      if UpdateResult(versions, added, keep, r) {
        KeptIsNewestPart(all, r);
        NewestPartIsSuffix(all, r);
      }
    }
  }
}
