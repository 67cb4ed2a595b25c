/** The full feed page (src/pages/FeedPage.tsx): a copy of the feed is
    narrowed by a case-insensitive name search (or a case-sensitive NASA id
    search) and by a risk tier, then sorted in place by the chosen mode. */
module FeedPage {
  import opened Options
  import opened Asteroids
  import opened Collections
  import opened Strings

  /** The tier buttons, or "ALL". */
  datatype RiskFilter = All | Only(tier: Tier)

  datatype SortMode = Nearest | Riskiest | Fastest | Viewed

  /** The record matches the lower-cased query `q`: its lower-cased name
      contains `q`, or its NASA id (not lower-cased) does. */
  predicate SearchHit(q: string, a: Asteroid) {
    Contains(Lower(a.name), q) || Contains(a.nasaId, q)
  }

  function SearchPredicate(q: string): Asteroid -> bool {
    (a: Asteroid) => SearchHit(q, a)
  }

  /** The search step; an empty search keeps everything. */
  function Searched(asteroids: seq<Asteroid>, search: string): (r: seq<Asteroid>)
    ensures search == "" ==> r == asteroids
    ensures forall a :: a in r <==> a in asteroids && (search == "" || SearchHit(Lower(search), a))
    ensures forall a :: multiset(r)[a] == if search == "" || SearchHit(Lower(search), a) then multiset(asteroids)[a] else 0
  {
    if search == "" then asteroids
    else
      FilterMembers(asteroids, SearchPredicate(Lower(search)));
      FilterMultiplicity(asteroids, SearchPredicate(Lower(search)));
      Filter(asteroids, SearchPredicate(Lower(search)))
  }

  /** The risk step; "ALL" keeps everything. */
  function RiskFiltered(asteroids: seq<Asteroid>, f: RiskFilter): (r: seq<Asteroid>)
    ensures f == All ==> r == asteroids
    ensures forall a :: a in r <==> a in asteroids && (f == All || a.riskLevel == Some(f.tier))
    ensures forall a :: multiset(r)[a] == if f == All || a.riskLevel == Some(f.tier) then multiset(asteroids)[a] else 0
  {
    match f
    case All => asteroids
    case Only(t) =>
      FilterMembers(asteroids, LabelIs(t));
      FilterMultiplicity(asteroids, LabelIs(t));
      Filter(asteroids, LabelIs(t))
  }

  /** The record passes the search and the risk filter. */
  predicate Passes(search: string, f: RiskFilter, a: Asteroid) {
    (search == "" || SearchHit(Lower(search), a)) && (f == All || a.riskLevel == Some(f.tier))
  }

  /** The records that survive both steps, still in feed order: exactly
      those passing the search and the risk filter, each at most as often as
      in the feed. */
  function Narrowed(asteroids: seq<Asteroid>, search: string, f: RiskFilter): (r: seq<Asteroid>)
    ensures multiset(r) <= multiset(asteroids)
    ensures forall a :: a in r <==>
      a in asteroids && (search == "" || SearchHit(Lower(search), a)) && (f == All || a.riskLevel == Some(f.tier))
    ensures forall a :: multiset(r)[a] == if Passes(search, f, a) then multiset(asteroids)[a] else 0
  {
    var searched := Searched(asteroids, search);
    assert multiset(searched) <= multiset(asteroids) by {
      if search != "" {
        FilterSubMultiset(asteroids, SearchPredicate(Lower(search)));
      }
    }
    assert multiset(RiskFiltered(searched, f)) <= multiset(searched) by {
      if f.Only? {
        FilterSubMultiset(searched, LabelIs(f.tier));
      }
    }
    RiskFiltered(searched, f)
  }

  /** `riskOrder[a.risk_level]`; the source's table has no entry for a
      database label or a missing one, which this model ranks last. */
  function RiskRank(a: Asteroid): (n: nat)
    ensures n <= 4
    ensures n < 4 <==> a.riskLevel.Some? && IsTier(a.riskLevel.value)
    ensures a.riskLevel.Some? && IsTier(a.riskLevel.value) ==> n == 3 - Severity(a.riskLevel.value)
  {
    match a.riskLevel
    case Some(Dangerous) => 0
    case Some(Hazardous) => 1
    case Some(Problematic) => 2
    case Some(Safe) => 3
    case _ => 4
  }

  /** The sort key behind each comparator; the descending comparators
      (`b - a`) negate their key. */
  function SortKey(m: SortMode): Asteroid -> real {
    match m
    case Nearest => ByDistance()
    case Riskiest => (a: Asteroid) => RiskRank(a) as real
    case Fastest => (a: Asteroid) => -a.relativeVelocityKms
    case Viewed => (a: Asteroid) => -Views(a)
  }

  /** The list the page shows: the narrowed records, rearranged into the
      order of the chosen mode. */
  function Feed(asteroids: seq<Asteroid>, search: string, f: RiskFilter, m: SortMode): (r: seq<Asteroid>)
    ensures multiset(r) == multiset(Narrowed(asteroids, search, f))
    ensures Sorted(r, SortKey(m))
  {
    StableSort(Narrowed(asteroids, search, f), SortKey(m))
  }

  /** `result.sort(cmp)` on the page's own copy: a stable insertion sort
      in place. */
  method SortInPlace(a: array<Asteroid>, key: Asteroid -> real)
    modifies a
    ensures a[..] == StableSort(old(a[..]), key)
  {
    ghost var s := a[..];
    var i := 0;
    while i < a.Length
      invariant 0 <= i <= a.Length
      invariant a[..i] == StableSort(s[..i], key)
      invariant forall k :: i <= k < a.Length ==> a[k] == s[k]
    {
      ghost var prefix := a[..i];
      assert a[i] == s[i];
      InsertLast(a, i, key);
      assert a[..i + 1] == Insert(prefix, s[i], key);
      SortPrefixStep(s, i, key);
      i := i + 1;
    }
    assert a[..] == a[..a.Length] && s == s[..a.Length];
  }

  /** Moves `a[i]` left past every earlier element with a greater key. */
  method InsertLast(a: array<Asteroid>, i: int, key: Asteroid -> real)
    requires 0 <= i < a.Length
    modifies a
    ensures a[..i + 1] == Insert(old(a[..i]), old(a[i]), key)
    ensures forall k :: i < k < a.Length ==> a[k] == old(a[k])
  {
    var x := a[i];
    ghost var p := a[..i];
    var j := i;
    while j > 0 && key(a[j - 1]) > key(x)
      invariant 0 <= j <= i
      invariant forall k :: j <= k < i ==> key(p[k]) > key(x)
      invariant forall k :: 0 <= k < j ==> a[k] == p[k]
      invariant forall k :: j < k <= i ==> a[k] == p[k - 1]
      invariant forall k :: i < k < a.Length ==> a[k] == old(a[k])
    {
      assert a[j - 1] == p[j - 1];
      a[j] := a[j - 1];
      j := j - 1;
    }
    a[j] := x;
    assert j > 0 ==> a[j - 1] == p[j - 1];
    InsertAt(p, j, x, key);
    ShiftedShape(a[..i + 1], p, j, x);
  }

  /** `x` goes after the last element whose key is not greater than its
      own, and before the run of greater keys that ends the sequence. */
  lemma {:induction false} InsertAt(p: seq<Asteroid>, j: int, x: Asteroid, key: Asteroid -> real)
    requires 0 <= j <= |p|
    requires j == 0 || key(p[j - 1]) <= key(x)
    requires forall k :: j <= k < |p| ==> key(p[k]) > key(x)
    ensures Insert(p, x, key) == p[..j] + [x] + p[j..]
    decreases |p|
  {
    if j < |p| {
      var front, last := p[..|p| - 1], p[|p| - 1];
      assert key(last) > key(x);
      InsertAt(front, j, x, key);
      assert front[..j] == p[..j];
      assert front[j..] + [last] == p[j..];
    } else {
      assert p[..j] == p && p[j..] == [];
    }
  }

  /** The array prefix after the shifting loop: the front of `p`, then
      `x`, then the rest of `p` moved one place right. */
  lemma ShiftedShape(t: seq<Asteroid>, p: seq<Asteroid>, j: int, x: Asteroid)
    requires 0 <= j <= |p| && |t| == |p| + 1
    requires forall k :: 0 <= k < j ==> t[k] == p[k]
    requires t[j] == x
    requires forall k :: j < k < |t| ==> t[k] == p[k - 1]
    ensures t == p[..j] + [x] + p[j..]
  {
    var q := p[..j] + [x] + p[j..];
    forall k | 0 <= k < |t| ensures t[k] == q[k] {
      if k < j {
        assert q[k] == p[k];
      } else if j < k {
        assert q[k] == p[k - 1];
      }
    }
  }

  /** Sorting one more element of the prefix is inserting it. */
  lemma SortPrefixStep(s: seq<Asteroid>, i: int, key: Asteroid -> real)
    requires 0 <= i < |s|
    ensures StableSort(s[..i + 1], key) == Insert(StableSort(s[..i], key), s[i], key)
  {
    assert s[..i + 1][..i] == s[..i];
  }

  /** The `useMemo` pipeline: copy, narrow, sort. */
  method FilteredFeed(asteroids: seq<Asteroid>, search: string, f: RiskFilter, m: SortMode)
    returns (result: seq<Asteroid>)
    ensures result == Feed(asteroids, search, f, m)
  {
    var narrowed := Narrowed(asteroids, search, f);
    var copy := new Asteroid[|narrowed|](i requires 0 <= i < |narrowed| => narrowed[i]);
    assert copy[..] == narrowed;
    SortInPlace(copy, SortKey(m));
    result := copy[..];
  }

  /** The page shows exactly the records that pass both steps, each as
      often as in the feed. */
  lemma FeedContents(asteroids: seq<Asteroid>, search: string, f: RiskFilter, m: SortMode)
    ensures multiset(Feed(asteroids, search, f, m)) == multiset(Narrowed(asteroids, search, f))
    ensures multiset(Feed(asteroids, search, f, m)) <= multiset(asteroids)
    ensures forall a :: a in Feed(asteroids, search, f, m) <==>
      a in asteroids && (search == "" || SearchHit(Lower(search), a)) && (f == All || a.riskLevel == Some(f.tier))
  {
    var n := Narrowed(asteroids, search, f);
    var r := Feed(asteroids, search, f, m);
    forall a ensures a in r <==> a in n {
      assert a in r <==> a in multiset(r);
      assert a in n <==> a in multiset(n);
    }
  }

  /** Case does not matter in the name search. */
  lemma SearchIgnoresCase(asteroids: seq<Asteroid>, s1: string, s2: string)
    requires s1 != "" && s2 != "" && Lower(s1) == Lower(s2)
    ensures Searched(asteroids, s1) == Searched(asteroids, s2)
  {
  }

  /** A search hit means the query occurs at some position of the
      lower-cased name or of the NASA id. */
  lemma SearchHitMeans(q: string, a: Asteroid)
    ensures SearchHit(q, a) <==> (exists i :: OccursAt(Lower(a.name), q, i)) || (exists i :: OccursAt(a.nasaId, q, i))
  {
    ContainsOccurs(Lower(a.name), q);
    ContainsOccurs(a.nasaId, q);
  }

  /** The order each mode promises. */
  lemma FeedOrder(asteroids: seq<Asteroid>, search: string, f: RiskFilter, m: SortMode)
    ensures var r := Feed(asteroids, search, f, m);
      m == Nearest ==> forall i, j :: 0 <= i < j < |r| ==> r[i].missDistanceKm <= r[j].missDistanceKm
    ensures var r := Feed(asteroids, search, f, m);
      m == Riskiest ==> forall i, j :: 0 <= i < j < |r| ==> RiskRank(r[i]) <= RiskRank(r[j])
    ensures var r := Feed(asteroids, search, f, m);
      m == Fastest ==> forall i, j :: 0 <= i < j < |r| ==> r[i].relativeVelocityKms >= r[j].relativeVelocityKms
    ensures var r := Feed(asteroids, search, f, m);
      m == Viewed ==> forall i, j :: 0 <= i < j < |r| ==> Views(r[i]) >= Views(r[j])
  {
    var r := Feed(asteroids, search, f, m);
    assert forall i, j :: 0 <= i < j < |r| ==> SortKey(m)(r[i]) <= SortKey(m)(r[j]);
  }

  /** When every narrowed record carries a four-tier label, the source's
      comparator is numeric, and the riskiest order puts a more severe tier
      first. */
  lemma RiskiestBySeverity(asteroids: seq<Asteroid>, search: string, f: RiskFilter, i: int, j: int)
    requires forall x :: x in Narrowed(asteroids, search, f) ==> x.riskLevel.Some? && IsTier(x.riskLevel.value)
    requires 0 <= i < j < |Feed(asteroids, search, f, Riskiest)|
    ensures var r := Feed(asteroids, search, f, Riskiest);
      r[i].riskLevel.Some? && IsTier(r[i].riskLevel.value) && r[j].riskLevel.Some? && IsTier(r[j].riskLevel.value)
      && Severity(r[i].riskLevel.value) >= Severity(r[j].riskLevel.value)
  {
    var r := Feed(asteroids, search, f, Riskiest);
    FeedContents(asteroids, search, f, Riskiest);
    assert r[i] in r && r[j] in r;
    FeedOrder(asteroids, search, f, Riskiest);
  }

  /** Records that tie under the chosen mode keep their feed order. */
  lemma FeedIsStable(asteroids: seq<Asteroid>, search: string, f: RiskFilter, m: SortMode, v: real)
    ensures KeyClass(Feed(asteroids, search, f, m), SortKey(m), v) == KeyClass(Narrowed(asteroids, search, f), SortKey(m), v)
  {
    StableSortKeepsClasses(Narrowed(asteroids, search, f), SortKey(m), v);
  }
}
