/** The tabbed feed section of the home page
    (src/components/AsteroidFeed.tsx): four tabs select one stored risk
    label each, and the "trending" tab ranks every record by a score that
    grows with its view count and with its closeness. */
module AsteroidFeed {
  import opened Options
  import opened Asteroids
  import opened Collections

  /** The five tabs; a tier tab shows the records carrying that tier. */
  datatype FeedTab = Trending | TierTab(tier: Tier)

  /** `a.miss_distance_km || 1`: a zero distance is replaced by 1. */
  function DistanceOrOne(km: real): (r: real)
    ensures r != 0.0
    ensures km == 0.0 ==> r == 1.0
    ensures km != 0.0 ==> r == km
  {
    if km == 0.0 then 1.0 else km
  }

  /** The trending score: views plus 10^9 over the (guarded) distance, so
      a record at a non-negative distance scores above its view count, and
      a record at distance zero scores as if it were 1 km away. */
  function TrendingScore(a: Asteroid): (s: real)
    ensures a.missDistanceKm >= 0.0 ==> s > Views(a)
    ensures a.missDistanceKm == 0.0 ==> s == Views(a) + 1000000000.0
  {
    var d := DistanceOrOne(a.missDistanceKm);
    assert d > 0.0 ==> 1.0 / d > 0.0 by {
      if d > 0.0 {
        PositiveReciprocal(d);
      }
    }
    Views(a) + (1.0 / d) * 1000000000.0
  }

  lemma PositiveReciprocal(x: real)
    requires x > 0.0
    ensures 1.0 / x > 0.0
  {
    assert (1.0 / x) * x == 1.0;
  }

  /** The comparator `scoreB - scoreA` is the ascending sort by the negated
      score. */
  function TrendingKey(): Asteroid -> real {
    (a: Asteroid) => -TrendingScore(a)
  }

  /** filterAsteroids. */
  function FilterAsteroids(asteroids: seq<Asteroid>, tab: FeedTab): (r: seq<Asteroid>)
    ensures multiset(r) <= multiset(asteroids)
    ensures tab.TierTab? ==> forall a :: a in r <==> a in asteroids && a.riskLevel == Some(tab.tier)
    ensures tab.TierTab? ==> forall a :: multiset(r)[a] == if a.riskLevel == Some(tab.tier) then multiset(asteroids)[a] else 0
    ensures tab == Trending ==> multiset(r) == multiset(asteroids)
    ensures tab == Trending ==> forall i, j :: 0 <= i < j < |r| ==> TrendingScore(r[i]) >= TrendingScore(r[j])
  {
    match tab
    case TierTab(t) =>
      FilterMembers(asteroids, LabelIs(t));
      FilterSubMultiset(asteroids, LabelIs(t));
      FilterMultiplicity(asteroids, LabelIs(t));
      Filter(asteroids, LabelIs(t))
    case Trending =>
      var r := StableSort(asteroids, TrendingKey());
      assert forall i, j :: 0 <= i < j < |r| ==> TrendingKey()(r[i]) <= TrendingKey()(r[j]);
      r
  }

  /** Every record whose label is one of the four tiers appears in exactly
      one tier tab; a record with a database label (LOW, MEDIUM, HIGH) or
      none appears in no tier tab. */
  lemma TierTabsPartition(asteroids: seq<Asteroid>, a: Asteroid, t: Tier)
    requires a in asteroids
    ensures a in FilterAsteroids(asteroids, TierTab(t)) <==> a.riskLevel == Some(t)
    ensures a.riskLevel.None? || !IsTier(a.riskLevel.value) ==> a !in FilterAsteroids(asteroids, TierTab(t))
  {
  }

  /** The four tier tabs together list at most as many records as the feed. */
  lemma {:induction false} TierTabsTotal(asteroids: seq<Asteroid>)
    ensures |FilterAsteroids(asteroids, TierTab(Safe))| + |FilterAsteroids(asteroids, TierTab(Problematic))|
          + |FilterAsteroids(asteroids, TierTab(Hazardous))| + |FilterAsteroids(asteroids, TierTab(Dangerous))|
          <= |asteroids|
  {
    var low := LabelAmong({Safe, Problematic});
    var high := LabelAmong({Hazardous, Dangerous});
    var any := LabelAmong({Safe, Problematic, Hazardous, Dangerous});
    FilterDisjointCounts(asteroids, LabelIs(Safe), LabelIs(Problematic), low);
    FilterDisjointCounts(asteroids, LabelIs(Hazardous), LabelIs(Dangerous), high);
    FilterDisjointCounts(asteroids, low, high, any);
  }

  /** Among records with the same view count and a positive distance, a
      nearer record is never ranked below a farther one. */
  lemma TrendingPrefersNearer(asteroids: seq<Asteroid>, i: int, j: int)
    requires var r := FilterAsteroids(asteroids, Trending);
      0 <= i < j < |r| && Views(r[i]) == Views(r[j])
      && r[i].missDistanceKm > 0.0 && r[j].missDistanceKm > 0.0
    ensures var r := FilterAsteroids(asteroids, Trending);
      r[i].missDistanceKm <= r[j].missDistanceKm
  {
    var r := FilterAsteroids(asteroids, Trending);
    var di, dj := r[i].missDistanceKm, r[j].missDistanceKm;
    assert TrendingScore(r[i]) >= TrendingScore(r[j]);
    var ci, cj := 1.0 / di, 1.0 / dj;
    assert ci * 1000000000.0 >= cj * 1000000000.0;
    if dj < di {
      ReciprocalDecreases(dj, di);
    }
  }

  lemma ReciprocalDecreases(x: real, y: real)
    requires 0.0 < x < y
    ensures 1.0 / y < 1.0 / x
  {
    assert (1.0 / x) * x == 1.0;
    assert (1.0 / y) * y == 1.0;
    assert (1.0 / y) * x < (1.0 / y) * y;
  }

  /** Records with equal trending scores keep their order from the feed. */
  lemma TrendingIsStable(asteroids: seq<Asteroid>, v: real)
    ensures KeyClass(FilterAsteroids(asteroids, Trending), TrendingKey(), v) == KeyClass(asteroids, TrendingKey(), v)
  {
    StableSortKeepsClasses(asteroids, TrendingKey(), v);
  }
}
