/** The 3D scene (src/components/three/SpaceScene.tsx) draws at most four
    asteroids: the nearest ones of the feed. */
module SpaceScene {
  import opened Asteroids
  import opened Collections

  /** How many asteroids the scene draws at most. */
  const MaxVisible: nat := 4

  /** A copy of the feed sorted by miss distance, then `slice(0, 4)`: at most
      four of the feed's records, nearest first. */
  function VisibleAsteroids(asteroids: seq<Asteroid>): (r: seq<Asteroid>)
    ensures |r| == if |asteroids| < MaxVisible then |asteroids| else MaxVisible
    ensures multiset(r) <= multiset(asteroids)
    ensures forall i, j :: 0 <= i < j < |r| ==> r[i].missDistanceKm <= r[j].missDistanceKm
  {
    var sorted := StableSort(asteroids, ByDistance());
    var k := if |sorted| < MaxVisible then |sorted| else MaxVisible;
    assert sorted == sorted[..k] + sorted[k..];
    assert multiset(sorted) == multiset(sorted[..k]) + multiset(sorted[k..]);
    assert forall i, j :: 0 <= i < j < k ==> sorted[..k][i].missDistanceKm <= sorted[..k][j].missDistanceKm by {
      forall i, j | 0 <= i < j < k ensures sorted[..k][i].missDistanceKm <= sorted[..k][j].missDistanceKm {
        assert ByDistance()(sorted[i]) <= ByDistance()(sorted[j]);
      }
    }
    sorted[..k]
  }

  /** The sorted copy and the cut point of the slice. */
  lemma {:induction false} VisibleIsPrefix(asteroids: seq<Asteroid>)
    ensures var t := StableSort(asteroids, ByDistance());
      var k := if |asteroids| < MaxVisible then |asteroids| else MaxVisible;
      VisibleAsteroids(asteroids) == t[..k] && t == t[..k] + t[k..]
  {
    var t := StableSort(asteroids, ByDistance());
    var k := if |asteroids| < MaxVisible then |asteroids| else MaxVisible;
    assert t == t[..k] + t[k..];
  }

  /** No record left out of the scene is nearer than one drawn. */
  lemma VisibleAreNearest(asteroids: seq<Asteroid>, y: Asteroid, x: Asteroid)
    requires y in VisibleAsteroids(asteroids)
    requires x in multiset(asteroids) - multiset(VisibleAsteroids(asteroids))
    ensures y.missDistanceKm <= x.missDistanceKm
  {
    VisibleIsPrefix(asteroids);
    var t := StableSort(asteroids, ByDistance());
    var r := VisibleAsteroids(asteroids);
    var k := |r|;
    assert multiset(t) == multiset(r) + multiset(t[k..]);
    assert x in multiset(t[k..]);
    var jx :| 0 <= jx < |t[k..]| && t[k..][jx] == x;
    var iy :| 0 <= iy < k && r[iy] == y;
    assert t[iy] == y && t[k + jx] == x;
    assert ByDistance()(t[iy]) <= ByDistance()(t[k + jx]);
  }

  /** A feed of at most four records is drawn whole. */
  lemma SmallFeedDrawnWhole(asteroids: seq<Asteroid>)
    requires |asteroids| <= MaxVisible
    ensures multiset(VisibleAsteroids(asteroids)) == multiset(asteroids)
  {
    VisibleIsPrefix(asteroids);
    var t := StableSort(asteroids, ByDistance());
    assert t[..|t|] == t;
  }
}
