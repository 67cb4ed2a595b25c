/** The counters under the hero section (src/components/StatusStrip.tsx).
    They count the database labels LOW, MEDIUM and HIGH, not the four tiers
    of the frontend type. */
module StatusStrip {
  import opened Options
  import opened Asteroids
  import opened Collections

  datatype Counters = Counters(total: nat, safe: nat, hazardous: nat, highRisk: nat)

  /** The values of the four stat cells: the total is the feed's length,
      each label counter is the number of records the filter for its label
      keeps, and the three label counters never add up to more than the
      total. */
  function Count(asteroids: seq<Asteroid>): (c: Counters)
    ensures c.total == |asteroids|
    ensures c.safe == |Filter(asteroids, LabelIs(Low))|
    ensures c.hazardous == |Filter(asteroids, LabelIs(Medium))|
    ensures c.highRisk == |Filter(asteroids, LabelIs(High))|
    ensures c.safe + c.hazardous + c.highRisk <= c.total
  {
    var lowOrMedium := LabelAmong({Low, Medium});
    var labelled := LabelAmong({Low, Medium, High});
    FilterDisjointCounts(asteroids, LabelIs(Low), LabelIs(Medium), lowOrMedium);
    FilterDisjointCounts(asteroids, lowOrMedium, LabelIs(High), labelled);
    Counters(|asteroids|,
      |Filter(asteroids, LabelIs(Low))|,
      |Filter(asteroids, LabelIs(Medium))|,
      |Filter(asteroids, LabelIs(High))|)
  }

  /** A feed labelled only with the four tiers shows zero in every label
      counter. */
  lemma {:induction false} TierFeedCountsNothing(asteroids: seq<Asteroid>)
    requires forall i :: 0 <= i < |asteroids| ==> asteroids[i].riskLevel.None? || IsTier(asteroids[i].riskLevel.value)
    ensures var c := Count(asteroids);
      c.safe == 0 && c.hazardous == 0 && c.highRisk == 0
  {
    FilterNone(asteroids, LabelIs(Low));
    FilterNone(asteroids, LabelIs(Medium));
    FilterNone(asteroids, LabelIs(High));
  }

  /** Each counter counts exactly the records with its label: the records
      it counts are every occurrence of a record with that label, and no
      occurrence of any other record. */
  lemma CounterMembers(asteroids: seq<Asteroid>, a: Asteroid)
    ensures var c := Count(asteroids);
      c.safe == |multiset(Filter(asteroids, LabelIs(Low)))|
      && c.hazardous == |multiset(Filter(asteroids, LabelIs(Medium)))|
      && c.highRisk == |multiset(Filter(asteroids, LabelIs(High)))|
    ensures multiset(Filter(asteroids, LabelIs(Low)))[a] == if a.riskLevel == Some(Low) then multiset(asteroids)[a] else 0
    ensures multiset(Filter(asteroids, LabelIs(Medium)))[a] == if a.riskLevel == Some(Medium) then multiset(asteroids)[a] else 0
    ensures multiset(Filter(asteroids, LabelIs(High)))[a] == if a.riskLevel == Some(High) then multiset(asteroids)[a] else 0
    ensures a in Filter(asteroids, LabelIs(Low)) <==> a in asteroids && a.riskLevel == Some(Low)
    ensures a in Filter(asteroids, LabelIs(High)) <==> a in asteroids && a.riskLevel == Some(High)
    ensures a in Filter(asteroids, LabelIs(Medium)) <==> a in asteroids && a.riskLevel == Some(Medium)
  {
    FilterMultiplicity(asteroids, LabelIs(Low));
    FilterMultiplicity(asteroids, LabelIs(Medium));
    FilterMultiplicity(asteroids, LabelIs(High));
  }
}
