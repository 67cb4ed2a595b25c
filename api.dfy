/** The HTTP service layer (src/services/api.ts): the request interceptor,
    the normalisation of the feed response, and the mock data every fetch
    falls back to when the backend cannot be reached. The outcome of a
    request is a parameter: `None` for a request that threw, `Some(body)`
    for the parsed body. */
module Api {
  import opened Options
  import opened Asteroids
  import opened Collections

  const LocalBaseUrl: string := "http://localhost:5000/api"

  /** `VITE_API_BASE_URL || "http://localhost:5000/api"`: the client always
      has a base URL, and a configured one overrides the default. */
  function BaseUrl(env: Option<string>): (url: string)
    ensures url != ""
    ensures url == LocalBaseUrl || (env.Some? && url == env.value)
    ensures env.Some? && env.value != "" ==> url == env.value
  {
    if env.Some? && env.value != "" then env.value else LocalBaseUrl
  }

  const BearerPrefix: string := "Bearer "

  /** The request interceptor: the stored `auth_token`, when non-empty,
      becomes an `Authorization: Bearer <token>` header. The header is sent
      exactly when a non-empty token is stored, and the token is recovered
      from it by dropping the scheme prefix. */
  function AuthorizationHeader(token: Option<string>): (h: Option<string>)
    ensures h.Some? <==> token.Some? && token.value != ""
    ensures h.Some? ==>
      |h.value| > |BearerPrefix| && h.value[..|BearerPrefix|] == BearerPrefix && h.value[|BearerPrefix|..] == token.value
  {
    if token.Some? && token.value != "" then
      var v := BearerPrefix + token.value;
      assert v[..|BearerPrefix|] == BearerPrefix;
      assert v[|BearerPrefix|..] == token.value;
      Some(v)
    else None
  }

  // ----- the feed response -----

  /** What `GET /asteroids` may answer: an object with optional `count`,
      `asteroids` and `last_synced`, or a bare array of records. */
  datatype FeedBody =
    | FeedObject(count: Option<real>, asteroids: Option<seq<Asteroid>>, lastSynced: Option<string>)
    | FeedArray(items: seq<Asteroid>)

  /** The `asteroids` field of the normalised response: a list, or (for an
      object body without an `asteroids` field) the body object itself. */
  datatype FeedList = List(items: seq<Asteroid>) | BodyObject

  datatype FeedResponse = FeedResponse(count: real, lastSynced: string, asteroids: FeedList)

  /** `data.count || data.asteroids?.length || 0`, as written: a count the
      server gives wins; otherwise an object body is counted by the list the
      response carries; a bare array, which is its own list, is counted 0. */
  function FeedCount(body: FeedBody): (n: real)
    ensures body.FeedObject? && body.count.Some? && body.count.value != 0.0 ==> n == body.count.value
    ensures body.FeedObject? && (body.count.None? || body.count.value == 0.0) ==>
      n == if FeedItems(body).List? then |FeedItems(body).items| as real else 0.0
    ensures body.FeedArray? ==> n == 0.0 && FeedItems(body) == List(body.items)
  {
    match body
    case FeedArray(_) => 0.0
    case FeedObject(count, asteroids, _) =>
      if count.Some? && count.value != 0.0 then count.value
      else if asteroids.Some? then |asteroids.value| as real
      else 0.0
  }

  /** `data.asteroids || data || []`: a bare array is its own list. */
  function FeedItems(body: FeedBody): (l: FeedList)
    ensures body.FeedArray? ==> l == List(body.items)
    ensures body.FeedObject? && body.asteroids.Some? ==> l == List(body.asteroids.value)
    ensures body.FeedObject? && body.asteroids.None? ==> l == BodyObject
  {
    match body
    case FeedArray(items) => List(items)
    case FeedObject(_, asteroids, _) => if asteroids.Some? then List(asteroids.value) else BodyObject
  }

  /** fetchAsteroidFeed, as written; `now` is `new Date().toISOString()`.
      A failed request is answered by the mock feed. Otherwise the server's
      list and non-zero count are passed on; when an object body gives no
      count, the count agrees with the length of the list returned; a bare
      array is returned whole with count 0. */
  function FetchAsteroidFeed(outcome: Option<FeedBody>, now: string): (r: FeedResponse)
    ensures outcome.None? ==> r == MockFeed(now) && r.asteroids.List? && r.count == |r.asteroids.items| as real
    ensures outcome.Some? && outcome.value.FeedObject? && outcome.value.asteroids.Some? ==>
      r.asteroids == List(outcome.value.asteroids.value)
    ensures outcome.Some? && outcome.value.FeedObject? && outcome.value.count.Some? && outcome.value.count.value != 0.0 ==>
      r.count == outcome.value.count.value
    ensures outcome.Some? && outcome.value.FeedObject? && (outcome.value.count.None? || outcome.value.count.value == 0.0) && r.asteroids.List? ==>
      r.count == |r.asteroids.items| as real
    ensures outcome.Some? && outcome.value.FeedArray? ==> r.asteroids == List(outcome.value.items) && r.count == 0.0
    ensures outcome.Some? && outcome.value.FeedObject? && outcome.value.lastSynced.Some? && outcome.value.lastSynced.value != "" ==>
      r.lastSynced == outcome.value.lastSynced.value
    ensures outcome.Some? && (outcome.value.FeedArray? || outcome.value.lastSynced.None? || outcome.value.lastSynced.value == "") ==>
      r.lastSynced == now
  {
    match outcome
    case None => MockFeed(now)
    case Some(body) =>
      var synced := if body.FeedObject? && body.lastSynced.Some? && body.lastSynced.value != "" then body.lastSynced.value else now;
      FeedResponse(FeedCount(body), synced, FeedItems(body))
  }

  /** A bare array body gets the count 0 whatever its length. */
  lemma BareArrayCountIsZero()
    ensures var body := FeedArray(MockAsteroids);
      FetchAsteroidFeed(Some(body), "").asteroids == List(MockAsteroids)
      && FetchAsteroidFeed(Some(body), "").count == 0.0
      && |MockAsteroids| == 8
  {
  }

  /** The count the bare-array branch evidently intends: the length of the
      list the response actually carries. */
  function FeedCountCorrected(body: FeedBody): (n: real)
    ensures body.FeedObject? && body.count.Some? && body.count.value != 0.0 ==> n == body.count.value
    ensures (body.FeedArray? || body.count.None? || body.count.value == 0.0) && FeedItems(body).List? ==>
      n == |FeedItems(body).items| as real
    ensures body.FeedObject? && (body.count.None? || body.count.value == 0.0) && body.asteroids.None? ==> n == 0.0
  {
    match body
    case FeedArray(items) => |items| as real
    case FeedObject(_, _, _) => FeedCount(body)
  }

  /** With the corrected count, a body that gives no count of its own is
      counted by the records it carries, and the correction agrees with the
      code on every object body. */
  lemma FeedCountCorrectedAgrees(body: FeedBody)
    ensures body.FeedObject? ==> FeedCountCorrected(body) == FeedCount(body)
    ensures body.FeedArray? ==> FeedCountCorrected(body) == |body.items| as real
  {
  }

  // ----- fallbacks -----

  /** The end index `slice(0, limit)` uses on a list of `n` elements: a
      negative limit counts from the end. */
  function SliceEnd(n: nat, limit: int): (e: nat)
    ensures e <= n
    ensures 0 <= limit ==> e == if limit < n then limit else n
    ensures limit < 0 ==> e == if n + limit < 0 then 0 else n + limit
  {
    if limit < 0 then (if n + limit < 0 then 0 else n + limit)
    else if limit < n then limit else n
  }

  /** fetchTrendingAsteroids: the body as sent, or `slice(0, limit)` of the
      mock records: a prefix of them, `min(limit, 8)` long for a
      non-negative limit, and without the last `-limit` records otherwise. */
  function FetchTrending(outcome: Option<seq<Asteroid>>, limit: int): (r: seq<Asteroid>)
    ensures outcome.Some? ==> r == outcome.value
    ensures outcome.None? ==> r <= MockAsteroids
    ensures outcome.None? && 0 <= limit ==> |r| == if limit < |MockAsteroids| then limit else |MockAsteroids|
    ensures outcome.None? && limit < 0 ==> |r| == if |MockAsteroids| + limit < 0 then 0 else |MockAsteroids| + limit
  {
    match outcome
    case Some(d) => d
    case None => MockAsteroids[..SliceEnd(|MockAsteroids|, limit)]
  }

  /** The default limit of 10 returns every mock record. */
  lemma TrendingDefaultLimitIsWholeMock()
    ensures FetchTrending(None, 10) == MockAsteroids
  {
    assert MockAsteroids[..8] == MockAsteroids;
  }

  /** The flag that selects the hazardous records. */
  function IsFlagged(): Asteroid -> bool {
    (a: Asteroid) => a.isPotentiallyHazardous
  }

  /** fetchHazardousAsteroids: `data.asteroids || []`, or the flagged mock
      records, which are exactly ids 2, 4, 5 and 7. */
  function FetchHazardous(outcome: Option<Option<seq<Asteroid>>>): (r: seq<Asteroid>)
    ensures outcome.Some? ==> r == outcome.value.GetOr([])
    ensures outcome.None? ==> forall a :: a in r <==> a in MockAsteroids && a.isPotentiallyHazardous
    ensures outcome.None? ==> |r| == 4 && multiset(r) <= multiset(MockAsteroids)
  {
    match outcome
    case Some(field) => field.GetOr([])
    case None =>
      FilterMembers(MockAsteroids, IsFlagged());
      FilterSubMultiset(MockAsteroids, IsFlagged());
      MockFlaggedCount();
      Filter(MockAsteroids, IsFlagged())
  }

  /** fetchUpcomingAsteroids: `data.asteroids || []`, or the whole mock
      list, which holds the hazardous fallback too. */
  function FetchUpcoming(outcome: Option<Option<seq<Asteroid>>>): (r: seq<Asteroid>)
    ensures outcome.Some? ==> r == outcome.value.GetOr([])
    ensures outcome.None? ==> r == MockAsteroids && |r| == 8
    ensures outcome.None? ==> multiset(FetchHazardous(None)) <= multiset(r)
  {
    match outcome
    case Some(field) => field.GetOr([])
    case None => MockAsteroids
  }

  /** Four mock records carry the hazard flag. */
  lemma MockFlaggedCount()
    ensures |Filter(MockAsteroids, IsFlagged())| == 4
  {
    MockFlags();
    MockFilterCount(IsFlagged());
  }

  // ----- mock data -----

  function Mock(id: string, nasaId: string, name: string, diameterMaxKm: real, hazardous: bool,
                missKm: real, kms: real, level: RiskLabel, views: real): Asteroid {
    Asteroid(id, None, nasaId, name, diameterMaxKm, hazardous, missKm, kms, Some(level), Some(views))
  }

  /** The eight records of getMockFeed. */
  const MockAsteroids: seq<Asteroid> := [
    Mock("1", "3542519", "2010 PK9", 0.29, false, 4523890.0, 13.4, Low, 342.0),
    Mock("2", "2277475", "2005 YY128", 1.3, true, 2145600.0, 20.03, High, 1205.0),
    Mock("3", "54321098", "2023 BU", 0.008, false, 3560.0, 9.28, Low, 5820.0),
    Mock("4", "2099942", "99942 Apophis", 0.45, true, 6078000.0, 8.53, Medium, 9400.0),
    Mock("5", "2101955", "Bennu", 0.51, true, 7500000.0, 7.78, Medium, 7800.0),
    Mock("6", "3840283", "2019 OK", 0.13, false, 12340000.0, 24.58, Low, 120.0),
    Mock("7", "2004953", "1990 MU", 4.4, true, 3200000.0, 26.44, High, 3100.0),
    Mock("8", "3456789", "2024 FG3", 0.045, false, 18900000.0, 4.25, Low, 45.0)
  ]

  /** getMockFeed. */
  function MockFeed(now: string): (r: FeedResponse)
    ensures r.asteroids.List? && r.count == |r.asteroids.items| as real
  {
    FeedResponse(8.0, now, List(MockAsteroids))
  }

  /** The mock records have distinct ids. */
  lemma MockIdsDistinct()
    ensures forall i, j :: 0 <= i < j < |MockAsteroids| ==> MockAsteroids[i].id != MockAsteroids[j].id
  {
  }

  /** The index of the first record with id `id`. */
  function FindById(s: seq<Asteroid>, id: string): (r: Option<nat>)
    ensures r.Some? ==> r.value < |s| && s[r.value].id == id && forall k :: 0 <= k < r.value ==> s[k].id != id
    ensures r.None? ==> forall k :: 0 <= k < |s| ==> s[k].id != id
    decreases |s|
  {
    if s == [] then None
    else if s[0].id == id then Some(0)
    else match FindById(s[1..], id)
      case Some(k) => Some(k + 1)
      case None => None
  }

  datatype AsteroidDetail = AsteroidDetail(asteroid: Asteroid, closeApproachCount: nat, hazardousExplanation: string)

  const HazardousExplanation: string := "This asteroid's orbit brings it within close range of Earth periodically. While no immediate impact threat exists, its size and trajectory warrant monitoring."
  const SafeExplanation: string := "This asteroid poses no significant threat to Earth. Its orbit keeps it at a safe distance during close approaches."

  /** getMockDetail: the mock record with that id, or the first one. */
  function MockDetail(id: string): (d: AsteroidDetail)
    ensures (exists k :: 0 <= k < |MockAsteroids| && MockAsteroids[k].id == id) ==> d.asteroid.id == id
    ensures (forall k :: 0 <= k < |MockAsteroids| ==> MockAsteroids[k].id != id) ==> d.asteroid == MockAsteroids[0]
    ensures d.asteroid in MockAsteroids
    ensures d.closeApproachCount == 12
    ensures d.hazardousExplanation == if d.asteroid.isPotentiallyHazardous then HazardousExplanation else SafeExplanation
  {
    var a := match FindById(MockAsteroids, id) case Some(k) => MockAsteroids[k] case None => MockAsteroids[0];
    AsteroidDetail(a, 12, if a.isPotentiallyHazardous then HazardousExplanation else SafeExplanation)
  }

  // ----- the categorised mock feed -----

  datatype Breakdown = Breakdown(safe: nat, problematic: nat, hazardous: nat, dangerous: nat)

  datatype Categorized = Categorized(
    safe: seq<Asteroid>, problematic: seq<Asteroid>, hazardous: seq<Asteroid>, dangerous: seq<Asteroid>,
    total: nat, breakdown: Breakdown)

  /** The four categories accept both vocabularies: SAFE or LOW,
      PROBLEMATIC or MEDIUM, HAZARDOUS or HIGH, and DANGEROUS alone. The
      breakdown counts the lists, and together the lists never exceed the
      total. */
  function Categorize(s: seq<Asteroid>): (c: Categorized)
    ensures c.breakdown == Breakdown(|c.safe|, |c.problematic|, |c.hazardous|, |c.dangerous|)
    ensures c.total == |s|
    ensures c.breakdown.safe + c.breakdown.problematic + c.breakdown.hazardous + c.breakdown.dangerous <= c.total
  {
    var safe := Filter(s, LabelAmong({Safe, Low}));
    var problematic := Filter(s, LabelAmong({Problematic, Medium}));
    var hazardous := Filter(s, LabelAmong({Hazardous, High}));
    var dangerous := Filter(s, LabelIs(Dangerous));
    var sp := LabelAmong({Safe, Low, Problematic, Medium});
    var hd := LabelAmong({Hazardous, High, Dangerous});
    FilterDisjointCounts(s, LabelAmong({Safe, Low}), LabelAmong({Problematic, Medium}), sp);
    FilterDisjointCounts(s, LabelAmong({Hazardous, High}), LabelIs(Dangerous), hd);
    FilterDisjointCounts(s, sp, hd, LabelAmong({Safe, Low, Problematic, Medium, Hazardous, High, Dangerous}));
    Categorized(safe, problematic, hazardous, dangerous, |s|,
      Breakdown(|safe|, |problematic|, |hazardous|, |dangerous|))
  }

  /** getCategorizedMockFeed: four safe (LOW), two problematic (MEDIUM),
      two hazardous (HIGH) and none dangerous, out of eight. */
  function CategorizedMockFeed(): (c: Categorized)
    ensures c.breakdown == Breakdown(4, 2, 2, 0)
    ensures c.total == 8
  {
    MockSafeCount();
    MockProblematicCount();
    MockHazardousCount();
    MockDangerousCount();
    Categorize(MockAsteroids)
  }

  /** Each list holds exactly the records of its labels. */
  lemma CategoryMembers(s: seq<Asteroid>)
    ensures forall a :: a in Categorize(s).safe <==> a in s && (a.riskLevel == Some(Safe) || a.riskLevel == Some(Low))
    ensures forall a :: a in Categorize(s).problematic <==> a in s && (a.riskLevel == Some(Problematic) || a.riskLevel == Some(Medium))
    ensures forall a :: a in Categorize(s).hazardous <==> a in s && (a.riskLevel == Some(Hazardous) || a.riskLevel == Some(High))
    ensures forall a :: a in Categorize(s).dangerous <==> a in s && a.riskLevel == Some(Dangerous)
  {
    FilterMembers(s, LabelAmong({Safe, Low}));
    FilterMembers(s, LabelAmong({Problematic, Medium}));
    FilterMembers(s, LabelAmong({Hazardous, High}));
    FilterMembers(s, LabelIs(Dangerous));
  }

  /** No record is in two of the lists. */
  lemma CategoriesDisjoint(s: seq<Asteroid>, a: Asteroid)
    ensures var c := Categorize(s);
      (a in c.safe ==> a !in c.problematic && a !in c.hazardous && a !in c.dangerous)
      && (a in c.problematic ==> a !in c.hazardous && a !in c.dangerous)
      && (a in c.hazardous ==> a !in c.dangerous)
  {
    CategoryMembers(s);
  }

  /** Filtering a non-empty list tests its head, then filters the rest. */
  lemma FilterCons(s: seq<Asteroid>, p: Asteroid -> bool)
    requires s != []
    ensures |Filter(s, p)| == Bit(p(s[0])) + |Filter(s[1..], p)|
  {
  }

  function Bit(b: bool): nat {
    if b then 1 else 0
  }

  /** The number of records of an eight-record feed that `p` keeps. */
  lemma EightFilterCount(a0: Asteroid, a1: Asteroid, a2: Asteroid, a3: Asteroid,
                         a4: Asteroid, a5: Asteroid, a6: Asteroid, a7: Asteroid, p: Asteroid -> bool)
    ensures |Filter([a0, a1, a2, a3, a4, a5, a6, a7], p)| ==
      Bit(p(a0)) + Bit(p(a1)) + Bit(p(a2)) + Bit(p(a3)) + Bit(p(a4)) + Bit(p(a5)) + Bit(p(a6)) + Bit(p(a7))
  {
    FilterCons([a0, a1, a2, a3, a4, a5, a6, a7], p);
    assert [a0, a1, a2, a3, a4, a5, a6, a7][1..] == [a1, a2, a3, a4, a5, a6, a7];
    FilterCons([a1, a2, a3, a4, a5, a6, a7], p);
    assert [a1, a2, a3, a4, a5, a6, a7][1..] == [a2, a3, a4, a5, a6, a7];
    FilterCons([a2, a3, a4, a5, a6, a7], p);
    assert [a2, a3, a4, a5, a6, a7][1..] == [a3, a4, a5, a6, a7];
    FilterCons([a3, a4, a5, a6, a7], p);
    assert [a3, a4, a5, a6, a7][1..] == [a4, a5, a6, a7];
    FilterCons([a4, a5, a6, a7], p);
    assert [a4, a5, a6, a7][1..] == [a5, a6, a7];
    FilterCons([a5, a6, a7], p);
    assert [a5, a6, a7][1..] == [a6, a7];
    FilterCons([a6, a7], p);
    assert [a6, a7][1..] == [a7];
    FilterCons([a7], p);
    assert [a7][1..] == [];
  }

  /** The number of mock records `p` keeps. */
  lemma MockFilterCount(p: Asteroid -> bool)
    ensures var s := MockAsteroids;
      |Filter(s, p)| == Bit(p(s[0])) + Bit(p(s[1])) + Bit(p(s[2])) + Bit(p(s[3]))
        + Bit(p(s[4])) + Bit(p(s[5])) + Bit(p(s[6])) + Bit(p(s[7]))
  {
    var s := MockAsteroids;
    assert s == [s[0], s[1], s[2], s[3], s[4], s[5], s[6], s[7]];
    EightFilterCount(s[0], s[1], s[2], s[3], s[4], s[5], s[6], s[7], p);
  }

  /** The hazard flags of the mock records, in order. */
  lemma MockFlags()
    ensures var s := MockAsteroids;
      !s[0].isPotentiallyHazardous && s[1].isPotentiallyHazardous && !s[2].isPotentiallyHazardous
      && s[3].isPotentiallyHazardous && s[4].isPotentiallyHazardous && !s[5].isPotentiallyHazardous
      && s[6].isPotentiallyHazardous && !s[7].isPotentiallyHazardous
  {
  }

  /** The labels of the mock records, in order. */
  lemma MockLevels()
    ensures var s := MockAsteroids;
      s[0].riskLevel == Some(Low) && s[1].riskLevel == Some(High) && s[2].riskLevel == Some(Low)
      && s[3].riskLevel == Some(Medium) && s[4].riskLevel == Some(Medium) && s[5].riskLevel == Some(Low)
      && s[6].riskLevel == Some(High) && s[7].riskLevel == Some(Low)
  {
  }

  /** Four mock records are labelled LOW, none SAFE. */
  lemma MockSafeCount()
    ensures |Filter(MockAsteroids, LabelAmong({Safe, Low}))| == 4
  {
    MockLevels();
    MockFilterCount(LabelAmong({Safe, Low}));
  }

  /** Two mock records are labelled MEDIUM, none PROBLEMATIC. */
  lemma MockProblematicCount()
    ensures |Filter(MockAsteroids, LabelAmong({Problematic, Medium}))| == 2
  {
    MockLevels();
    MockFilterCount(LabelAmong({Problematic, Medium}));
  }

  /** Two mock records are labelled HIGH, none HAZARDOUS. */
  lemma MockHazardousCount()
    ensures |Filter(MockAsteroids, LabelAmong({Hazardous, High}))| == 2
  {
    MockLevels();
    MockFilterCount(LabelAmong({Hazardous, High}));
  }

  /** No mock record is labelled DANGEROUS. */
  lemma MockDangerousCount()
    ensures |Filter(MockAsteroids, LabelIs(Dangerous))| == 0
  {
    MockLevels();
    MockFilterCount(LabelIs(Dangerous));
  }
}
