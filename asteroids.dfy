/** Asteroid records as the backend sends them, their risk labels, and the
    tier-to-style tables shared by the cards and the detail view
    (src/types/asteroid.ts). */
module Asteroids {
  import opened Options

  /** Every risk label the code compares against. The first four are the
      tiers of the frontend's own type; `Low`, `Medium` and `High` are the
      labels the database schema and the mock feed actually carry. */
  datatype RiskLabel = Safe | Problematic | Hazardous | Dangerous | Low | Medium | High

  /** One of the four tiers of the frontend vocabulary. */
  predicate IsTier(l: RiskLabel) {
    l == Safe || l == Problematic || l == Hazardous || l == Dangerous
  }

  /** The frontend's `RiskLevel` type. */
  type Tier = l: RiskLabel | IsTier(l) witness Safe

  /** The fields of an asteroid record that any modelled rule reads.
      `dbId` is the database `_id`, present on records that come from the
      database; `riskLevel` and `viewCount` may be absent. */
  datatype Asteroid = Asteroid(
    id: string,
    dbId: Option<string>,
    nasaId: string,
    name: string,
    diameterMaxKm: real,
    isPotentiallyHazardous: bool,
    missDistanceKm: real,
    relativeVelocityKms: real,
    riskLevel: Option<RiskLabel>,
    viewCount: Option<real>)

  /** `a => a.risk_level === l`: the record carries exactly label `l`. */
  function LabelIs(l: RiskLabel): Asteroid -> bool {
    (a: Asteroid) => a.riskLevel == Some(l)
  }

  /** The record carries one of the labels in `ls`. */
  function LabelAmong(ls: set<RiskLabel>): Asteroid -> bool {
    (a: Asteroid) => a.riskLevel.Some? && a.riskLevel.value in ls
  }

  /** The key of the ascending comparator `a.miss_distance_km - b.miss_distance_km`. */
  function ByDistance(): Asteroid -> real {
    (a: Asteroid) => a.missDistanceKm
  }

  /** `a.view_count || 0`. */
  function Views(a: Asteroid): (v: real)
    ensures a.viewCount.Some? ==> v == a.viewCount.value
    ensures a.viewCount.None? ==> v == 0.0
  {
    a.viewCount.GetOr(0.0)
  }

  /** Below this miss distance a flagged asteroid is DANGEROUS. */
  const DangerousBelowKm: real := 500000.0
  /** Below this miss distance an unflagged asteroid is PROBLEMATIC. */
  const ProblematicBelowKm: real := 5000000.0

  /** Severity of a tier: SAFE 0 below PROBLEMATIC 1 below HAZARDOUS 2
      below DANGEROUS 3, so every tier has its own rank. */
  function Severity(t: RiskLabel): (n: nat)
    requires IsTier(t)
    ensures n <= 3
    ensures n == 3 <==> t == Dangerous
    ensures n == 2 <==> t == Hazardous
    ensures n == 1 <==> t == Problematic
    ensures n == 0 <==> t == Safe
  {
    match t
    case Safe => 0
    case Problematic => 1
    case Hazardous => 2
    case Dangerous => 3
  }

  /** The tier derived from the hazard flag and the miss distance when the
      record carries none; both thresholds are strict. */
  function DerivedTier(hazardous: bool, distanceKm: real): (t: RiskLabel)
    ensures IsTier(t)
    ensures (t == Dangerous || t == Hazardous) <==> hazardous
    ensures t == Dangerous <==> hazardous && distanceKm < DangerousBelowKm
    ensures t == Problematic <==> !hazardous && distanceKm < ProblematicBelowKm
    ensures t == Safe <==> !hazardous && ProblematicBelowKm <= distanceKm
  {
    if hazardous && distanceKm < DangerousBelowKm then Dangerous
    else if hazardous then Hazardous
    else if distanceKm < ProblematicBelowKm then Problematic
    else Safe
  }

  /** getRiskLevel: a stored label wins, whatever vocabulary it is from;
      otherwise the derived tier. */
  function GetRiskLevel(a: Asteroid): (r: RiskLabel)
    ensures a.riskLevel.Some? ==> r == a.riskLevel.value
    ensures a.riskLevel.None? ==> IsTier(r)
    ensures a.riskLevel.None? ==> ((r == Dangerous || r == Hazardous) <==> a.isPotentiallyHazardous)
  {
    match a.riskLevel
    case Some(l) => l
    case None => DerivedTier(a.isPotentiallyHazardous, a.missDistanceKm)
  }

  /** With the flag fixed, moving farther away never makes the derived tier
      more severe. */
  lemma DerivedTierMonotone(hazardous: bool, nearKm: real, farKm: real)
    requires nearKm <= farKm
    ensures Severity(DerivedTier(hazardous, farKm)) <= Severity(DerivedTier(hazardous, nearKm))
  {
  }

  /** The boundary cases: a distance exactly at a threshold falls into the
      less severe tier. */
  lemma DerivedTierBoundaries()
    ensures DerivedTier(true, 499999.0) == Dangerous
    ensures DerivedTier(true, 500000.0) == Hazardous
    ensures DerivedTier(false, 4999999.0) == Problematic
    ensures DerivedTier(false, 5000000.0) == Safe
  {
  }

  /** getRiskColor: the text class for a label; any label outside the
      DANGEROUS/HAZARDOUS/PROBLEMATIC cases takes the SAFE class. */
  function RiskColor(level: RiskLabel): (r: string)
    ensures r == "text-destructive" <==> level == Dangerous
    ensures r == "text-orange-500" <==> level == Hazardous
    ensures r == "text-warning" <==> level == Problematic
    ensures r == "text-safe" <==> !(level == Dangerous || level == Hazardous || level == Problematic)
  {
    match level
    case Dangerous => "text-destructive"
    case Hazardous => "text-orange-500"
    case Problematic => "text-warning"
    case _ => "text-safe"
  }

  const DangerBadge: string := "bg-destructive/20 text-destructive border-destructive/30"
  const HazardBadge: string := "bg-orange-500/20 text-orange-500 border-orange-500/30"
  const WarningBadge: string := "bg-warning/20 text-warning border-warning/30"
  const SafeBadge: string := "bg-safe/20 text-safe border-safe/30"

  /** getRiskBgColor: the badge classes for a label, with the same fallback. */
  function RiskBgColor(level: RiskLabel): (r: string)
    ensures r == DangerBadge <==> level == Dangerous
    ensures r == HazardBadge <==> level == Hazardous
    ensures r == WarningBadge <==> level == Problematic
    ensures r == SafeBadge <==> !(level == Dangerous || level == Hazardous || level == Problematic)
  {
    // the four class lists have four different lengths
    assert |DangerBadge| == 56 && |HazardBadge| == 53 && |WarningBadge| == 44 && |SafeBadge| == 35;
    match level
    case Dangerous => DangerBadge
    case Hazardous => HazardBadge
    case Problematic => WarningBadge
    case _ => SafeBadge
  }

  /** Both style tables tell the four tiers apart, and give every legacy
      label the SAFE entry. */
  lemma RiskStyleTables(a: RiskLabel, b: RiskLabel)
    ensures IsTier(a) && IsTier(b) && a != b ==> RiskColor(a) != RiskColor(b) && RiskBgColor(a) != RiskBgColor(b)
    ensures !IsTier(a) ==> RiskColor(a) == RiskColor(Safe) && RiskBgColor(a) == RiskBgColor(Safe)
  {
  }
}
