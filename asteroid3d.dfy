/** The colours and size of an asteroid in the 3D scene
    (src/components/three/Asteroid3D.tsx). The colour tables are keyed by
    the label `getRiskLevel` returns, so they accept both vocabularies. */
module Asteroid3D {
  import opened Asteroids

  const Red: string := "#ef4444"
  const Orange: string := "#f97316"
  const Yellow: string := "#f59e0b"
  const Green: string := "#22c55e"

  /** getAsteroidColor. */
  function AsteroidColor(level: RiskLabel): (c: string)
    ensures c == Red <==> level == Dangerous
    ensures c == Orange <==> level == Hazardous || level == High
    ensures c == Yellow <==> level == Problematic || level == Medium
    ensures c == Green <==> level == Safe || level == Low
  {
    match level
    case Dangerous => Red
    case Hazardous => Orange
    case Problematic => Yellow
    case High => Orange
    case Medium => Yellow
    case _ => Green
  }

  /** getAsteroidGlow. */
  function AsteroidGlow(level: RiskLabel): (g: string)
    ensures g == "#ff6b6b" <==> level == Dangerous
    ensures g == "#fb923c" <==> level == Hazardous || level == High
    ensures g == "#fbbf24" <==> level == Problematic || level == Medium
    ensures g == "#4ade80" <==> level == Safe || level == Low
  {
    match level
    case Dangerous => "#ff6b6b"
    case Hazardous => "#fb923c"
    case Problematic => "#fbbf24"
    case High => "#fb923c"
    case Medium => "#fbbf24"
    case _ => "#4ade80"
  }

  /** The glow table partitions the labels exactly as the colour table does. */
  lemma GlowMatchesColor(a: RiskLabel, b: RiskLabel)
    ensures AsteroidGlow(a) == AsteroidGlow(b) <==> AsteroidColor(a) == AsteroidColor(b)
  {
  }

  /** The four-tier label whose colours a label shares: HIGH those of
      HAZARDOUS, MEDIUM those of PROBLEMATIC, LOW those of SAFE. */
  function FourTierOf(level: RiskLabel): (t: Tier)
  {
    match level
    case High => Hazardous
    case Medium => Problematic
    case Low => Safe
    case Safe => Safe
    case Problematic => Problematic
    case Hazardous => Hazardous
    case Dangerous => Dangerous
  }

  /** Every label is drawn in the colour of a four-tier label, and the four
      tiers get four different colours. */
  lemma ColorThroughTier(level: RiskLabel, a: Tier, b: Tier)
    ensures AsteroidColor(level) == AsteroidColor(FourTierOf(level))
    ensures AsteroidGlow(level) == AsteroidGlow(FourTierOf(level))
    ensures a != b ==> AsteroidColor(a) != AsteroidColor(b)
  {
  }

  /** `Math.max(0.06, Math.min(0.2, (d || 0.1) * 0.15))`. */
  function SphereSize(diameterMaxKm: real): (size: real)
    ensures 0.06 <= size <= 0.2
  {
    var d := if diameterMaxKm == 0.0 then 0.1 else diameterMaxKm;
    var scaled := d * 0.15;
    var capped := if scaled < 0.2 then scaled else 0.2;
    if 0.06 < capped then capped else 0.06
  }

  /** A zero diameter falls back to 0.1 km, whose scaled size is below the
      floor; diameters between 0.4 km and 4/3 km are drawn to scale. */
  lemma SphereSizeCases(d: real)
    ensures SphereSize(0.0) == 0.06
    ensures 0.4 <= d <= 0.2 / 0.15 ==> SphereSize(d) == d * 0.15
    ensures d > 0.0 && d * 0.15 <= 0.06 ==> SphereSize(d) == 0.06
    ensures d * 0.15 >= 0.2 ==> SphereSize(d) == 0.2
  {
  }

  /** Among non-zero diameters a larger asteroid is never drawn smaller. */
  lemma SphereSizeMonotone(d1: real, d2: real)
    requires d1 != 0.0 && d2 != 0.0 && d1 <= d2
    ensures SphereSize(d1) <= SphereSize(d2)
  {
  }

  /** The colour, glow and size the scene uses for one record. */
  datatype Look = Look(color: string, glow: string, size: real)

  function LookOf(a: Asteroid): (l: Look)
    ensures l.color == AsteroidColor(GetRiskLevel(a)) && l.glow == AsteroidGlow(GetRiskLevel(a))
    ensures 0.06 <= l.size <= 0.2
    ensures a.riskLevel.None? && a.isPotentiallyHazardous ==> l.color == Red || l.color == Orange
    ensures a.riskLevel.None? && !a.isPotentiallyHazardous ==> l.color == Yellow || l.color == Green
  {
    var risk := GetRiskLevel(a);
    Look(AsteroidColor(risk), AsteroidGlow(risk), SphereSize(a.diameterMaxKm))
  }
}
