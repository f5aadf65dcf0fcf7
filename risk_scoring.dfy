/** The scoring engine: a fire-weather hazard term scaled by floored weather
    factors and an asset-type multiplier, clamped to [0, 100], and the
    classifier that buckets a score into "low", "medium" or "high".
    All quantities are exact reals; the engine is total on every input,
    negative ones included. */
module RiskScoring {
  import opened WeatherTypes

  function Max(a: real, b: real): (m: real)
    ensures m >= a && m >= b
    ensures m == a || m == b
  {
    if a >= b then a else b
  }

  function Min(a: real, b: real): (m: real)
    ensures m <= a && m <= b
    ensures m == a || m == b
  {
    if a <= b then a else b
  }

  /** Base hazard: the fire index times a tenth of the wind speed. No fire
      or no wind means no hazard; non-negative inputs give a non-negative one. */
  function FireWindRisk(w: WeatherData): (b: real)
    ensures w.fireIndex == 0.0 || w.windSpeed == 0.0 ==> b == 0.0
    ensures w.fireIndex >= 0.0 && w.windSpeed >= 0.0 ==> b >= 0.0
    ensures w.fireIndex > 0.0 && w.windSpeed > 0.0 ==> b > 0.0
  {
    w.fireIndex * (w.windSpeed / 10.0)
  }

  /** Temperature amplifier: the temperature over a 25-degree reference,
      never below 1. */
  function TempFactor(temperature: real): (f: real)
    ensures f >= 1.0 && f >= temperature / 25.0
  {
    Max(1.0, temperature / 25.0)
  }

  /** Dryness amplifier: grows as humidity drops below 50, never below 1. */
  function HumidityFactor(humidity: real): (f: real)
    ensures f >= 1.0 && f >= (100.0 - humidity) / 50.0
  {
    Max(1.0, (100.0 - humidity) / 50.0)
  }

  /** Rain damper: shrinks as precipitation rises, never below 0.1. */
  function PrecipFactor(precipitation: real): (f: real)
    ensures f >= 0.1 && f >= 1.0 - precipitation / 5.0
  {
    Max(0.1, 1.0 - precipitation / 5.0)
  }

  /** The asset-type lookup table. */
  const AssetMultipliers: map<string, real> :=
    map["commercial" := 1.0,
        "critical_infrastructure" := 1.5,
        "hospitality" := 1.2,
        "industrial" := 1.3,
        "logistics" := 0.9]

  /** The multiplier of an asset type; a type missing from the table gets 1. */
  function AssetMultiplier(assetType: string): (m: real)
    ensures 0.9 <= m <= 1.5
    ensures assetType !in AssetMultipliers ==> m == 1.0
  {
    if assetType in AssetMultipliers then AssetMultipliers[assetType] else 1.0
  }

  /** The product of the three weather factors and the asset multiplier: what
      the base hazard is scaled by. */
  function Amplifier(w: WeatherData, assetType: string): (g: real)
    ensures g >= 0.09
  {
    var t, h, p, m := TempFactor(w.temperature), HumidityFactor(w.humidity),
                      PrecipFactor(w.precipitation), AssetMultiplier(assetType);
    ProductMonotone(1.0, t, 1.0, h);
    ProductMonotone(1.0, t * h, 0.1, p);
    ProductMonotone(0.1, t * h * p, 0.9, m);
    t * h * p * m
  }

  /** The score before clamping, multiplied out in the order the engine uses.
      Every other factor is positive, so the raw score has the sign of the
      base hazard. */
  function RawScore(w: WeatherData, asset: AssetLocation): (raw: real)
    ensures FireWindRisk(w) == 0.0 ==> raw == 0.0
    ensures FireWindRisk(w) > 0.0 ==> raw > 0.0
    ensures FireWindRisk(w) < 0.0 ==> raw < 0.0
  {
    var b, t, h, p, m := FireWindRisk(w), TempFactor(w.temperature), HumidityFactor(w.humidity),
                         PrecipFactor(w.precipitation), AssetMultiplier(asset.assetType);
    assert b > 0.0 ==> b * t > 0.0 && b * t * h > 0.0 && b * t * h * p > 0.0 && b * t * h * p * m > 0.0;
    assert b < 0.0 ==> b * t < 0.0 && b * t * h < 0.0 && b * t * h * p < 0.0 && b * t * h * p * m < 0.0;
    b * t * h * p * m
  }

  function Clamp(x: real): (c: real)
    ensures 0.0 <= c <= 100.0
    ensures c == x <==> 0.0 <= x <= 100.0
  {
    Min(100.0, Max(0.0, x))
  }

  /** The risk score of an asset under a reading: always within [0, 100];
      the raw score itself when that lies in range, else the nearer bound. */
  function CalculateRiskScore(w: WeatherData, asset: AssetLocation): (score: real)
    ensures 0.0 <= score <= 100.0
    ensures score == RawScore(w, asset) <==> 0.0 <= RawScore(w, asset) <= 100.0
    ensures RawScore(w, asset) < 0.0 ==> score == 0.0
    ensures RawScore(w, asset) > 100.0 ==> score == 100.0
  {
    Clamp(RawScore(w, asset))
  }

  /** The level of a score: below 25 is low, below 60 medium, otherwise high. */
  function GetRiskLevel(score: real): (level: string)
    ensures level == "low" <==> score < 25.0
    ensures level == "medium" <==> 25.0 <= score < 60.0
    ensures level == "high" <==> 60.0 <= score
  {
    if score < 25.0 then "low"
    else if score < 60.0 then "medium"
    else "high"
  }

  // ---------------------------------------------------------------------
  // Properties of the engine

  lemma ProductMonotone(a1: real, a2: real, b1: real, b2: real)
    requires 0.0 <= a1 <= a2 && 0.0 <= b1 <= b2
    ensures a1 * b1 <= a2 * b2
  {
    assert a1 * b1 <= a2 * b1;
    assert a2 * b1 <= a2 * b2;
  }

  /** The raw score is the base hazard scaled by the amplifier. */
  lemma RawScoreFactors(w: WeatherData, asset: AssetLocation)
    ensures RawScore(w, asset) == FireWindRisk(w) * Amplifier(w, asset.assetType)
  {
  }

  /** With a non-negative base hazard the raw score is non-negative, and the
      floors keep at least 0.09 of the hazard (0.1 for rain times 0.9 for the
      smallest asset multiplier): rain never zeroes the risk. */
  lemma RawScoreLowerBound(w: WeatherData, asset: AssetLocation)
    requires FireWindRisk(w) >= 0.0
    ensures RawScore(w, asset) >= 0.09 * FireWindRisk(w) >= 0.0
  {
    var b, g := FireWindRisk(w), Amplifier(w, asset.assetType);
    RawScoreFactors(w, asset);
    ProductMonotone(b, b, 0.09, g);
    calc {
      RawScore(w, asset);
    ==
      b * g;
    >=
      b * 0.09;
    ==
      0.09 * b;
    }
  }

  /** A positive hazard always yields a positive score. */
  lemma ScorePositiveWithHazard(w: WeatherData, asset: AssetLocation)
    requires FireWindRisk(w) > 0.0
    ensures CalculateRiskScore(w, asset) > 0.0
  {
    RawScoreLowerBound(w, asset);
  }

  /** `w2` is at least as hazardous as `w1`: no less fire, wind and heat, no
      more humidity and rain. */
  predicate NoLessHazardous(w1: WeatherData, w2: WeatherData)
  {
    && w1.fireIndex <= w2.fireIndex
    && w1.windSpeed <= w2.windSpeed
    && w1.temperature <= w2.temperature
    && w1.humidity >= w2.humidity
    && w1.precipitation >= w2.precipitation
  }

  lemma Product4Monotone(a1: real, b1: real, c1: real, d1: real, a2: real, b2: real, c2: real, d2: real)
    requires 0.0 <= a1 <= a2 && 0.0 <= b1 <= b2 && 0.0 <= c1 <= c2 && 0.0 <= d1 <= d2
    ensures a1 * b1 * c1 * d1 <= a2 * b2 * c2 * d2
  {
    ProductMonotone(a1, a2, b1, b2);
    ProductMonotone(0.0, a1, 0.0, b1);
    var ab1, ab2 := a1 * b1, a2 * b2;
    ProductMonotone(ab1, ab2, c1, c2);
    ProductMonotone(0.0, ab1, 0.0, c1);
    var abc1, abc2 := ab1 * c1, ab2 * c2;
    ProductMonotone(abc1, abc2, d1, d2);
  }

  lemma AmplifierMonotone(w1: WeatherData, w2: WeatherData, assetType: string)
    requires NoLessHazardous(w1, w2)
    ensures Amplifier(w1, assetType) <= Amplifier(w2, assetType)
  {
    var m := AssetMultiplier(assetType);
    var t1, t2 := TempFactor(w1.temperature), TempFactor(w2.temperature);
    var h1, h2 := HumidityFactor(w1.humidity), HumidityFactor(w2.humidity);
    var p1, p2 := PrecipFactor(w1.precipitation), PrecipFactor(w2.precipitation);
    assert t1 <= t2;
    assert h1 <= h2;
    assert p1 <= p2;
    Product4Monotone(t1, h1, p1, m, t2, h2, p2, m);
  }

  /** The score is monotone in the hazard: with a non-negative fire index and
      wind speed, raising fire index, wind speed or temperature, or lowering
      humidity or precipitation, never lowers the score. */
  lemma ScoreMonotone(w1: WeatherData, w2: WeatherData, asset: AssetLocation)
    requires 0.0 <= w1.fireIndex && 0.0 <= w1.windSpeed
    requires NoLessHazardous(w1, w2)
    ensures CalculateRiskScore(w1, asset) <= CalculateRiskScore(w2, asset)
  {
    var b1, b2 := FireWindRisk(w1), FireWindRisk(w2);
    var a1, a2 := Amplifier(w1, asset.assetType), Amplifier(w2, asset.assetType);
    assert 0.0 <= b1 <= b2 by {
      ProductMonotone(w1.fireIndex, w2.fireIndex, w1.windSpeed / 10.0, w2.windSpeed / 10.0);
      ProductMonotone(0.0, w1.fireIndex, 0.0, w1.windSpeed / 10.0);
    }
    AmplifierMonotone(w1, w2, asset.assetType);
    ProductMonotone(b1, b2, a1, a2);
    RawScoreFactors(w1, asset);
    RawScoreFactors(w2, asset);
    ClampMonotone(RawScore(w1, asset), RawScore(w2, asset));
  }

  /** Clamping keeps the order of two raw scores. */
  lemma ClampMonotone(x: real, y: real)
    requires x <= y
    ensures Clamp(x) <= Clamp(y)
  {
  }

  /** An asset type outside the table scores exactly as "commercial"; the
      dataclass default "property" is one such type. */
  lemma UnknownTypeScoresAsCommercial(w: WeatherData, asset: AssetLocation)
    requires asset.assetType !in AssetMultipliers
    ensures CalculateRiskScore(w, asset) == CalculateRiskScore(w, asset.(assetType := "commercial"))
    ensures AssetMultiplier(AssetLocation("", 0.0, 0.0).assetType) == 1.0
  {
  }

  /** The table entries, as the engine defines them. */
  lemma AssetMultiplierTable()
    ensures AssetMultiplier("commercial") == 1.0
    ensures AssetMultiplier("critical_infrastructure") == 1.5
    ensures AssetMultiplier("hospitality") == 1.2
    ensures AssetMultiplier("industrial") == 1.3
    ensures AssetMultiplier("logistics") == 0.9
    ensures AssetMultiplier("property") == 1.0
  {
  }

  /** A worked example: fire index 2, wind 20, 30 degrees, 20% humidity, no
      rain, critical infrastructure: 4.0 * 1.2 * 1.6 * 1.0 * 1.5 = 11.52, low. */
  lemma CriticalInfrastructureExample()
    ensures var w := WeatherData(2.0, 20.0, 30.0, 20.0, 0.0);
            var a := AssetLocation("San Francisco Data Center", 37.7749, -122.4194, "critical_infrastructure", 10000000.0);
            && FireWindRisk(w) == 4.0
            && TempFactor(w.temperature) == 1.2
            && HumidityFactor(w.humidity) == 1.6
            && PrecipFactor(w.precipitation) == 1.0
            && CalculateRiskScore(w, a) == 11.52
            && GetRiskLevel(CalculateRiskScore(w, a)) == "low"
  {
  }

  /** The classifier is monotone: a higher score never gets a lower level. */
  lemma RiskLevelMonotone(s1: real, s2: real)
    requires s1 <= s2
    ensures GetRiskLevel(s1) == "high" ==> GetRiskLevel(s2) == "high"
    ensures GetRiskLevel(s2) == "low" ==> GetRiskLevel(s1) == "low"
    ensures GetRiskLevel(s1) in {"low", "medium", "high"}
  {
  }

  /** The thresholds belong to the upper bucket. */
  lemma RiskLevelBoundaries()
    ensures GetRiskLevel(24.999) == "low"
    ensures GetRiskLevel(25.0) == "medium"
    ensures GetRiskLevel(59.999) == "medium"
    ensures GetRiskLevel(60.0) == "high"
  {
  }
}
