/** The GeoJSON documents the calculator emits: a FeatureCollection of Point
    features for the current assessments, and the animated collection of
    forecast frames. Numbers printed to two places are rounded on their exact
    value, half to even. */
module GeoJson {
  import opened WeatherTypes

  /** The frame a forecast feature belongs to: the frame's timestamp and index. */
  datatype FrameTag = FrameTag(timestamp: string, frameIndex: nat)

  /** A feature's properties; `frame` is present on forecast features only. */
  datatype Properties = Properties(
    name: string,
    assetType: string,
    insuredValue: real,
    fireIndex: real,
    windSpeed: real,
    temperature: real,
    humidity: real,
    precipitation: real,
    riskScore: real,
    riskLevel: string,
    frame: Option<FrameTag>)

  /** A Point geometry; its coordinates are [longitude, latitude]. */
  datatype Geometry = Point(coordinates: seq<real>)

  datatype Feature = Feature(geometry: Geometry, properties: Properties)

  datatype Metadata = Metadata(generatedAt: string, totalAssets: int, dataSource: string)

  datatype FeatureCollection = FeatureCollection(features: seq<Feature>, metadata: Metadata)

  datatype Animation = Animation(timestamps: seq<string>, durationHours: int, intervalHours: int)

  datatype AnimationCollection = AnimationCollection(
    features: seq<Feature>,
    animation: Animation,
    metadata: Metadata)

  /** The fixed generation stamp both documents carry. */
  const GeneratedAt := "2025-01-31T20:42:00Z"
  const RealtimeSource := "Tomorrow.io Weather API"
  const ForecastSource := "Tomorrow.io Forecast API"

  /** The integer nearest to `x`; a tie goes to the even neighbour. */
  function RoundHalfEven(x: real): (n: int)
    ensures x - 0.5 <= n as real <= x + 0.5
    ensures (n as real == x - 0.5 || n as real == x + 0.5) ==> n % 2 == 0
  {
    var f := x.Floor;
    var d := x - f as real;
    if d < 0.5 then f
    else if d > 0.5 then f + 1
    else if f % 2 == 0 then f
    else f + 1
  }

  /** `round(x, 2)`: the nearest multiple of 0.01, ties to even. */
  function Round2(x: real): (r: real)
    ensures (r * 100.0).Floor as real == r * 100.0
    ensures -0.005 <= r - x <= 0.005
  {
    var n := RoundHalfEven(x * 100.0);
    Hundredths(n);
    n as real / 100.0
  }

  /** n hundredths, scaled back by 100, are the whole number n. */
  lemma Hundredths(n: int)
    ensures (n as real / 100.0) * 100.0 == n as real
    ensures ((n as real / 100.0) * 100.0).Floor == n
  {
  }

  lemma RoundHalfEvenMonotone(x: real, y: real)
    requires x <= y
    ensures RoundHalfEven(x) <= RoundHalfEven(y)
  {
    if x.Floor < y.Floor {
      assert RoundHalfEven(x) <= x.Floor + 1 <= y.Floor <= RoundHalfEven(y);
    }
  }

  /** Rounding never reverses the order of two values. */
  lemma Round2Monotone(x: real, y: real)
    requires x <= y
    ensures Round2(x) <= Round2(y)
  {
    RoundHalfEvenMonotone(x * 100.0, y * 100.0);
  }

  /** Rounding an already rounded value changes nothing. */
  lemma Round2Idempotent(x: real)
    ensures Round2(Round2(x)) == Round2(x)
  {
    var n := RoundHalfEven(x * 100.0);
    assert Round2(x) * 100.0 == n as real;
    assert (n as real).Floor == n;
  }

  /** A score in [0, 100] stays in [0, 100] once rounded. */
  lemma Round2KeepsScoreRange(s: real)
    requires 0.0 <= s <= 100.0
    ensures 0.0 <= Round2(s) <= 100.0
  {
    Round2Monotone(0.0, s);
    Round2Monotone(s, 100.0);
    assert Round2(0.0) == 0.0 && Round2(100.0) == 100.0;
  }

  /** The feature of one current assessment: the asset's [lon, lat], its
      metadata copied, the weather and the score rounded to two places. */
  function SnapshotFeature(a: RiskAssessment): (f: Feature)
    ensures f.geometry.coordinates == [a.asset.lon, a.asset.lat]
    ensures f.properties.frame.None?
    ensures f.properties.fireIndex == Round2(a.weather.fireIndex)
    ensures f.properties.windSpeed == Round2(a.weather.windSpeed)
    ensures f.properties.temperature == Round2(a.weather.temperature)
    ensures f.properties.humidity == Round2(a.weather.humidity)
    ensures f.properties.precipitation == Round2(a.weather.precipitation)
    ensures f.properties.riskScore == Round2(a.riskScore)
  {
    Feature(
      Point([a.asset.lon, a.asset.lat]),
      Properties(
        a.asset.name,
        a.asset.assetType,
        a.asset.insuredValue,
        Round2(a.weather.fireIndex),
        Round2(a.weather.windSpeed),
        Round2(a.weather.temperature),
        Round2(a.weather.humidity),
        Round2(a.weather.precipitation),
        Round2(a.riskScore),
        a.riskLevel,
        None))
  }
}
