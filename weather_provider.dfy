/** The weather provider seen from the calculator: what a realtime or forecast
    response turns into, with the defaults for missing fields and the
    degrade-not-fail fallbacks for failed requests, and the deterministic
    sample forecast served when a forecast request fails. The HTTP exchange
    itself is not modelled: a response is an input value. */
module WeatherProvider {
  import opened WeatherTypes
  import opened RiskScoring

  /** The realtime endpoint's answer: the `values` object of a successful
      response, or a failed request (transport error, timeout, non-2xx). */
  datatype RealtimeResponse = Success(values: map<string, real>) | Failure

  /** The reading used for an asset whose realtime request failed. */
  const FallbackReading: WeatherData := WeatherData(1.0, 5.0, 20.0, 50.0, 0.0)

  /** Defaults of a realtime response that lacks a field. */
  const RealtimeDefaults: WeatherData := WeatherData(0.0, 0.0, 0.0, 0.0, 0.0)

  /** Defaults of a forecast interval that lacks a field. */
  const ForecastDefaults: WeatherData := WeatherData(1.0, 5.0, 20.0, 50.0, 0.0)

  /** The API's field names, one per metric. */
  const FireIndexKey := "fireIndex"
  const WindSpeedKey := "windSpeed"
  const TemperatureKey := "temperature"
  const HumidityKey := "humidity"
  const PrecipitationKey := "precipitationIntensity"

  /** `values.get(key, default)`. */
  function ValueOr(values: map<string, real>, key: string, default: real): (v: real)
    ensures key in values ==> v == values[key]
    ensures key !in values ==> v == default
  {
    if key in values then values[key] else default
  }

  /** A reading taken from an API `values` object, field by field, with the
      given defaults for absent fields. */
  function ReadingFrom(values: map<string, real>, defaults: WeatherData): (w: WeatherData)
    ensures FireIndexKey in values ==> w.fireIndex == values[FireIndexKey]
    ensures WindSpeedKey in values ==> w.windSpeed == values[WindSpeedKey]
    ensures TemperatureKey in values ==> w.temperature == values[TemperatureKey]
    ensures HumidityKey in values ==> w.humidity == values[HumidityKey]
    ensures PrecipitationKey in values ==> w.precipitation == values[PrecipitationKey]
    ensures FireIndexKey !in values ==> w.fireIndex == defaults.fireIndex
    ensures WindSpeedKey !in values ==> w.windSpeed == defaults.windSpeed
    ensures TemperatureKey !in values ==> w.temperature == defaults.temperature
    ensures HumidityKey !in values ==> w.humidity == defaults.humidity
    ensures PrecipitationKey !in values ==> w.precipitation == defaults.precipitation
  {
    WeatherData(
      ValueOr(values, FireIndexKey, defaults.fireIndex),
      ValueOr(values, WindSpeedKey, defaults.windSpeed),
      ValueOr(values, TemperatureKey, defaults.temperature),
      ValueOr(values, HumidityKey, defaults.humidity),
      ValueOr(values, PrecipitationKey, defaults.precipitation))
  }

  /** The realtime reading of an asset: the response's fields (absent ones
      read as 0.0) on success, the fixed fallback reading on failure. */
  function FetchWeatherData(response: RealtimeResponse): (w: WeatherData)
    ensures response.Failure? ==> w == FallbackReading
    ensures response.Success? ==>
      && (FireIndexKey in response.values ==> w.fireIndex == response.values[FireIndexKey])
      && (WindSpeedKey in response.values ==> w.windSpeed == response.values[WindSpeedKey])
      && (TemperatureKey in response.values ==> w.temperature == response.values[TemperatureKey])
      && (HumidityKey in response.values ==> w.humidity == response.values[HumidityKey])
      && (PrecipitationKey in response.values ==> w.precipitation == response.values[PrecipitationKey])
    ensures response.Success? ==>
      && (FireIndexKey !in response.values ==> w.fireIndex == 0.0)
      && (WindSpeedKey !in response.values ==> w.windSpeed == 0.0)
      && (TemperatureKey !in response.values ==> w.temperature == 0.0)
      && (HumidityKey !in response.values ==> w.humidity == 0.0)
      && (PrecipitationKey !in response.values ==> w.precipitation == 0.0)
  {
    match response
    case Success(values) => ReadingFrom(values, RealtimeDefaults)
    case Failure => FallbackReading
  }

  /** An asset whose request failed scores half its asset multiplier, which
      is always "low": a failure degrades to a harmless reading. */
  lemma FallbackScore(asset: AssetLocation)
    ensures CalculateRiskScore(FetchWeatherData(Failure), asset) == 0.5 * AssetMultiplier(asset.assetType)
    ensures GetRiskLevel(CalculateRiskScore(FetchWeatherData(Failure), asset)) == "low"
  {
    assert FireWindRisk(FallbackReading) == 0.5;
    assert TempFactor(20.0) == 1.0;
    assert HumidityFactor(50.0) == 1.0;
    assert PrecipFactor(0.0) == 1.0;
  }

  // ---------------------------------------------------------------------
  // Forecasts

  /** One hourly point of a forecast. */
  datatype ForecastPoint = ForecastPoint(timestamp: string, reading: WeatherData)

  /** One entry of the response's `timelines.hourly` list: its "time" and
      "values" keys, either of which may be missing. */
  datatype Interval = Interval(time: Option<string>, values: Option<map<string, real>>)

  /** The forecast endpoint's answer: the hourly intervals of a successful
      response (an absent timeline reads as no intervals), or a failed
      request together with the wall clock the sample data is stamped from
      (the timestamp of each hour after the time of failure). */
  datatype ForecastResponse =
    | Hourly(intervals: seq<Interval>)
    | RequestFailed(clock: nat -> string)

  /** The point of one interval, None when a key is missing (the lookup
      raises, and the exception leaves the forecast fetch). */
  function ParseInterval(iv: Interval): (p: Option<ForecastPoint>)
    ensures p.Some? <==> iv.time.Some? && iv.values.Some?
    ensures p.Some? ==> p.value.timestamp == iv.time.value
    ensures p.Some? ==> p.value.reading == ReadingFrom(iv.values.value, ForecastDefaults)
  {
    match (iv.time, iv.values)
    case (Some(t), Some(vs)) => Some(ForecastPoint(t, ReadingFrom(vs, ForecastDefaults)))
    case _ => None
  }

  /** The points of a list of intervals, or None when any interval lacks a key. */
  function ParseIntervals(intervals: seq<Interval>): (r: Option<seq<ForecastPoint>>)
    ensures r.Some? <==> forall k :: 0 <= k < |intervals| ==> ParseInterval(intervals[k]).Some?
    ensures r.Some? ==> |r.value| == |intervals|
    ensures r.Some? ==> forall k :: 0 <= k < |intervals| ==> Some(r.value[k]) == ParseInterval(intervals[k])
  {
    if forall k :: 0 <= k < |intervals| ==> ParseInterval(intervals[k]).Some? then
      Some(seq(|intervals|, k requires 0 <= k < |intervals| => ParseInterval(intervals[k]).value))
    else
      None
  }

  function Abs(x: real): (a: real)
    ensures a >= 0.0 && (a == x || a == -x)
  {
    if x < 0.0 then -x else x
  }

  /** The sample point of one hour: daily fire and temperature cycles, a
      semi-daily wind cycle, drying humidity and a light shower every eighth
      hour. Every metric stays within fixed bounds. */
  function SamplePoint(hour: nat, timestamp: string): (p: ForecastPoint)
    ensures p.timestamp == timestamp
    ensures 1.0 <= p.reading.fireIndex <= 5.0
    ensures 5.0 <= p.reading.windSpeed <= 25.0
    ensures 20.0 <= p.reading.temperature <= 30.0
    ensures 30.0 <= p.reading.humidity <= 80.0
    ensures p.reading.precipitation == 0.1 <==> hour % 8 == 0
    ensures p.reading.precipitation == 0.0 <==> hour % 8 != 0
  {
    var fireRisk := 1.0 + (hour % 24) as real * 0.1;
    var windSpeed := 5.0 + (hour % 12) as real * 2.0;
    var temp := 20.0 + 10.0 * Abs(((hour % 24) - 12) as real / 12.0);
    ForecastPoint(timestamp, WeatherData(
      Min(fireRisk, 5.0),
      Min(windSpeed, 25.0),
      temp,
      Max(30.0, 80.0 - hour as real * 0.5),
      if hour % 8 == 0 then 0.1 else 0.0))
  }

  /** The sample forecast of `hours` hours (none for a negative count). */
  function SampleForecast(hours: int, clock: nat -> string): (s: seq<ForecastPoint>)
    ensures |s| == if hours < 0 then 0 else hours
    ensures forall h :: 0 <= h < |s| ==> s[h] == SamplePoint(h, clock(h)) && s[h].timestamp == clock(h)
  {
    seq(if hours < 0 then 0 else hours, h requires 0 <= h => SamplePoint(h, clock(h)))
  }

  /** The forecast a response yields: the parsed intervals on success (None
      when one lacks a key), the sample forecast on a failed request. */
  function ForecastOf(response: ForecastResponse, hoursAhead: int): (r: Option<seq<ForecastPoint>>)
    ensures response.RequestFailed? ==> r.Some? && |r.value| == if hoursAhead < 0 then 0 else hoursAhead
    ensures response.Hourly? ==>
      (r.Some? <==> forall k :: 0 <= k < |response.intervals| ==>
                      response.intervals[k].time.Some? && response.intervals[k].values.Some?)
    ensures response.Hourly? && r.Some? ==> |r.value| == |response.intervals|
  {
    match response
    case Hourly(intervals) => ParseIntervals(intervals)
    case RequestFailed(clock) => Some(SampleForecast(hoursAhead, clock))
  }

  /** A failed forecast request never loses the forecast: it yields exactly
      `hoursAhead` sample points, hour by hour. */
  lemma FailedForecastIsSample(clock: nat -> string, hoursAhead: nat)
    ensures ForecastOf(RequestFailed(clock), hoursAhead).Some?
    ensures |ForecastOf(RequestFailed(clock), hoursAhead).value| == hoursAhead
    ensures forall h :: 0 <= h < hoursAhead ==>
      ForecastOf(RequestFailed(clock), hoursAhead).value[h] == SamplePoint(h, clock(h))
  {
  }
}
