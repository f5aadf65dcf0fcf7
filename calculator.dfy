/** The calculator object: it holds the asset portfolio and runs the loops
    that assess every asset, serialise the assessments as GeoJSON, build the
    sample forecast, collect forecasts and assemble the forecast animation.
    Every provider response is an input, one per request, in request order. */
module Calculator {
  import opened WeatherTypes
  import opened RiskScoring
  import opened WeatherProvider
  import opened GeoJson
  import opened ForecastAnimation

  class WeatherRiskCalculator {
    /** The insured assets, in the order they are assessed. */
    var assets: seq<AssetLocation>

    constructor (assets: seq<AssetLocation>)
      ensures this.assets == assets
    {
      this.assets := assets;
    }

    /** Assesses every asset in order: the i-th assessment holds the i-th
        asset, the reading its realtime response yields (the fallback reading
        when that request failed, without affecting the other assets), the
        score of that reading and the level of that score. */
    method AssessAllAssets(readings: seq<RealtimeResponse>) returns (assessments: seq<RiskAssessment>)
      requires |readings| == |assets|
      ensures |assessments| == |assets|
      ensures forall i :: 0 <= i < |assets| ==>
        && assessments[i].asset == assets[i]
        && assessments[i].weather == FetchWeatherData(readings[i])
        && assessments[i].riskScore == CalculateRiskScore(assessments[i].weather, assets[i])
        && assessments[i].riskLevel == GetRiskLevel(assessments[i].riskScore)
      ensures forall i :: 0 <= i < |assets| ==> 0.0 <= assessments[i].riskScore <= 100.0
    {
      assessments := [];
      for i := 0 to |assets|
        invariant |assessments| == i
        invariant forall k :: 0 <= k < i ==>
          && assessments[k].asset == assets[k]
          && assessments[k].weather == FetchWeatherData(readings[k])
          && assessments[k].riskScore == CalculateRiskScore(assessments[k].weather, assets[k])
          && assessments[k].riskLevel == GetRiskLevel(assessments[k].riskScore)
      {
        var asset := assets[i];
        var weather := FetchWeatherData(readings[i]);
        var riskScore := CalculateRiskScore(weather, asset);
        var riskLevel := GetRiskLevel(riskScore);
        assessments := assessments + [RiskAssessment(asset, weather, riskScore, riskLevel)];
      }
    }

    /** One Point feature per assessment, in order: coordinates [lon, lat],
        name, type, insured value and level copied, the weather and the score
        rounded to two places (the score so within 0.005 of itself and still
        within [0, 100]); the metadata counts the features. */
    method GenerateGeojson(assessments: seq<RiskAssessment>) returns (doc: FeatureCollection)
      ensures |doc.features| == |assessments|
      ensures doc.metadata == Metadata(GeneratedAt, |doc.features|, RealtimeSource)
      ensures forall i :: 0 <= i < |assessments| ==> doc.features[i] == SnapshotFeature(assessments[i])
      ensures forall i :: 0 <= i < |assessments| ==>
        var a, p := assessments[i], doc.features[i].properties;
        && doc.features[i].geometry.coordinates == [a.asset.lon, a.asset.lat]
        && p.name == a.asset.name
        && p.assetType == a.asset.assetType
        && p.insuredValue == a.asset.insuredValue
        && p.riskLevel == a.riskLevel
        && p.fireIndex == Round2(a.weather.fireIndex)
        && p.windSpeed == Round2(a.weather.windSpeed)
        && p.temperature == Round2(a.weather.temperature)
        && p.humidity == Round2(a.weather.humidity)
        && p.precipitation == Round2(a.weather.precipitation)
        && p.riskScore == Round2(a.riskScore)
        && -0.005 <= p.riskScore - a.riskScore <= 0.005
        && (0.0 <= a.riskScore <= 100.0 ==> 0.0 <= p.riskScore <= 100.0)
    {
      var features: seq<Feature> := [];
      for i := 0 to |assessments|
        invariant |features| == i
        invariant forall k :: 0 <= k < i ==> features[k] == SnapshotFeature(assessments[k])
        invariant forall k :: 0 <= k < i && 0.0 <= assessments[k].riskScore <= 100.0 ==>
          0.0 <= features[k].properties.riskScore <= 100.0
      {
        if 0.0 <= assessments[i].riskScore <= 100.0 {
          Round2KeepsScoreRange(assessments[i].riskScore);
        }
        features := features + [SnapshotFeature(assessments[i])];
      }
      doc := FeatureCollection(features, Metadata(GeneratedAt, |features|, RealtimeSource));
    }

    /** The sample forecast of `hours` hours, stamped by `clock` hour by hour:
        exactly `hours` points (none for a negative count), the h-th being
        the sample point of hour h. */
    method GenerateSampleForecastData(hours: int, clock: nat -> string) returns (points: seq<ForecastPoint>)
      ensures |points| == if hours < 0 then 0 else hours
      ensures forall h :: 0 <= h < |points| ==> points[h] == SamplePoint(h, clock(h))
    {
      points := [];
      var hour: nat := 0;
      while hour < hours
        invariant hours >= 0 ==> hour <= hours
        invariant hours < 0 ==> hour == 0
        invariant |points| == hour
        invariant forall h :: 0 <= h < hour ==> points[h] == SamplePoint(h, clock(h))
      {
        var fireRisk := 1.0 + (hour % 24) as real * 0.1;
        var windSpeed := 5.0 + (hour % 12) as real * 2.0;
        var temp := 20.0 + 10.0 * Abs(((hour % 24) - 12) as real / 12.0);
        var point := ForecastPoint(clock(hour), WeatherData(
          Min(fireRisk, 5.0),
          Min(windSpeed, 25.0),
          temp,
          Max(30.0, 80.0 - hour as real * 0.5),
          if hour % 8 == 0 then 0.1 else 0.0));
        points := points + [point];
        hour := hour + 1;
      }
    }

    /** The forecast of one asset: the parsed hourly intervals, None when an
        interval lacks its "time" or "values" key, or the sample forecast of
        `hoursAhead` hours when the request failed. */
    method FetchForecastData(response: ForecastResponse, hoursAhead: int) returns (r: Option<seq<ForecastPoint>>)
      ensures r == ForecastOf(response, hoursAhead)
    {
      match response
      case RequestFailed(clock) =>
        var points := GenerateSampleForecastData(hoursAhead, clock);
        assert points == SampleForecast(hoursAhead, clock);
        r := Some(points);
      case Hourly(intervals) =>
        var points: seq<ForecastPoint> := [];
        for k := 0 to |intervals|
          invariant |points| == k
          invariant forall m :: 0 <= m < k ==> ParseInterval(intervals[m]) == Some(points[m])
        {
          var interval := intervals[k];
          if interval.time.None? || interval.values.None? {
            assert ParseInterval(intervals[k]).None?;
            r := None;
            return;
          }
          points := points + [ForecastPoint(interval.time.value, ReadingFrom(interval.values.value, ForecastDefaults))];
        }
        assert forall m :: 0 <= m < |intervals| ==> ParseInterval(intervals[m]).Some?;
        var parsed := ParseIntervals(intervals).value;
        assert forall m :: 0 <= m < |intervals| ==> Some(parsed[m]) == Some(points[m]);
        assert parsed == points;
        r := Some(points);
    }

    /** The forecast-collection loop: fetches every asset's forecast in
        order and stores each one obtained under the asset's name. */
    method CollectForecasts(responses: seq<ForecastResponse>) returns (table: ForecastTable)
      requires |responses| == |assets|
      ensures table == TableOf(assets, FetchedAll(responses))
    {
      ghost var fetched := FetchedAll(responses);
      table := EmptyTable;
      for i := 0 to |assets|
        invariant table == TableOf(assets[..i], fetched[..i])
      {
        var forecast := FetchForecastData(responses[i], ForecastHours);
        if forecast.Some? {
          table := Put(table, assets[i].name, forecast.value);
        }
        assert assets[..i + 1][..i] == assets[..i];
        assert fetched[..i + 1][..i] == fetched[..i];
      }
      assert assets[..|assets|] == assets && fetched[..|assets|] == fetched;
    }

    /** The features of frame `i`: one per asset that has a forecast, in
        asset order, read at hour 3 * i; None when some such forecast does
        not reach that hour (the lookup raises IndexError). */
    method BuildFrame(forecasts: map<string, seq<ForecastPoint>>, timestamp: string, i: nat) returns (frame: Option<seq<Feature>>)
      ensures frame.Some? <==> forall a :: a in assets && a.name in forecasts ==> 3 * i < |forecasts[a.name]|
      ensures frame.Some? ==> frame.value == FrameFeatures(assets, forecasts, timestamp, i)
    {
      var features: seq<Feature> := [];
      for j := 0 to |assets|
        invariant forall a :: a in assets[..j] && a.name in forecasts ==> 3 * i < |forecasts[a.name]|
        invariant features == FrameFeatures(assets[..j], forecasts, timestamp, i)
      {
        var asset := assets[j];
        if asset.name in forecasts {
          var forecast := forecasts[asset.name];
          if |forecast| <= 3 * i {
            assert asset in assets;
            frame := None;
            return;
          }
          features := features + [FrameFeature(asset, forecast[3 * i], timestamp, i)];
        }
        assert assets[..j + 1][..j] == assets[..j];
      }
      assert assets[..|assets|] == assets;
      frame := Some(features);
    }

    /** Builds the forecast animation: collects a forecast per asset name
        (skipping an asset whose fetch raised), takes the frame timestamps
        from every third hour of the first collected forecast and, frame by
        frame, scores every asset that has a forecast at that frame's hour.
        The result is the document `AnimationOf` describes, or the IndexError
        raised when a forecast is too short for a frame. */
    method GenerateForecastAnimationData(responses: seq<ForecastResponse>) returns (r: AnimationResult)
      requires |responses| == |assets|
      ensures r == AnimationOf(assets, TableOf(assets, FetchedAll(responses)))
    {
      var table := CollectForecasts(responses);
      // The frame timestamps: every third hour of the first forecast, none
      // when no forecast was collected.
      var timestamps := Timestamps(table);
      var features: seq<Feature> := [];
      for i := 0 to |timestamps|
        invariant FramesInRange(assets, table.forecasts, i)
        invariant features == AllFrames(assets, table.forecasts, timestamps, i)
      {
        var frame := BuildFrame(table.forecasts, timestamps[i], i);
        if frame.None? {
          r := IndexOutOfRange;
          return;
        }
        assert FramesInRange(assets, table.forecasts, i + 1);
        assert AllFrames(assets, table.forecasts, timestamps, i + 1) == features + frame.value;
        features := features + frame.value;
      }
      r := Animated(AnimationCollection(
        features,
        Animation(timestamps, ForecastHours, IntervalHours),
        Metadata(GeneratedAt, |assets|, ForecastSource)));
    }
  }
}
