/** What the forecast animation is made of: the table of forecasts collected
    per asset name, the frames taken every third hour of the first collected
    forecast, and the features of each frame, one per asset that has a
    forecast. The calculator's animation method is proved to build exactly
    `AnimationOf`; the lemmas here say what that document contains. */
module ForecastAnimation {
  import opened WeatherTypes
  import opened RiskScoring
  import opened WeatherProvider
  import opened GeoJson

  /** Hours of forecast requested per asset, and hours between frames. */
  const ForecastHours := 72
  const IntervalHours := 3

  // ---------------------------------------------------------------------
  // The forecast table: a dictionary keyed by asset name that remembers the
  // order in which names were first inserted.

  datatype ForecastTable = ForecastTable(names: seq<string>, forecasts: map<string, seq<ForecastPoint>>)

  predicate Distinct(names: seq<string>)
  {
    forall i, j :: 0 <= i < j < |names| ==> names[i] != names[j]
  }

  /** The names are exactly the keys, each once. */
  ghost predicate ValidTable(t: ForecastTable)
  {
    && Distinct(t.names)
    && (forall name :: name in t.forecasts <==> name in t.names)
  }

  const EmptyTable := ForecastTable([], map[])

  /** `table[name] = forecast`: a new name goes last, a known one keeps its place. */
  function Put(t: ForecastTable, name: string, forecast: seq<ForecastPoint>): (t': ForecastTable)
    requires ValidTable(t)
    ensures ValidTable(t')
    ensures t'.forecasts == t.forecasts[name := forecast]
    ensures t'.names == if name in t.forecasts then t.names else t.names + [name]
  {
    if name in t.forecasts then ForecastTable(t.names, t.forecasts[name := forecast])
    else ForecastTable(t.names + [name], t.forecasts[name := forecast])
  }

  /** The results of fetching every asset's forecast, in asset order. */
  function FetchedAll(responses: seq<ForecastResponse>): (fetched: seq<Option<seq<ForecastPoint>>>)
    ensures |fetched| == |responses|
  {
    seq(|responses|, i requires 0 <= i < |responses| => ForecastOf(responses[i], ForecastHours))
  }

  /** The table after the collection loop has gone through `assets`: each
      forecast that was obtained is stored under its asset's name; an asset
      whose fetch raised is skipped. */
  function TableOf(assets: seq<AssetLocation>, fetched: seq<Option<seq<ForecastPoint>>>): (t: ForecastTable)
    requires |assets| == |fetched|
    ensures ValidTable(t)
    decreases |assets|
  {
    if |assets| == 0 then EmptyTable
    else
      var n := |assets| - 1;
      var prev := TableOf(assets[..n], fetched[..n]);
      match fetched[n]
      case None => prev
      case Some(forecast) => Put(prev, assets[n].name, forecast)
  }

  /** With distinct asset names, an asset has an entry exactly when its own
      fetch succeeded, and the entry is its own forecast. */
  lemma {:induction false} TableLookup(assets: seq<AssetLocation>, fetched: seq<Option<seq<ForecastPoint>>>, i: nat)
    requires |assets| == |fetched| && i < |assets|
    requires forall p, q :: 0 <= p < q < |assets| ==> assets[p].name != assets[q].name
    ensures assets[i].name in TableOf(assets, fetched).forecasts <==> fetched[i].Some?
    ensures fetched[i].Some? ==> TableOf(assets, fetched).forecasts[assets[i].name] == fetched[i].value
  {
    var n := |assets| - 1;
    if i < n {
      TableLookup(assets[..n], fetched[..n], i);
    } else {
      NameAbsentFromTable(assets[..n], fetched[..n], assets[n].name);
    }
  }

  /** A name no asset carries has no entry. */
  lemma {:induction false} NameAbsentFromTable(assets: seq<AssetLocation>, fetched: seq<Option<seq<ForecastPoint>>>, name: string)
    requires |assets| == |fetched|
    requires forall p :: 0 <= p < |assets| ==> assets[p].name != name
    ensures name !in TableOf(assets, fetched).forecasts
  {
    if |assets| > 0 {
      var n := |assets| - 1;
      NameAbsentFromTable(assets[..n], fetched[..n], name);
    }
  }

  /** No obtained forecast, no entry. */
  lemma {:induction false} NothingFetchedEmptyTable(assets: seq<AssetLocation>, fetched: seq<Option<seq<ForecastPoint>>>)
    requires |assets| == |fetched|
    requires forall p :: 0 <= p < |fetched| ==> fetched[p].None?
    ensures TableOf(assets, fetched) == EmptyTable
  {
    if |assets| > 0 {
      var n := |assets| - 1;
      NothingFetchedEmptyTable(assets[..n], fetched[..n]);
    }
  }

  /** The first name in the table is that of the first asset whose forecast
      was obtained. */
  lemma {:induction false} FirstTableName(assets: seq<AssetLocation>, fetched: seq<Option<seq<ForecastPoint>>>, k: nat)
    requires |assets| == |fetched| && k < |assets|
    requires forall p :: 0 <= p < k ==> fetched[p].None?
    requires fetched[k].Some?
    ensures |TableOf(assets, fetched).names| > 0
    ensures TableOf(assets, fetched).names[0] == assets[k].name
  {
    var n := |assets| - 1;
    var prev := TableOf(assets[..n], fetched[..n]);
    assert prev.names <= TableOf(assets, fetched).names;
    if k < n {
      FirstTableName(assets[..n], fetched[..n], k);
    } else {
      NothingFetchedEmptyTable(assets[..n], fetched[..n]);
    }
  }

  // ---------------------------------------------------------------------
  // Frames

  /** The slice `s[::3]`: the first element, then every third one after it. */
  function EveryThird<T>(s: seq<T>): (r: seq<T>)
    ensures |r| == (|s| + 2) / 3
    ensures forall k :: 0 <= k < |r| ==> 3 * k < |s| && r[k] == s[3 * k]
    decreases |s|
  {
    if |s| == 0 then []
    else if |s| <= 3 then [s[0]]
    else [s[0]] + EveryThird(s[3..])
  }

  /** The frame timestamps: those of hours 0, 3, 6, ... of the first forecast
      in the table; none when the table is empty. */
  function Timestamps(t: ForecastTable): (ts: seq<string>)
    requires ValidTable(t)
    ensures |t.names| == 0 ==> ts == []
    ensures |t.names| > 0 ==>
      var sample := t.forecasts[t.names[0]];
      && |ts| == (|sample| + 2) / 3
      && forall i :: 0 <= i < |ts| ==> 3 * i < |sample| && ts[i] == sample[3 * i].timestamp
  {
    if |t.names| == 0 then []
    else
      var frames := EveryThird(t.forecasts[t.names[0]]);
      seq(|frames|, i requires 0 <= i < |frames| => frames[i].timestamp)
  }

  /** Every forecast in the table reaches hour 3 * (frames - 1), so every
      frame can read every forecast. */
  predicate FramesInRange(assets: seq<AssetLocation>, forecasts: map<string, seq<ForecastPoint>>, frames: nat)
  {
    forall a :: a in assets && a.name in forecasts ==> frames == 0 || 3 * (frames - 1) < |forecasts[a.name]|
  }

  /** The feature of one asset in frame `i`: the forecast point's reading,
      its score and level, the frame's timestamp and index. */
  function FrameFeature(asset: AssetLocation, point: ForecastPoint, timestamp: string, i: nat): (f: Feature)
    ensures f.geometry.coordinates == [asset.lon, asset.lat]
    ensures f.properties.name == asset.name && f.properties.assetType == asset.assetType
    ensures f.properties.insuredValue == asset.insuredValue
    ensures f.properties.fireIndex == point.reading.fireIndex
    ensures f.properties.windSpeed == point.reading.windSpeed
    ensures f.properties.temperature == point.reading.temperature
    ensures f.properties.humidity == point.reading.humidity
    ensures f.properties.precipitation == point.reading.precipitation
    ensures f.properties.frame == Some(FrameTag(timestamp, i))
    ensures f.properties.riskScore == CalculateRiskScore(point.reading, asset)
    ensures f.properties.riskLevel == GetRiskLevel(f.properties.riskScore)
  {
    var w := point.reading;
    var score := CalculateRiskScore(w, asset);
    Feature(
      Point([asset.lon, asset.lat]),
      Properties(asset.name, asset.assetType, asset.insuredValue,
                 w.fireIndex, w.windSpeed, w.temperature, w.humidity, w.precipitation,
                 score, GetRiskLevel(score), Some(FrameTag(timestamp, i))))
  }

  /** The assets that have a forecast in the table, in asset order. */
  function Tracked(assets: seq<AssetLocation>, forecasts: map<string, seq<ForecastPoint>>): (r: seq<AssetLocation>)
    ensures forall a :: a in r ==> a in assets && a.name in forecasts
    ensures |r| <= |assets|
  {
    if |assets| == 0 then []
    else
      var n := |assets| - 1;
      if assets[n].name in forecasts then Tracked(assets[..n], forecasts) + [assets[n]]
      else Tracked(assets[..n], forecasts)
  }

  /** Where the tracked assets sit among the assets: strictly increasing
      positions, so `Tracked` keeps the assets' own order. */
  ghost function TrackedPositions(assets: seq<AssetLocation>, forecasts: map<string, seq<ForecastPoint>>): (ps: seq<nat>)
    ensures |ps| == |Tracked(assets, forecasts)|
    ensures forall j :: 0 <= j < |ps| ==> ps[j] < |assets| && assets[ps[j]] == Tracked(assets, forecasts)[j]
    ensures forall p, q :: 0 <= p < q < |ps| ==> ps[p] < ps[q]
  {
    if |assets| == 0 then []
    else
      var n := |assets| - 1;
      var prev := TrackedPositions(assets[..n], forecasts);
      assert forall j :: 0 <= j < |prev| ==> assets[prev[j]] == assets[..n][prev[j]];
      if assets[n].name in forecasts then prev + [n] else prev
  }

  /** The indices of the assets that have a forecast in the table. */
  function WithForecast(assets: seq<AssetLocation>, forecasts: map<string, seq<ForecastPoint>>): set<nat>
  {
    set k: nat | k < |assets| && assets[k].name in forecasts
  }

  /** Every asset with a forecast is tracked. */
  lemma {:induction false} TrackedKeepsAll(assets: seq<AssetLocation>, forecasts: map<string, seq<ForecastPoint>>)
    ensures forall a :: a in assets && a.name in forecasts ==> a in Tracked(assets, forecasts)
  {
    if |assets| > 0 {
      var n := |assets| - 1;
      TrackedKeepsAll(assets[..n], forecasts);
      forall a | a in assets && a.name in forecasts
        ensures a in Tracked(assets, forecasts)
      {
        if a != assets[n] {
          var k :| 0 <= k < |assets| && assets[k] == a;
          assert assets[..n][k] == a;
        }
      }
    }
  }

  /** `Tracked` keeps one asset per index with a forecast: it drops no asset
      that has one and repeats none. */
  lemma {:induction false} TrackedCount(assets: seq<AssetLocation>, forecasts: map<string, seq<ForecastPoint>>)
    ensures |Tracked(assets, forecasts)| == |WithForecast(assets, forecasts)|
  {
    if |assets| > 0 {
      var n := |assets| - 1;
      TrackedCount(assets[..n], forecasts);
      var prev := WithForecast(assets[..n], forecasts);
      assert n !in prev;
      forall k: nat | k < n
        ensures k in WithForecast(assets, forecasts) <==> k in prev
      {
        assert assets[..n][k] == assets[k];
      }
      var before := Tracked(assets[..n], forecasts);
      if assets[n].name in forecasts {
        assert Tracked(assets, forecasts) == before + [assets[n]];
        assert WithForecast(assets, forecasts) == prev + {n};
        assert |prev + {n}| == |prev| + 1;
      } else {
        assert Tracked(assets, forecasts) == before;
        assert WithForecast(assets, forecasts) == prev;
      }
    }
  }

  /** The features of frame `i`, one per asset with a forecast, in asset order. */
  function FrameFeatures(assets: seq<AssetLocation>, forecasts: map<string, seq<ForecastPoint>>, timestamp: string, i: nat): (r: seq<Feature>)
    requires forall a :: a in assets && a.name in forecasts ==> 3 * i < |forecasts[a.name]|
    ensures |r| == |Tracked(assets, forecasts)|
  {
    if |assets| == 0 then []
    else
      var n := |assets| - 1;
      var a := assets[n];
      var prev := FrameFeatures(assets[..n], forecasts, timestamp, i);
      if a.name in forecasts then prev + [FrameFeature(a, forecasts[a.name][3 * i], timestamp, i)]
      else prev
  }

  /** The features of frames 0 .. k-1, frame after frame. */
  function AllFrames(assets: seq<AssetLocation>, forecasts: map<string, seq<ForecastPoint>>, timestamps: seq<string>, k: nat): (r: seq<Feature>)
    requires k <= |timestamps|
    requires FramesInRange(assets, forecasts, k)
    ensures |r| == k * |Tracked(assets, forecasts)|
  {
    if k == 0 then []
    else
      MulStep(k - 1, |Tracked(assets, forecasts)|);
      AllFrames(assets, forecasts, timestamps, k - 1) + FrameFeatures(assets, forecasts, timestamps[k - 1], k - 1)
  }

  /** The result of building the animation: the document, or the IndexError
      raised when some forecast is too short for some frame. */
  datatype AnimationResult = Animated(data: AnimationCollection) | IndexOutOfRange

  /** The animation document of `assets` once the forecast table is `t`. */
  function AnimationOf(assets: seq<AssetLocation>, t: ForecastTable): (r: AnimationResult)
    requires ValidTable(t)
    ensures r.Animated? ==>
      && |r.data.features| == |Timestamps(t)| * |Tracked(assets, t.forecasts)|
      && r.data.animation == Animation(Timestamps(t), ForecastHours, IntervalHours)
      && r.data.metadata == Metadata(GeneratedAt, |assets|, ForecastSource)
  {
    var ts := Timestamps(t);
    if FramesInRange(assets, t.forecasts, |ts|) then
      Animated(AnimationCollection(
        AllFrames(assets, t.forecasts, ts, |ts|),
        Animation(ts, ForecastHours, IntervalHours),
        Metadata(GeneratedAt, |assets|, ForecastSource)))
    else
      IndexOutOfRange
  }

  // ---------------------------------------------------------------------
  // What the animation contains

  /** Frame `i` has one feature per tracked asset; feature j belongs to the
      j-th tracked asset and reads its forecast at hour 3 * i. */
  lemma {:induction false} FrameFeaturesAt(assets: seq<AssetLocation>, forecasts: map<string, seq<ForecastPoint>>, timestamp: string, i: nat, j: nat)
    requires forall a :: a in assets && a.name in forecasts ==> 3 * i < |forecasts[a.name]|
    ensures j < |Tracked(assets, forecasts)| ==>
      var a := Tracked(assets, forecasts)[j];
      3 * i < |forecasts[a.name]| &&
      FrameFeatures(assets, forecasts, timestamp, i)[j] == FrameFeature(a, forecasts[a.name][3 * i], timestamp, i)
  {
    if |assets| > 0 {
      var n := |assets| - 1;
      FrameFeaturesAt(assets[..n], forecasts, timestamp, i, j);
      assert forall a :: a in assets[..n] ==> a in assets;
    }
  }

  lemma MulStep(k: nat, m: nat)
    ensures (k + 1) * m == k * m + m
  {
  }

  lemma MulBelow(i: nat, k: nat, m: nat, j: nat)
    requires i < k && j < m
    ensures i * m + j < k * m
  {
    assert i * m + m <= k * m by {
      MulStep(i, m);
      assert (i + 1) * m <= k * m;
    }
  }

  /** A frame below k reads an hour every forecast of the table reaches. */
  lemma FrameInRange(assets: seq<AssetLocation>, forecasts: map<string, seq<ForecastPoint>>, k: nat, i: nat)
    requires FramesInRange(assets, forecasts, k) && i < k
    ensures forall a :: a in assets && a.name in forecasts ==> 3 * i < |forecasts[a.name]|
    ensures FramesInRange(assets, forecasts, i)
  {
  }

  /** With m assets that have a forecast, the feature at position i * m + j
      is feature j of frame i: that of the j-th such asset, read from its
      forecast at hour 3 * i and stamped with frame i's timestamp and index. */
  lemma {:induction false} AllFramesAt(assets: seq<AssetLocation>, forecasts: map<string, seq<ForecastPoint>>, timestamps: seq<string>, k: nat, i: nat, j: nat)
    requires k <= |timestamps|
    requires FramesInRange(assets, forecasts, k)
    requires i < k && j < |Tracked(assets, forecasts)|
    ensures forall a :: a in assets && a.name in forecasts ==> 3 * i < |forecasts[a.name]|
    ensures |FrameFeatures(assets, forecasts, timestamps[i], i)| == |Tracked(assets, forecasts)|
    ensures i * |Tracked(assets, forecasts)| + j < |AllFrames(assets, forecasts, timestamps, k)|
    ensures AllFrames(assets, forecasts, timestamps, k)[i * |Tracked(assets, forecasts)| + j]
         == FrameFeatures(assets, forecasts, timestamps[i], i)[j]
    ensures 3 * i < |forecasts[Tracked(assets, forecasts)[j].name]|
    ensures AllFrames(assets, forecasts, timestamps, k)[i * |Tracked(assets, forecasts)| + j]
         == FrameFeature(Tracked(assets, forecasts)[j], forecasts[Tracked(assets, forecasts)[j].name][3 * i], timestamps[i], i)
  {
    var m := |Tracked(assets, forecasts)|;
    FrameInRange(assets, forecasts, k, i);
    FrameInRange(assets, forecasts, k, k - 1);
    FrameFeaturesAt(assets, forecasts, timestamps[i], i, j);
    var prev := AllFrames(assets, forecasts, timestamps, k - 1);
    var frame := FrameFeatures(assets, forecasts, timestamps[k - 1], k - 1);
    assert AllFrames(assets, forecasts, timestamps, k) == prev + frame;
    MulBelow(i, k, m, j);
    if i < k - 1 {
      AllFramesAt(assets, forecasts, timestamps, k - 1, i, j);
      MulBelow(i, k - 1, m, j);
    } else {
      assert i * m == (k - 1) * m;
    }
  }

  /** A successful animation has one timestamp per third hour of the first
      forecast, frames times tracked assets features, and counts every
      asset in its metadata. */
  lemma AnimationCounts(assets: seq<AssetLocation>, t: ForecastTable)
    requires ValidTable(t)
    requires AnimationOf(assets, t).Animated?
    ensures var d := AnimationOf(assets, t).data;
      && d.features == AllFrames(assets, t.forecasts, Timestamps(t), |Timestamps(t)|)
      && d.animation.timestamps == Timestamps(t)
      && |d.features| == |Timestamps(t)| * |Tracked(assets, t.forecasts)|
      && d.animation.durationHours == 72 && d.animation.intervalHours == 3
      && d.metadata.totalAssets == |assets|
  {
  }

  /** Building the animation raises IndexError exactly when there is a frame
      and some asset's forecast does not reach the last frame's hour. */
  lemma AnimationAbortsIff(assets: seq<AssetLocation>, t: ForecastTable)
    requires ValidTable(t)
    ensures AnimationOf(assets, t) == IndexOutOfRange <==>
      |Timestamps(t)| > 0 &&
      exists a :: a in assets && a.name in t.forecasts && |t.forecasts[a.name]| <= 3 * (|Timestamps(t)| - 1)
  {
  }

  /** When every forecast in the table is at least as long as the first one,
      building the animation cannot run out of range. */
  lemma LongForecastsAnimate(assets: seq<AssetLocation>, t: ForecastTable)
    requires ValidTable(t)
    requires |t.names| > 0 ==>
      forall a :: a in assets && a.name in t.forecasts ==> |t.forecasts[t.names[0]]| <= |t.forecasts[a.name]|
    ensures AnimationOf(assets, t).Animated?
  {
  }

  /** A forecast one hour shorter than a first forecast of 3q + 1 hours
      (say 72 sample hours against 73 hourly intervals) misses the last
      frame's hour, so building the animation raises IndexError. */
  lemma OneHourShortAborts(assets: seq<AssetLocation>, t: ForecastTable, a: AssetLocation, q: nat)
    requires ValidTable(t) && |t.names| > 0
    requires |t.forecasts[t.names[0]]| == 3 * q + 1
    requires a in assets && a.name in t.forecasts && |t.forecasts[a.name]| == 3 * q
    ensures AnimationOf(assets, t) == IndexOutOfRange
  {
    assert |Timestamps(t)| == q + 1;
  }

  /** An empty table yields an animation with no timestamps and no features. */
  lemma EmptyTableAnimation(assets: seq<AssetLocation>)
    ensures AnimationOf(assets, EmptyTable) ==
      Animated(AnimationCollection([], Animation([], 72, 3), Metadata(GeneratedAt, |assets|, ForecastSource)))
  {
  }
}
