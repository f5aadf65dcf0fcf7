# Fire-weather risk calculator: a Dafny model

This project models the risk logic of `server/weather-risk.py`: the
`WeatherRiskCalculator` class and its three dataclasses (`AssetLocation`,
`WeatherData`, `RiskAssessment`).

The calculator scores each insured asset from a weather reading and buckets
the score into a level. It fetches one reading per asset, falling back to a
fixed reading when the request fails. It serialises the assessments as a
GeoJSON FeatureCollection and builds a forecast animation. The animation
scores every asset once per third forecast hour.

Modules, one per component:

- `WeatherTypes` (`weather_types.dfy`): the three dataclasses as datatypes.
  The dataclass defaults ("property" and 1,000,000) are kept.
- `RiskScoring` (`risk_scoring.dfy`): the scoring engine and the classifier.
  These are pure functions on exact reals, with lemmas for the score's range,
  the factor floors, monotonicity and the level thresholds.
- `WeatherProvider` (`weather_provider.dfy`): what a provider response turns
  into.
  - A realtime response is `Success(values)` or `Failure`. On success,
    missing fields read as 0.0. On failure, the fallback reading is
    (1.0, 5.0, 20.0, 50.0, 0.0).
  - A forecast interval can lack its "time" or "values" key. Missing fields
    read as 1.0, 5.0, 20.0, 50.0 and 0.0.
  - The module also holds the points of the deterministic sample forecast.
- `GeoJson` (`geojson.dfy`): the output documents. `round(x, 2)` is modelled
  on the exact value, half to even.
- `ForecastAnimation` (`forecast_animation.dfy`): the specification of the
  animation.
  - The `asset_forecasts` dictionary is an insertion-ordered table keyed by
    asset name.
  - The frames are `s[::3]` of the first forecast in that table.
  - Each frame holds one feature per asset that has a forecast.
  - Lemmas give the feature count and the content of each feature.
- `Calculator` (`calculator.dfy`): the class `WeatherRiskCalculator`. It holds
  the `assets` field, and each of its loops is a method proved against the
  functions above.

Provider I/O is replaced by inputs: one response value per request, in
request order. When a forecast request fails, the response carries the wall
clock that stamps the sample hours. A forecast interval that lacks a key
raises `KeyError`. That exception escapes `fetch_forecast_data`, and the
animation loop then skips the asset. The model reproduces this.
`generate_forecast_animation_data` does not catch the `IndexError` raised when
a forecast is shorter than a frame needs. The model returns it as
`IndexOutOfRange`; it is not ruled out by a precondition.

Two details of the code shape the model:
- `fetch_weather_data` falls back to the default reading only when a
  `requests` exception is raised (server/weather-risk.py:180). A 2xx
  response without `data.values` raises an uncaught `KeyError` (line 170).
- A missing realtime field reads as 0.0 (lines 173-177). A missing forecast
  field reads as 1.0, 5.0, 20.0, 50.0 or 0.0, by field (lines 99-103).

## Model

| member | source | states |
|---|---|---|
| `RiskScoring.TempFactor` | server/weather-risk.py:205-206 | the temperature factor is at least 1 and at least temperature / 25 |
| `RiskScoring.HumidityFactor` | server/weather-risk.py:208-209 | the humidity factor is at least 1 and at least (100 - humidity) / 50 |
| `RiskScoring.PrecipFactor` | server/weather-risk.py:211-212 | the precipitation factor is at least 0.1 and at least 1 - precipitation / 5 |
| `RiskScoring.FireWindRisk` | server/weather-risk.py:202 | the base hazard is 0 with no fire or no wind, non-negative for non-negative inputs and positive for positive ones |
| `RiskScoring.AssetMultiplier` | server/weather-risk.py:214-223 | every asset multiplier lies in [0.9, 1.5]; a type missing from the table gets 1.0 |
| `RiskScoring.Amplifier` | server/weather-risk.py:226-232 | the product of the three floored factors and the asset multiplier is at least 0.09 |
| `RiskScoring.RawScore` | server/weather-risk.py:226-232 | the raw product has the sign of the base hazard: zero, positive or negative with it |
| `RiskScoring.Clamp` | server/weather-risk.py:234 | the clamped value lies in [0, 100] and equals its input exactly when the input lies in [0, 100] |
| `RiskScoring.CalculateRiskScore` | server/weather-risk.py:191-234 | for every input, negative ones included, the score lies in [0, 100]; it equals the raw product exactly when the product is in range, else 0 below and 100 above |
| `RiskScoring.GetRiskLevel` | server/weather-risk.py:236-243 | the level is "low" iff score < 25, "medium" iff 25 <= score < 60, and "high" iff score >= 60 |
| `RiskScoring.RawScoreFactors` | server/weather-risk.py:203-232 | the raw score equals the fire-wind base term times the amplifier |
| `RiskScoring.RawScoreLowerBound` | server/weather-risk.py:202-232 | with a non-negative fire-wind term, the raw score is non-negative and keeps at least 0.09 of that term |
| `RiskScoring.ScorePositiveWithHazard` | server/weather-risk.py:211-234 | a positive fire-wind term gives a positive score: the precipitation floor never zeroes the risk |
| `RiskScoring.AmplifierMonotone` | server/weather-risk.py:205-223 | the amplifier never decreases when temperature rises or humidity or precipitation falls |
| `RiskScoring.ScoreMonotone` | server/weather-risk.py:202-234 | with fire index and wind speed >= 0, the score never decreases when fire index, wind or temperature rise or humidity or precipitation fall |
| `RiskScoring.UnknownTypeScoresAsCommercial` | server/weather-risk.py:215-223 | a type outside the table, such as the default "property", scores exactly like "commercial" |
| `RiskScoring.AssetMultiplierTable` | server/weather-risk.py:215-223 | the multipliers are commercial 1.0, critical_infrastructure 1.5, hospitality 1.2, industrial 1.3, logistics 0.9, property 1.0 |
| `RiskScoring.CriticalInfrastructureExample` | server/weather-risk.py:202-243 | reading (2, 20, 30, 20, 0) on critical infrastructure has factors 4.0, 1.2, 1.6 and 1.0, score 11.52 and level "low" |
| `RiskScoring.RiskLevelMonotone` | server/weather-risk.py:238-243 | a higher score never gets a lower level, and every level is one of the three names |
| `RiskScoring.RiskLevelBoundaries` | server/weather-risk.py:238-243 | 24.999 is low, 25 is medium, 59.999 is medium and 60 is high |
| `WeatherProvider.ValueOr` | server/weather-risk.py:173-177 | `values.get(key, default)` gives the stored value if the key is present, else the default |
| `WeatherProvider.ReadingFrom` | server/weather-risk.py:97-104 | each field present in the values object is copied, and each absent one takes the given default; the realtime reading at lines 172-178 uses it with 0.0 defaults |
| `WeatherProvider.FetchWeatherData` | server/weather-risk.py:165-189 | on success each present field is copied and each absent field reads 0.0; on failure the reading is the fallback (1.0, 5.0, 20.0, 50.0, 0.0) |
| `WeatherProvider.FallbackScore` | server/weather-risk.py:183-189 | an asset whose request failed scores 0.5 times its asset multiplier, which is always "low" |
| `WeatherProvider.ParseInterval` | server/weather-risk.py:93-104 | an interval gives a point exactly when it has both "time" and "values"; the point carries that time and the fields with forecast defaults |
| `WeatherProvider.ParseIntervals` | server/weather-risk.py:91-106 | intervals parse exactly when each one does, giving one point per interval in order |
| `WeatherProvider.Abs` | server/weather-risk.py:126 | `abs` is non-negative and equals x or -x |
| `WeatherProvider.SamplePoint` | server/weather-risk.py:120-135 | each sample hour keeps its timestamp and has fire index in [1, 5], wind in [5, 25], temperature in [20, 30] and humidity in [30, 80]; precipitation is 0.1 iff hour % 8 == 0, else 0.0 |
| `WeatherProvider.SampleForecast` | server/weather-risk.py:113-137 | exactly max(hours, 0) points; the h-th is the sample point of hour h, stamped with the clock's hour h |
| `WeatherProvider.FailedForecastIsSample` | server/weather-risk.py:108-111 | a failed forecast request yields exactly hoursAhead sample points, hour by hour |
| `WeatherProvider.ForecastOf` | server/weather-risk.py:86-111 | a failed request always yields max(hoursAhead, 0) points; a successful response yields a forecast iff every interval has both keys, with one point per interval |
| `GeoJson.RoundHalfEven` | server/weather-risk.py:298-303 | the rounded integer is within 0.5 of its input, and a tie goes to the even neighbour |
| `GeoJson.Round2` | server/weather-risk.py:298-303 | rounding to two places gives a whole number of hundredths and moves the value by at most 0.005 |
| `GeoJson.RoundHalfEvenMonotone` | server/weather-risk.py:298-303 | integer rounding preserves order |
| `GeoJson.Round2Monotone` | server/weather-risk.py:298-303 | rounding to two places preserves order |
| `GeoJson.Round2Idempotent` | server/weather-risk.py:298-303 | rounding a rounded value changes nothing |
| `GeoJson.Round2KeepsScoreRange` | server/weather-risk.py:303 | a score in [0, 100] stays in [0, 100] once rounded |
| `GeoJson.SnapshotFeature` | server/weather-risk.py:288-306 | a feature's coordinates are [lon, lat] of its asset, it has no frame tag, and its five weather fields and its score are those of the assessment rounded to two places |
| `ForecastAnimation.Put` | server/weather-risk.py:375 | assigning a dictionary key keeps the table valid, and a new name goes last while a known name keeps its place |
| `ForecastAnimation.FetchedAll` | server/weather-risk.py:372-374 | there is one fetch result per asset response |
| `ForecastAnimation.TableOf` | server/weather-risk.py:371-378 | the collected forecasts form a valid ordered table |
| `ForecastAnimation.TableLookup` | server/weather-risk.py:372-378 | with distinct names, an asset has an entry iff its own fetch succeeded, and the entry is its own forecast |
| `ForecastAnimation.NameAbsentFromTable` | server/weather-risk.py:372-378 | a name that no asset carries has no entry |
| `ForecastAnimation.NothingFetchedEmptyTable` | server/weather-risk.py:371-381 | when no fetch succeeds, the table is empty |
| `ForecastAnimation.FirstTableName` | server/weather-risk.py:382 | the first table entry belongs to the first asset whose forecast was obtained |
| `ForecastAnimation.EveryThird` | server/weather-risk.py:383 | `s[::3]` has (len + 2) / 3 elements, and element k is s[3k] |
| `ForecastAnimation.Timestamps` | server/weather-risk.py:381-384 | the frame timestamps are those of hours 0, 3, 6, ... of the first forecast, and there are none for an empty table |
| `ForecastAnimation.Tracked` | server/weather-risk.py:390-391 | every tracked asset is an asset whose name is in the table, and there are at most as many as there are assets |
| `ForecastAnimation.TrackedKeepsAll` | server/weather-risk.py:390-391 | every asset whose name is in the table is tracked |
| `ForecastAnimation.TrackedCount` | server/weather-risk.py:390-391 | there are exactly as many tracked assets as asset indices with a forecast, so none is dropped or repeated |
| `ForecastAnimation.TrackedPositions` | server/weather-risk.py:390-391 | the tracked assets sit at strictly increasing positions among the assets, so they keep the assets' order |
| `ForecastAnimation.FrameFeature` | server/weather-risk.py:394-425 | a frame feature is at [lon, lat], copies the name, type and insured value, carries the point's five weather fields unrounded, the frame timestamp and index, and has the score of the point's reading and that score's level |
| `ForecastAnimation.FrameFeatures` | server/weather-risk.py:388-427 | frame i has exactly one feature per asset with a forecast |
| `ForecastAnimation.FrameFeaturesAt` | server/weather-risk.py:388-427 | feature j of frame i belongs to the j-th asset with a forecast and reads its forecast at hour 3i |
| `ForecastAnimation.FrameInRange` | server/weather-risk.py:392 | a range check that covers k frames also covers each earlier frame |
| `ForecastAnimation.AllFrames` | server/weather-risk.py:387-429 | k frames hold k times (number of assets with a forecast) features |
| `ForecastAnimation.AllFramesAt` | server/weather-risk.py:387-429 | with m assets that have a forecast, the feature at position i * m + j is that of the j-th such asset, read from its forecast at hour 3i and stamped with frame i's timestamp and index i |
| `ForecastAnimation.AnimationOf` | server/weather-risk.py:355-431 | a built document has frames × tracked-assets features, the frame timestamps, duration 72, interval 3 and total_assets = number of assets |
| `ForecastAnimation.AnimationCounts` | server/weather-risk.py:355-384 | a built animation has the frame timestamps, frames × tracked-assets features, duration 72, interval 3 and total_assets = number of assets |
| `ForecastAnimation.AnimationAbortsIff` | server/weather-risk.py:387-392 | building the animation raises IndexError iff there is a frame and some asset's forecast does not reach the last frame's hour |
| `ForecastAnimation.LongForecastsAnimate` | server/weather-risk.py:392 | when every forecast is at least as long as the first, building the animation cannot raise IndexError |
| `ForecastAnimation.OneHourShortAborts` | server/weather-risk.py:392 | a forecast of 3q hours against a first forecast of 3q + 1 hours raises IndexError |
| `ForecastAnimation.EmptyTableAnimation` | server/weather-risk.py:355-368 | with no forecasts, the animation has no timestamps and no features |
| `Calculator.WeatherRiskCalculator.constructor` | server/weather-risk.py:42-56 | the calculator holds the given asset list |
| `Calculator.WeatherRiskCalculator.AssessAllAssets` | server/weather-risk.py:245-273 | one assessment per asset, in order; the i-th holds asset i, its fetched (or fallback) reading, that reading's score in [0, 100] and the score's level |
| `Calculator.WeatherRiskCalculator.GenerateGeojson` | server/weather-risk.py:275-317 | one feature per assessment, in order; [lon, lat], name, type, insured value and level are copied; the five weather fields and the score are rounded to two places, the score so within 0.005 of itself and still in [0, 100]; total_assets counts the features |
| `Calculator.WeatherRiskCalculator.GenerateSampleForecastData` | server/weather-risk.py:113-137 | exactly max(hours, 0) points, and the h-th is the sample point of hour h |
| `Calculator.WeatherRiskCalculator.FetchForecastData` | server/weather-risk.py:86-111 | the result is the parsed intervals, None when a key is missing, or the sample forecast when the request failed |
| `Calculator.WeatherRiskCalculator.CollectForecasts` | server/weather-risk.py:370-378 | the loop builds exactly the ordered table of the forecasts obtained |
| `Calculator.WeatherRiskCalculator.BuildFrame` | server/weather-risk.py:388-427 | a frame is built iff every asset with a forecast reaches hour 3i, and it is then that frame's features |
| `Calculator.WeatherRiskCalculator.GenerateForecastAnimationData` | server/weather-risk.py:348-431 | the result is exactly the animation document of the collected table, or IndexError |

## Left out

- HTTP requests to the weather API, timeouts and `raise_for_status` are left out. Each request is an input value (`RealtimeResponse`, `ForecastResponse`).
- A 2xx realtime response without `data.values` is left out. It raises an uncaught `KeyError`, but the model's realtime response always carries a values map.
- JSON decoding failures and non-numeric field values are left out.
- The API key, its environment lookup and the constructor's missing-key `ValueError` are left out. They are configuration plumbing.
- The hard-coded sample portfolio is left out. The asset list is the constructor's parameter.
- `save_risk_data` and `main` are left out: directory creation, JSON file writing and console output are I/O. `save_risk_data` is the composition of `AssessAllAssets` and `GenerateGeojson`.
- `print` calls are left out.
- `datetime.now()` and `isoformat` are left out because they depend on the wall clock. The sample timestamps come from a clock parameter.
- IEEE floating point is left out. All quantities are exact reals, so NaN, infinities and binary representation error are not modelled. `round(x, 2)` rounds the exact real, half to even.
- The JSON `"type"` tags ("Feature", "Point", "FeatureCollection") are left out. They are implied by the datatypes.
