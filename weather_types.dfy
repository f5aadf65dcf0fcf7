/** The value types of the fire-weather risk calculator: an insured asset, a
    weather reading and the assessment that joins them with a score. */
module WeatherTypes {

  datatype Option<+T> = None | Some(value: T)

  /** An insured asset. Only `assetType` takes part in scoring; the dataclass
      defaults the type to "property" and the insured value to 1,000,000. */
  datatype AssetLocation = AssetLocation(
    name: string,
    lat: real,
    lon: real,
    assetType: string := "property",
    insuredValue: real := 1000000.0)

  /** The five weather metrics the scoring engine consumes. */
  datatype WeatherData = WeatherData(
    fireIndex: real,
    windSpeed: real,
    temperature: real,
    humidity: real,
    precipitation: real)

  /** One asset, the reading used for it, its score and its level. */
  datatype RiskAssessment = RiskAssessment(
    asset: AssetLocation,
    weather: WeatherData,
    riskScore: real,
    riskLevel: string)
}
