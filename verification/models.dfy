/**
 The records the services build and the controllers return (`WeatherData`,
 `ForecastData`, `LocationData`), the decoded shapes of the provider
 responses the services read, and the source labels the records carry.
 Java `Double` fields are idealised as reals; a boxed field the code may
 leave `null` is an `Option`.
 */
module Models {
  import opened JavaLang

  /** Source label of the first provider's records. */
  const OpenWeatherMapLabel: string := "OpenWeatherMap"
  /** Source label of the second provider's records. */
  const WeatherApiLabel: string := "WeatherAPI"
  /** Source label of synthesised forecast and location records. */
  const FallbackLabel: string := "Fallback"
  /** Condition label of synthesised weather and forecast records. */
  const UnavailableCondition: string := "Data Unavailable"
  /** Country of synthesised weather and forecast records. */
  const UnknownCountry: string := "N/A"

  /** `WeatherData.Location`. */
  datatype Place = Place(name: string, country: string, lat: Option<real>, lon: Option<real>)

  /** `WeatherData.CurrentWeather`. */
  datatype Conditions = Conditions(
    temperature: real,
    feelsLike: real,
    humidity: Int32,
    pressure: Int32,
    windSpeed: real,
    condition: string,
    description: string)

  datatype WeatherData = WeatherData(location: Place, current: Conditions, sources: seq<string>, lastUpdated: string)

  /** `ForecastData.Location`. */
  datatype ForecastPlace = ForecastPlace(name: string, country: string)

  datatype ForecastDay = ForecastDay(date: string, maxTemp: real, minTemp: real, condition: string, humidity: Int32)

  datatype ForecastData = ForecastData(location: ForecastPlace, forecast: seq<ForecastDay>, sources: seq<string>)

  /** The forecast provider's answer once decoded: the location's name and
      country, and the days it offers, in order. */
  datatype ForecastResponse = ForecastResponse(name: string, country: string, days: seq<ForecastDay>)

  /** `LocationData.Location`: one candidate of a location search. */
  datatype Candidate = Candidate(
    id: Option<string>,
    name: string,
    country: string,
    lat: Option<real>,
    lon: Option<real>,
    source: string)

  datatype LocationData = LocationData(locations: seq<Candidate>, count: int)

  /** One element of a provider's search answer once decoded. */
  datatype GeoHit = GeoHit(name: string, country: string, lat: real, lon: real)
}
