/**
 The decision logic of the weather service: combining the two providers'
 current-weather records into one, substituting a fallback record for a
 provider that failed, and choosing or synthesising forecast days. A
 provider call (request plus decoding) is an input `Outcome`; the clock
 reading is an input string.
 */
module WeatherService {
  import opened JavaLang
  import opened Models

  /** The name the first provider's fallback record is tagged with; it is
      shorter than the label the provider's real records carry. */
  const OpenWeatherFallbackName: string := "OpenWeather"
  const AggregatedCondition: string := "Aggregated"
  const AggregatedDescription: string := "Real-time data from multiple sources"
  const FallbackDescription: string := "Fallback data - API temporarily unavailable"
  const FallbackSuffix: string := " (Fallback)"

  // The sentinel readings of a fallback current-weather record.
  const FallbackTemperature: real := 20.0
  const FallbackFeelsLike: real := 18.0
  const FallbackHumidity: Int32 := 65
  const FallbackPressure: Int32 := 1013
  const FallbackWindSpeed: real := 3.5

  // The readings of a synthesised forecast day `i`.
  const FallbackDayHumidity: Int32 := 60
  const FallbackMaxTempBase: real := 22.0
  const FallbackMinTempBase: real := 12.0

  /** The mean of two `Double`s, idealised: IEEE rounding is not modelled. */
  function Mean(a: real, b: real): (m: real)
    ensures m - a == b - m
  {
    (a + b) / 2.0
  }

  // ---------------------------------------------------------------------
  // Current weather

  /** `aggregateWeatherData`: the first record's location, every reading
      averaged, fixed labels, and both provider labels as sources whatever
      the records' own sources were. */
  function AggregateWeatherData(source1: WeatherData, source2: WeatherData, now: string): (r: WeatherData)
    ensures r.location == source1.location
    ensures r.current.condition == AggregatedCondition
    ensures r.current.description == AggregatedDescription
    ensures r.sources == [OpenWeatherMapLabel, WeatherApiLabel]
    ensures r.lastUpdated == now
    ensures r.current.temperature - source1.current.temperature == source2.current.temperature - r.current.temperature
    ensures r.current.feelsLike - source1.current.feelsLike == source2.current.feelsLike - r.current.feelsLike
    ensures r.current.windSpeed - source1.current.windSpeed == source2.current.windSpeed - r.current.windSpeed
    ensures IsHalfTowardZero(Wrap32(source1.current.humidity + source2.current.humidity), r.current.humidity)
    ensures IsHalfTowardZero(Wrap32(source1.current.pressure + source2.current.pressure), r.current.pressure)
  {
    var c1 := source1.current;
    var c2 := source2.current;
    var current := Conditions(
      Mean(c1.temperature, c2.temperature),
      Mean(c1.feelsLike, c2.feelsLike),
      IntAverage(c1.humidity, c2.humidity),
      IntAverage(c1.pressure, c2.pressure),
      Mean(c1.windSpeed, c2.windSpeed),
      AggregatedCondition,
      AggregatedDescription);
    WeatherData(source1.location, current, [OpenWeatherMapLabel, WeatherApiLabel], now)
  }

  /** Swapping the two records leaves every averaged reading unchanged. */
  lemma AggregateSymmetric(source1: WeatherData, source2: WeatherData, now: string)
    ensures var a := AggregateWeatherData(source1, source2, now).current;
            var b := AggregateWeatherData(source2, source1, now).current;
            a.humidity == b.humidity && a.pressure == b.pressure
            && a.temperature == b.temperature && a.feelsLike == b.feelsLike && a.windSpeed == b.windSpeed
  {
  }

  /** `createFallbackWeatherData`: the record standing in for a provider
      that failed. Latitude and longitude are never set. */
  function CreateFallbackWeatherData(location: string, provider: string, now: string): (r: WeatherData)
    ensures r.location == Place(location, UnknownCountry, None, None)
    ensures r.current.temperature == 20.0 && r.current.feelsLike == 18.0 && r.current.windSpeed == 3.5
    ensures r.current.humidity == 65 && r.current.pressure == 1013
    ensures r.current.condition == "Data Unavailable"
    ensures r.current.description == "Fallback data - API temporarily unavailable"
    ensures r.sources == [provider + " (Fallback)"]
    ensures r.lastUpdated == now
  {
    WeatherData(
      Place(location, UnknownCountry, None, None),
      Conditions(FallbackTemperature, FallbackFeelsLike, FallbackHumidity, FallbackPressure,
                 FallbackWindSpeed, UnavailableCondition, FallbackDescription),
      [provider + FallbackSuffix],
      now)
  }

  /** The message `getCurrentWeather` rethrows with, whatever went wrong. */
  const FetchFailedMessage: string := "Failed to fetch weather data from APIs"

  /** A current-weather provider call as the service's future sees it: the
      decoded record, `None` when the answer completed without a body (the
      decoding step never runs and the future yields `null`), or the message
      of what the request or its decoding threw. */
  type CurrentFetch = Outcome<Option<WeatherData>>

  /** A provider whose answer arrived empty. */
  predicate AnsweredEmpty(fetched: CurrentFetch) {
    fetched == Returned(None)
  }

  /** One provider's future: its record, the fallback record when the
      request or its decoding threw, and `null` for an empty answer. */
  function RecordOrFallback(fetched: CurrentFetch, location: string, provider: string, now: string): Option<WeatherData> {
    match fetched
    case Returned(record) => record
    case Threw(_) => Some(CreateFallbackWeatherData(location, provider, now))
  }

  /** `getCurrentWeather`: both providers' records, each replaced by a
      fallback when its provider failed, aggregated. A provider failure never
      reaches the caller; an empty answer does, because aggregating a `null`
      record throws and the catch rethrows with a fixed message. */
  function GetCurrentWeather(location: string, openWeather: CurrentFetch,
                             weatherApi: CurrentFetch, now: string): (r: Outcome<WeatherData>)
    ensures r.Threw? <==> AnsweredEmpty(openWeather) || AnsweredEmpty(weatherApi)
    ensures r.Threw? ==> r.message == FetchFailedMessage
    ensures r.Returned? ==>
              && r.value.sources == [OpenWeatherMapLabel, WeatherApiLabel]
              && r.value.current.condition == AggregatedCondition
              && r.value.current.description == AggregatedDescription
              && r.value.lastUpdated == now
    ensures r.Returned? && openWeather.Returned? ==> r.value.location == openWeather.value.value.location
    // the readings are the aggregate of the two records, a provider that
    // threw standing in with its fallback record
    ensures r.Returned? ==>
              r.value == AggregateWeatherData(
                if openWeather.Threw? then CreateFallbackWeatherData(location, OpenWeatherFallbackName, now)
                else openWeather.value.value,
                if weatherApi.Threw? then CreateFallbackWeatherData(location, WeatherApiLabel, now)
                else weatherApi.value.value,
                now)
    ensures r.Returned? && openWeather.Threw? ==> r.value.location == Place(location, UnknownCountry, None, None)
  {
    var first := RecordOrFallback(openWeather, location, OpenWeatherFallbackName, now);
    var second := RecordOrFallback(weatherApi, location, WeatherApiLabel, now);
    if first.None? || second.None? then Threw(FetchFailedMessage)
    else Returned(AggregateWeatherData(first.value, second.value, now))
  }

  /** With one provider down, its sentinel readings are averaged in as if
      they were measurements, and nothing in the result says so: the
      sources are still both provider labels. */
  lemma OneProviderDown(location: string, message: string, record: WeatherData, now: string)
    ensures GetCurrentWeather(location, Threw(message), Returned(Some(record)), now).Returned?
    ensures var r := GetCurrentWeather(location, Threw(message), Returned(Some(record)), now).value;
            && r.location == Place(location, UnknownCountry, None, None)
            && r.current.temperature - FallbackTemperature == record.current.temperature - r.current.temperature
            && (InIntRange(FallbackHumidity + record.current.humidity) ==>
                  IsHalfTowardZero(FallbackHumidity + record.current.humidity, r.current.humidity))
            && (InIntRange(FallbackPressure + record.current.pressure) ==>
                  IsHalfTowardZero(FallbackPressure + record.current.pressure, r.current.pressure))
            && OpenWeatherFallbackName + FallbackSuffix !in r.sources
    ensures GetCurrentWeather(location, Returned(Some(record)), Threw(message), now).Returned?
    ensures var r := GetCurrentWeather(location, Returned(Some(record)), Threw(message), now).value;
            && r.location == record.location
            && r.current.temperature - record.current.temperature == FallbackTemperature - r.current.temperature
            && (InIntRange(record.current.humidity + FallbackHumidity) ==>
                  IsHalfTowardZero(record.current.humidity + FallbackHumidity, r.current.humidity))
            && (InIntRange(record.current.pressure + FallbackPressure) ==>
                  IsHalfTowardZero(record.current.pressure + FallbackPressure, r.current.pressure))
            && WeatherApiLabel + FallbackSuffix !in r.sources
  {
  }

  /** With both providers down, the sentinel readings come through the
      averaging unchanged, under the aggregated labels. */
  lemma BothProvidersDown(location: string, m1: string, m2: string, now: string)
    ensures GetCurrentWeather(location, Threw(m1), Threw(m2), now).Returned?
    ensures var r := GetCurrentWeather(location, Threw(m1), Threw(m2), now).value;
            && r.location == Place(location, UnknownCountry, None, None)
            && r.current == Conditions(FallbackTemperature, FallbackFeelsLike, FallbackHumidity,
                                       FallbackPressure, FallbackWindSpeed,
                                       AggregatedCondition, AggregatedDescription)
  {
  }

  // ---------------------------------------------------------------------
  // Forecast

  /** The days the loop of `parseForecastResponse` keeps: the first
      `min(days, available)` in their order, none when `days` is not
      positive. */
  function SelectDays(available: seq<ForecastDay>, days: int): (r: seq<ForecastDay>)
    ensures |r| == Max(0, Min(days, |available|))
    ensures forall i :: 0 <= i < |r| ==> r[i] == available[i]
    decreases |available|
  {
    if days <= 0 || |available| == 0 then []
    else [available[0]] + SelectDays(available[1..], days - 1)
  }

  /** `parseForecastResponse` once the answer is decoded. */
  function ParseForecastResponse(response: ForecastResponse, days: int): (r: ForecastData)
    ensures r.location == ForecastPlace(response.name, response.country)
    ensures r.forecast == response.days[..Max(0, Min(days, |response.days|))]
    ensures r.sources == [WeatherApiLabel]
  {
    ForecastData(ForecastPlace(response.name, response.country), SelectDays(response.days, days), [WeatherApiLabel])
  }

  /** Day `i` of a synthesised forecast, dated `date`. */
  function FallbackDay(i: int, date: string): ForecastDay {
    ForecastDay(date, FallbackMaxTempBase + i as real, FallbackMinTempBase + i as real,
                UnavailableCondition, FallbackDayHumidity)
  }

  /** The synthesised days `from`, `from + 1`, ..., `from + count - 1`;
      `dateAfter(i)` is the date `i` days after today. */
  function FallbackDays(from: int, count: int, dateAfter: int -> string): (r: seq<ForecastDay>)
    ensures |r| == Max(count, 0)
    ensures forall i :: 0 <= i < |r| ==> r[i] == FallbackDay(from + i, dateAfter(from + i))
    decreases count
  {
    if count <= 0 then [] else [FallbackDay(from, dateAfter(from))] + FallbackDays(from + 1, count - 1, dateAfter)
  }

  /** `createFallbackForecast`: `days` synthesised days from today on. */
  function CreateFallbackForecast(location: string, days: int, dateAfter: int -> string): (r: ForecastData)
    ensures r.location == ForecastPlace(location, UnknownCountry)
    ensures r.sources == [FallbackLabel]
    ensures |r.forecast| == Max(days, 0)
    ensures forall i :: 0 <= i < |r.forecast| ==>
              && r.forecast[i].date == dateAfter(i)
              && r.forecast[i].maxTemp == FallbackMaxTempBase + i as real
              && r.forecast[i].minTemp == FallbackMinTempBase + i as real
              && r.forecast[i].humidity == FallbackDayHumidity
              && r.forecast[i].condition == UnavailableCondition
  {
    ForecastData(ForecastPlace(location, UnknownCountry), FallbackDays(0, days, dateAfter), [FallbackLabel])
  }

  /** Every synthesised day spans ten degrees, and the days warm by one
      degree a day. */
  lemma FallbackForecastShape(location: string, days: int, dateAfter: int -> string)
    ensures var f := CreateFallbackForecast(location, days, dateAfter).forecast;
            && (forall i :: 0 <= i < |f| ==> f[i].maxTemp - f[i].minTemp == 10.0)
            && (forall i, j :: 0 <= i < j < |f| ==> f[j].maxTemp - f[i].maxTemp == (j - i) as real)
  {
    var f := CreateFallbackForecast(location, days, dateAfter).forecast;
    forall i, j | 0 <= i < j < |f|
      ensures f[j].maxTemp - f[i].maxTemp == (j - i) as real
    {
      assert f[i].maxTemp == FallbackMaxTempBase + i as real;
      assert f[j].maxTemp == FallbackMaxTempBase + j as real;
    }
  }

  /** `getForecast`: the provider's days when its answer arrived and
      decoded, the synthesised forecast when either threw. It never throws,
      and never returns more days than asked for. */
  function GetForecast(location: string, days: int, fetched: Outcome<ForecastResponse>,
                       dateAfter: int -> string): (r: ForecastData)
    ensures |r.forecast| <= Max(days, 0)
    ensures fetched.Returned? ==>
              && r.location == ForecastPlace(fetched.value.name, fetched.value.country)
              && r.sources == [WeatherApiLabel]
              && r.forecast == fetched.value.days[..Max(0, Min(days, |fetched.value.days|))]
    ensures fetched.Threw? ==>
              && r.sources == [FallbackLabel]
              && r.location == ForecastPlace(location, UnknownCountry)
              && |r.forecast| == Max(days, 0)
              && forall i :: 0 <= i < |r.forecast| ==>
                   r.forecast[i] == ForecastDay(dateAfter(i), FallbackMaxTempBase + i as real,
                                                FallbackMinTempBase + i as real, UnavailableCondition,
                                                FallbackDayHumidity)
  {
    match fetched
    case Returned(response) => ParseForecastResponse(response, days)
    case Threw(_) => CreateFallbackForecast(location, days, dateAfter)
  }
}
