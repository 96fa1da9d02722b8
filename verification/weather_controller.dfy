/**
 The two weather endpoints. Both consult the one limiter the controller
 owns before they look at their parameters, so a refused call is refused
 whatever its parameters, and a call refused for its parameters has still
 used up a slot. The service is a parameter: a function from the trimmed
 location (and day count) to what the service call returned or threw.
 */
module WeatherController {
  import opened JavaLang
  import opened Http
  import opened Models
  import RateLimiter

  const LocationRequiredMessage: string := "Location parameter is required"
  const DaysOutOfRangeMessage: string := "Days must be between 1 and 10"
  const CurrentFailurePrefix: string := "Error fetching weather data: "
  const ForecastFailurePrefix: string := "Error fetching forecast: "
  const MinDays: int := 1
  const MaxDays: int := 10

  /** `GET /weather/current?location=...` at time `now`. */
  function GetCurrentWeather(limiter: RateLimiter.Window, now: int, location: Option<string>,
                             service: string -> Outcome<WeatherData>): (h: Handled<WeatherData>)
    // every call goes through the limiter, whatever it is answered
    ensures h.limiter == RateLimiter.Check(limiter, now).next
    ensures h.response.status == TooManyRequests <==> !RateLimiter.Check(limiter, now).accepted
    ensures h.response.status == TooManyRequests ==> h.response.body == Error(RateLimitMessage)
    ensures h.response.status == BadRequest <==>
              RateLimiter.Check(limiter, now).accepted && MissingOrBlank(location)
    ensures h.response.status == BadRequest ==> h.response.body == Error(LocationRequiredMessage)
    ensures h.response.status == Ok <==>
              && RateLimiter.Check(limiter, now).accepted && !MissingOrBlank(location)
              && service(Trim(location.value)).Returned?
    ensures h.response.status == Ok ==>
              location.Some? && h.response.body == Success(service(Trim(location.value)).value)
    ensures h.response.status == InternalServerError <==>
              && RateLimiter.Check(limiter, now).accepted && !MissingOrBlank(location)
              && service(Trim(location.value)).Threw?
    ensures h.response.status == InternalServerError ==>
              location.Some? && h.response.body == Error(CurrentFailurePrefix + service(Trim(location.value)).message)
    ensures h.response.status in {Ok, BadRequest, TooManyRequests, InternalServerError}
  {
    var d := RateLimiter.Check(limiter, now);
    if !d.accepted then Handled(Response(TooManyRequests, Error(RateLimitMessage)), d.next)
    else if MissingOrBlank(location) then Handled(Response(BadRequest, Error(LocationRequiredMessage)), d.next)
    else match service(Trim(location.value))
      case Returned(data) => Handled(Response(Ok, Success(data)), d.next)
      case Threw(message) => Handled(Response(InternalServerError, Error(CurrentFailurePrefix + message)), d.next)
  }

  /** `GET /weather/forecast?location=...&days=...` at time `now`: the
      location is checked before the day count. */
  function GetForecast(limiter: RateLimiter.Window, now: int, location: Option<string>, days: int,
                       service: (string, int) -> Outcome<ForecastData>): (h: Handled<ForecastData>)
    ensures h.limiter == RateLimiter.Check(limiter, now).next
    ensures h.response.status == TooManyRequests <==> !RateLimiter.Check(limiter, now).accepted
    ensures h.response.status == TooManyRequests ==> h.response.body == Error(RateLimitMessage)
    ensures h.response.status == BadRequest <==>
              && RateLimiter.Check(limiter, now).accepted
              && (MissingOrBlank(location) || days < MinDays || days > MaxDays)
    ensures h.response.status == BadRequest ==>
              h.response.body == Error(if MissingOrBlank(location) then LocationRequiredMessage else DaysOutOfRangeMessage)
    ensures h.response.status == Ok <==>
              && RateLimiter.Check(limiter, now).accepted && !MissingOrBlank(location)
              && MinDays <= days <= MaxDays && service(Trim(location.value), days).Returned?
    ensures h.response.status == Ok ==>
              location.Some? && h.response.body == Success(service(Trim(location.value), days).value)
    ensures h.response.status == InternalServerError <==>
              && RateLimiter.Check(limiter, now).accepted && !MissingOrBlank(location)
              && MinDays <= days <= MaxDays && service(Trim(location.value), days).Threw?
    ensures h.response.status == InternalServerError ==>
              location.Some? && h.response.body == Error(ForecastFailurePrefix + service(Trim(location.value), days).message)
    ensures h.response.status in {Ok, BadRequest, TooManyRequests, InternalServerError}
  {
    var d := RateLimiter.Check(limiter, now);
    if !d.accepted then Handled(Response(TooManyRequests, Error(RateLimitMessage)), d.next)
    else if MissingOrBlank(location) then Handled(Response(BadRequest, Error(LocationRequiredMessage)), d.next)
    else if days < MinDays || days > MaxDays then Handled(Response(BadRequest, Error(DaysOutOfRangeMessage)), d.next)
    else match service(Trim(location.value), days)
      case Returned(data) => Handled(Response(Ok, Success(data)), d.next)
      case Threw(message) => Handled(Response(InternalServerError, Error(ForecastFailurePrefix + message)), d.next)
  }

  /** The check order has two visible consequences: a refused call gets 429
      even with a blank location, and a call answered 400 has used a slot
      of the window all the same. */
  lemma LimiterBeforeValidation(limiter: RateLimiter.Window, now: int, service: string -> Outcome<WeatherData>)
    requires RateLimiter.Valid(limiter)
    ensures var h := GetCurrentWeather(limiter, now, Some(" "), service);
            && ((limiter.count == RateLimiter.MaxRequests && now - limiter.lastReset <= RateLimiter.WindowMillis) ==>
                  h.response.status == TooManyRequests)
            && (h.response.status == BadRequest ==>
                  h.limiter.count == (if now - limiter.lastReset > RateLimiter.WindowMillis then 1 else limiter.count + 1))
  {
  }
}
