# Weather aggregation API — a Dafny model of its decision logic

The Spring application answers three kinds of HTTP request: current weather
and a forecast for a location, and a location search. Each request passes a
fixed-window rate limiter owned by its controller, then a parameter check,
then goes to a service. The weather service asks two providers for the
current weather and averages their readings, putting a fallback record in
place of a provider that failed. It takes the forecast from one provider and
synthesises one when that provider fails. The location service concatenates
both providers' search results and offers two synthetic candidates when
neither provider found anything.

This project models that logic as pure functions over immutable datatypes
and proves what it promises:

- `java_lang.dfy` (`JavaLang`) holds the Java semantics the code relies on:
  - `null` as `Option`, and a call that returns or throws as `Outcome`;
  - 32-bit `int` addition that wraps around;
  - `int` division that rounds toward zero (Dafny's `/` is Euclidean);
  - `String.trim`.
- `rate_limiter.dfy` (`RateLimiter`) is `checkRateLimit` as a transition on
  `(requestCount, lastResetTime)` with the time as an input, plus runs of
  calls and the window budget.
- `models.dfy` (`Models`) holds the records `WeatherData`, `ForecastData`
  and `LocationData`, and the decoded shapes of the provider answers.
- `weather_service.dfy` and `location_service.dfy` hold the services. Every
  provider call, request and decoding together, is an input `Outcome`.
- `http.dfy`, `weather_controller.dfy` and `location_controller.dfy` hold
  the handlers. Each is a function of the limiter fields, the time, the
  parameters and the service it calls.
- `application.dfy` (`Application`) wires the controllers to the services
  and serves sequences of timed calls. It proves that the two weather
  endpoints share one budget, and that the search endpoint has a separate
  one.

Three behaviours of the code are easy to misread, and the model states them
as the code has them:

- With one provider down, the aggregated record's sources are still
  `["OpenWeatherMap", "WeatherAPI"]`. The failed provider's "(Fallback)"
  tag never reaches the caller. `WeatherService.OneProviderDown` proves
  this.
- The first provider's fallback record is tagged
  `"OpenWeather (Fallback)"`, not `"OpenWeatherMap (Fallback)"`.
- A fallback forecast has `max(days, 0)` entries, so none for a
  non-positive day count.

A provider whose current-weather answer arrives with an empty body is not a
failure the per-provider handlers see. Its future completes with `null`.
Aggregating that `null` throws, and `getCurrentWeather` rethrows with
"Failed to fetch weather data from APIs". The controller then answers 500.
The model keeps that path: a current-weather provider call is
`Returned(Some(record))`, `Returned(None)` for an empty answer, or `Threw`.

Java `Double` fields are `real`s. Their averages are exact means, and IEEE
rounding is not modelled. The integer readings (humidity, pressure) are
averaged exactly as Java does it: the sum wraps around at 32 bits, then the
division rounds toward zero. `JavaLang.IntAverageOverflow` shows the one
consequence that is not an ordinary mean.

## Model

| member | source | states |
|---|---|---|
| `RateLimiter.Check` | src/main/java/com/weatherapi/controller/WeatherController.java:22-35 | The window restarts (count 0, start = now) exactly when now − start > 60000; at 60000 it does not. The call is refused iff the count after that step is ≥ 10, and a refusal keeps the count; an admission adds exactly one; the bound 0..10 is preserved. LocationController.java:21-34 is the same code and is modelled by the same function |
| `RateLimiter.RunKeepsValid` | src/main/java/com/weatherapi/controller/WeatherController.java:15-35 | From count 0 (or any count in 0..10), the count stays in 0..10 after any sequence of calls |
| `RateLimiter.NoResetAccounting` | src/main/java/com/weatherapi/controller/WeatherController.java:22-35 | While no call expires the window, its start stays put, the count grows by exactly the number of admitted calls, and at most 10 − count calls are admitted |
| `RateLimiter.AtMostTenPerWindow` | src/main/java/com/weatherapi/controller/WeatherController.java:22-35 | Between two resets at most ten calls are admitted: the call that restarts the window plus those before it expires |
| `RateLimiter.AdmittedWhileRoomLeft` | src/main/java/com/weatherapi/controller/WeatherController.java:29-34 | Calls within the window are all admitted while the count has room for them, and the count ends at count + number of calls |
| `RateLimiter.BoundaryBurst` | src/main/java/com/weatherapi/controller/WeatherController.java:24-34 | The window is fixed, not sliding: ten calls at the last instant of a window and ten one millisecond later are all admitted, twenty within 60 s |
| `JavaLang.Wrap32` | src/main/java/com/weatherapi/service/WeatherService.java:229-230 | The `int` sum is the one 32-bit value congruent to the true sum modulo 2^32, and equals it when it is in range |
| `JavaLang.JavaDiv2` | src/main/java/com/weatherapi/service/WeatherService.java:229-230 | `x / 2` rounds toward zero: the remainder x − 2r is 0 or has the sign of x |
| `JavaLang.IntAverage` | src/main/java/com/weatherapi/service/WeatherService.java:229-230 | `(a + b) / 2` is the toward-zero half of the wrapped sum, and lies between a and b when the sum does not overflow |
| `JavaLang.TruncationDiffersFromFloor` | src/main/java/com/weatherapi/service/WeatherService.java:229 | Java's halving of −3 is −1 where Dafny's Euclidean `/` gives −2 |
| `JavaLang.IntAverageSymmetric` | src/main/java/com/weatherapi/service/WeatherService.java:229-230 | The integer average does not depend on argument order |
| `JavaLang.IntAverageOverflow` | src/main/java/com/weatherapi/service/WeatherService.java:229-230 | Two positive readings of 2^30 average to −2^30, because the sum wraps around |
| `JavaLang.Trim` | src/main/java/com/weatherapi/controller/WeatherController.java:48 | `trim()` returns a slice of the string. Only chars ≤ U+0020 lie outside the slice, and a non-empty slice starts and ends with a char above U+0020. The result is empty iff every char is ≤ U+0020 |
| `JavaLang.TrimUnique` | src/main/java/com/weatherapi/controller/WeatherController.java:48 | Only one string is a trim of a given string in that sense, so `Trim` is pinned down by its contract |
| `WeatherService.Mean` | src/main/java/com/weatherapi/service/WeatherService.java:227-228 | The average of two doubles lies midway between them (as a real; no IEEE rounding) |
| `WeatherService.AggregateWeatherData` | src/main/java/com/weatherapi/service/WeatherService.java:218-240 | Location is the first record's; temperature, feels-like and wind lie midway between the inputs; humidity and pressure are the toward-zero half of the 32-bit sum; condition is always "Aggregated", description always "Real-time data from multiple sources", and sources always ["OpenWeatherMap", "WeatherAPI"] |
| `WeatherService.AggregateSymmetric` | src/main/java/com/weatherapi/service/WeatherService.java:227-231 | Swapping the two records leaves every averaged reading, humidity and pressure included, unchanged |
| `WeatherService.CreateFallbackWeatherData` | src/main/java/com/weatherapi/service/WeatherService.java:242-263 | The stand-in record is at (query, "N/A") without coordinates. Its readings are 20.0 °C, feels-like 18.0, humidity 65, pressure 1013 and wind 3.5. Its condition is "Data Unavailable" and its description "Fallback data - API temporarily unavailable". Its one source is the provider name plus " (Fallback)", and its timestamp is the clock reading |
| `WeatherService.GetCurrentWeather` | src/main/java/com/weatherapi/service/WeatherService.java:33-81 | Throws, with "Failed to fetch weather data from APIs", iff a provider answered with an empty body. Otherwise the result is the aggregate of the two providers' records, and a provider that threw stands in with its fallback record. So the readings are the midpoints and truncating halves of those two records, with the aggregate's sources, labels and clock reading. The location is the first provider's, or (query, "N/A", no coordinates) when that provider threw |
| `WeatherService.OneProviderDown` | src/main/java/com/weatherapi/service/WeatherService.java:39-47 | With either provider failed, its sentinel readings are averaged with the other's as if they were measured. The temperature lies midway between 20.0 °C and the other reading. When the sums stay in range, humidity and pressure are the truncating halves of the other reading plus 65 % and plus 1013 hPa. No "(Fallback)" label appears in the sources. When the first provider failed, the location is (query, "N/A", no coordinates); when the second failed, it is the first provider's |
| `WeatherService.BothProvidersDown` | src/main/java/com/weatherapi/service/WeatherService.java:242-262 | With both providers failed, the fallback sentinels 20.0, 18.0, 65, 1013, 3.5 come through the averaging unchanged, under the "Aggregated" labels, at (query, "N/A") without coordinates |
| `WeatherService.SelectDays` | src/main/java/com/weatherapi/service/WeatherService.java:193-205 | The forecast keeps exactly max(0, min(days, available)) days, and day i is the provider's day i |
| `WeatherService.ParseForecastResponse` | src/main/java/com/weatherapi/service/WeatherService.java:178-216 | The forecast is the provider's location, the first min(days, available) provider days in order, and sources ["WeatherAPI"] |
| `WeatherService.FallbackDays` | src/main/java/com/weatherapi/service/WeatherService.java:272-281 | The loop yields max(count, 0) days, and the day at position i is synthesised for index from + i |
| `WeatherService.CreateFallbackForecast` | src/main/java/com/weatherapi/service/WeatherService.java:265-287 | Exactly max(days, 0) days; day i is dated i days after today with max 22 + i, min 12 + i, humidity 60 and "Data Unavailable"; location (query, "N/A"); sources ["Fallback"] |
| `WeatherService.FallbackForecastShape` | src/main/java/com/weatherapi/service/WeatherService.java:273-281 | Every synthesised day spans exactly ten degrees, and day j is j − i degrees warmer than day i |
| `WeatherService.GetForecast` | src/main/java/com/weatherapi/service/WeatherService.java:157-176 | Never throws and never returns more days than asked for. If the provider answered, the result carries its location, a prefix of its days and sources ["WeatherAPI"]. If fetching or decoding threw, the result is the synthesised forecast: (query, "N/A"), sources ["Fallback"], and max(days, 0) days, day i dated i days ahead with max 22 + i, min 12 + i, humidity 60 and "Data Unavailable" |
| `LocationService.FallbackLocations` | src/main/java/com/weatherapi/service/LocationService.java:120-127 | Exactly two candidates, both named after the query and both with source "Fallback". The first has id "1", country "US" and coordinates (40.7128, −74.0060). The second has id "2", country "UK" and coordinates (51.5074, −0.1278) |
| `LocationService.CreateLocation` | src/main/java/com/weatherapi/service/LocationService.java:129-139 | The candidate carries exactly the given id, name, country, coordinates and source, with every field set |
| `LocationService.CandidatesOf` | src/main/java/com/weatherapi/service/LocationService.java:74-82 | One candidate per provider entry, in provider order, with the entry's name, country and coordinates, the provider's source label and no id (the same loop is at lines 103-111) |
| `LocationService.SearchLocations` | src/main/java/com/weatherapi/service/LocationService.java:30-60 | The list is the first provider's candidates followed by the second's, with a failed provider contributing none. The fallback pair appears exactly when that list is empty. The result is never empty, and count equals its length |
| `LocationService.FallbackIffNothingFound` | src/main/java/com/weatherapi/service/LocationService.java:50-53 | A "Fallback" candidate appears iff both providers failed or found nothing; otherwise every candidate is a provider's, without an id |
| `LocationService.FailedProviderContributesNothing` | src/main/java/com/weatherapi/service/LocationService.java:36-48 | A provider that threw leaves the other's candidates as the whole list, in that provider's order |
| `LocationService.ProviderOrder` | src/main/java/com/weatherapi/service/LocationService.java:36-48 | When both answer, the first provider's entries occupy the front of the list in order, the second's follow in order |
| `WeatherController.GetCurrentWeather` | src/main/java/com/weatherapi/controller/WeatherController.java:37-60 | Every call passes the limiter. 429 iff it was refused, whatever the location. 400 iff admitted and the location is missing or blank after trim. Otherwise the service gets the trimmed location: a result gives 200 with that payload, an exception gives 500 with the prefixed message |
| `WeatherController.GetForecast` | src/main/java/com/weatherapi/controller/WeatherController.java:62-91 | 429 iff refused. 400 iff admitted and the location is blank or days is outside [1, 10], with the location message taking precedence. Otherwise the service gets the trimmed location and the unchanged days: 200 with its payload, or 500 on an exception |
| `WeatherController.LimiterBeforeValidation` | src/main/java/com/weatherapi/controller/WeatherController.java:43-51 | An over-limit call with a blank location is answered 429, not 400; a call answered 400 has still taken a slot of the window |
| `LocationController.SearchLocations` | src/main/java/com/weatherapi/controller/LocationController.java:36-58 | 429 iff the search limiter refused, whatever q is. 400 iff admitted and q is missing or blank after trim. Otherwise the service gets the trimmed q: 200 with its payload, or 500 on an exception |
| `Application.Dispatch` | src/main/java/com/weatherapi/controller/WeatherController.java:53-59 | A call changes only its own controller's limiter, and is answered 429 iff that limiter refused it. A /forecast or search call is never answered 500. A 200 current-weather answer carries both provider labels. A 200 forecast has at most `days` days. A 200 search result is non-empty with count equal to its length |
| `Application.ServerErrorOnlyOnEmptyAnswer` | src/main/java/com/weatherapi/service/WeatherService.java:43-51 | A call is answered 500 iff it is an admitted /current call with a non-blank location for which a provider answered with an empty body. That answer is "Error fetching weather data: Failed to fetch weather data from APIs" |
| `Application.LimitersSeeOnlyTheirCalls` | src/main/java/com/weatherapi/controller/LocationController.java:14-15 | Over any interleaving of calls, the weather limiter evolves as if only the /current and /forecast calls had arrived, and the search limiter as if only the searches had. Each side admits as many calls as its limiter accepts |
| `Application.SharedWeatherBudget` | src/main/java/com/weatherapi/controller/WeatherController.java:15-16 | /current and /forecast draw on one counter: within one window at most 10 − count of them, in any mix, get past the limiter |
| `Application.SearchesLeaveWeatherLimiter` | src/main/java/com/weatherapi/controller/LocationController.java:14-15 | Any number of searches leaves the weather limiter exactly as it was |
| `Application.ServeKeepsLimitersValid` | src/main/java/com/weatherapi/controller/LocationController.java:14-34 | Both counters stay within 0..10 over any sequence of calls to the application |

## Left out

- HTTP and concurrency. The WebClient requests, the parallel `CompletableFuture` fetch and its joins are not modelled. Each provider call is an input `Outcome`: the decoded answer, or the message of what it threw.
- Interrupts. The catch at WeatherService.java:49-52 would also rethrow when `future.get()` is interrupted. The model has no threads, so that path is not modelled.
- An empty answer to the forecast or search request. `block()` then returns `null`, and decoding `null` throws inside the `try`. The model treats this as the provider call throwing, so it leads to the fallback forecast or an empty contribution.
- JSON decoding. The field mapping of the parse methods is not modelled, including the provider's `wind_kph / 3.6` conversion and the defaults Jackson returns for missing fields. Provider answers arrive already decoded (`WeatherData`, `ForecastResponse`, `GeoHit`). This includes the labels and timestamps the two current-weather parsers set, which aggregation overwrites anyway.
- Floating point. Temperatures, feels-like and wind speed are reals, so IEEE rounding of their averages and of `22.0 + i` is not modelled.
- Clocks. `System.currentTimeMillis()` becomes the `now` argument. `LocalDateTime.now().toString()` becomes a timestamp string or the `timestamp` function. `LocalDate.now().plusDays(i)` becomes the `dateAfter` function.
- RateLimiter.Check: times are unbounded integers. The Java `long` subtraction `currentTime - lastResetTime` would wrap only for differences beyond 2^63 ms, and that wrap-around is not modelled.
- Thread safety. The limiter's read-check-increment is unsynchronised in the source. Under concurrent requests two calls can both see count 9 and both be admitted, so more than ten calls can pass in one window. The model serves calls one at a time. `RateLimiter.RunKeepsValid`, `RateLimiter.AtMostTenPerWindow`, `Application.SharedWeatherBudget` and `Application.ServeKeepsLimitersValid` hold only for calls served one at a time.
- Caching. Caching is enabled on the application class, so the `@Cacheable` methods answer a repeated argument from the cache. That framework behaviour has no code in these files. Every call in the model recomputes. Three effects follow and are not modelled. A cached answer keeps an older `lastUpdated`. A cached fallback forecast keeps the dates of the day it was computed. A cached fallback aggregate goes on being served after the providers recover. The `Upstream` provider answers also depend only on the call's arguments, not on its time, so the model cannot show a provider that changes its answer.
- Spring parameter binding. The `days` default of 5, the 400 Spring returns for a missing or non-numeric parameter, and the `ApiResponse` class are not modelled. The class's envelope is `Http.Body`.
- Request: a missing required `location` or `q` parameter is rejected by Spring before the handler runs, so it never reaches `checkRateLimit`. The model instead sends `Current(None)` and `Search(None)` through the limiter, where they take a slot and can be answered 429. This case is not modelled as Spring handles it.
- An exception message that is `null` would print as "null". In the model a message is always a string.
- `HealthController`, `WeatherApiApplication` and all console logging.
