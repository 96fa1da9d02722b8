/**
 The running application: the weather controller and the location
 controller, each with its own limiter, wired to the services and serving
 a sequence of timed calls. What the providers answer, the clock's text
 and the calendar are parameters. The two weather endpoints draw on one
 budget; the search endpoint on another.
 */
module Application {
  import opened JavaLang
  import opened Http
  import opened Models
  import RateLimiter
  import WeatherService
  import LocationService
  import WeatherController
  import LocationController

  /** What the world outside the process answers: each provider call by
      its arguments, the text of the clock at an instant, and the date `i`
      days after the day of an instant. */
  datatype Upstream = Upstream(
    openWeatherCurrent: string -> WeatherService.CurrentFetch,
    weatherApiCurrent: string -> WeatherService.CurrentFetch,
    weatherApiForecast: (string, int) -> Outcome<ForecastResponse>,
    openWeatherSearch: string -> Outcome<seq<GeoHit>>,
    weatherApiSearch: string -> Outcome<seq<GeoHit>>,
    timestamp: int -> string,
    dateAfter: (int, int) -> string)

  /** The mutable state of the two controllers. */
  datatype Server = Server(weatherLimiter: RateLimiter.Window, locationLimiter: RateLimiter.Window)

  datatype Request =
    | Current(location: Option<string>)
    | Forecast(location: Option<string>, days: int)
    | Search(q: Option<string>)

  /** A request arriving at time `at`. */
  datatype Call = Call(at: int, request: Request)

  datatype Reply =
    | CurrentReply(current: Response<WeatherData>)
    | ForecastReply(forecast: Response<ForecastData>)
    | SearchReply(search: Response<LocationData>)
  {
    function Status(): int {
      match this
      case CurrentReply(r) => r.status
      case ForecastReply(r) => r.status
      case SearchReply(r) => r.status
    }
  }

  /** The weather service's current-weather operation at time `now`. */
  function CurrentService(up: Upstream, now: int): string -> Outcome<WeatherData> {
    location => WeatherService.GetCurrentWeather(
      location, up.openWeatherCurrent(location), up.weatherApiCurrent(location), up.timestamp(now))
  }

  /** The weather service's forecast operation at time `now`. */
  function ForecastService(up: Upstream, now: int): (string, int) -> Outcome<ForecastData> {
    (location, days) => Returned(WeatherService.GetForecast(
      location, days, up.weatherApiForecast(location, days), i => up.dateAfter(now, i)))
  }

  /** The location service's search operation. */
  function SearchService(up: Upstream): string -> Outcome<LocationData> {
    query => Returned(LocationService.SearchLocations(query, up.openWeatherSearch(query), up.weatherApiSearch(query)))
  }

  /** A provider answered the current-weather request for `location`
      with an empty body. */
  predicate EmptyCurrentAnswer(up: Upstream, location: string) {
    WeatherService.AnsweredEmpty(up.openWeatherCurrent(location))
    || WeatherService.AnsweredEmpty(up.weatherApiCurrent(location))
  }

  datatype Step = Step(reply: Reply, server: Server)

  /** One call, routed to its controller. */
  function Dispatch(s: Server, up: Upstream, c: Call): (st: Step)
    // a call uses its own controller's limiter and leaves the other alone
    ensures !c.request.Search? ==>
              && st.server.weatherLimiter == RateLimiter.Check(s.weatherLimiter, c.at).next
              && st.server.locationLimiter == s.locationLimiter
              && (st.reply.Status() == TooManyRequests <==> !RateLimiter.Check(s.weatherLimiter, c.at).accepted)
    ensures c.request.Search? ==>
              && st.server.locationLimiter == RateLimiter.Check(s.locationLimiter, c.at).next
              && st.server.weatherLimiter == s.weatherLimiter
              && (st.reply.Status() == TooManyRequests <==> !RateLimiter.Check(s.locationLimiter, c.at).accepted)
    // the forecast and search services never throw
    ensures !c.request.Current? ==> st.reply.Status() in {Ok, BadRequest, TooManyRequests}
    ensures c.request.Current? && st.reply.Status() == Ok ==>
              && st.reply.CurrentReply? && st.reply.current.body.Success?
              && st.reply.current.body.data.sources == [OpenWeatherMapLabel, WeatherApiLabel]
    ensures c.request.Forecast? && st.reply.Status() == Ok ==>
              && st.reply.ForecastReply? && st.reply.forecast.body.Success?
              && |st.reply.forecast.body.data.forecast| <= c.request.days
    ensures c.request.Search? && st.reply.Status() == Ok ==>
              && st.reply.SearchReply? && st.reply.search.body.Success?
              && st.reply.search.body.data.count == |st.reply.search.body.data.locations| > 0
  {
    match c.request
    case Current(location) =>
      var service := CurrentService(up, c.at);
      var h := WeatherController.GetCurrentWeather(s.weatherLimiter, c.at, location, service);
      assert location.Some? ==>
        var l := Trim(location.value);
        service(l) == WeatherService.GetCurrentWeather(
          l, up.openWeatherCurrent(l), up.weatherApiCurrent(l), up.timestamp(c.at));
      Step(CurrentReply(h.response), s.(weatherLimiter := h.limiter))
    case Forecast(location, days) =>
      var service := ForecastService(up, c.at);
      var h := WeatherController.GetForecast(s.weatherLimiter, c.at, location, days, service);
      assert location.Some? ==>
        var l := Trim(location.value);
        service(l, days) == Returned(WeatherService.GetForecast(
          l, days, up.weatherApiForecast(l, days), i => up.dateAfter(c.at, i)));
      Step(ForecastReply(h.response), s.(weatherLimiter := h.limiter))
    case Search(q) =>
      var service := SearchService(up);
      var h := LocationController.SearchLocations(s.locationLimiter, c.at, q, service);
      assert q.Some? ==>
        var l := Trim(q.value);
        service(l) == Returned(LocationService.SearchLocations(l, up.openWeatherSearch(l), up.weatherApiSearch(l)));
      Step(SearchReply(h.response), s.(locationLimiter := h.limiter))
  }

  /** The one way to a 500: an admitted `/current` call with a location,
      for which a provider answered with an empty body. The answer then
      carries the service's fixed message. */
  lemma ServerErrorOnlyOnEmptyAnswer(s: Server, up: Upstream, c: Call)
    ensures var st := Dispatch(s, up, c);
            && (st.reply.Status() == InternalServerError <==>
                  && c.request.Current?
                  && RateLimiter.Check(s.weatherLimiter, c.at).accepted
                  && !MissingOrBlank(c.request.location)
                  && EmptyCurrentAnswer(up, Trim(c.request.location.value)))
            && (st.reply.Status() == InternalServerError ==>
                  st.reply == CurrentReply(Response(InternalServerError, Error(
                    WeatherController.CurrentFailurePrefix + WeatherService.FetchFailedMessage))))
  {
  }

  /** The replies to a sequence of calls and the state left at the end. */
  datatype Session = Session(replies: seq<Reply>, server: Server)

  /** Calls served one after another. */
  function Serve(s: Server, up: Upstream, calls: seq<Call>): (r: Session)
    ensures |r.replies| == |calls|
    decreases |calls|
  {
    if |calls| == 0 then Session([], s)
    else
      var st := Dispatch(s, up, calls[0]);
      var rest := Serve(st.server, up, calls[1..]);
      Session([st.reply] + rest.replies, rest.server)
  }

  /** The arrival times of the calls to either weather endpoint, in order. */
  function WeatherTimes(calls: seq<Call>): seq<int> {
    if |calls| == 0 then []
    else (if calls[0].request.Search? then [] else [calls[0].at]) + WeatherTimes(calls[1..])
  }

  /** The arrival times of the search calls, in order. */
  function SearchTimes(calls: seq<Call>): seq<int> {
    if |calls| == 0 then []
    else (if calls[0].request.Search? then [calls[0].at] else []) + SearchTimes(calls[1..])
  }

  /** How many weather calls got past the limiter. */
  function AdmittedWeather(replies: seq<Reply>): nat {
    if |replies| == 0 then 0
    else (if !replies[0].SearchReply? && replies[0].Status() != TooManyRequests then 1 else 0)
         + AdmittedWeather(replies[1..])
  }

  /** How many search calls got past the limiter. */
  function AdmittedSearches(replies: seq<Reply>): nat {
    if |replies| == 0 then 0
    else (if replies[0].SearchReply? && replies[0].Status() != TooManyRequests then 1 else 0)
         + AdmittedSearches(replies[1..])
  }

  /** Each limiter evolves exactly as if only its own controller's calls
      had arrived: `/current` and `/forecast` calls drive one limiter
      together, searches drive the other, and neither kind touches the
      other limiter. */
  lemma {:induction false} LimitersSeeOnlyTheirCalls(s: Server, up: Upstream, calls: seq<Call>)
    ensures Serve(s, up, calls).server.weatherLimiter == RateLimiter.Run(s.weatherLimiter, WeatherTimes(calls)).final
    ensures Serve(s, up, calls).server.locationLimiter == RateLimiter.Run(s.locationLimiter, SearchTimes(calls)).final
    ensures AdmittedWeather(Serve(s, up, calls).replies)
            == RateLimiter.CountAccepted(RateLimiter.Run(s.weatherLimiter, WeatherTimes(calls)).accepted)
    ensures AdmittedSearches(Serve(s, up, calls).replies)
            == RateLimiter.CountAccepted(RateLimiter.Run(s.locationLimiter, SearchTimes(calls)).accepted)
    decreases |calls|
  {
    if |calls| > 0 {
      var c := calls[0];
      var st := Dispatch(s, up, c);
      var rest := Serve(st.server, up, calls[1..]);
      LimitersSeeOnlyTheirCalls(st.server, up, calls[1..]);
      var replies := Serve(s, up, calls).replies;
      assert replies == [st.reply] + rest.replies;
      assert replies[1..] == rest.replies;
      var wt := WeatherTimes(calls[1..]);
      var qt := SearchTimes(calls[1..]);
      if c.request.Search? {
        assert WeatherTimes(calls) == wt;
        assert SearchTimes(calls) == [c.at] + qt;
        var d := RateLimiter.Check(s.locationLimiter, c.at);
        assert ([c.at] + qt)[1..] == qt;
        var t := RateLimiter.Run(d.next, qt);
        assert RateLimiter.Run(s.locationLimiter, [c.at] + qt) == RateLimiter.Trace([d.accepted] + t.accepted, t.final);
        assert ([d.accepted] + t.accepted)[1..] == t.accepted;
      } else {
        assert SearchTimes(calls) == qt;
        assert WeatherTimes(calls) == [c.at] + wt;
        var d := RateLimiter.Check(s.weatherLimiter, c.at);
        assert ([c.at] + wt)[1..] == wt;
        var t := RateLimiter.Run(d.next, wt);
        assert RateLimiter.Run(s.weatherLimiter, [c.at] + wt) == RateLimiter.Trace([d.accepted] + t.accepted, t.final);
        assert ([d.accepted] + t.accepted)[1..] == t.accepted;
      }
    }
  }

  lemma {:induction false} WeatherTimesBounded(calls: seq<Call>, bound: int)
    requires forall i :: 0 <= i < |calls| ==> calls[i].at <= bound
    ensures forall i :: 0 <= i < |WeatherTimes(calls)| ==> WeatherTimes(calls)[i] <= bound
    decreases |calls|
  {
    if |calls| > 0 {
      WeatherTimesBounded(calls[1..], bound);
    }
  }

  /** The weather endpoints share one budget: however `/current` and
      `/forecast` calls interleave with each other and with searches,
      while the weather window does not expire at most `10 - count` of them
      get past the limiter. */
  lemma SharedWeatherBudget(s: Server, up: Upstream, calls: seq<Call>)
    requires RateLimiter.Valid(s.weatherLimiter)
    requires forall i :: 0 <= i < |calls| ==>
               calls[i].at - s.weatherLimiter.lastReset <= RateLimiter.WindowMillis
    ensures AdmittedWeather(Serve(s, up, calls).replies) <= RateLimiter.MaxRequests - s.weatherLimiter.count
  {
    LimitersSeeOnlyTheirCalls(s, up, calls);
    WeatherTimesBounded(calls, s.weatherLimiter.lastReset + RateLimiter.WindowMillis);
    RateLimiter.NoResetAccounting(s.weatherLimiter, WeatherTimes(calls));
  }

  lemma {:induction false} NoWeatherTimes(calls: seq<Call>)
    requires forall i :: 0 <= i < |calls| ==> calls[i].request.Search?
    ensures WeatherTimes(calls) == []
    decreases |calls|
  {
    if |calls| > 0 {
      NoWeatherTimes(calls[1..]);
    }
  }

  /** Searches never move the weather limiter, however many there are. */
  lemma SearchesLeaveWeatherLimiter(s: Server, up: Upstream, calls: seq<Call>)
    requires forall i :: 0 <= i < |calls| ==> calls[i].request.Search?
    ensures Serve(s, up, calls).server.weatherLimiter == s.weatherLimiter
  {
    LimitersSeeOnlyTheirCalls(s, up, calls);
    NoWeatherTimes(calls);
  }

  /** Both counters stay within [0, 10] over any sequence of calls, from
      the state both controllers are constructed in or any other valid one. */
  lemma ServeKeepsLimitersValid(s: Server, up: Upstream, calls: seq<Call>)
    requires RateLimiter.Valid(s.weatherLimiter) && RateLimiter.Valid(s.locationLimiter)
    ensures RateLimiter.Valid(Serve(s, up, calls).server.weatherLimiter)
    ensures RateLimiter.Valid(Serve(s, up, calls).server.locationLimiter)
  {
    LimitersSeeOnlyTheirCalls(s, up, calls);
    RateLimiter.RunKeepsValid(s.weatherLimiter, WeatherTimes(calls));
    RateLimiter.RunKeepsValid(s.locationLimiter, SearchTimes(calls));
  }
}
