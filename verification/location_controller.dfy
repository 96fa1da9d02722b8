/**
 The location search endpoint. It owns a limiter of its own, separate from
 the weather controller's, and consults it before looking at the query.
 The service is a parameter: a function from the trimmed query to what the
 service call returned or threw.
 */
module LocationController {
  import opened JavaLang
  import opened Http
  import opened Models
  import RateLimiter

  const QueryRequiredMessage: string := "Query parameter 'q' is required"
  const SearchFailurePrefix: string := "Error searching locations: "

  /** `GET /locations/search?q=...` at time `now`. */
  function SearchLocations(limiter: RateLimiter.Window, now: int, q: Option<string>,
                           service: string -> Outcome<LocationData>): (h: Handled<LocationData>)
    ensures h.limiter == RateLimiter.Check(limiter, now).next
    ensures h.response.status == TooManyRequests <==> !RateLimiter.Check(limiter, now).accepted
    ensures h.response.status == TooManyRequests ==> h.response.body == Error(RateLimitMessage)
    ensures h.response.status == BadRequest <==> RateLimiter.Check(limiter, now).accepted && MissingOrBlank(q)
    ensures h.response.status == BadRequest ==> h.response.body == Error(QueryRequiredMessage)
    ensures h.response.status == Ok <==>
              RateLimiter.Check(limiter, now).accepted && !MissingOrBlank(q) && service(Trim(q.value)).Returned?
    ensures h.response.status == Ok ==> q.Some? && h.response.body == Success(service(Trim(q.value)).value)
    ensures h.response.status == InternalServerError <==>
              RateLimiter.Check(limiter, now).accepted && !MissingOrBlank(q) && service(Trim(q.value)).Threw?
    ensures h.response.status == InternalServerError ==>
              q.Some? && h.response.body == Error(SearchFailurePrefix + service(Trim(q.value)).message)
    ensures h.response.status in {Ok, BadRequest, TooManyRequests, InternalServerError}
  {
    var d := RateLimiter.Check(limiter, now);
    if !d.accepted then Handled(Response(TooManyRequests, Error(RateLimitMessage)), d.next)
    else if MissingOrBlank(q) then Handled(Response(BadRequest, Error(QueryRequiredMessage)), d.next)
    else match service(Trim(q.value))
      case Returned(data) => Handled(Response(Ok, Success(data)), d.next)
      case Threw(message) => Handled(Response(InternalServerError, Error(SearchFailurePrefix + message)), d.next)
  }
}
