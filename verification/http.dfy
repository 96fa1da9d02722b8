/**
 What the request handlers share: the status codes they answer with, the
 uniform envelope around a payload (a payload on success, a message on
 error), the test for a missing or blank parameter, and the limiter fields
 a handler leaves behind.
 */
module Http {
  import opened JavaLang
  import RateLimiter

  const Ok: int := 200
  const BadRequest: int := 400
  const TooManyRequests: int := 429
  const InternalServerError: int := 500

  /** The refusal every handler sends when its limiter turns a call away. */
  const RateLimitMessage: string := "Rate limit exceeded. Maximum 10 requests per minute."

  /** The envelope every data-bearing endpoint wraps its answer in. */
  datatype Body<+T> = Success(data: T) | Error(message: string)

  datatype Response<+T> = Response(status: int, body: Body<T>)

  /** A handler's response and its limiter fields after the call. */
  datatype Handled<+T> = Handled(response: Response<T>, limiter: RateLimiter.Window)

  /** `p == null || p.trim().isEmpty()`. */
  predicate MissingOrBlank(p: Option<string>) {
    p.None? || |Trim(p.value)| == 0
  }
}
