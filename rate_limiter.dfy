/** The adapter that runs the `express-rate-limit` middleware against a
    `NextResponse`. The per-IP counting lives inside that library; the model
    keeps only what the adapter's callback does with what it is handed. */
module RateLimiter {
  import opened Wrappers
  import opened Http

  /** The limiter's configuration: a 15-minute window, 100 requests per
      window and per IP, and the message of a refusal. */
  const WindowMs: nat := 15 * 60 * 1000
  const MaxRequests: nat := 100
  const LimitMessage := "Too many requests from this IP, please try again later"

  /** What the library passes to the adapter's callback: an `Error` carrying a
      message, or anything else. Which one it passes is the library's choice. */
  datatype LimiterOutcome = Limited(message: string) | NotLimited

  /** The value the adapter's promise resolves to, as `middleware` inspects it
      with `instanceof NextResponse`. `NotAResponse` stands for any other value. */
  datatype LimiterResult = NextResponse(response: Response) | NotAResponse

  /** `rateLimiter()(req, res)`: an `Error` becomes a new 429 response whose body
      is the error's message; anything else resolves with `res` itself. Both
      branches resolve, so the promise never rejects. */
  method Limit(outcome: LimiterOutcome, res: Response) returns (r: LimiterResult)
    ensures r.NextResponse?
    ensures outcome.Limited? ==>
      && fresh(r.response)
      && !r.response.next
      && r.response.status == 429
      && r.response.body == Some(outcome.message)
      && r.response.headers.entries == map[]
    ensures outcome.NotLimited? ==> r.response == res
  {
    if outcome.Limited? {
      var limited := new Response.Create(Some(outcome.message), 429, map[]);
      r := NextResponse(limited);
    } else {
      r := NextResponse(res);
    }
  }
}
