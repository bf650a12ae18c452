/** The pieces of the Next.js request/response API that the middleware uses:
    a mutable `Headers` object, a `NextResponse` that owns one, and the two
    request fields the middleware reads. */
module Http {
  import opened Wrappers

  /** A `Headers` object: a map from header name to value that `set` updates in place. */
  class Headers {
    var entries: map<string, string>

    /** `new Headers()`: no entries. */
    constructor ()
      ensures entries == map[]
    {
      entries := map[];
    }

    /** `headers.set(name, value)`: adds `name`, or replaces the value it had. */
    method Set(name: string, value: string)
      modifies this
      ensures entries == old(entries)[name := value]
    {
      entries := entries[name := value];
    }
  }

  /** A `NextResponse`. `next` marks the pass-through response of
      `NextResponse.next()`, which lets the request continue to its route;
      every other response ends the request with its own status and body. */
  class Response {
    const next: bool
    const status: nat
    const body: Option<string>
    const headers: Headers

    /** `NextResponse.next()`: a pass-through response with an empty header set. */
    constructor Next()
      ensures next && status == 200 && body == None
      ensures fresh(headers) && headers.entries == map[]
    {
      next := true;
      status := 200;
      body := None;
      headers := new Headers();
    }

    /** `new NextResponse(body, { status, headers: init })`: a terminal response
        whose own, new header object starts as a copy of `init`. */
    constructor Create(body: Option<string>, status: nat, init: map<string, string>)
      ensures !next && this.status == status && this.body == body
      ensures fresh(headers) && headers.entries == init
    {
      next := false;
      this.status := status;
      this.body := body;
      var h := new Headers();
      h.entries := init;
      headers := h;
    }
  }

  /** What the middleware reads of a request: its HTTP method and its `Origin` header. */
  datatype Request = Request(httpMethod: string, origin: Option<string>)

  const PreflightMethod := "OPTIONS"
}
