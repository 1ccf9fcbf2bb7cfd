/** The request/response plumbing around the handlers: what an upstream
    call sends and gets back, the response object the handlers write into,
    and the upstream itself as an oracle that records every call. */
module Http {
  import opened Json

  /** What a handler reads from its incoming request: the method, the query
      parameters, the `Cookie` header and the parsed request body. */
  datatype Incoming = Incoming(verb: string, query: map<string, Json>, cookie: Option<string>, body: Option<Json>)

  /** `req.query && req.query[key]`. */
  function Query(req: Incoming, key: string): Option<Json>
  {
    Get(Some(Obj(req.query)), key)
  }

  /** One outgoing `fetch`. */
  datatype Request = Request(verb: string, url: string, headers: seq<(string, string)>, body: Option<string>)

  /** The headers of an authorised GET to the Salla API; the token is
      interpolated into a template literal. */
  function BearerHeaders(token: Json): seq<(string, string)>
  {
    [("Authorization", "Bearer " + JsString(token)), ("Accept", "application/json")]
  }

  /** What `fetch` + `resp.text()` produce: a status and body text, or an
      exception (DNS, connection reset, ...) carrying its message. */
  datatype Reply = Answer(status: int, text: string) | NetworkError(message: string)

  /** A response after `parseUpstreamResponse`: `{status, body}`. */
  datatype Upstream = Upstream(status: int, body: Json)

  /** A value or the message of the exception that was thrown instead. */
  datatype Outcome<+T> = Ok(value: T) | Thrown(message: string)

  /** The `Set-Cookie` header of a response: unset, one string, or an array. */
  datatype HeaderValue = Absent | One(value: string) | Many(values: seq<string>)

  /** What the handler sent: nothing (`res.end()`), a JSON payload, or a redirect. */
  datatype Body = NoBody | JsonBody(json: Json) | Redirect(location: string)

  /** The Set-Cookie directives a header value carries, in order. */
  function Directives(h: HeaderValue): seq<string>
  {
    match h
    case Absent => []
    case One(v) => [v]
    case Many(vs) => vs
  }

  /** The outgoing response object. */
  class Response {
    var status: int
    var body: Body
    var setCookie: HeaderValue

    constructor ()
      ensures status == 200 && body == NoBody && setCookie == Absent
    {
      status := 200;
      body := NoBody;
      setCookie := Absent;
    }

    /** `res.status(s).json(...)`, `res.status(s).end()`, `res.redirect(...)`. */
    method Send(s: int, b: Body)
      modifies this
      ensures status == s && body == b && setCookie == old(setCookie)
    {
      status := s;
      body := b;
    }
  }

  /** Everything a handler did for one request: the response it sent, the
      Set-Cookie directives it appended (in order), the upstream requests it
      made and the pauses (in milliseconds) it took between them. */
  datatype Reaction = Reaction(
    status: int,
    body: Body,
    cookies: seq<string>,
    requests: seq<Request>,
    delays: seq<nat>)

  /** The upstream service and the clock. The n-th call made while handling
      one request, counting from 0, is answered by `respond(n, request)`;
      `log` records every request sent and `sleeps` every pause, in order. */
  class Network {
    var log: seq<Request>
    var sleeps: seq<nat>
    const respond: (nat, Request) -> Reply

    constructor (respond: (nat, Request) -> Reply)
      ensures log == [] && sleeps == [] && this.respond == respond
    {
      log := [];
      sleeps := [];
      this.respond := respond;
    }

    /** `fetch(...)` followed by `resp.text()`. */
    method Fetch(req: Request) returns (reply: Reply)
      modifies this
      ensures log == old(log) + [req] && sleeps == old(sleeps)
      ensures reply == respond(|old(log)|, req)
    {
      reply := respond(|log|, req);
      log := log + [req];
    }

    /** `await sleep(ms)`. */
    method Sleep(ms: nat)
      modifies this
      ensures sleeps == old(sleeps) + [ms] && log == old(log)
    {
      sleeps := sleeps + [ms];
    }
  }
}
