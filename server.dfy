/** The decision logic of the server: the `suspicious` pre-filter of the
    honeypot middleware, which only decides whether a warning is logged,
    and the outcome of the fake `/admin-login` endpoint, which depends on
    whether the rate limiter admits the client. */
module Server {
  import opened Js
  import opened Text
  import Fingerprint

  type Headers = Fingerprint.Headers

  /** What the rules read of an Express request: `req.ip`, `req.path`,
      `req.headers`, the parsed `req.body` and `req.query`. */
  datatype Request = Request(ip: Option<string>, path: string, headers: Headers, body: Value, query: Value)

  /** `req.headers['user-agent']?.toLowerCase().includes('bot')`:
      `undefined` without a user agent, otherwise a boolean. */
  function BotCheck(headers: Headers): Value {
    match Fingerprint.Header(headers, "user-agent")
    case None => Undefined
    case Some(ua) => Bool(Contains(LowerAscii(ua), "bot"))
  }

  /** The array the middleware tests, in source order. */
  function Checks(req: Request): seq<Value> {
    [ BotCheck(req.headers),
      OfOption(Fingerprint.Header(req.headers, "x-forwarded-for")),
      Get(req.body, "admin"),
      Get(req.query, "admin") ]
  }

  /** `xs.some(Boolean)`. */
  predicate AnyTruthy(xs: seq<Value>) {
    |xs| > 0 && (Truthy(xs[0]) || AnyTruthy(xs[1..]))
  }

  lemma {:induction false} AnyTruthyIff(xs: seq<Value>)
    ensures AnyTruthy(xs) <==> exists i :: 0 <= i < |xs| && Truthy(xs[i])
  {
    if |xs| > 0 {
      AnyTruthyIff(xs[1..]);
      assert forall i :: 1 <= i < |xs| ==> xs[i] == xs[1..][i - 1];
    }
  }

  /** The middleware's `suspicious`. */
  predicate Suspicious(req: Request) {
    AnyTruthy(Checks(req))
  }

  /** A request is suspicious exactly when its user agent contains `bot` in
      any letter case, or it carries a non-empty `x-forwarded-for` header,
      or its body or its query has a truthy `admin` field. */
  lemma SuspiciousIff(req: Request)
    ensures Suspicious(req) <==>
              || ("user-agent" in req.headers && Contains(LowerAscii(req.headers["user-agent"]), "bot"))
              || ("x-forwarded-for" in req.headers && req.headers["x-forwarded-for"] != "")
              || Truthy(Get(req.body, "admin"))
              || Truthy(Get(req.query, "admin"))
  {
    var cs := Checks(req);
    AnyTruthyIff(cs);
    assert Truthy(cs[0]) <==> "user-agent" in req.headers && Contains(LowerAscii(req.headers["user-agent"]), "bot");
    assert Truthy(cs[1]) <==> "x-forwarded-for" in req.headers && req.headers["x-forwarded-for"] != "";
    assert cs[2] == Get(req.body, "admin") && cs[3] == Get(req.query, "admin");
    assert (exists i :: 0 <= i < |cs| && Truthy(cs[i])) <==> Truthy(cs[0]) || Truthy(cs[1]) || Truthy(cs[2]) || Truthy(cs[3]);
  }

  /** A user agent such as `GoogleBot` is enough. */
  lemma GoogleBotIsSuspicious(req: Request)
    requires "user-agent" in req.headers && req.headers["user-agent"] == "GoogleBot"
    ensures Suspicious(req)
  {
    GoogleBotContainsBot();
    assert BotCheck(req.headers) == Bool(true);
    assert Truthy(Checks(req)[0]);
  }

  /** Without a user agent, only the other three checks decide. */
  lemma NoUserAgentDecidesNothing(req: Request)
    requires "user-agent" !in req.headers
    ensures Suspicious(req) <==>
              || ("x-forwarded-for" in req.headers && req.headers["x-forwarded-for"] != "")
              || Truthy(Get(req.body, "admin"))
              || Truthy(Get(req.query, "admin"))
  {
    SuspiciousIff(req);
  }

  /** A truthy `admin` in the body or in the query suffices; an `admin` of
      `false`, `0` or `""` in both does not count. */
  lemma AdminField(req: Request)
    ensures Truthy(Get(req.body, "admin")) || Truthy(Get(req.query, "admin")) ==> Suspicious(req)
    ensures "user-agent" !in req.headers && "x-forwarded-for" !in req.headers
            && Get(req.body, "admin") in [Bool(false), Num(0.0), Str("")]
            && Get(req.query, "admin") in [Bool(false), Num(0.0), Str("")]
            ==> !Suspicious(req)
  {
    SuspiciousIff(req);
  }

  /** A request without headers, body fields or query fields is not
      suspicious, whether its body is an empty object or absent. */
  lemma EmptyRequestNotSuspicious(ip: Option<string>, path: string)
    ensures !Suspicious(Request(ip, path, map[], Obj(map[]), Obj(map[])))
    ensures !Suspicious(Request(ip, path, map[], Undefined, Obj(map[])))
  {
    SuspiciousIff(Request(ip, path, map[], Obj(map[]), Obj(map[])));
    SuspiciousIff(Request(ip, path, map[], Undefined, Obj(map[])));
  }

  datatype Level = Warn | Info

  /** The fields of the log calls in server.js. */
  datatype LogEntry =
    | SuspiciousAccess(ip: Option<string>, path: string, headers: Headers, body: Value, query: Value)
    | HoneypotTrigger(endpoint: string, ip: Option<string>, body: Value)

  datatype LogEvent = LogEvent(level: Level, entry: LogEntry)

  /** What the middleware does: the log calls it makes, and whether it
      hands the request on with `next()`. */
  datatype MiddlewareOutcome = MiddlewareOutcome(logged: seq<LogEvent>, callsNext: bool)

  /** `honeypotMiddleware(req, res, next)`. */
  function HoneypotMiddleware(req: Request): (o: MiddlewareOutcome)
    ensures o.callsNext
    ensures |o.logged| <= 1
    ensures o.logged != [] <==> Suspicious(req)
    ensures forall e :: e in o.logged ==>
              e == LogEvent(Warn, SuspiciousAccess(req.ip, req.path, req.headers, req.body, req.query))
  {
    var warnings :=
      if Suspicious(req)
      then [LogEvent(Warn, SuspiciousAccess(req.ip, req.path, req.headers, req.body, req.query))]
      else [];
    MiddlewareOutcome(warnings, true)
  }

  datatype Response = Response(status: int, error: string)

  datatype HandlerOutcome = HandlerOutcome(logged: seq<LogEvent>, response: Response)

  /** The `POST /admin-login` handler, given whether `rateLimiter.consume(req.ip)`
      resolved (`admitted`) or rejected. */
  function AdminLogin(req: Request, admitted: bool): (o: HandlerOutcome)
    ensures o.response.status == 401 <==> admitted
    ensures o.response.status == 429 <==> !admitted
    ensures o.logged != [] <==> admitted
    ensures forall e :: e in o.logged ==> e == LogEvent(Info, HoneypotTrigger("admin-login", req.ip, req.body))
  {
    if admitted then
      HandlerOutcome([LogEvent(Info, HoneypotTrigger("admin-login", req.ip, req.body))],
                     Response(401, "Invalid credentials"))
    else
      HandlerOutcome([], Response(429, "Too many attempts"))
  }

  /** A request to `/admin-login` passes the middleware first, which always
      forwards it, then reaches the handler: the response is the handler's
      and the log holds the middleware's warning, if any, before the
      handler's entry, if any. */
  function ServeAdminLogin(req: Request, admitted: bool): (o: HandlerOutcome)
    ensures o.response == AdminLogin(req, admitted).response
    ensures |o.logged| == (if Suspicious(req) then 1 else 0) + (if admitted then 1 else 0)
    ensures Suspicious(req) ==>
              o.logged[0] == LogEvent(Warn, SuspiciousAccess(req.ip, req.path, req.headers, req.body, req.query))
    ensures admitted ==>
              o.logged[|o.logged| - 1] == LogEvent(Info, HoneypotTrigger("admin-login", req.ip, req.body))
  {
    var m := HoneypotMiddleware(req);
    assert m.callsNext;
    var h := AdminLogin(req, admitted);
    HandlerOutcome(m.logged + h.logged, h.response)
  }
}
