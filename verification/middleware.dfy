/** The API gateway's request pipeline: authentication, per-client rate
    limiting, CORS and request logging, run as a chain in which each stage
    either hands the request on or answers it itself. Requests and
    responses are values; the clock is a `now` parameter in whole seconds;
    each call runs atomically (the source serialises the limiter with a mutex). */
module Middlewares {
  import opened Wrappers
  import opened Text
  import opened Json

  datatype Request = Request(verb: string, path: string, headers: map<string, string>)

  /** get_header_value: the empty string when the header is absent. */
  function Header(req: Request, name: string): (r: string)
    ensures name in req.headers ==> r == req.headers[name]
    ensures name !in req.headers ==> r == ""
  {
    if name in req.headers then req.headers[name] else ""
  }

  datatype HttpResponse = HttpResponse(status: int, body: Json, headers: map<string, string>)

  /** The `{success:false, message, status_code}` object the gateway answers errors with. */
  function ErrorBody(message: string, status: int): (j: Json)
    ensures Member(j, "success") == Some(Bool(false)) && Member(j, "status_code") == Some(Int(status))
    ensures Member(j, "message") == Some(Str(message))
  {
    Obj(map["success" := Bool(false), "message" := Str(message), "status_code" := Int(status)])
  }

  /** res.status = status; res.set_content(body.dump(), "application/json"). */
  function Answer(res: HttpResponse, status: int, body: Json): (r: HttpResponse)
    ensures r.status == status && r.body == body
    ensures r.headers.Keys == res.headers.Keys + {"Content-Type"} && r.headers["Content-Type"] == "application/json"
  {
    HttpResponse(status, body, res.headers["Content-Type" := "application/json"])
  }

  // ---------------------------------------------------------------- authentication

  const PublicPaths: set<string> := {"/health", "/", "/api"}
  const AcceptedApiKeys: set<string> := {"demo-api-key-12345", "test-key"}
  const BearerPrefix: string := "Bearer "
  const AuthRequiredMessage: string := "Authentication required. Provide X-API-Key header or Bearer token."

  predicate ValidApiKey(key: string) {
    key == "demo-api-key-12345" || key == "test-key"
  }

  /** The placeholder token check: non-empty and starting with "eyJ". */
  predicate ValidJwt(token: string) {
    |token| > 0 && IsPrefix("eyJ", token)
  }

  /** AuthenticationMiddleware's decision: public paths and a disabled
      check pass; otherwise a non-empty accepted API key, else a bearer
      header carrying a valid token. */
  function Authenticate(requireAuth: bool, req: Request): (r: bool)
    ensures req.path in PublicPaths || !requireAuth ==> r
  {
    if req.path == "/health" || req.path == "/" || req.path == "/api" then true
    else if !requireAuth then true
    else
      var apiKey := Header(req, "X-API-Key");
      if apiKey != "" && ValidApiKey(apiKey) then true
      else
        var auth := Header(req, "Authorization");
        IsPrefix(BearerPrefix, auth) && ValidJwt(auth[|BearerPrefix|..])
  }

  /** The decision in closed form: besides the public paths and a disabled
      check, a request passes exactly when its API key is one of the two
      accepted ones or its Authorization header starts with "Bearer eyJ". */
  lemma AuthenticationDecision(requireAuth: bool, req: Request)
    ensures Authenticate(requireAuth, req) <==>
              req.path in PublicPaths || !requireAuth ||
              Header(req, "X-API-Key") in AcceptedApiKeys ||
              IsPrefix("Bearer eyJ", Header(req, "Authorization"))
  {
    var auth := Header(req, "Authorization");
    if |auth| >= 10 {
      assert auth[..10] == auth[..7] + auth[7..][..3];
    }
  }

  // ---------------------------------------------------------------- rate limiting

  /** Per-client counters of RateLimitMiddleware. */
  datatype ClientStats = ClientStats(requestCount: int, windowStart: int)

  const WindowSeconds: int := 60
  const DefaultMaxRequestsPerMinute: int := 60

  /** The key a client is counted under: the first X-Forwarded-For hop,
      else the API key behind "apikey:", else "unknown". */
  function ClientIdentifier(req: Request): (r: string)
    ensures Header(req, "X-Forwarded-For") != "" ==> ',' !in r && IsPrefix(r, Header(req, "X-Forwarded-For"))
    ensures Header(req, "X-Forwarded-For") != "" ==>
              r == Header(req, "X-Forwarded-For") ||
              (|r| < |Header(req, "X-Forwarded-For")| && Header(req, "X-Forwarded-For")[|r|] == ',')
    ensures Header(req, "X-Forwarded-For") == "" && Header(req, "X-API-Key") != "" ==>
              r == "apikey:" + Header(req, "X-API-Key")
    ensures Header(req, "X-Forwarded-For") == "" && Header(req, "X-API-Key") == "" ==> r == "unknown"
  {
    var forwardedFor := Header(req, "X-Forwarded-For");
    if forwardedFor != "" then
      match IndexOf(forwardedFor, ',')
      case Some(c) => forwardedFor[..c]
      case None => forwardedFor
    else
      var apiKey := Header(req, "X-API-Key");
      if apiKey != "" then "apikey:" + apiKey else "unknown"
  }

  /** Behind a chain of proxies the client is the first hop. */
  lemma FirstForwardedHop(req: Request, hop: string, rest: string)
    requires ',' !in hop && hop != ""
    requires Header(req, "X-Forwarded-For") == hop + "," + rest
    ensures ClientIdentifier(req) == hop
  {
    var f := hop + "," + rest;
    assert f[|hop|] == ',' && f[..|hop|] == hop;
    assert IndexOf(f, ',') == Some(|hop|);
  }

  /** `_clientStats[clientId]` of std::map: a client seen for the first time
      gets value-initialised stats, i.e. a count of 0 and a window that
      started at the clock's epoch. */
  function StatsOf(clients: map<string, ClientStats>, id: string): ClientStats {
    if id in clients then clients[id] else ClientStats(0, 0)
  }

  /** isRateLimited: restart the window once 60 s have passed since it
      began, count the request, and limit when the count exceeds the maximum.
      Only the requesting client's counters change. */
  function IsRateLimited(clients: map<string, ClientStats>, id: string, max: int, now: int): (r: (bool, map<string, ClientStats>))
    ensures r.1.Keys == clients.Keys + {id}
    ensures forall k :: k in clients && k != id ==> r.1[k] == clients[k]
    ensures r.0 <==> r.1[id].requestCount > max
    ensures r.1[id].requestCount == 1 + (if now - StatsOf(clients, id).windowStart >= WindowSeconds then 0 else StatsOf(clients, id).requestCount)
    ensures r.1[id].windowStart == (if now - StatsOf(clients, id).windowStart >= WindowSeconds then now else StatsOf(clients, id).windowStart)
  {
    var stats := StatsOf(clients, id);
    var current := if now - stats.windowStart >= WindowSeconds then ClientStats(0, now) else stats;
    var counted := current.(requestCount := current.requestCount + 1);
    (counted.requestCount > max, clients[id := counted])
  }

  /** One client's requests at the given times, one after another: which
      were limited, and the counters afterwards. */
  function Replay(clients: map<string, ClientStats>, id: string, max: int, times: seq<int>): (r: (seq<bool>, map<string, ClientStats>))
    ensures |r.0| == |times|
    ensures forall k :: k in clients && k != id ==> k in r.1 && r.1[k] == clients[k]
    decreases |times|
  {
    if |times| == 0 then ([], clients)
    else
      var step := IsRateLimited(clients, id, max, times[0]);
      var rest := Replay(step.1, id, max, times[1..]);
      ([step.0] + rest.0, rest.1)
  }

  /** Inside one window the counter just climbs: the k-th further request
      is limited exactly when the count it raises passes the maximum. */
  lemma {:induction false} ReplayWithinWindow(clients: map<string, ClientStats>, id: string, max: int, times: seq<int>, count: int, start: int)
    requires StatsOf(clients, id) == ClientStats(count, start)
    requires forall i :: 0 <= i < |times| ==> start <= times[i] < start + WindowSeconds
    ensures forall k :: 0 <= k < |times| ==> (Replay(clients, id, max, times).0[k] <==> count + k + 1 > max)
    ensures StatsOf(Replay(clients, id, max, times).1, id) == ClientStats(count + |times|, start)
    decreases |times|
  {
    if |times| > 0 {
      var step := IsRateLimited(clients, id, max, times[0]);
      assert step.1[id] == ClientStats(count + 1, start);
      ReplayWithinWindow(step.1, id, max, times[1..], count + 1, start);
      var rest := Replay(step.1, id, max, times[1..]);
      assert Replay(clients, id, max, times).0 == [step.0] + rest.0;
      forall k | 1 <= k < |times|
        ensures Replay(clients, id, max, times).0[k] <==> count + k + 1 > max
      {
        assert Replay(clients, id, max, times).0[k] == rest.0[k - 1];
      }
    }
  }

  /** Within a fresh window exactly the first `max` requests pass. */
  lemma FirstMaxPass(clients: map<string, ClientStats>, id: string, max: int, times: seq<int>)
    requires |times| > 0 && times[0] - StatsOf(clients, id).windowStart >= WindowSeconds
    requires forall i :: 0 <= i < |times| ==> times[0] <= times[i] < times[0] + WindowSeconds
    ensures forall k :: 0 <= k < |times| ==> (Replay(clients, id, max, times).0[k] <==> k >= max)
  {
    var step := IsRateLimited(clients, id, max, times[0]);
    assert step.1[id] == ClientStats(1, times[0]);
    ReplayWithinWindow(step.1, id, max, times[1..], 1, times[0]);
    var rest := Replay(step.1, id, max, times[1..]);
    assert Replay(clients, id, max, times).0 == [step.0] + rest.0;
    forall k | 1 <= k < |times|
      ensures Replay(clients, id, max, times).0[k] <==> k >= max
    {
      assert Replay(clients, id, max, times).0[k] == rest.0[k - 1];
    }
  }

  function RateLimitMessage(max: int): string {
    "Rate limit exceeded. Maximum " + IntToDecimal(max) + " requests per minute."
  }

  // ---------------------------------------------------------------- CORS

  const CorsHeaders: map<string, string> := map[
    "Access-Control-Allow-Origin" := "*",
    "Access-Control-Allow-Methods" := "GET, POST, PUT, DELETE, OPTIONS",
    "Access-Control-Allow-Headers" := "Content-Type, Authorization, X-API-Key",
    "Access-Control-Max-Age" := "86400"]

  function WithCorsHeaders(res: HttpResponse): (r: HttpResponse)
    ensures r.status == res.status && r.body == res.body
    ensures r.headers.Keys == res.headers.Keys + CorsHeaders.Keys
    ensures forall h :: h in CorsHeaders ==> r.headers[h] == CorsHeaders[h]
  {
    res.(headers := res.headers + CorsHeaders)
  }

  // ---------------------------------------------------------------- the chain

  datatype Middleware =
    | Logging
    | Authentication(requireAuth: bool)
    | RateLimit(maxRequestsPerMinute: int, clients: map<string, ClientStats>)
    | Cors

  function NewRateLimit(max: int := DefaultMaxRequestsPerMinute): (m: Middleware)
    ensures m.RateLimit? && m.maxRequestsPerMinute == max && m.clients == map[]
  {
    RateLimit(max, map[])
  }

  /** Whether a stage hands the request on to the next one. */
  predicate Passes(m: Middleware, req: Request, now: int) {
    match m
    case Logging => true
    case Authentication(requireAuth) => Authenticate(requireAuth, req)
    case RateLimit(max, clients) => !IsRateLimited(clients, ClientIdentifier(req), max, now).0
    case Cors => req.verb != "OPTIONS"
  }

  predicate AllPass(ms: seq<Middleware>, req: Request, now: int) {
    forall i :: 0 <= i < |ms| ==> Passes(ms[i], req, now)
  }

  /** A stage after it has seen the request: only a limiter has state to update. */
  function After(m: Middleware, req: Request, now: int): (r: Middleware)
    ensures r.RateLimit? <==> m.RateLimit?
    ensures !m.RateLimit? ==> r == m
    ensures m.RateLimit? ==> r.maxRequestsPerMinute == m.maxRequestsPerMinute
    ensures m.RateLimit? ==> r.clients.Keys == m.clients.Keys + {ClientIdentifier(req)}
  {
    match m
    case RateLimit(max, clients) => RateLimit(max, IsRateLimited(clients, ClientIdentifier(req), max, now).1)
    case _ => m
  }

  /** The status a stage answers with when it stops the chain. */
  function StopStatus(m: Middleware): int {
    match m
    case Authentication(_) => 401
    case RateLimit(_, _) => 429
    case Cors => 204
    case Logging => 200
  }

  /** The answer of a stage that does not hand the request on. */
  function Stop(m: Middleware, res: HttpResponse): (r: HttpResponse)
    ensures r.status == StopStatus(m) || m.Logging?
    ensures m.RateLimit? ==> "Retry-After" in r.headers && r.headers["Retry-After"] == "60"
  {
    match m
    case Authentication(_) => Answer(res, 401, ErrorBody(AuthRequiredMessage, 401))
    case RateLimit(max, _) =>
      var answered := Answer(res, 429, ErrorBody(RateLimitMessage(max), 429));
      answered.(headers := answered.headers["Retry-After" := "60"])
    case Cors => WithCorsHeaders(res).(status := 204)
    case Logging => res
  }

  datatype ChainResult = ChainResult(chain: seq<Middleware>, response: HttpResponse, handled: bool)

  /** MiddlewareChain::execute: stages run in insertion order, each one
      either calling the next or answering itself; the final handler runs
      only when every stage called on. The result carries the stages'
      updated state and whether the final handler ran. */
  function Run(chain: seq<Middleware>, req: Request, res: HttpResponse, now: int,
               final: (Request, HttpResponse) -> HttpResponse): (r: ChainResult)
    ensures |r.chain| == |chain|
    ensures r.handled <==> AllPass(chain, req, now)
    ensures |chain| == 0 ==> r.response == final(req, res)
    decreases |chain|
  {
    if |chain| == 0 then ChainResult([], final(req, res), true)
    else
      var m := chain[0];
      if !Passes(m, req, now) then ChainResult([After(m, req, now)] + chain[1..], Stop(m, res), false)
      else
        var rest := Run(chain[1..], req, PassedOn(m, res), now, final);
        ChainResult([After(m, req, now)] + rest.chain, rest.response, rest.handled)
  }

  /** The response a passing stage hands on: CORS adds its headers first. */
  function PassedOn(m: Middleware, res: HttpResponse): HttpResponse {
    if m.Cors? then WithCorsHeaders(res) else res
  }

  /** The state each stage is left in: a stage that passes is followed by
      the rest of the chain, one that stops leaves the rest unchanged. */
  lemma RunStep(chain: seq<Middleware>, req: Request, res: HttpResponse, now: int,
                final: (Request, HttpResponse) -> HttpResponse)
    requires |chain| > 0
    ensures Passes(chain[0], req, now) ==>
              Run(chain, req, res, now, final).chain == [After(chain[0], req, now)] + Run(chain[1..], req, PassedOn(chain[0], res), now, final).chain
    ensures Passes(chain[0], req, now) ==>
              Run(chain, req, res, now, final).response == Run(chain[1..], req, PassedOn(chain[0], res), now, final).response
    ensures !Passes(chain[0], req, now) ==>
              Run(chain, req, res, now, final) == ChainResult([After(chain[0], req, now)] + chain[1..], Stop(chain[0], res), false)
  {
  }

  /** Stages up to and including the first one that stops see the request
      (and a limiter among them counts it); the stages after it are untouched. */
  lemma RunUpdatesReachedStages(chain: seq<Middleware>, req: Request, res: HttpResponse, now: int,
                                final: (Request, HttpResponse) -> HttpResponse)
    ensures forall i :: 0 <= i < |chain| ==>
              Run(chain, req, res, now, final).chain[i] ==
              (if AllPass(chain[..i], req, now) then After(chain[i], req, now) else chain[i])
  {
    forall i | 0 <= i < |chain|
      ensures Run(chain, req, res, now, final).chain[i] ==
              (if AllPass(chain[..i], req, now) then After(chain[i], req, now) else chain[i])
    {
      RunUpdatesStage(chain, i, req, res, now, final);
    }
  }

  /** The same, one stage at a time, by induction on its position. */
  lemma {:induction false} RunUpdatesStage(chain: seq<Middleware>, i: nat, req: Request, res: HttpResponse, now: int,
                                           final: (Request, HttpResponse) -> HttpResponse)
    requires i < |chain|
    ensures Run(chain, req, res, now, final).chain[i] ==
            (if AllPass(chain[..i], req, now) then After(chain[i], req, now) else chain[i])
    decreases i
  {
    var m := chain[0];
    RunStep(chain, req, res, now, final);
    if i == 0 {
      assert AllPass(chain[..0], req, now);
    } else if Passes(m, req, now) {
      RunUpdatesStage(chain[1..], i - 1, req, PassedOn(m, res), now, final);
      PassingHead(chain, i, req, now);
    } else {
      assert chain[..i][0] == m;
    }
  }

  /** Once the first stage passes, a prefix passes exactly when its tail does. */
  lemma PassingHead(chain: seq<Middleware>, i: nat, req: Request, now: int)
    requires 1 <= i <= |chain| && Passes(chain[0], req, now)
    ensures AllPass(chain[..i], req, now) <==> AllPass(chain[1..][..i - 1], req, now)
  {
    assert forall j :: 1 <= j < i ==> chain[..i][j] == chain[1..][..i - 1][j - 1];
  }

  /** A request the final handler never sees was answered by the first
      stage that refused it, with that stage's status. */
  lemma {:induction false} RunStopsAtFirstRefusal(chain: seq<Middleware>, req: Request, res: HttpResponse, now: int,
                                                  final: (Request, HttpResponse) -> HttpResponse) returns (k: nat)
    requires !AllPass(chain, req, now)
    ensures k < |chain| && AllPass(chain[..k], req, now) && !Passes(chain[k], req, now)
    ensures Run(chain, req, res, now, final).response.status == StopStatus(chain[k])
    decreases |chain|
  {
    var m := chain[0];
    RunStep(chain, req, res, now, final);
    if !Passes(m, req, now) {
      k := 0;
    } else {
      var passedOn := PassedOn(m, res);
      assert !AllPass(chain[1..], req, now) by {
        var j :| 0 <= j < |chain| && !Passes(chain[j], req, now);
        assert chain[1..][j - 1] == chain[j];
      }
      var k1 := RunStopsAtFirstRefusal(chain[1..], req, passedOn, now, final);
      k := k1 + 1;
      assert forall j :: 1 <= j < k ==> chain[..k][j] == chain[1..][..k1][j - 1];
    }
  }

  /** A refused login answers 401 and nothing after the check runs. */
  lemma AuthenticationFailureStops(requireAuth: bool, rest: seq<Middleware>, req: Request, res: HttpResponse, now: int,
                                   final: (Request, HttpResponse) -> HttpResponse)
    requires !Authenticate(requireAuth, req)
    ensures Run([Authentication(requireAuth)] + rest, req, res, now, final) ==
            ChainResult([Authentication(requireAuth)] + rest, Answer(res, 401, ErrorBody(AuthRequiredMessage, 401)), false)
  {
    assert ([Authentication(requireAuth)] + rest)[1..] == rest;
  }

  /** A preflight request is answered 204 by CORS with its headers, and
      nothing after it runs. */
  lemma PreflightStops(rest: seq<Middleware>, req: Request, res: HttpResponse, now: int,
                       final: (Request, HttpResponse) -> HttpResponse)
    requires req.verb == "OPTIONS"
    ensures Run([Cors] + rest, req, res, now, final) == ChainResult([Cors] + rest, WithCorsHeaders(res).(status := 204), false)
  {
    assert ([Cors] + rest)[1..] == rest;
  }

  /** With no stage, or only stages that pass without touching the
      response, the final handler answers the request as it came in. */
  lemma PassingChainReachesHandler(chain: seq<Middleware>, req: Request, res: HttpResponse, now: int,
                                   final: (Request, HttpResponse) -> HttpResponse)
    requires AllPass(chain, req, now)
    requires forall i :: 0 <= i < |chain| ==> !chain[i].Cors?
    ensures Run(chain, req, res, now, final).handled
    ensures Run(chain, req, res, now, final).response == final(req, res)
    decreases |chain|
  {
    if |chain| > 0 {
      PassingChainReachesHandler(chain[1..], req, res, now, final);
    }
  }
}
