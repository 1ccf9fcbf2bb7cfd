/** api/salla/test-token.js: the `/api/salla/test-token` endpoint. It asks
    the store-info resource once with the session's access token and, when
    that is refused and a refresh token is at hand, refreshes the token once
    and asks once more; the answer mirrors the last store call. */
module TestToken {
  import opened Json
  import opened Strings
  import opened Platform
  import opened Http
  import opened Lib
  import opened Refresh

  const AdminPath := "/admin/v2"
  const StoreInfoPath := "/store/info"

  /** `buildStoreInfoUrl(apiBase)`: the trailing slashes of the base are
      dropped and the admin path is added unless the base already ends with it. */
  function StoreInfoUrl(apiBase: string): (url: string)
    ensures StartsWith(url, StripTrailing(apiBase, '/'))
    ensures EndsWith(url, AdminPath + StoreInfoPath)
  {
    var base := StripTrailing(apiBase, '/');
    if EndsWith(base, AdminPath) then base + StoreInfoPath else base + AdminPath + StoreInfoPath
  }

  /** A base that already names the admin path is not given it twice: the
      URL is the base followed by the store-info path only. */
  lemma AdminPathNotDoubled(apiBase: string)
    requires EndsWith(StripTrailing(apiBase, '/'), AdminPath)
    ensures StoreInfoUrl(apiBase) == StripTrailing(apiBase, '/') + StoreInfoPath
    ensures |StoreInfoUrl(apiBase)| == |StripTrailing(apiBase, '/')| + |StoreInfoPath|
  {
  }

  /** Any other base gets the whole admin path; adding it by hand gives the same URL. */
  lemma AdminPathAdded(apiBase: string)
    requires !EndsWith(StripTrailing(apiBase, '/'), AdminPath)
    ensures StoreInfoUrl(apiBase) == StripTrailing(apiBase, '/') + AdminPath + StoreInfoPath
    ensures |StoreInfoUrl(apiBase)| == |StripTrailing(apiBase, '/')| + |AdminPath + StoreInfoPath|
    ensures StoreInfoUrl(StripTrailing(apiBase, '/') + AdminPath) == StoreInfoUrl(apiBase)
  {
    var base := StripTrailing(apiBase, '/');
    var withAdmin := base + AdminPath;
    assert withAdmin[|withAdmin| - 1] == '2';
    assert StripTrailing(withAdmin, '/') == withAdmin;
    assert withAdmin[|withAdmin| - |AdminPath|..] == AdminPath;
  }

  /** Trailing slashes on the input never change the URL. */
  lemma TrailingSlashesIgnored(apiBase: string, slashes: string)
    requires forall k :: 0 <= k < |slashes| ==> slashes[k] == '/'
    ensures StoreInfoUrl(apiBase + slashes) == StoreInfoUrl(apiBase)
  {
    StripTrailingMore(apiBase, '/', slashes);
  }

  /** An empty base gives the bare path. */
  lemma EmptyBase()
    ensures StoreInfoUrl("") == AdminPath + StoreInfoPath
  {
  }

  /** The GET `callStore` sends. */
  function StoreRequest(config: Config, token: Json): Request
  {
    Request("GET", StoreInfoUrl(config.apiBase), BearerHeaders(token), None)
  }

  /** `callStore(config, token)` as the n-th call: one request, no pause. */
  function StoreCall(p: Primitives, respond: (nat, Request) -> Reply, n: nat, config: Config, token: Json): Run<Upstream>
  {
    Run(Receive(p, respond(n, StoreRequest(config, token))), [StoreRequest(config, token)], [])
  }

  /** The calls from the token request on, the token request being the k-th
      call: the refresh, then the store call with the granted token. */
  function StoreRefresh(p: Primitives, config: Config, session: Json, now: int,
                        respond: (nat, Request) -> Reply, k: nat, firstResult: Outcome<Upstream>): Coordinated<Upstream>
  {
    var refresh := Receive(p, respond(k, RefreshRequest(p, config, session)));
    var second := StoreCall(p, respond, k + 1, config, GrantedToken(refresh));
    AfterRefusal(p, config, session, now, firstResult, refresh, second)
  }

  /** The calls once the first store call is over, the k-th call being the next. */
  function CallsAfter(p: Primitives, config: Config, session: Json, now: int,
                      respond: (nat, Request) -> Reply, first: Run<Upstream>, k: nat): Coordinated<Upstream>
  {
    Coordinate(first, Attempted(first, first.result.Ok? && Refused(first.result.value), session),
               StoreRefresh(p, config, session, now, respond, k, first.result))
  }

  /** All upstream calls of the handler from the n-th call on. */
  function StoreCalls(p: Primitives, config: Config, session: Json, now: int,
                      respond: (nat, Request) -> Reply, n: nat): Coordinated<Upstream>
  {
    CallsAfter(p, config, session, now, respond, StoreCall(p, respond, n, config, AccessToken(session)), n + 1)
  }

  /** StoreCalls split after the first store call, the k-th call being the next. */
  lemma StoreCallsSplit(p: Primitives, config: Config, session: Json, now: int,
                        respond: (nat, Request) -> Reply, n: nat, k: nat)
    requires k == n + 1
    ensures StoreCalls(p, config, session, now, respond, n)
         == CallsAfter(p, config, session, now, respond, StoreCall(p, respond, n, config, AccessToken(session)), k)
  {
  }

  /** The status and payload sent once the calls are over. */
  function StoreAnswer(result: Outcome<Upstream>, id: string): (int, Body)
  {
    match result
    case Thrown(e) => (500, JsonBody(Message(e, id)))
    case Ok(u) => (u.status, JsonBody(Obj(map["status" := Num(u.status), "body" := u.body, "debug_id" := Str(id)])))
  }

  /** The handler once a connected session is at hand. */
  function ConnectedStore(p: Primitives, config: Config, session: Json, id: string, now: int,
                          respond: (nat, Request) -> Reply, n: nat): Reaction
  {
    var c := StoreCalls(p, config, session, now, respond, n);
    var a := StoreAnswer(c.result, id);
    Reaction(a.0, a.1, SessionCookies(p, config, c.written), c.requests, c.delays)
  }

  /** The whole handler for one request; the n-th call is its first. */
  function Endpoint(p: Primitives, config: Config, req: Incoming, id: string, now: int,
                    respond: (nat, Request) -> Reply, n: nat): Reaction
  {
    if req.verb == "OPTIONS" then Reaction(200, NoBody, [], [], [])
    else if config.appSecret == "" then Reaction(500, JsonBody(Message("Missing APP_SESSION_SECRET", id)), [], [], [])
    else
      var session := StoredPayload(p, config.appSecret, req.cookie, SessionCookie);
      if session.None? || !Truthy(Field(session.value, "access_token")) then
        Reaction(401, JsonBody(Message("Not connected. Connect first.", id)), [], [], [])
      else ConnectedStore(p, config, session.value, id, now, respond, n)
  }

  /** No upstream call and no cookie before the session is known to be
      connected: OPTIONS, a missing app secret, a missing session or token. */
  lemma EndpointGuards(p: Primitives, config: Config, req: Incoming, id: string, now: int,
                       respond: (nat, Request) -> Reply, n: nat)
    ensures var r := Endpoint(p, config, req, id, now, respond, n);
      var session := StoredPayload(p, config.appSecret, req.cookie, SessionCookie);
      && (req.verb == "OPTIONS" ==> r == Reaction(200, NoBody, [], [], []))
      && (req.verb != "OPTIONS" && config.appSecret == "" ==> r.status == 500 && r.requests == [] && r.cookies == [])
      && (req.verb != "OPTIONS" && config.appSecret != ""
          && (session.None? || !Truthy(Field(session.value, "access_token"))) ==>
            r.status == 401 && r.requests == [] && r.cookies == [])
  {
  }

  /** callStore runs at most twice: first with the stored token, and a
      second time only after the one token request granted a new token,
      which it then uses. There is never a pause. */
  lemma AtMostTwoStoreCalls(p: Primitives, config: Config, session: Json, now: int,
                            respond: (nat, Request) -> Reply, n: nat)
    ensures var c := StoreCalls(p, config, session, now, respond, n);
      var first := Receive(p, respond(n, StoreRequest(config, AccessToken(session))));
      var refresh := Receive(p, respond(n + 1, RefreshRequest(p, config, session)));
      var attempted := first.Ok? && Refused(first.value) && HasRefreshToken(session);
      var granted := attempted && refresh.Ok? && Granted(refresh.value);
      && 1 <= |c.requests| <= 3
      && c.requests[0] == StoreRequest(config, AccessToken(session))
      && (|c.requests| >= 2 <==> attempted)
      && (|c.requests| >= 2 ==> c.requests[1] == RefreshRequest(p, config, session))
      && (|c.requests| == 3 <==> granted)
      && (granted ==> c.requests[2] == StoreRequest(config, AccessToken(refresh.value.body)))
      && c.delays == []
      && (c.written.Some? <==> granted)
  {
  }

  /** The status sent is the status of the last store call made (the first
      one when no new token was granted), or 500 when a call threw. */
  lemma StatusOfLastStoreCall(p: Primitives, config: Config, session: Json, id: string, now: int,
                              respond: (nat, Request) -> Reply, n: nat)
    ensures var c := StoreCalls(p, config, session, now, respond, n);
      var r := ConnectedStore(p, config, session, id, now, respond, n);
      var last := if |c.requests| == 3 then 2 else 0;
      && 0 <= last < |c.requests|
      && (c.result.Ok? ==> c.result == Receive(p, respond(n + last, c.requests[last])) && r.status == c.result.value.status)
      && (c.result.Thrown? ==> r.status == 500)
  {
    AtMostTwoStoreCalls(p, config, session, now, respond, n);
  }

  /** A granted refresh: the token request, then the store call with the granted token. */
  lemma StoreRefreshGranted(p: Primitives, config: Config, session: Json, now: int,
                            respond: (nat, Request) -> Reply, k: nat, m: nat, firstResult: Outcome<Upstream>, refreshed: Upstream)
    requires m == k + 1
    requires Receive(p, respond(k, RefreshRequest(p, config, session))) == Ok(refreshed) && Granted(refreshed)
    ensures var second := StoreCall(p, respond, m, config, AccessToken(refreshed.body));
      StoreRefresh(p, config, session, now, respond, k, firstResult)
        == Coordinated(second.result, [RefreshRequest(p, config, session)] + second.requests, second.delays,
                       Some(RefreshedSession(session, refreshed.body, now)))
  {
    var refresh := Receive(p, respond(k, RefreshRequest(p, config, session)));
    assert GrantedToken(refresh) == AccessToken(refreshed.body);
  }

  /** `callStore(config, token)`. */
  method CallStore(net: Network, p: Primitives, config: Config, token: Json) returns (upstream: Outcome<Upstream>)
    modifies net
    ensures var r := StoreCall(p, net.respond, |old(net.log)|, config, token);
      upstream == r.result && net.log == old(net.log) + r.requests && net.sleeps == old(net.sleeps)
  {
    var reply := net.Fetch(StoreRequest(config, token));
    upstream := Receive(p, reply);
  }

  /** The refresh block after a refused store call. */
  method RefreshAndRecall(net: Network, res: Response, p: Primitives, config: Config, session: Json, now: int,
                          firstResult: Outcome<Upstream>)
    returns (upstream: Outcome<Upstream>)
    modifies net, res
    ensures var c := StoreRefresh(p, config, session, now, net.respond, |old(net.log)|, firstResult);
      && upstream == c.result
      && net.log == old(net.log) + c.requests && c.delays == [] && net.sleeps == old(net.sleeps)
      && res.setCookie == WithCookies(old(res.setCookie), SessionCookies(p, config, c.written))
      && res.status == old(res.status) && res.body == old(res.body)
  {
    ghost var k := |net.log|;
    WithOneCookie(res.setCookie, "");
    var refreshed := TokenRequest(net, p, config, RefreshFields(config, session));
    if refreshed.Thrown? {
      upstream := Thrown(refreshed.message);
      return;
    }
    if !Granted(refreshed.value) {
      upstream := firstResult;
      return;
    }
    StoreRefreshGranted(p, config, session, now, net.respond, k, |net.log|, firstResult, refreshed.value);
    var updated := RefreshedSession(session, refreshed.value.body, now);
    WithOneCookie(res.setCookie, SessionDirective(p, config, updated));
    WriteSession(res, p, config, updated);
    ghost var log := net.log;
    upstream := CallStore(net, p, config, AccessToken(refreshed.value.body));
    Regroup(old(net.log), [RefreshRequest(p, config, session)], net.log[|log|..]);
  }

  /** The first store call and, when it was refused, the refresh block. */
  method StoreCoordinated(net: Network, res: Response, p: Primitives, config: Config, session: Json, now: int)
    returns (upstream: Outcome<Upstream>)
    modifies net, res
    ensures var c := StoreCalls(p, config, session, now, net.respond, |old(net.log)|);
      && upstream == c.result
      && net.log == old(net.log) + c.requests && c.delays == [] && net.sleeps == old(net.sleeps)
      && res.setCookie == WithCookies(old(res.setCookie), SessionCookies(p, config, c.written))
      && res.status == old(res.status) && res.body == old(res.body)
  {
    ghost var n := |net.log|;
    WithOneCookie(res.setCookie, "");
    upstream := CallStore(net, p, config, AccessToken(session));
    ghost var first := StoreCall(p, net.respond, n, config, AccessToken(session));
    StoreCallsSplit(p, config, session, now, net.respond, n, |net.log|);
    if upstream.Ok? && Refused(upstream.value) && HasRefreshToken(session) {
      ghost var k := |net.log|;
      upstream := RefreshAndRecall(net, res, p, config, session, now, upstream);
      ghost var tail := StoreRefresh(p, config, session, now, net.respond, k, first.result);
      Regroup(old(net.log), first.requests, tail.requests);
    }
  }

  method HandleConnected(net: Network, res: Response, p: Primitives, config: Config, session: Json, id: string, now: int)
    modifies net, res
    ensures var r := ConnectedStore(p, config, session, id, now, net.respond, |old(net.log)|);
      && res.status == r.status && res.body == r.body
      && res.setCookie == WithCookies(old(res.setCookie), r.cookies)
      && net.log == old(net.log) + r.requests && net.sleeps == old(net.sleeps) + r.delays
  {
    var upstream := StoreCoordinated(net, res, p, config, session, now);
    match upstream
    case Thrown(e) =>
      res.Send(500, JsonBody(Message(e, id)));
    case Ok(u) =>
      res.Send(u.status, JsonBody(Obj(map["status" := Num(u.status), "body" := u.body, "debug_id" := Str(id)])));
  }

  /** The handler. */
  method Handle(net: Network, res: Response, p: Primitives, config: Config, req: Incoming, id: string, now: int)
    modifies net, res
    ensures var r := Endpoint(p, config, req, id, now, net.respond, |old(net.log)|);
      && res.status == r.status && res.body == r.body
      && res.setCookie == WithCookies(old(res.setCookie), r.cookies)
      && net.log == old(net.log) + r.requests && net.sleeps == old(net.sleeps) + r.delays
  {
    WithOneCookie(res.setCookie, "");
    if req.verb == "OPTIONS" {
      res.Send(200, NoBody);
      return;
    }
    if config.appSecret == "" {
      res.Send(500, JsonBody(Message("Missing APP_SESSION_SECRET", id)));
      return;
    }
    var session := ReadSession(p, config, req.cookie);
    if session.None? || !Truthy(Field(session.value, "access_token")) {
      res.Send(401, JsonBody(Message("Not connected. Connect first.", id)));
      return;
    }
    HandleConnected(net, res, p, config, session.value, id, now);
  }
}
