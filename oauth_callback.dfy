/** api/oauth/callback.js: the end of the authorization-code flow. The
    handler checks the settings, the `code` and the `state` nonce against
    the state cookie, exchanges the code for tokens, and answers every
    outcome with a redirect to the front page carrying a fixed reason. */
module OAuthCallback {
  import opened Json
  import opened Strings
  import opened Platform
  import opened Http
  import opened Lib
  import opened Refresh
  import opened OAuthStart

  const SuccessUrl := "/?oauth=success"
  const ErrorPrefix := "/?oauth=error&reason="
  const MissingEnvReason := "missing_env"
  const MissingCodeReason := "missing_code"
  const InvalidStateReason := "invalid_state"
  const ExchangeFailedReason := "token_exchange_failed"
  const ExchangeExceptionReason := "exchange_exception"
  /** UTF-16 code units of the serialised token answer kept in `detail`. */
  const DetailLimit: nat := 120

  /** Every setting the callback needs is non-empty. */
  predicate CallbackConfigured(config: Config)
  {
    && config.clientId != "" && config.clientSecret != "" && config.redirectUri != ""
    && config.accountsBase != "" && config.appSecret != ""
  }

  /** `a === b` for a value parsed from the state cookie and one from the
      query: equal primitives; two objects or arrays are never the same one. */
  predicate StrictEquals(a: Json, b: Option<Json>)
  {
    b.Some? && !a.Arr? && !a.Obj? && a == b.value
  }

  /** The stored state is truthy, holds a truthy nonce, and that nonce is the incoming one. */
  predicate StateAccepted(stored: Option<Json>, incoming: Option<Json>)
  {
    Truthy(stored) && Truthy(Get(stored, "state")) && StrictEquals(Get(stored, "state").value, incoming)
  }

  /** The form fields of the authorization-code grant. */
  function CodeFields(config: Config, code: Json): seq<(string, string)>
  {
    [("grant_type", "authorization_code"),
     ("client_id", config.clientId),
     ("client_secret", config.clientSecret),
     ("redirect_uri", config.redirectUri),
     ("code", JsString(code))]
  }

  /** The session the callback writes from a granted token answer. */
  function NewSession(granted: Json, now: int): Json
  {
    Obj(map[
      "access_token" := OrElse(Field(granted, "access_token"), Null),
      "refresh_token" := OrElse(Field(granted, "refresh_token"), Str("")),
      "token_type" := OrElse(Field(granted, "token_type"), Str("Bearer")),
      "expires_in" := OrElse(Field(granted, "expires_in"), Null),
      "updated_at" := Num(now)])
  }

  /** The token answer grants an access token. */
  predicate Exchanged(u: Upstream)
  {
    u.status < 400 && Truthy(Some(u.body)) && Truthy(Field(u.body, "access_token"))
  }

  /** `JSON.stringify(token.body || {})`. */
  function Serialised(p: Primitives, body: Json): string
  {
    p.stringify(OrElse(Some(body), Obj(map[])))
  }

  /** `encodeURIComponent` throws a URIError: `.slice(0, 120)` cut a
      surrogate pair of the serialised answer and left a lone surrogate. */
  predicate DetailThrows(p: Primitives, body: Json)
  {
    SplitsPair(Serialised(p, body), DetailLimit)
  }

  /** `encodeURIComponent(JSON.stringify(token.body || {}).slice(0, 120))`,
      when it does not throw. */
  function Detail(p: Primitives, body: Json): string
  {
    p.uriEncode(Slice(Serialised(p, body), DetailLimit))
  }

  /** The token answer is refused and building its detail throws, so the
      catch block runs after the refusal branch has cleared the state. */
  predicate RefusedDetailThrows(p: Primitives, token: Outcome<Upstream>)
  {
    token.Ok? && !Exchanged(token.value) && DetailThrows(p, token.value.body)
  }

  function ErrorUrl(reason: string): string
  {
    ErrorPrefix + reason
  }

  /** The cookie directive `clearState` appends. */
  function StateClearing(config: Config): string
  {
    ClearCookie(config.production, StateCookie)
  }

  /** The redirect and cookies once the token endpoint answered (or threw).
      A refusal whose detail throws has already cleared the state when the
      catch block clears it again. */
  function AfterExchange(p: Primitives, config: Config, token: Outcome<Upstream>, now: int): (Body, seq<string>)
  {
    match token
    case Thrown(_) => (Redirect(ErrorUrl(ExchangeExceptionReason)), [StateClearing(config)])
    case Ok(u) =>
      if !Exchanged(u) then
        if DetailThrows(p, u.body) then
          (Redirect(ErrorUrl(ExchangeExceptionReason)), [StateClearing(config), StateClearing(config)])
        else (Redirect(ErrorUrl(ExchangeFailedReason) + "&detail=" + Detail(p, u.body)), [StateClearing(config)])
      else (Redirect(SuccessUrl), [SessionDirective(p, config, NewSession(u.body, now)), StateClearing(config)])
  }

  /** The handler for one request; the token request, if any, is the n-th call. */
  function Callback(p: Primitives, config: Config, req: Incoming, now: int, respond: (nat, Request) -> Reply, n: nat): Reaction
  {
    var code := Query(req, "code");
    if !CallbackConfigured(config) then Reaction(302, Redirect(ErrorUrl(MissingEnvReason)), [], [], [])
    else if !Truthy(code) then Reaction(302, Redirect(ErrorUrl(MissingCodeReason)), [], [], [])
    else Checked(p, config, code.value, StoredPayload(p, config.appSecret, req.cookie, StateCookie), Query(req, "state"), now, respond, n)
  }

  /** The handler past its setting and code checks, for the state read from
      the state cookie and the incoming `state` parameter. */
  function Checked(p: Primitives, config: Config, code: Json, stored: Option<Json>, incoming: Option<Json>,
                   now: int, respond: (nat, Request) -> Reply, n: nat): Reaction
  {
    if !StateAccepted(stored, incoming) then
      Reaction(302, Redirect(ErrorUrl(InvalidStateReason)), [StateClearing(config)], [], [])
    else
      var tokenRequest := TokenRequestFor(p, config, CodeFields(config, code));
      var after := AfterExchange(p, config, Receive(p, respond(n, tokenRequest)), now);
      Reaction(302, after.0, after.1, [tokenRequest], [])
  }

  /** With the settings in place and a code present, the handler is the state check. */
  lemma CallbackChecks(p: Primitives, config: Config, req: Incoming, now: int, respond: (nat, Request) -> Reply, n: nat)
    requires CallbackConfigured(config) && Truthy(Query(req, "code"))
    ensures Callback(p, config, req, now, respond, n)
         == Checked(p, config, Query(req, "code").value, StoredPayload(p, config.appSecret, req.cookie, StateCookie),
                    Query(req, "state"), now, respond, n)
  {
  }

  /** The redirect target of a reaction. */
  function Location(r: Reaction): string
  {
    if r.body.Redirect? then r.body.location else ""
  }

  /** The three early exits: missing settings and a missing code touch no
      cookie; a rejected state only clears the state cookie. None of them
      calls the token endpoint. */
  lemma EarlyExits(p: Primitives, config: Config, req: Incoming, now: int, respond: (nat, Request) -> Reply, n: nat)
    ensures var r := Callback(p, config, req, now, respond, n);
      var stored := StoredPayload(p, config.appSecret, req.cookie, StateCookie);
      && r.status == 302 && r.body.Redirect?
      && (!CallbackConfigured(config) ==> Location(r) == ErrorUrl(MissingEnvReason) && r.cookies == [] && r.requests == [])
      && (CallbackConfigured(config) && !Truthy(Query(req, "code")) ==>
            Location(r) == ErrorUrl(MissingCodeReason) && r.cookies == [] && r.requests == [])
      && (CallbackConfigured(config) && Truthy(Query(req, "code")) && !StateAccepted(stored, Query(req, "state")) ==>
            Location(r) == ErrorUrl(InvalidStateReason) && r.cookies == [StateClearing(config)] && r.requests == [])
  {
  }

  /** Past the checks, exactly one request is made: the authorization-code
      grant with the received code and the configured redirect URI. */
  lemma ExchangeRequest(p: Primitives, config: Config, req: Incoming, now: int, respond: (nat, Request) -> Reply, n: nat)
    requires CallbackConfigured(config) && Truthy(Query(req, "code"))
    requires StateAccepted(StoredPayload(p, config.appSecret, req.cookie, StateCookie), Query(req, "state"))
    ensures var r := Callback(p, config, req, now, respond, n);
      && r.requests == [TokenRequestFor(p, config, CodeFields(config, Query(req, "code").value))]
      && r.requests[0].url == config.accountsBase + "/oauth2/token"
      && r.delays == []
  {
  }

  /** The outcomes of the exchange: a thrown call only clears the state; a
      refused grant clears the state and redirects with the detail, which
      reads back as the first 120 code units of the serialised answer (of
      `{}` for a falsy body), unless the cut splits a surrogate pair, in
      which case the state is cleared a second time and the redirect is
      `exchange_exception`; a granted one writes the session and then
      clears the state. */
  lemma ExchangeOutcomes(p: Primitives, config: Config, token: Outcome<Upstream>, now: int)
    requires Lawful(p)
    ensures var after := AfterExchange(p, config, token, now);
      var serialised := if token.Ok? then p.stringify(if Truthy(Some(token.value.body)) then token.value.body else Obj(map[])) else "";
      && (token.Thrown? ==> after == (Redirect(ErrorUrl(ExchangeExceptionReason)), [StateClearing(config)]))
      && (token.Ok? && !Exchanged(token.value) && SplitsPair(serialised, DetailLimit) ==>
            after == (Redirect(ErrorUrl(ExchangeExceptionReason)), [StateClearing(config), StateClearing(config)]))
      && (token.Ok? && !Exchanged(token.value) && !SplitsPair(serialised, DetailLimit) ==>
            && after.1 == [StateClearing(config)]
            && after.0.Redirect?
            && StartsWith(after.0.location, ErrorUrl(ExchangeFailedReason) + "&detail=")
            && var detail := p.uriDecode(after.0.location[|ErrorUrl(ExchangeFailedReason) + "&detail="|..]);
            && StartsWith(serialised, detail)
            && Utf16Length(detail) == (if Utf16Length(serialised) <= DetailLimit then Utf16Length(serialised) else DetailLimit))
      && (token.Ok? && Exchanged(token.value) ==>
            after == (Redirect(SuccessUrl), [SessionDirective(p, config, NewSession(token.value.body, now)), StateClearing(config)]))
  {
    if token.Ok? && !Exchanged(token.value) && !DetailThrows(p, token.value.body) {
      var head := ErrorUrl(ExchangeFailedReason) + "&detail=";
      var detail := Detail(p, token.value.body);
      assert (head + detail)[|head|..] == detail;
      SliceExact(Serialised(p, token.value.body), DetailLimit);
    }
  }

  /** The refusal path really throws: an answer whose serialisation has 119
      code units of the Basic Multilingual Plane followed by a character
      beyond it (an emoji, say) has its pair cut by `.slice(0, 120)`, and
      the state is cleared twice before the `exchange_exception` redirect. */
  lemma DoubleClearingReachable(p: Primitives, config: Config, u: Upstream, now: int, bmp: string, astral: char)
    requires !Exchanged(u)
    requires |bmp| == 119 && (forall k :: 0 <= k < |bmp| ==> Units(bmp[k]) == 1) && Units(astral) == 2
    requires Serialised(p, u.body) == bmp + [astral]
    ensures AfterExchange(p, config, Ok(u), now)
         == (Redirect(ErrorUrl(ExchangeExceptionReason)), [StateClearing(config), StateClearing(config)])
  {
    SliceStopsBeforePair(bmp, astral, DetailLimit);
  }

  /** The session written after a granted exchange: the granted access
      token, the refresh token or '', the token type or 'Bearer', the expiry
      or null, and the time of the write. */
  lemma NewSessionDefaults(granted: Json, now: int)
    requires Truthy(Field(granted, "access_token"))
    ensures var s := NewSession(granted, now);
      && Field(s, "access_token") == Field(granted, "access_token")
      && Field(s, "refresh_token") == Or(Field(granted, "refresh_token"), Some(Str("")))
      && Field(s, "token_type") == Or(Field(granted, "token_type"), Some(Str("Bearer")))
      && Field(s, "expires_in") == Or(Field(granted, "expires_in"), Some(Null))
      && Field(s, "updated_at") == Some(Num(now))
      && s.fields.Keys == {"access_token", "refresh_token", "token_type", "expires_in", "updated_at"}
  {
  }

  /** How many times a directive occurs. */
  function Occurrences(cookies: seq<string>, d: string): nat
  {
    if cookies == [] then 0
    else Occurrences(cookies[..|cookies| - 1], d) + (if cookies[|cookies| - 1] == d then 1 else 0)
  }

  /** A lone directive occurs once. */
  lemma OccursOnce(c: string)
    ensures Occurrences([c], c) == 1
  {
    assert [c][..0] == [];
  }

  /** A directive after a different one occurs once. */
  lemma OccursOnceAfter(d: string, c: string)
    requires d != c
    ensures Occurrences([d, c], c) == 1
  {
    assert [d][..0] == [];
    assert Occurrences([d], c) == 0;
    assert [d, c][..1] == [d];
  }

  /** Two clearings in a row occur twice. */
  lemma OccursTwice(c: string)
    ensures Occurrences([c, c], c) == 2
  {
    assert [c, c][..1] == [c];
    OccursOnce(c);
  }

  /** After the exchange, whatever its outcome, the state cookie is cleared
      as the last cookie write: once, or twice when a refusal's detail
      throws. */
  lemma ExchangeClearsStateLast(p: Primitives, config: Config, token: Outcome<Upstream>, now: int)
    ensures var cookies := AfterExchange(p, config, token, now).1;
      && |cookies| >= 1
      && cookies[|cookies| - 1] == StateClearing(config)
      && Occurrences(cookies, StateClearing(config)) == (if RefusedDetailThrows(p, token) then 2 else 1)
  {
    var c := StateClearing(config);
    if RefusedDetailThrows(p, token) {
      OccursTwice(c);
    } else if token.Ok? && Exchanged(token.value) {
      var session := NewSession(token.value.body, now);
      SessionDirectiveIsNotStateClearing(p, config.production,
        EncodeSignedPayload(p, config.appSecret, session), SessionMaxAge, config.production);
      OccursOnceAfter(SessionDirective(p, config, session), c);
    } else {
      OccursOnce(c);
    }
  }

  /** Every path that reaches the state check clears the state cookie as
      its last cookie write: exactly once, except after a refused exchange
      whose detail throws, where it is cleared twice. */
  lemma StateClearedLast(p: Primitives, config: Config, code: Json, stored: Option<Json>, incoming: Option<Json>,
                         now: int, respond: (nat, Request) -> Reply, n: nat)
    ensures var r := Checked(p, config, code, stored, incoming, now, respond, n);
      var token := Receive(p, respond(n, TokenRequestFor(p, config, CodeFields(config, code))));
      && |r.cookies| >= 1
      && r.cookies[|r.cookies| - 1] == StateClearing(config)
      && Occurrences(r.cookies, StateClearing(config)) == (if StateAccepted(stored, incoming) && RefusedDetailThrows(p, token) then 2 else 1)
  {
    if StateAccepted(stored, incoming) {
      var tokenRequest := TokenRequestFor(p, config, CodeFields(config, code));
      ExchangeClearsStateLast(p, config, Receive(p, respond(n, tokenRequest)), now);
    } else {
      assert [StateClearing(config)][..0] == [];
    }
  }

  /** A stored `{state, at}` with a non-empty nonce accepts exactly that nonce
      as a string. */
  lemma AcceptsOnlyItsNonce(state: string, at: int, incoming: Option<Json>)
    requires state != ""
    ensures StateAccepted(Some(StatePayload(state, at)), incoming) <==> incoming == Some(Str(state))
  {
  }

  /** The nonce that start.js put into the authorization URL and the state
      cookie is accepted when the browser comes back with both, and any
      other value is refused. */
  lemma StartedFlowAccepted(p: Primitives, config: Config, random: seq<Byte>, at: int, incoming: Option<Json>)
    requires Lawful(p) && StartConfigured(config) && |random| == NonceBytes
    ensures var r := Start(p, config, random, at);
      var stored := StoredPayload(p, config.appSecret, Some(EchoedCookie(r.cookies[0])), StateCookie);
      StateAccepted(stored, incoming) <==> incoming == Some(Str(Hex(random)))
  {
    CookieKeepsState(p, config, random, at);
    NonceShape(random);
    AcceptsOnlyItsNonce(Hex(random), at, incoming);
  }

  /** The try block: the exchange and the writes that follow it. */
  method Exchange(net: Network, res: Response, p: Primitives, config: Config, code: Json, now: int)
    modifies net, res
    ensures var token := Receive(p, net.respond(|old(net.log)|, TokenRequestFor(p, config, CodeFields(config, code))));
      var after := AfterExchange(p, config, token, now);
      && res.status == 302 && res.body == after.0
      && res.setCookie == WithCookies(old(res.setCookie), after.1)
      && net.log == old(net.log) + [TokenRequestFor(p, config, CodeFields(config, code))] && net.sleeps == old(net.sleeps)
  {
    var token := TokenRequest(net, p, config, CodeFields(config, code));
    WithOneCookie(old(res.setCookie), StateClearing(config));
    if token.Thrown? {
      ClearState(res, config.production);
      res.Send(302, Redirect(ErrorUrl(ExchangeExceptionReason)));
      return;
    }
    var u := token.value;
    if u.status >= 400 || !Truthy(Some(u.body)) || !Truthy(Field(u.body, "access_token")) {
      ClearState(res, config.production);
      if SplitsPair(p.stringify(OrElse(Some(u.body), Obj(map[]))), DetailLimit) {
        // encodeURIComponent throws on the lone surrogate; the catch block runs
        WithTwoCookies(old(res.setCookie), StateClearing(config), StateClearing(config));
        ClearState(res, config.production);
        res.Send(302, Redirect(ErrorUrl(ExchangeExceptionReason)));
        return;
      }
      res.Send(302, Redirect(ErrorUrl(ExchangeFailedReason) + "&detail=" + Detail(p, u.body)));
      return;
    }
    WithTwoCookies(old(res.setCookie), SessionDirective(p, config, NewSession(u.body, now)), StateClearing(config));
    WriteSession(res, p, config, NewSession(u.body, now));
    ClearState(res, config.production);
    res.Send(302, Redirect(SuccessUrl));
  }

  /** The state check and what follows it. */
  method CheckState(net: Network, res: Response, p: Primitives, config: Config, code: Json,
                    stored: Option<Json>, incoming: Option<Json>, now: int)
    modifies net, res
    ensures var r := Checked(p, config, code, stored, incoming, now, net.respond, |old(net.log)|);
      && res.status == r.status && res.body == r.body
      && res.setCookie == WithCookies(old(res.setCookie), r.cookies)
      && net.log == old(net.log) + r.requests && net.sleeps == old(net.sleeps) + r.delays
  {
    if !StateAccepted(stored, incoming) {
      WithOneCookie(res.setCookie, StateClearing(config));
      ClearState(res, config.production);
      res.Send(302, Redirect(ErrorUrl(InvalidStateReason)));
      return;
    }
    Exchange(net, res, p, config, code, now);
  }

  /** The handler; `now` stands for `Date.now()`. */
  method Handle(net: Network, res: Response, p: Primitives, config: Config, req: Incoming, now: int)
    modifies net, res
    ensures var r := Callback(p, config, req, now, net.respond, |old(net.log)|);
      && res.status == r.status && res.body == r.body
      && res.setCookie == WithCookies(old(res.setCookie), r.cookies)
      && net.log == old(net.log) + r.requests && net.sleeps == old(net.sleeps) + r.delays
  {
    WithOneCookie(res.setCookie, "");
    var code := Query(req, "code");
    if config.clientId == "" || config.clientSecret == "" || config.redirectUri == ""
       || config.accountsBase == "" || config.appSecret == "" {
      res.Send(302, Redirect(ErrorUrl(MissingEnvReason)));
      return;
    }
    if !Truthy(code) {
      res.Send(302, Redirect(ErrorUrl(MissingCodeReason)));
      return;
    }
    CallbackChecks(p, config, req, now, net.respond, |net.log|);
    var stored := ReadState(p, config, req.cookie);
    CheckState(net, res, p, config, code.value, stored, Query(req, "state"), now);
  }
}
