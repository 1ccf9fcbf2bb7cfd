/** salla.js: a stateless proxy for a front end that holds its own
    credentials. It answers CORS preflights and a health check, forwards an
    authorization-code grant or a refresh grant to the accounts service, and
    relays an arbitrary authorised call to the Salla API, mirroring the
    upstream status in every case. */
module Proxy {
  import opened Json
  import opened Strings
  import opened Platform
  import opened Http
  import opened Lib

  const TokenUrl := "https://accounts.salla.sa/oauth2/token"
  /** UTF-16 code units of a non-JSON upstream body kept in `raw`. */
  const ProxyRawLimit: nat := 500
  const MissingTokenFields := "Missing required fields: code, client_id, client_secret"
  const MissingRefreshFields := "Missing required fields"
  const MissingApiFields := "Missing url or token"
  const UnknownAction := "Unknown action. Use: ping, token, refresh, api"
  const TokenTag := "Non-JSON from Salla"
  const RefreshTag := "Non-JSON"
  const ApiTag := "Non-JSON from Salla API"

  /** `(req.body || {})[key]`: a property of the request body; anything but
      an object has none of the properties read here. */
  function BodyField(req: Incoming, key: string): Option<Json>
  {
    Get(req.body, key)
  }

  /** A JSON answer with no cookie and no upstream call. */
  function Answer(status: int, json: Json): Reaction
  {
    Reaction(status, JsonBody(json), [], [], [])
  }

  function Error(message: string): Json
  {
    Obj(map["error" := Str(message)])
  }

  /** A POST of a JSON document to the token endpoint. */
  function TokenPost(p: Primitives, document: map<string, Json>): Request
  {
    Request("POST", TokenUrl, [("Content-Type", "application/json")], Some(p.stringify(Obj(document))))
  }

  /** The authorization-code grant; a missing redirect URI is sent as ''. */
  function CodeGrant(req: Incoming): map<string, Json>
    requires Truthy(BodyField(req, "code")) && Truthy(BodyField(req, "client_id")) && Truthy(BodyField(req, "client_secret"))
  {
    map["grant_type" := Str("authorization_code"),
        "client_id" := BodyField(req, "client_id").value,
        "client_secret" := BodyField(req, "client_secret").value,
        "code" := BodyField(req, "code").value,
        "redirect_uri" := OrElse(BodyField(req, "redirect_uri"), Str(""))]
  }

  /** The refresh grant. */
  function RefreshGrant(req: Incoming): map<string, Json>
    requires Truthy(BodyField(req, "refresh_token")) && Truthy(BodyField(req, "client_id")) && Truthy(BodyField(req, "client_secret"))
  {
    map["grant_type" := Str("refresh_token"),
        "client_id" := BodyField(req, "client_id").value,
        "client_secret" := BodyField(req, "client_secret").value,
        "refresh_token" := BodyField(req, "refresh_token").value]
  }

  /** Whether the relayed call carries a body: `body && method && method !== 'GET'`. */
  predicate AttachesBody(body: Option<Json>, verb: Option<Json>)
  {
    Truthy(body) && Truthy(verb) && verb.value != Str("GET")
  }

  /** The options built for the relayed call. */
  function ApiRequest(p: Primitives, url: Json, verb: Option<Json>, token: Json, body: Option<Json>): Request
  {
    Request(JsString(OrElse(verb, Str("GET"))), JsString(url),
            [("Authorization", "Bearer " + JsString(token)),
             ("Content-Type", "application/json"),
             ("Accept", "application/json")],
            if AttachesBody(body, verb) then Some(p.stringify(body.value)) else None)
  }

  /** The answer relayed to the client: the upstream status with the parsed
      body, or with an `{error: tag, raw}` object when the body is not JSON;
      a thrown call gives 500 with the exception message. */
  function Relayed(p: Primitives, tag: string, reply: Reply): (int, Json)
  {
    match reply
    case NetworkError(m) => (500, Error(m))
    case Answer(s, text) =>
      match p.parse(text)
      case Some(v) => (s, v)
      case None => (s, NonJsonError(tag, text, ProxyRawLimit))
  }

  /** One upstream call and the relayed answer. */
  function Forward(p: Primitives, tag: string, request: Request, respond: (nat, Request) -> Reply, n: nat): Reaction
  {
    var relayed := Relayed(p, tag, respond(n, request));
    Reaction(relayed.0, JsonBody(relayed.1), [], [request], [])
  }

  /** What the handler does; `nowIso` stands for `new Date().toISOString()`
      and the upstream call, if any, is the n-th. */
  function Handle(p: Primitives, req: Incoming, nowIso: string, respond: (nat, Request) -> Reply, n: nat): Reaction
  {
    var action := Query(req, "action");
    if req.verb == "OPTIONS" then Reaction(200, NoBody, [], [], [])
    else if action == Some(Str("ping")) then
      Answer(200, Obj(map["ok" := Bool(true), "time" := Str(nowIso)]))
    else if action == Some(Str("token")) then
      if !Truthy(BodyField(req, "code")) || !Truthy(BodyField(req, "client_id")) || !Truthy(BodyField(req, "client_secret")) then
        Answer(400, Error(MissingTokenFields))
      else Forward(p, TokenTag, TokenPost(p, CodeGrant(req)), respond, n)
    else if action == Some(Str("refresh")) then
      if !Truthy(BodyField(req, "refresh_token")) || !Truthy(BodyField(req, "client_id")) || !Truthy(BodyField(req, "client_secret")) then
        Answer(400, Error(MissingRefreshFields))
      else Forward(p, RefreshTag, TokenPost(p, RefreshGrant(req)), respond, n)
    else if action == Some(Str("api")) then
      if !Truthy(BodyField(req, "url")) || !Truthy(BodyField(req, "token")) then
        Answer(400, Error(MissingApiFields))
      else
        Forward(p, ApiTag,
                ApiRequest(p, BodyField(req, "url").value, BodyField(req, "method"), BodyField(req, "token").value, BodyField(req, "body")),
                respond, n)
    else Answer(400, Error(UnknownAction))
  }

  /** A preflight is answered 200 with an empty body before the action is looked at. */
  lemma PreflightFirst(p: Primitives, req: Incoming, nowIso: string, respond: (nat, Request) -> Reply, n: nat)
    requires req.verb == "OPTIONS"
    ensures Handle(p, req, nowIso, respond, n) == Reaction(200, NoBody, [], [], [])
  {
  }

  /** The health check answers with the time and calls nothing. */
  lemma PingAnswers(p: Primitives, req: Incoming, nowIso: string, respond: (nat, Request) -> Reply, n: nat)
    requires req.verb != "OPTIONS" && Query(req, "action") == Some(Str("ping"))
    ensures var r := Handle(p, req, nowIso, respond, n);
      r.status == 200 && r.body == JsonBody(Obj(map["ok" := Bool(true), "time" := Str(nowIso)])) && r.requests == []
  {
  }

  /** The code exchange calls the token endpoint exactly when the code, the
      client id and the client secret are all present, with the grant
      carrying them and '' for a missing redirect URI; otherwise it answers
      400 and calls nothing. */
  lemma TokenAction(p: Primitives, req: Incoming, nowIso: string, respond: (nat, Request) -> Reply, n: nat)
    requires req.verb != "OPTIONS" && Query(req, "action") == Some(Str("token"))
    ensures var r := Handle(p, req, nowIso, respond, n);
      var complete := Truthy(BodyField(req, "code")) && Truthy(BodyField(req, "client_id")) && Truthy(BodyField(req, "client_secret"));
      && (!complete ==> r == Answer(400, Error(MissingTokenFields)))
      && (complete ==>
            && |r.requests| == 1
            && r.requests[0].verb == "POST" && r.requests[0].url == TokenUrl
            && r.requests[0].headers == [("Content-Type", "application/json")]
            && r.requests[0].body == Some(p.stringify(Obj(CodeGrant(req))))
            && CodeGrant(req).Keys == {"grant_type", "client_id", "client_secret", "code", "redirect_uri"}
            && CodeGrant(req)["grant_type"] == Str("authorization_code")
            && CodeGrant(req)["client_id"] == BodyField(req, "client_id").value
            && CodeGrant(req)["client_secret"] == BodyField(req, "client_secret").value
            && CodeGrant(req)["code"] == BodyField(req, "code").value
            && (!Truthy(BodyField(req, "redirect_uri")) ==> CodeGrant(req)["redirect_uri"] == Str(""))
            && (Truthy(BodyField(req, "redirect_uri")) ==> CodeGrant(req)["redirect_uri"] == BodyField(req, "redirect_uri").value))
  {
  }

  /** The refresh calls the token endpoint exactly when the refresh token,
      the client id and the client secret are all present, posting a
      refresh grant that carries exactly those three values. */
  lemma RefreshAction(p: Primitives, req: Incoming, nowIso: string, respond: (nat, Request) -> Reply, n: nat)
    requires req.verb != "OPTIONS" && Query(req, "action") == Some(Str("refresh"))
    ensures var r := Handle(p, req, nowIso, respond, n);
      var complete := Truthy(BodyField(req, "refresh_token")) && Truthy(BodyField(req, "client_id")) && Truthy(BodyField(req, "client_secret"));
      && (!complete ==> r == Answer(400, Error(MissingRefreshFields)))
      && (complete ==>
            && |r.requests| == 1
            && r.requests[0].verb == "POST" && r.requests[0].url == TokenUrl
            && r.requests[0].headers == [("Content-Type", "application/json")]
            && r.requests[0].body == Some(p.stringify(Obj(RefreshGrant(req))))
            && RefreshGrant(req).Keys == {"grant_type", "client_id", "client_secret", "refresh_token"}
            && RefreshGrant(req)["grant_type"] == Str("refresh_token")
            && RefreshGrant(req)["client_id"] == BodyField(req, "client_id").value
            && RefreshGrant(req)["client_secret"] == BodyField(req, "client_secret").value
            && RefreshGrant(req)["refresh_token"] == BodyField(req, "refresh_token").value)
  {
  }

  /** The relay calls the given URL exactly when a URL and a token are
      present, with the given method or GET, the bearer token and the JSON
      headers, and a serialised body exactly when AttachesBody allows one. */
  lemma ApiAction(p: Primitives, req: Incoming, nowIso: string, respond: (nat, Request) -> Reply, n: nat)
    requires req.verb != "OPTIONS" && Query(req, "action") == Some(Str("api"))
    ensures var r := Handle(p, req, nowIso, respond, n);
      var complete := Truthy(BodyField(req, "url")) && Truthy(BodyField(req, "token"));
      && (!complete ==> r == Answer(400, Error(MissingApiFields)))
      && (complete ==>
            && r.requests == [ApiRequest(p, BodyField(req, "url").value, BodyField(req, "method"),
                                         BodyField(req, "token").value, BodyField(req, "body"))]
            && r.requests[0].verb == JsString(OrElse(BodyField(req, "method"), Str("GET")))
            && r.requests[0].url == JsString(BodyField(req, "url").value)
            && r.requests[0].headers == [("Authorization", "Bearer " + JsString(BodyField(req, "token").value)),
                                         ("Content-Type", "application/json"),
                                         ("Accept", "application/json")]
            && (AttachesBody(BodyField(req, "body"), BodyField(req, "method")) ==>
                  r.requests[0].body == Some(p.stringify(BodyField(req, "body").value)))
            && (!AttachesBody(BodyField(req, "body"), BodyField(req, "method")) ==> r.requests[0].body == None))
  {
  }

  /** Without a method the relayed call is a GET and never carries a body. */
  lemma OmittedMethodSendsNoBody(p: Primitives, url: Json, token: Json, body: Option<Json>)
    ensures ApiRequest(p, url, None, token, body).verb == "GET"
    ensures ApiRequest(p, url, None, token, body).body == None
    ensures ApiRequest(p, url, Some(Str("")), token, body) == ApiRequest(p, url, None, token, body)
  {
  }

  /** The body rule compares with 'GET' only: GET sends none, while HEAD
      (or a lower-case 'get') with a body sends it. */
  lemma OnlyGetIsBodiless(p: Primitives, url: Json, token: Json, body: Json, verb: string)
    requires Truthy(Some(body)) && verb != ""
    ensures ApiRequest(p, url, Some(Str(verb)), token, Some(body)).verb == verb
    ensures ApiRequest(p, url, Some(Str(verb)), token, Some(body)).body.None? <==> verb == "GET"
    ensures verb != "GET" ==> ApiRequest(p, url, Some(Str(verb)), token, Some(body)).body == Some(p.stringify(body))
  {
  }

  /** Whatever the action, a call that was made has its status mirrored:
      a JSON body is passed on as parsed, any other text becomes an
      `{error, raw}` object keeping at most 500 leading UTF-16 code units, and an
      exception gives 500 with its message. */
  lemma StatusMirrored(p: Primitives, req: Incoming, nowIso: string, respond: (nat, Request) -> Reply, n: nat)
    requires |Handle(p, req, nowIso, respond, n).requests| == 1
    ensures var r := Handle(p, req, nowIso, respond, n);
      var tag := if Query(req, "action") == Some(Str("token")) then TokenTag
                 else if Query(req, "action") == Some(Str("refresh")) then RefreshTag else ApiTag;
      && Query(req, "action") in {Some(Str("token")), Some(Str("refresh")), Some(Str("api"))}
      && match respond(n, r.requests[0])
         case NetworkError(m) => r.status == 500 && r.body == JsonBody(Error(m))
         case Answer(s, text) =>
           && r.status == s
           && (p.parse(text).Some? ==> r.body == JsonBody(p.parse(text).value))
           && (p.parse(text).None? ==> r.body.JsonBody? && KeepsRawPrefix(r.body.json, tag, text, ProxyRawLimit))
  {
    var r := Handle(p, req, nowIso, respond, n);
    if respond(n, r.requests[0]).Answer? {
      var text := respond(n, r.requests[0]).text;
      NonJsonErrorKeepsRawPrefix(TokenTag, text, ProxyRawLimit);
      NonJsonErrorKeepsRawPrefix(RefreshTag, text, ProxyRawLimit);
      NonJsonErrorKeepsRawPrefix(ApiTag, text, ProxyRawLimit);
    }
  }

  /** Any other action is refused with 400 and calls nothing. */
  lemma UnknownActionRefused(p: Primitives, req: Incoming, nowIso: string, respond: (nat, Request) -> Reply, n: nat)
    requires req.verb != "OPTIONS"
    requires Query(req, "action") !in {Some(Str("ping")), Some(Str("token")), Some(Str("refresh")), Some(Str("api"))}
    ensures Handle(p, req, nowIso, respond, n) == Answer(400, Error(UnknownAction))
  {
  }
}
