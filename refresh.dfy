/** The token-refresh coordination that api/salla.js, api/salla/products.js
    and api/salla/test-token.js each repeat around their upstream calls:
    run once with the stored access token; if that was refused and the
    session holds a refresh token, ask the token endpoint once; if it grants
    a new access token, rewrite the session cookie and run once more with it. */
module Refresh {
  import opened Json
  import opened Platform
  import opened Http
  import opened Lib

  /** A run of upstream calls: its outcome (or the exception that ended it),
      every request it sent and every pause it took, in order. */
  datatype Run<+R> = Run(result: Outcome<R>, requests: seq<Request>, delays: seq<nat>)

  /** The calls of a whole handler after the coordination, and the session
      it rewrote, if any. */
  datatype Coordinated<+R> = Coordinated(result: Outcome<R>, requests: seq<Request>, delays: seq<nat>, written: Option<Json>)

  /** `session.refresh_token` is truthy. */
  predicate HasRefreshToken(session: Json)
  {
    Truthy(Field(session, "refresh_token"))
  }

  /** `v.access_token`, which the handlers have already checked to be truthy. */
  function AccessToken(v: Json): Json
  {
    match Field(v, "access_token")
    case Some(t) => t
    case None => Null
  }

  /** The form fields of a refresh-token grant. */
  function RefreshFields(config: Config, session: Json): seq<(string, string)>
  {
    [("grant_type", "refresh_token"),
     ("refresh_token", JsStringOf(Field(session, "refresh_token"))),
     ("client_id", config.clientId),
     ("client_secret", config.clientSecret)]
  }

  /** The upstream refused the access token: 401 or 403. */
  predicate Refused(u: Upstream)
  {
    u.status == 401 || u.status == 403
  }

  /** `refreshed.status < 400 && refreshed.body && refreshed.body.access_token`. */
  predicate Granted(refreshed: Upstream)
  {
    refreshed.status < 400 && Truthy(Some(refreshed.body)) && Truthy(Field(refreshed.body, "access_token"))
  }

  /** The own properties a spread `{...v}` copies. */
  function FieldsOf(v: Json): map<string, Json>
  {
    if v.Obj? then v.fields else map[]
  }

  /** `{...fields, key: v}`; an undefined value is dropped by JSON.stringify. */
  function Put(fields: map<string, Json>, key: string, v: Option<Json>): map<string, Json>
  {
    if v.Some? then fields[key := v.value] else fields - {key}
  }

  /** `{...session, access_token, refresh_token: granted || stored, updated_at: now}`. */
  function RefreshedSession(session: Json, granted: Json, now: int): Json
  {
    var fields := Put(FieldsOf(session), "access_token", Field(granted, "access_token"));
    var fields := Put(fields, "refresh_token", Or(Field(granted, "refresh_token"), Field(session, "refresh_token")));
    Obj(fields["updated_at" := Num(now)])
  }

  /** The refresh-token grant the handlers send. */
  function RefreshRequest(p: Primitives, config: Config, session: Json): Request
  {
    TokenRequestFor(p, config, RefreshFields(config, session))
  }

  /** The calls from the token request on, once the first run (which ended
      in `firstResult`) was refused and a refresh token is at hand: the
      answer of the token endpoint to the refresh request, and the run the
      handler would make with the token that answer grants. */
  function AfterRefusal<R>(p: Primitives, config: Config, session: Json, now: int,
                           firstResult: Outcome<R>, refresh: Outcome<Upstream>, second: Run<R>): Coordinated<R>
  {
    var req := RefreshRequest(p, config, session);
    match refresh
    case Thrown(e) => Coordinated(Thrown(e), [req], [], None)
    case Ok(refreshed) =>
      if !Granted(refreshed) then Coordinated(firstResult, [req], [], None)
      else Coordinated(second.result, [req] + second.requests, second.delays, Some(RefreshedSession(session, refreshed.body, now)))
  }

  /** A refresh is attempted: the first run was refused and the session holds a refresh token. */
  predicate Attempted<R>(first: Run<R>, refused: bool, session: Json)
  {
    first.result.Ok? && refused && HasRefreshToken(session)
  }

  /** The handler's calls: the first run, followed by `tail` (the calls from
      the token request on) when a refresh is attempted. */
  function Coordinate<R>(first: Run<R>, attempted: bool, tail: Coordinated<R>): (c: Coordinated<R>)
  {
    if !attempted then Coordinated(first.result, first.requests, first.delays, None)
    else Coordinated(tail.result, first.requests + tail.requests, first.delays + tail.delays, tail.written)
  }

  /** The Set-Cookie directives of the coordination: the rewritten session, if any. */
  function SessionCookies(p: Primitives, config: Config, written: Option<Json>): seq<string>
  {
    if written.Some? then [SessionDirective(p, config, written.value)] else []
  }

  /** Concatenation regrouped, for the methods that log one run after another. */
  lemma Regroup<T>(a: seq<T>, b: seq<T>, c: seq<T>)
    ensures a + b + c == a + (b + c)
  {
  }

  /** The token granted by a refresh answer (null when there is none). */
  function GrantedToken(refresh: Outcome<Upstream>): Json
  {
    if refresh.Ok? then AccessToken(refresh.value.body) else Null
  }

  /** The rewritten session: the granted access token, the granted refresh
      token or else the stored one, the time of the rewrite, and every other
      field of the stored session unchanged. */
  lemma RefreshedSessionFields(session: Json, granted: Json, now: int)
    ensures var s := RefreshedSession(session, granted, now);
      && s.Obj?
      && Field(s, "access_token") == Field(granted, "access_token")
      && Field(s, "refresh_token") == Or(Field(granted, "refresh_token"), Field(session, "refresh_token"))
      && Field(s, "updated_at") == Some(Num(now))
      && (forall k :: k in FieldsOf(session) && k != "access_token" && k != "refresh_token" && k != "updated_at" ==>
            k in s.fields && s.fields[k] == FieldsOf(session)[k])
  {
  }

  /** The refresh happens at most once and only after a refused first run
      with a refresh token at hand; the calls are the first run, then
      possibly the one token request, then possibly the second run. The
      session is rewritten exactly when the token request granted a new
      access token; the second run then decides the result, and the first
      run's result stands otherwise (unless the token request threw). */
  lemma RefreshAtMostOnce<R>(p: Primitives, config: Config, session: Json, now: int,
                             first: Run<R>, refused: bool, refresh: Outcome<Upstream>, second: Run<R>)
    ensures var c := Coordinate(first, Attempted(first, refused, session), AfterRefusal(p, config, session, now, first.result, refresh, second));
      var attempted := first.result.Ok? && refused && HasRefreshToken(session);
      var granted := attempted && refresh.Ok? && Granted(refresh.value);
      && (!attempted ==> c == Coordinated(first.result, first.requests, first.delays, None))
      && (attempted && !granted ==> c.requests == first.requests + [RefreshRequest(p, config, session)] && c.delays == first.delays)
      && (attempted && !granted && refresh.Ok? ==> c.result == first.result)
      && (attempted && refresh.Thrown? ==> c.result == Thrown(refresh.message))
      && (granted ==> c.requests == first.requests + [RefreshRequest(p, config, session)] + second.requests && c.result == second.result)
      && (granted ==> c.delays == first.delays + second.delays)
      && (c.written.Some? <==> granted)
      && (granted ==> c.written == Some(RefreshedSession(session, refresh.value.body, now)))
  {
    assert first.requests + ([RefreshRequest(p, config, session)] + second.requests)
      == first.requests + [RefreshRequest(p, config, session)] + second.requests;
  }

  /** The coordinated calls begin with the first run and add at most the
      token request and the second run; more than one added call means the
      session was rewritten. */
  lemma CoordinatedSize<R>(p: Primitives, config: Config, session: Json, now: int,
                           first: Run<R>, refused: bool, refresh: Outcome<Upstream>, second: Run<R>)
    ensures var c := Coordinate(first, Attempted(first, refused, session), AfterRefusal(p, config, session, now, first.result, refresh, second));
      && |first.requests| <= |c.requests| <= |first.requests| + 1 + |second.requests|
      && c.requests[..|first.requests|] == first.requests
      && |c.delays| <= |first.delays| + |second.delays|
      && (|c.requests| > |first.requests| + 1 ==> c.written.Some?)
  {
  }

  /** The rewritten session carries the granted access token, which is the
      one the second run used, and keeps the old refresh token when the
      grant did not include a new one. */
  lemma RewrittenSessionTokens(session: Json, refresh: Outcome<Upstream>, now: int)
    requires HasRefreshToken(session)
    requires refresh.Ok? && Granted(refresh.value)
    ensures AccessToken(RefreshedSession(session, refresh.value.body, now)) == GrantedToken(refresh)
    ensures HasRefreshToken(RefreshedSession(session, refresh.value.body, now))
    ensures !Truthy(Field(refresh.value.body, "refresh_token")) ==>
      Field(RefreshedSession(session, refresh.value.body, now), "refresh_token") == Field(session, "refresh_token")
  {
    RefreshedSessionFields(session, refresh.value.body, now);
  }
}
