/** api/salla/logout.js: forgets the connection by clearing the session and
    the state cookie, and answers `{ok: true}`. */
module Logout {
  import opened Json
  import opened Strings
  import opened Platform
  import opened Http
  import opened Lib

  /** The two directives, session first. */
  function LogoutCookies(production: bool): seq<string>
  {
    [ClearCookie(production, SessionCookie), ClearCookie(production, StateCookie)]
  }

  /** What the handler does; it reads neither the request nor any setting
      other than whether cookies are marked `Secure`. */
  function Logout(production: bool): Reaction
  {
    Reaction(200, JsonBody(Obj(map["ok" := Bool(true)])), LogoutCookies(production), [], [])
  }

  /** The answer is always 200 `{ok: true}` with no upstream call, whatever
      the deployment. */
  lemma AlwaysOk(production: bool, other: bool)
    ensures Logout(production).status == 200
    ensures Logout(production).body == JsonBody(Obj(map["ok" := Bool(true)]))
    ensures Logout(production).body == Logout(other).body
    ensures Logout(production).requests == [] && Logout(production).delays == []
  {
  }

  /** The directives already on the response stay, in order, ahead of the
      session clearing and then the state clearing. */
  lemma EarlierDirectivesKept(h: HeaderValue, production: bool)
    requires h != One("")
    ensures Directives(WithCookies(h, Logout(production).cookies))
         == Directives(h) + [ClearCookie(production, SessionCookie), ClearCookie(production, StateCookie)]
  {
    var cookies := LogoutCookies(production);
    assert cookies[0] != "" && cookies[1] != "";
    WithCookiesAppends(h, cookies);
  }

  /** Both directives re-issue their cookie with an empty value and `Max-Age=0`. */
  lemma BothExpired(p: Primitives, production: bool)
    requires p.uriEncode("") == ""
    ensures Logout(production).cookies
         == [CookieParts(p, production, SessionCookie, "", 0), CookieParts(p, production, StateCookie, "", 0)]
  {
    ClearCookieIsEmptyAndExpired(p, production, SessionCookie);
    ClearCookieIsEmptyAndExpired(p, production, StateCookie);
  }

  /** The handler. */
  method Handle(res: Response, production: bool)
    modifies res
    ensures var r := Logout(production);
      res.status == r.status && res.body == r.body && res.setCookie == WithCookies(old(res.setCookie), r.cookies)
  {
    WithTwoCookies(res.setCookie, ClearCookie(production, SessionCookie), ClearCookie(production, StateCookie));
    ClearSession(res, production);
    ClearState(res, production);
    res.Send(200, JsonBody(Obj(map["ok" := Bool(true)])));
  }
}
