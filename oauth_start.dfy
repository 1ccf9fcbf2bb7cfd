/** api/oauth/start.js: the start of the authorization-code flow. With the
    settings in place it draws a random nonce, keeps it in the signed state
    cookie and redirects the browser to the authorization page with the
    client id, the redirect URI, the `offline_access` scope and the nonce. */
module OAuthStart {
  import opened Json
  import opened Strings
  import opened Platform
  import opened Http
  import opened Lib

  /** A byte of `crypto.randomBytes`. */
  type Byte = b: int | 0 <= b < 256

  const NonceBytes: nat := 16
  const MissingEnv := "Missing required env vars: SALLA_CLIENT_ID, SALLA_REDIRECT_URI, APP_SESSION_SECRET"
  const AuthorizePath := "/oauth2/auth?"

  /** A lower-case hex digit for a value below 16. */
  function HexDigit(d: int): char
    requires 0 <= d < 16
  {
    if d < 10 then (48 + d) as char else (87 + d) as char
  }

  /** The value of a lower-case hex digit. */
  function DigitValue(c: char): int
    requires IsHexDigit(c)
  {
    if c <= '9' then c as int - 48 else c as int - 87
  }

  /** `buffer.toString('hex')`: two lower-case hex digits per byte, high nibble first. */
  function Hex(bytes: seq<Byte>): (s: string)
    ensures |s| == 2 * |bytes|
    ensures IsHex(s)
  {
    if bytes == [] then ""
    else
      var b := bytes[|bytes| - 1];
      Hex(bytes[..|bytes| - 1]) + [HexDigit(b / 16), HexDigit(b % 16)]
  }

  /** Reads a hex string back into bytes. */
  function Unhex(s: string): (bytes: seq<Byte>)
    requires |s| % 2 == 0 && IsHex(s)
    ensures |bytes| == |s| / 2
  {
    if s == "" then []
    else Unhex(s[..|s| - 2]) + [16 * DigitValue(s[|s| - 2]) + DigitValue(s[|s| - 1])]
  }

  /** The hex rendering loses nothing: reading it back gives the bytes. */
  lemma {:induction false} HexRoundTrip(bytes: seq<Byte>)
    ensures Unhex(Hex(bytes)) == bytes
    decreases |bytes|
  {
    if bytes != [] {
      var init := bytes[..|bytes| - 1];
      var b := bytes[|bytes| - 1];
      var s := Hex(bytes);
      assert s[..|s| - 2] == Hex(init);
      HexRoundTrip(init);
      assert DigitValue(HexDigit(b / 16)) == b / 16;
      assert DigitValue(HexDigit(b % 16)) == b % 16;
      assert init + [b] == bytes;
    }
  }

  /** Sixteen random bytes make a nonce of 32 lower-case hex digits. */
  lemma NonceShape(random: seq<Byte>)
    requires |random| == NonceBytes
    ensures |Hex(random)| == 32 && IsHex(Hex(random))
  {
  }

  /** The settings start checks; the client secret is not among them. */
  predicate StartConfigured(config: Config)
  {
    config.clientId != "" && config.redirectUri != "" && config.accountsBase != "" && config.appSecret != ""
  }

  /** The query parameters of the authorization redirect, in order. */
  function AuthorizeFields(config: Config, state: string): seq<(string, string)>
  {
    [("client_id", config.clientId),
     ("response_type", "code"),
     ("redirect_uri", config.redirectUri),
     ("scope", "offline_access"),
     ("state", state)]
  }

  /** The authorization page with its query string. */
  function AuthorizeUrl(p: Primitives, config: Config, state: string): string
  {
    config.accountsBase + AuthorizePath + FormEncode(p, AuthorizeFields(config, state))
  }

  /** What the handler does, for the random bytes it draws and the time
      `writeState` reads. */
  function Start(p: Primitives, config: Config, random: seq<Byte>, now: int): Reaction
  {
    if !StartConfigured(config) then
      Reaction(500, JsonBody(Obj(map["error" := Str(MissingEnv)])), [], [], [])
    else
      var state := Hex(random);
      Reaction(302, Redirect(AuthorizeUrl(p, config, state)), [StateDirective(p, config, state, now)], [], [])
  }

  /** A missing client id, redirect URI, accounts base or app secret gives
      500 and no cookie; the client secret plays no part. */
  lemma StartGuard(p: Primitives, config: Config, random: seq<Byte>, now: int, secret: string)
    ensures !StartConfigured(config) ==> Start(p, config, random, now).status == 500 && Start(p, config, random, now).cookies == []
    ensures StartConfigured(config) ==> Start(p, config, random, now).status == 302
    ensures Start(p, config.(clientSecret := secret), random, now) == Start(p, config, random, now)
  {
  }

  /** Hex digits need no escaping in a query string. */
  lemma HexIsFormSafe(s: string)
    requires IsHex(s)
    ensures FormSafe(s)
  {
    forall k | 0 <= k < |s| ensures FormSafeChar(s[k]) {
      assert IsHexDigit(s[k]);
    }
  }

  /** The authorization URL ends with the nonce as its `state` parameter,
      unescaped, and starts with the authorization page of the configured
      accounts base. */
  lemma UrlCarriesState(p: Primitives, config: Config, state: string)
    requires p.formEncode("state") == "state" && p.formEncode(state) == state
    ensures StartsWith(AuthorizeUrl(p, config, state), config.accountsBase + AuthorizePath)
    ensures EndsWith(AuthorizeUrl(p, config, state), "&state=" + state)
  {
    var fields := AuthorizeFields(config, state);
    FormEncodeLast(p, fields);
    var head := config.accountsBase + AuthorizePath;
    var tail := "&state=" + state;
    var url := AuthorizeUrl(p, config, state);
    assert url == head + FormEncode(p, fields[..4]) + tail;
    assert url[|url| - |tail|..] == tail;
    assert url[..|head|] == head;
  }

  /** The nonce sent as `state` is the one kept in the state cookie: the
      cookie, sent back by the browser, reads as `{state, at}`. */
  lemma CookieKeepsState(p: Primitives, config: Config, random: seq<Byte>, now: int)
    requires Lawful(p) && StartConfigured(config)
    ensures var r := Start(p, config, random, now);
      && |r.cookies| == 1
      && StoredPayload(p, config.appSecret, Some(EchoedCookie(r.cookies[0])), StateCookie) == Some(StatePayload(Hex(random), now))
      && r.body == Redirect(AuthorizeUrl(p, config, Hex(random)))
      && EndsWith(AuthorizeUrl(p, config, Hex(random)), "&state=" + Hex(random))
  {
    SignedCookieReadsBack(p, config.production, config.appSecret, StateCookie,
                          StatePayload(Hex(random), now), StateMaxAge);
    NonceUnescaped(p, config, Hex(random));
  }

  /** A hex nonce is not escaped in the query string. */
  lemma NonceUnescaped(p: Primitives, config: Config, state: string)
    requires Lawful(p) && IsHex(state)
    ensures EndsWith(AuthorizeUrl(p, config, state), "&state=" + state)
  {
    assert FormSafe("state") by {
      forall k | 0 <= k < 5 ensures FormSafeChar("state"[k]) {
      }
    }
    HexIsFormSafe(state);
    UrlCarriesState(p, config, state);
  }

  /** The handler; `random` stands for `crypto.randomBytes(16)` and `now` for `Date.now()`. */
  method Handle(res: Response, p: Primitives, config: Config, random: seq<Byte>, now: int)
    modifies res
    ensures var r := Start(p, config, random, now);
      res.status == r.status && res.body == r.body && res.setCookie == WithCookies(old(res.setCookie), r.cookies)
  {
    WithOneCookie(res.setCookie, "");
    if config.clientId == "" || config.redirectUri == "" || config.accountsBase == "" || config.appSecret == "" {
      res.Send(500, JsonBody(Obj(map["error" := Str(MissingEnv)])));
      return;
    }
    var state := Hex(random);
    WithOneCookie(res.setCookie, StateDirective(p, config, state, now));
    WriteState(res, p, config, state, now);
    res.Send(302, Redirect(AuthorizeUrl(p, config, state)));
  }
}
