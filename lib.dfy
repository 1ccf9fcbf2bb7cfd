/** api/_lib/salla.js: configuration, the `Cookie:` header parser, the
    signed-payload codec, cookie construction and `Set-Cookie` accumulation,
    upstream-response normalisation, the token-endpoint call and the
    session/state cookie store built on them. */
module Lib {
  import opened Json
  import opened Strings
  import opened Platform
  import opened Http

  const SessionCookie := "salla_session"
  const StateCookie := "salla_oauth_state"
  const DefaultApiBase := "https://api.salla.dev"
  const DefaultAccountsBase := "https://accounts.salla.sa"
  /** Thirty days, the default `maxAgeSeconds` of cookieParts. */
  const SessionMaxAge: nat := 3600 * 24 * 30
  const StateMaxAge: nat := 600
  /** UTF-16 code units of a non-JSON upstream body kept in `raw`. */
  const RawLimit: nat := 1000

  /** The settings `envConfig()` reads, plus `NODE_ENV === 'production'`,
      which cookieParts and clearCookie read from the environment directly. */
  datatype Config = Config(
    clientId: string,
    clientSecret: string,
    redirectUri: string,
    apiBase: string,
    accountsBase: string,
    appSecret: string,
    production: bool)

  /** `process.env[name] || default`. */
  function EnvOr(env: map<string, string>, name: string, default: string): string
  {
    if name in env && env[name] != "" then env[name] else default
  }

  /** `envConfig()` over an explicit environment. */
  function EnvConfig(env: map<string, string>): (c: Config)
    ensures c.apiBase != "" && c.accountsBase != ""
    ensures c.apiBase == (if "SALLA_API_BASE" in env && env["SALLA_API_BASE"] != "" then env["SALLA_API_BASE"] else DefaultApiBase)
    ensures c.accountsBase == (if "SALLA_ACCOUNTS_BASE" in env && env["SALLA_ACCOUNTS_BASE"] != "" then env["SALLA_ACCOUNTS_BASE"] else DefaultAccountsBase)
    ensures c.clientSecret == (if "SALLA_CLIENT_SECRET" in env then env["SALLA_CLIENT_SECRET"] else "")
    ensures c.redirectUri == (if "SALLA_REDIRECT_URI" in env then env["SALLA_REDIRECT_URI"] else "")
    ensures c.clientId == (if "SALLA_CLIENT_ID" in env then env["SALLA_CLIENT_ID"] else "")
    ensures c.appSecret == (if "APP_SESSION_SECRET" in env then env["APP_SESSION_SECRET"] else "")
    ensures c.appSecret != "" <==> "APP_SESSION_SECRET" in env && env["APP_SESSION_SECRET"] != ""
    ensures c.clientId != "" <==> "SALLA_CLIENT_ID" in env && env["SALLA_CLIENT_ID"] != ""
    ensures c.production <==> "NODE_ENV" in env && env["NODE_ENV"] == "production"
  {
    Config(
      EnvOr(env, "SALLA_CLIENT_ID", ""),
      EnvOr(env, "SALLA_CLIENT_SECRET", ""),
      EnvOr(env, "SALLA_REDIRECT_URI", ""),
      EnvOr(env, "SALLA_API_BASE", DefaultApiBase),
      EnvOr(env, "SALLA_ACCOUNTS_BASE", DefaultAccountsBase),
      EnvOr(env, "APP_SESSION_SECRET", ""),
      "NODE_ENV" in env && env["NODE_ENV"] == "production")
  }

  /** The `{error, debug_id}` payload the handlers answer errors with. */
  function Message(error: string, id: string): Json
  {
    Obj(map["error" := Str(error), "debug_id" := Str(id)])
  }

  // ---------------------------------------------------------------- Cookie header

  /** `(req.headers && req.headers.cookie) || ''`. */
  function RawCookieHeader(header: Option<string>): string
  {
    if header.Some? then header.value else ""
  }

  /** One `;`-separated part of the header: split at its first `=`, both
      sides trimmed, the value URI-decoded; None when there is no `=`. */
  function CookieEntry(p: Primitives, part: string): Option<(string, string)>
  {
    var i := IndexOf(part, '=');
    if i < 0 then None else Some((Trim(part[..i]), p.uriDecode(Trim(part[i + 1..]))))
  }

  /** The object parseCookieHeader fills, after the given parts in order. */
  function CookieMap(p: Primitives, parts: seq<string>): map<string, string>
  {
    if parts == [] then map[]
    else
      var m := CookieMap(p, parts[..|parts| - 1]);
      match CookieEntry(p, parts[|parts| - 1])
      case None => m
      case Some(entry) => m[entry.0 := entry.1]
  }

  /** `parseCookieHeader(req)`. */
  method ParseCookieHeader(p: Primitives, header: Option<string>) returns (cookies: map<string, string>)
    ensures cookies == CookieMap(p, Split(RawCookieHeader(header), ';'))
  {
    var parts := Split(RawCookieHeader(header), ';');
    cookies := ReadParts(p, parts);
  }

  /** The loop of parseCookies over the `;`-separated parts. */
  method ReadParts(p: Primitives, parts: seq<string>) returns (cookies: map<string, string>)
    ensures cookies == CookieMap(p, parts)
  {
    cookies := map[];
    var n := 0;
    while n < |parts|
      invariant 0 <= n <= |parts|
      invariant cookies == CookieMap(p, parts[..n])
    {
      var entry := CookieEntry(p, parts[n]);
      if entry.Some? {
        cookies := cookies[entry.value.0 := entry.value.1];
      }
      CookieMapNext(p, parts, n);
      n := n + 1;
    }
    assert parts[..n] == parts;
  }

  /** One more part read: its entry, if any, overrides the map so far. */
  lemma CookieMapNext(p: Primitives, parts: seq<string>, n: nat)
    requires n < |parts|
    ensures CookieMap(p, parts[..n + 1]) ==
      match CookieEntry(p, parts[n])
      case None => CookieMap(p, parts[..n])
      case Some(entry) => CookieMap(p, parts[..n])[entry.0 := entry.1]
  {
    assert parts[..n + 1][..n] == parts[..n];
  }

  /** A part is split at its first `=` only: later `=` belong to the value. */
  lemma CookieEntryAtFirstEquals(p: Primitives, name: string, value: string)
    requires '=' !in name
    ensures CookieEntry(p, name + "=" + value) == Some((Trim(name), p.uriDecode(Trim(value))))
  {
    var part := name + "=" + value;
    IndexOfAfter(name, '=', value);
    assert part[..|name|] == name;
    assert part[|name| + 1..] == value;
  }

  /** A name is bound exactly when some part with an `=` carries it. */
  lemma {:induction false} CookieMapKeys(p: Primitives, parts: seq<string>, name: string)
    ensures name in CookieMap(p, parts) <==>
      exists j :: 0 <= j < |parts| && CookieEntry(p, parts[j]).Some? && CookieEntry(p, parts[j]).value.0 == name
  {
    if parts != [] {
      var init := parts[..|parts| - 1];
      CookieMapKeys(p, init, name);
      if name in CookieMap(p, parts) && name !in CookieMap(p, init) {
        assert CookieEntry(p, parts[|parts| - 1]).Some?;
      }
      if exists j :: 0 <= j < |parts| && CookieEntry(p, parts[j]).Some? && CookieEntry(p, parts[j]).value.0 == name {
        var j :| 0 <= j < |parts| && CookieEntry(p, parts[j]).Some? && CookieEntry(p, parts[j]).value.0 == name;
        if j < |parts| - 1 {
          assert init[j] == parts[j];
        }
      }
    }
  }

  /** The last part that names a cookie decides its value. */
  lemma {:induction false} CookieMapLastWins(p: Primitives, parts: seq<string>, j: nat)
    requires j < |parts| && CookieEntry(p, parts[j]).Some?
    requires forall k :: j < k < |parts| ==>
      CookieEntry(p, parts[k]).None? || CookieEntry(p, parts[k]).value.0 != CookieEntry(p, parts[j]).value.0
    ensures CookieEntry(p, parts[j]).value.0 in CookieMap(p, parts)
    ensures CookieMap(p, parts)[CookieEntry(p, parts[j]).value.0] == CookieEntry(p, parts[j]).value.1
  {
    if j < |parts| - 1 {
      var init := parts[..|parts| - 1];
      assert init[j] == parts[j];
      forall k | j < k < |init|
        ensures CookieEntry(p, init[k]).None? || CookieEntry(p, init[k]).value.0 != CookieEntry(p, init[j]).value.0
      {
        assert init[k] == parts[k];
      }
      CookieMapLastWins(p, init, j);
    }
  }

  // ---------------------------------------------------------------- Signed payloads

  /** `Buffer.from(JSON.stringify(v), 'utf8').toString('base64url')`. */
  function EncodedPayload(p: Primitives, v: Json): string
  {
    p.toBase64Url(p.stringify(v))
  }

  /** `encodeSignedPayload(secret, v)`: payload, `.`, hex HMAC of the payload. */
  function EncodeSignedPayload(p: Primitives, secret: string, v: Json): (signed: string)
    ensures Lawful(p) ==>
      Split(signed, '.') == [EncodedPayload(p, v), p.hmacHex(secret, EncodedPayload(p, v))]
  {
    var payload := EncodedPayload(p, v);
    var sig := p.hmacHex(secret, payload);
    SignedSplits(p, payload, sig);
    payload + "." + sig
  }

  lemma NoDotInHex(s: string)
    requires IsHex(s)
    ensures '.' !in s
  {
    forall k | 0 <= k < |s| ensures s[k] != '.' {
      assert IsHexDigit(s[k]);
    }
  }

  lemma SignedSplits(p: Primitives, payload: string, sig: string)
    ensures '.' !in payload && IsHex(sig) ==> Split(payload + "." + sig, '.') == [payload, sig]
  {
    if '.' !in payload && IsHex(sig) {
      NoDotInHex(sig);
      SplitAtFirst(payload, '.', sig);
      SplitWithoutSep(sig, '.');
    }
  }

  /** The length test and `timingSafeEqual`. The source compares the UTF-8
      bytes of both strings; UTF-8 is injective, so this is string equality. */
  predicate SignatureMatches(sig: string, expected: string)
  {
    |sig| == |expected| && sig == expected
  }

  /** `decodeSignedPayload(secret, signed)`; None stands for `null`. */
  function DecodeSignedPayload(p: Primitives, secret: string, signed: Option<string>): (r: Option<Json>)
    ensures r.Some? ==>
      && signed.Some?
      && |Split(signed.value, '.')| >= 2
      && Split(signed.value, '.')[0] != ""
      && Split(signed.value, '.')[1] == p.hmacHex(secret, Split(signed.value, '.')[0])
  {
    if signed.None? || signed.value == "" then None
    else
      var parts := Split(signed.value, '.');
      var payload := parts[0];
      var sig := if |parts| >= 2 then parts[1] else "";
      if payload == "" || sig == "" then None
      else if !SignatureMatches(sig, p.hmacHex(secret, payload)) then None
      else p.parse(p.fromBase64Url(payload))
  }

  /** Decoding what was encoded under the same secret gives the value back. */
  lemma DecodeEncode(p: Primitives, secret: string, v: Json)
    requires Lawful(p)
    ensures DecodeSignedPayload(p, secret, Some(EncodeSignedPayload(p, secret, v))) == Some(v)
  {
    assert p.stringify(v) != "";
  }

  /** Only the first two segments are read: anything appended after a
      further `.` leaves the decoded value unchanged. */
  lemma DecodeIgnoresExtraSegments(p: Primitives, secret: string, v: Json, rest: string)
    requires Lawful(p)
    ensures DecodeSignedPayload(p, secret, Some(EncodeSignedPayload(p, secret, v) + "." + rest)) == Some(v)
  {
    var payload := EncodedPayload(p, v);
    var sig := p.hmacHex(secret, payload);
    assert p.stringify(v) != "";
    NoDotInHex(sig);
    SplitTwoOfThree(payload, sig, rest);
    DecodeSigned(p, secret, EncodeSignedPayload(p, secret, v) + "." + rest, payload);
  }

  /** The first two segments of `a.b.rest`, when neither `a` nor `b` has a `.`. */
  lemma SplitTwoOfThree(a: string, b: string, rest: string)
    requires '.' !in a && '.' !in b
    ensures var parts := Split(a + "." + b + "." + rest, '.');
      |parts| >= 2 && parts[0] == a && parts[1] == b
  {
    assert a + "." + b + "." + rest == a + "." + (b + "." + rest);
    SplitAtFirst(a, '.', b + "." + rest);
    SplitAtFirst(b, '.', rest);
  }

  /** A value whose first segment is a non-empty payload and whose second is
      its signature decodes as the payload does. */
  lemma DecodeSigned(p: Primitives, secret: string, signed: string, payload: string)
    requires var parts := Split(signed, '.');
      |parts| >= 2 && parts[0] == payload && payload != "" && parts[1] == p.hmacHex(secret, payload)
    requires p.hmacHex(secret, payload) != ""
    ensures DecodeSignedPayload(p, secret, Some(signed)) == p.parse(p.fromBase64Url(payload))
  {
  }

  /** A signature that is not the HMAC of the payload under this secret is refused. */
  lemma DecodeRejectsWrongSignature(p: Primitives, secret: string, payload: string, sig: string)
    requires '.' !in payload && '.' !in sig
    requires sig != p.hmacHex(secret, payload)
    ensures DecodeSignedPayload(p, secret, Some(payload + "." + sig)) == None
  {
    SplitAtFirst(payload, '.', sig);
    SplitWithoutSep(sig, '.');
  }

  /** A value signed under another secret is refused whenever the two
      secrets give the payload different HMACs. */
  lemma DecodeRejectsForeignSecret(p: Primitives, signer: string, reader: string, v: Json)
    requires Lawful(p)
    requires p.hmacHex(reader, EncodedPayload(p, v)) != p.hmacHex(signer, EncodedPayload(p, v))
    ensures DecodeSignedPayload(p, reader, Some(EncodeSignedPayload(p, signer, v))) == None
  {
    DecodeRejectsWrongSignature(p, reader, EncodedPayload(p, v), p.hmacHex(signer, EncodedPayload(p, v)));
  }

  /** An absent or empty cookie gives null. */
  lemma DecodeRejectsEmpty(p: Primitives, secret: string)
    ensures DecodeSignedPayload(p, secret, None) == None
    ensures DecodeSignedPayload(p, secret, Some("")) == None
  {
  }

  /** A value without a signature segment gives null, with or without the dot. */
  lemma DecodeRejectsUnsigned(p: Primitives, secret: string, s: string)
    requires '.' !in s
    ensures DecodeSignedPayload(p, secret, Some(s)) == None
    ensures DecodeSignedPayload(p, secret, Some(s + ".")) == None
  {
    SplitWithoutSep(s, '.');
    SplitAtFirst(s, '.', "");
    assert s + "." + "" == s + ".";
  }

  /** A value with an empty payload segment gives null. */
  lemma DecodeRejectsNoPayload(p: Primitives, secret: string, s: string)
    ensures DecodeSignedPayload(p, secret, Some("." + s)) == None
  {
    SplitAtFirst("", '.', s);
    assert "" + "." + s == "." + s;
  }

  /** A correctly signed payload that is not base64url JSON gives null, not an exception. */
  lemma DecodeNonJsonIsAbsent(p: Primitives, secret: string, payload: string)
    requires Lawful(p)
    requires payload != "" && '.' !in payload
    requires p.parse(p.fromBase64Url(payload)) == None
    ensures DecodeSignedPayload(p, secret, Some(payload + "." + p.hmacHex(secret, payload))) == None
  {
    SignedSplits(p, payload, p.hmacHex(secret, payload));
  }

  /** Changing any one character of the signature segment makes the cookie
      unreadable, including changing it into a `.`. */
  lemma TamperedSignatureRejected(p: Primitives, secret: string, v: Json, i: nat, c: char)
    requires Lawful(p)
    requires |EncodedPayload(p, v)| < i < |EncodeSignedPayload(p, secret, v)|
    requires c != EncodeSignedPayload(p, secret, v)[i]
    ensures DecodeSignedPayload(p, secret, Some(EncodeSignedPayload(p, secret, v)[i := c])) == None
  {
    var payload := EncodedPayload(p, v);
    var sig := p.hmacHex(secret, payload);
    var j := i - |payload| - 1;
    UpdateAfterPrefix(payload + ".", sig, j, c);
    assert '.' !in payload && IsHex(sig);
    TamperedSignatureOf(p, secret, payload, j, c);
  }

  /** The same, for any payload without a `.` and its digest. */
  lemma TamperedSignatureOf(p: Primitives, secret: string, payload: string, j: nat, c: char)
    requires '.' !in payload && IsHex(p.hmacHex(secret, payload))
    requires j < |p.hmacHex(secret, payload)| && c != p.hmacHex(secret, payload)[j]
    ensures DecodeSignedPayload(p, secret, Some(payload + "." + p.hmacHex(secret, payload)[j := c])) == None
  {
    var sig := p.hmacHex(secret, payload);
    TamperedSignatureSplit(sig, j, c);
    var parts := Split(sig[j := c], '.');
    SplitAtFirst(payload, '.', sig[j := c]);
    assert Split(payload + "." + sig[j := c], '.')[1] == parts[0];
  }

  lemma UpdateAfterPrefix(a: string, b: string, j: nat, c: char)
    requires j < |b|
    ensures (a + b)[|a| + j := c] == a + b[j := c]
  {
  }

  /** The first `.`-segment of a hex digest with one character changed is no longer the digest. */
  lemma TamperedSignatureSplit(sig: string, j: nat, c: char)
    requires IsHex(sig) && j < |sig| && c != sig[j]
    ensures Split(sig[j := c], '.')[0] != sig
  {
    var t := sig[j := c];
    if c == '.' {
      NoDotInHex(sig[..j]);
      assert t == sig[..j] + "." + t[j + 1..];
      SplitAtFirst(sig[..j], '.', t[j + 1..]);
    } else {
      forall k | 0 <= k < |t| ensures t[k] != '.' {
        if k != j {
          assert IsHexDigit(sig[k]);
        }
      }
      SplitWithoutSep(t, '.');
      assert t[j] != sig[j];
    }
  }

  // ---------------------------------------------------------------- Cookie strings

  /** `; Secure` only when NODE_ENV is production. */
  function SecureFlag(production: bool): string
  {
    if production then "; Secure" else ""
  }

  /** What follows `name=value;` in every directive; `maxAge` is already rendered. */
  function Attributes(production: bool, maxAge: string): string
  {
    " Path=/; HttpOnly; SameSite=Lax; Max-Age=" + maxAge + SecureFlag(production)
  }

  /** `cookieParts(name, value, maxAge)`. */
  function CookieParts(p: Primitives, production: bool, name: string, value: string, maxAge: nat): (c: string)
    ensures Lawful(p) && ';' !in name ==> Split(c, ';')[0] == name + "=" + p.uriEncode(value)
  {
    var pair := name + "=" + p.uriEncode(value);
    PairHasNoSemicolon(p, name, value);
    PairEndsAtSemicolon(pair, Attributes(production, NatToString(maxAge)));
    pair + ";" + Attributes(production, NatToString(maxAge))
  }

  lemma PairEndsAtSemicolon(pair: string, attributes: string)
    ensures ';' !in pair ==> Split(pair + ";" + attributes, ';')[0] == pair
  {
    if ';' !in pair {
      SplitAtFirst(pair, ';', attributes);
    }
  }

  lemma PairHasNoSemicolon(p: Primitives, name: string, value: string)
    ensures Lawful(p) && ';' !in name ==> ';' !in name + "=" + p.uriEncode(value)
  {
    if Lawful(p) && ';' !in name {
      var enc := p.uriEncode(value);
      assert UriSafe(enc);
      forall k | 0 <= k < |enc| ensures enc[k] != ';' {
        assert UriSafeChar(enc[k]);
      }
    }
  }

  /** `clearCookie(name)`. */
  function ClearCookie(production: bool, name: string): string
  {
    name + "=" + ";" + Attributes(production, "0")
  }

  /** A session cookie directive is never the directive that clears the
      state cookie: the cookie names differ at their seventh character. */
  lemma SessionDirectiveIsNotStateClearing(p: Primitives, production: bool, value: string, maxAge: nat, clearing: bool)
    ensures CookieParts(p, production, SessionCookie, value, maxAge) != ClearCookie(clearing, StateCookie)
  {
    var d := CookieParts(p, production, SessionCookie, value, maxAge);
    var c := ClearCookie(clearing, StateCookie);
    assert d[6] == 's';
    assert c[6] == 'o';
  }

  /** Clearing is re-issuing the cookie with an empty value and Max-Age 0. */
  lemma ClearCookieIsEmptyAndExpired(p: Primitives, production: bool, name: string)
    requires p.uriEncode("") == ""
    ensures ClearCookie(production, name) == CookieParts(p, production, name, "", 0)
  {
    assert NatToString(0) == "0";
  }

  /** Both kinds of directive end in `; Secure` exactly in production. */
  lemma SecureOnlyInProduction(p: Primitives, production: bool, name: string, value: string, maxAge: nat)
    ensures EndsWith(CookieParts(p, production, name, value, maxAge), "; Secure") <==> production
    ensures EndsWith(ClearCookie(production, name), "; Secure") <==> production
  {
    var digits := NatToString(maxAge);
    NatToStringDigits(maxAge);
    var pair := name + "=" + p.uriEncode(value);
    var head := " Path=/; HttpOnly; SameSite=Lax; Max-Age=";
    assert IsDigit(digits[|digits| - 1]);
    assert CookieParts(p, production, name, value, maxAge) == (pair + ";" + (head + digits)) + SecureFlag(production);
    SecureSuffix(pair + ";" + (head + digits), production);
    assert ClearCookie(production, name) == (name + "=" + ";" + (head + "0")) + SecureFlag(production);
    SecureSuffix(name + "=" + ";" + (head + "0"), production);
  }

  /** Text ending in a digit ends in `; Secure` once the flag is added exactly in production. */
  lemma SecureSuffix(text: string, production: bool)
    requires |text| > 0 && IsDigit(text[|text| - 1])
    ensures EndsWith(text + SecureFlag(production), "; Secure") <==> production
  {
    var s := text + SecureFlag(production);
    if production {
      assert s[|s| - 8..] == "; Secure";
    } else {
      assert s == text;
    }
  }

  // ---------------------------------------------------------------- Set-Cookie accumulation

  /** The header after `setCookie(res, cookie)`: a falsy previous value
      (unset or the empty string) is replaced, an array is extended, and a
      single string becomes a two-element array. */
  function WithCookie(h: HeaderValue, cookie: string): (h': HeaderValue)
    ensures h != One("") ==> Directives(h') == Directives(h) + [cookie]
    ensures h == One("") ==> Directives(h') == [cookie]
    ensures cookie != "" ==> h' != One("")
  {
    match h
    case Absent => One(cookie)
    case One(prev) => if prev == "" then One(cookie) else Many([prev, cookie])
    case Many(prev) => Many(prev + [cookie])
  }

  /** `setCookie(res, cookie)`. */
  method SetCookie(res: Response, cookie: string)
    modifies res
    ensures res.setCookie == WithCookie(old(res.setCookie), cookie)
    ensures res.status == old(res.status) && res.body == old(res.body)
  {
    var prev := res.setCookie;
    if prev.Absent? || prev == One("") {
      res.setCookie := One(cookie);
      return;
    }
    if prev.Many? {
      res.setCookie := Many(prev.values + [cookie]);
      return;
    }
    res.setCookie := Many([prev.value, cookie]);
  }

  /** The header after several setCookie calls, in order. */
  function WithCookies(h: HeaderValue, cookies: seq<string>): HeaderValue
    decreases |cookies|
  {
    if cookies == [] then h else WithCookies(WithCookie(h, cookies[0]), cookies[1..])
  }

  lemma WithOneCookie(h: HeaderValue, cookie: string)
    ensures WithCookies(h, []) == h
    ensures WithCookies(h, [cookie]) == WithCookie(h, cookie)
  {
    assert [cookie][1..] == [];
  }

  lemma WithTwoCookies(h: HeaderValue, first: string, second: string)
    ensures WithCookies(h, [first, second]) == WithCookie(WithCookie(h, first), second)
  {
    assert [first, second][1..] == [second];
    WithOneCookie(WithCookie(h, first), second);
  }

  /** Successive setCookie calls never drop or reorder a directive. */
  lemma {:induction false} WithCookiesAppends(h: HeaderValue, cookies: seq<string>)
    requires h != One("")
    requires forall k :: 0 <= k < |cookies| ==> cookies[k] != ""
    ensures Directives(WithCookies(h, cookies)) == Directives(h) + cookies
    decreases |cookies|
  {
    if cookies != [] {
      var next := WithCookie(h, cookies[0]);
      assert Directives(next) == Directives(h) + [cookies[0]];
      WithCookiesAppends(next, cookies[1..]);
      assert Directives(h) + [cookies[0]] + cookies[1..] == Directives(h) + cookies;
    }
  }

  // ---------------------------------------------------------------- Upstream responses

  /** The `{error: tag, raw}` object that replaces a body that is not JSON,
      `raw` being `text.slice(0, limit)`. */
  function NonJsonError(tag: string, text: string, limit: nat): Json
  {
    Obj(map["error" := Str(tag), "raw" := Str(Slice(text, limit))])
  }

  /** `body` is an `{error: tag, raw}` object whose raw text is the longest
      prefix of `text` within `limit` UTF-16 code units. */
  predicate KeepsRawPrefix(body: Json, tag: string, text: string, limit: nat)
  {
    && body.Obj?
    && body.fields.Keys == {"error", "raw"}
    && body.fields["error"] == Str(tag)
    && body.fields["raw"].Str?
    && var raw := body.fields["raw"].s;
    && Utf16Length(raw) <= limit
    && StartsWith(text, raw)
    && (|raw| < |text| ==> limit < Utf16Length(raw) + Units(text[|raw|]))
    && (Utf16Length(text) <= limit ==> raw == text)
  }

  lemma NonJsonErrorKeepsRawPrefix(tag: string, text: string, limit: nat)
    ensures KeepsRawPrefix(NonJsonError(tag, text, limit), tag, text, limit)
  {
    if Utf16Length(text) <= limit {
      SliceWhole(text, limit);
    }
  }

  /** `parseUpstreamResponse(resp)` on the status and text of a response. */
  function ParseUpstreamResponse(p: Primitives, status: int, text: string): Upstream
  {
    match p.parse(text)
    case Some(v) => Upstream(status, v)
    case None => Upstream(status, NonJsonError("Non-JSON", text, RawLimit))
  }

  /** The status passes through; a JSON text becomes the body, and any other
      text becomes an `{error: "Non-JSON", raw}` object keeping its first
      RawLimit UTF-16 code units. */
  lemma UpstreamParsed(p: Primitives, status: int, text: string)
    ensures var u := ParseUpstreamResponse(p, status, text);
      && u.status == status
      && (p.parse(text).Some? ==> u.body == p.parse(text).value)
      && (p.parse(text).None? ==> KeepsRawPrefix(u.body, "Non-JSON", text, RawLimit))
  {
    NonJsonErrorKeepsRawPrefix("Non-JSON", text, RawLimit);
  }

  /** A fetch followed by parseUpstreamResponse; a network failure stays an exception. */
  function Receive(p: Primitives, reply: Reply): Outcome<Upstream>
  {
    match reply
    case Answer(status, text) => Ok(ParseUpstreamResponse(p, status, text))
    case NetworkError(m) => Thrown(m)
  }

  // ---------------------------------------------------------------- Token endpoint

  /** `new URLSearchParams(fields).toString()`. */
  function FormEncode(p: Primitives, fields: seq<(string, string)>): string
  {
    Join(FormPairs(p, fields), '&')
  }

  /** Each field as `name=value`, both form-encoded. */
  function FormPairs(p: Primitives, fields: seq<(string, string)>): (pairs: seq<string>)
    ensures |pairs| == |fields|
  {
    if fields == [] then []
    else
      var last := fields[|fields| - 1];
      FormPairs(p, fields[..|fields| - 1]) + [p.formEncode(last.0) + "=" + p.formEncode(last.1)]
  }

  /** One pair per field, in the order of the fields. */
  lemma {:induction false} FormPairsAt(p: Primitives, fields: seq<(string, string)>, i: nat)
    requires i < |fields|
    ensures FormPairs(p, fields)[i] == p.formEncode(fields[i].0) + "=" + p.formEncode(fields[i].1)
    decreases |fields|
  {
    if i < |fields| - 1 {
      FormPairsAt(p, fields[..|fields| - 1], i);
    }
  }

  /** The last field comes after all the others and one more `&`. */
  lemma FormEncodeLast(p: Primitives, fields: seq<(string, string)>)
    requires |fields| >= 2
    ensures var last := fields[|fields| - 1];
      FormEncode(p, fields) == FormEncode(p, fields[..|fields| - 1]) + "&" + p.formEncode(last.0) + "=" + p.formEncode(last.1)
  {
    JoinLast(FormPairs(p, fields), '&');
  }

  /** The POST tokenRequest sends. */
  function TokenRequestFor(p: Primitives, config: Config, fields: seq<(string, string)>): Request
  {
    Request(
      "POST",
      config.accountsBase + "/oauth2/token",
      [("Content-Type", "application/x-www-form-urlencoded"), ("Accept", "application/json")],
      Some(FormEncode(p, fields)))
  }

  /** `tokenRequest(config, fields)`: one call to the token endpoint; HTTP
      errors come back as data, network failures as an exception. */
  method TokenRequest(net: Network, p: Primitives, config: Config, fields: seq<(string, string)>)
    returns (a: Outcome<Upstream>)
    modifies net
    ensures net.log == old(net.log) + [TokenRequestFor(p, config, fields)] && net.sleeps == old(net.sleeps)
    ensures a == Receive(p, net.respond(|old(net.log)|, TokenRequestFor(p, config, fields)))
  {
    var reply := net.Fetch(TokenRequestFor(p, config, fields));
    a := Receive(p, reply);
  }

  // ---------------------------------------------------------------- Session and state cookies

  function CookieValue(cookies: map<string, string>, name: string): Option<string>
  {
    if name in cookies then Some(cookies[name]) else None
  }

  /** What readSession / readState return for a request's Cookie header. */
  function StoredPayload(p: Primitives, secret: string, header: Option<string>, name: string): Option<Json>
  {
    DecodeSignedPayload(p, secret, CookieValue(CookieMap(p, Split(RawCookieHeader(header), ';')), name))
  }

  method ReadCookie(p: Primitives, secret: string, header: Option<string>, name: string) returns (v: Option<Json>)
    ensures v == StoredPayload(p, secret, header, name)
  {
    var cookies := ParseCookieHeader(p, header);
    v := DecodeSignedPayload(p, secret, CookieValue(cookies, name));
  }

  /** `readSession(req, config)`. */
  method ReadSession(p: Primitives, config: Config, header: Option<string>) returns (session: Option<Json>)
    ensures session == StoredPayload(p, config.appSecret, header, SessionCookie)
  {
    session := ReadCookie(p, config.appSecret, header, SessionCookie);
  }

  /** `readState(req, config)`. */
  method ReadState(p: Primitives, config: Config, header: Option<string>) returns (state: Option<Json>)
    ensures state == StoredPayload(p, config.appSecret, header, StateCookie)
  {
    state := ReadCookie(p, config.appSecret, header, StateCookie);
  }

  function SessionDirective(p: Primitives, config: Config, session: Json): string
  {
    CookieParts(p, config.production, SessionCookie, EncodeSignedPayload(p, config.appSecret, session), SessionMaxAge)
  }

  /** `{ state, at: Date.now() }`. */
  function StatePayload(state: string, at: int): Json
  {
    Obj(map["state" := Str(state), "at" := Num(at)])
  }

  function StateDirective(p: Primitives, config: Config, state: string, at: int): string
  {
    CookieParts(p, config.production, StateCookie, EncodeSignedPayload(p, config.appSecret, StatePayload(state, at)), StateMaxAge)
  }

  /** The attributes after the `;` that ends the name=value pair. */
  lemma AttributesTemplate(production: bool, maxAge: string)
    ensures ";" + Attributes(production, maxAge) == "; Path=/; HttpOnly; SameSite=Lax; Max-Age=" + maxAge + SecureFlag(production)
  {
    assert ";" + " Path=/; HttpOnly; SameSite=Lax; Max-Age=" == "; Path=/; HttpOnly; SameSite=Lax; Max-Age=";
  }

  /** The session directive as the template spells it out: a 30-day cookie. */
  lemma SessionTemplate(p: Primitives, config: Config, session: Json)
    ensures SessionDirective(p, config, session)
         == SessionCookie + "=" + p.uriEncode(EncodeSignedPayload(p, config.appSecret, session))
            + "; Path=/; HttpOnly; SameSite=Lax; Max-Age=" + "2592000" + SecureFlag(config.production)
  {
    assert NatToString(2592000) == "2592000" by {
      assert NatToString(2) == "2";
      assert NatToString(25) == "25";
      assert NatToString(259) == "259";
      assert NatToString(2592) == "2592";
      assert NatToString(25920) == "25920";
      assert NatToString(259200) == "259200";
    }
    AttributesTemplate(config.production, "2592000");
    MoveSemicolon(SessionCookie + "=" + p.uriEncode(EncodeSignedPayload(p, config.appSecret, session)),
            Attributes(config.production, "2592000"), "2592000", config.production);
  }

  /** The state directive as the template spells it out: a 600-second cookie. */
  lemma StateTemplate(p: Primitives, config: Config, state: string, at: int)
    ensures StateDirective(p, config, state, at)
         == StateCookie + "=" + p.uriEncode(EncodeSignedPayload(p, config.appSecret, StatePayload(state, at)))
            + "; Path=/; HttpOnly; SameSite=Lax; Max-Age=" + "600" + SecureFlag(config.production)
  {
    assert NatToString(600) == "600" by {
      assert NatToString(6) == "6";
      assert NatToString(60) == "60";
    }
    AttributesTemplate(config.production, "600");
    MoveSemicolon(StateCookie + "=" + p.uriEncode(EncodeSignedPayload(p, config.appSecret, StatePayload(state, at))),
            Attributes(config.production, "600"), "600", config.production);
  }

  /** The clearing directive as the template spells it out: an empty value
      and Max-Age 0. */
  lemma ClearTemplate(production: bool, name: string)
    ensures ClearCookie(production, name) == name + "=" + "; Path=/; HttpOnly; SameSite=Lax; Max-Age=" + "0" + SecureFlag(production)
  {
    AttributesTemplate(production, "0");
    MoveSemicolon(name + "=", Attributes(production, "0"), "0", production);
  }

  /** Moves the `;` that ends a pair into the rendered attributes. */
  lemma MoveSemicolon(pair: string, attributes: string, maxAge: string, production: bool)
    requires ";" + attributes == "; Path=/; HttpOnly; SameSite=Lax; Max-Age=" + maxAge + SecureFlag(production)
    ensures pair + ";" + attributes == pair + "; Path=/; HttpOnly; SameSite=Lax; Max-Age=" + maxAge + SecureFlag(production)
  {
    var head := "; Path=/; HttpOnly; SameSite=Lax; Max-Age=";
    calc {
      pair + ";" + attributes;
      pair + (";" + attributes);
      pair + (head + maxAge + SecureFlag(production));
      pair + head + maxAge + SecureFlag(production);
    }
  }

  /** `writeSession(res, config, session)`: a 30-day signed session cookie is appended. */
  method WriteSession(res: Response, p: Primitives, config: Config, session: Json)
    modifies res
    ensures res.setCookie == WithCookie(old(res.setCookie), SessionDirective(p, config, session))
    ensures res.status == old(res.status) && res.body == old(res.body)
  {
    SetCookie(res, SessionDirective(p, config, session));
  }

  /** `clearSession(res)`. */
  method ClearSession(res: Response, production: bool)
    modifies res
    ensures res.setCookie == WithCookie(old(res.setCookie), ClearCookie(production, SessionCookie))
    ensures res.status == old(res.status) && res.body == old(res.body)
  {
    SetCookie(res, ClearCookie(production, SessionCookie));
  }

  /** `writeState(res, config, state)` at time `at`: a 600-second signed state cookie is appended. */
  method WriteState(res: Response, p: Primitives, config: Config, state: string, at: int)
    modifies res
    ensures res.setCookie == WithCookie(old(res.setCookie), StateDirective(p, config, state, at))
    ensures res.status == old(res.status) && res.body == old(res.body)
  {
    SetCookie(res, StateDirective(p, config, state, at));
  }

  /** `clearState(res)`. */
  method ClearState(res: Response, production: bool)
    modifies res
    ensures res.setCookie == WithCookie(old(res.setCookie), ClearCookie(production, StateCookie))
    ensures res.status == old(res.status) && res.body == old(res.body)
  {
    SetCookie(res, ClearCookie(production, StateCookie));
  }

  /** The `name=value` pair a browser sends back for a Set-Cookie directive. */
  function EchoedCookie(directive: string): string
  {
    Split(directive, ';')[0]
  }

  lemma CookieNamesArePlain(name: string)
    requires name == SessionCookie || name == StateCookie
    ensures ';' !in name && '=' !in name
    ensures forall k :: 0 <= k < |name| ==> !IsSpace(name[k])
  {
  }

  /** A single `name=value` pair whose value is URI-escaped text parses to
      exactly that name bound to the unescaped text. */
  lemma SinglePairParses(p: Primitives, name: string, text: string)
    requires ';' !in name && '=' !in name
    requires forall k :: 0 <= k < |name| ==> !IsSpace(name[k])
    requires UriSafe(p.uriEncode(text))
    ensures CookieMap(p, Split(name + "=" + p.uriEncode(text), ';')) == map[name := p.uriDecode(p.uriEncode(text))]
  {
    var enc := p.uriEncode(text);
    var pair := name + "=" + enc;
    forall k | 0 <= k < |enc| ensures enc[k] != ';' && !IsSpace(enc[k]) {
      assert UriSafeChar(enc[k]);
    }
    SplitWithoutSep(pair, ';');
    CookieEntryAtFirstEquals(p, name, enc);
    TrimWithoutSpace(name);
    TrimWithoutSpace(enc);
    assert [pair][..0] == [];
  }

  /** A session or state cookie written by this module, echoed back by the
      browser, is read back as the value that was written. */
  lemma SignedCookieReadsBack(p: Primitives, production: bool, secret: string, name: string, v: Json, maxAge: nat)
    requires Lawful(p)
    requires name == SessionCookie || name == StateCookie
    ensures StoredPayload(p, secret, Some(EchoedCookie(CookieParts(p, production, name, EncodeSignedPayload(p, secret, v), maxAge))), name)
            == Some(v)
  {
    var signed := EncodeSignedPayload(p, secret, v);
    CookieNamesArePlain(name);
    assert EchoedCookie(CookieParts(p, production, name, signed, maxAge)) == name + "=" + p.uriEncode(signed);
    SinglePairParses(p, name, signed);
    assert p.uriDecode(p.uriEncode(signed)) == signed;
    DecodeEncode(p, secret, v);
  }
}
