# SALLA-CONNECTOR in Dafny

A model of SALLA-CONNECTOR, a small serverless OAuth client and proxy for the
Salla e-commerce API, together with proofs about it. The browser connects a
store through the authorization-code flow (`/api/oauth/start`, `/api/oauth/callback`).
The granted tokens are kept in a signed, HttpOnly session cookie. Three
endpoints then call the Salla API with the stored access token:
`/api/salla` (ping and one page of products), `/api/salla/products` (up to five
pages concatenated) and `/api/salla/test-token` (the store-info resource).
Each of them refreshes the token once when the API refuses it. A fourth
endpoint (`/api/salla/logout`) forgets the connection. A separate stateless
proxy (`salla.js`) forwards token grants and arbitrary API calls for a front
end that holds its own credentials.

Modules, one per source file plus shared plumbing:

| module | file | models |
|---|---|---|
| `Json` | json.dfy | parsed JSON values and the JavaScript coercions the handlers apply (truthiness, `\|\|`, property access, `String`, `Number`, `Number.isFinite`) |
| `Strings` | strings.dfy | `indexOf`, one-character `split`, `trim`, the trailing-slash strip, `endsWith`, `slice` counted in UTF-16 code units, decimal rendering |
| `Platform` | platform.dfy | JSON serialisation, base64url, HMAC-SHA256, URI escaping and `URLSearchParams` as function parameters, with the laws the proofs rely on (`Lawful`) |
| `Http` | http.dfy | the incoming request, the response object (a class whose `Set-Cookie` header is updated in place), and the upstream as an oracle (a class recording every request and every pause) |
| `Lib` | lib.dfy | api/_lib/salla.js: configuration, the Cookie header parser, the signed-payload codec, cookie directives and their accumulation, upstream parsing, the token endpoint, and the session/state store |
| `Refresh` | refresh.dfy | the refresh-once coordination that api/salla.js, api/salla/products.js and api/salla/test-token.js each repeat |
| `SallaEndpoint` | salla_endpoint.dfy | api/salla.js: the retry loop, the missing-settings list, the page defaults, the items and page-count extraction, `next_page` |
| `Products` | products.dfy | api/salla/products.js: `hasNextPage`, the pagination loop of `run`, the refresh-and-rerun, the answer |
| `TestToken` | test_token.dfy | api/salla/test-token.js: `buildStoreInfoUrl` and the call/refresh/recall flow |
| `OAuthStart` | oauth_start.dfy | api/oauth/start.js: the settings check, the hex nonce, the state cookie and the authorization redirect |
| `OAuthCallback` | oauth_callback.dfy | api/oauth/callback.js: the decision tree and its ordered cookie effects |
| `Logout` | logout.dfy | api/salla/logout.js |
| `Proxy` | proxy.dfy | salla.js: dispatch, input validation, request construction and status mirroring |

How the model is built:
- Each handler has two forms:
  - a pure function (`Endpoint`, `Callback`, `Start`, `Logout`, `Proxy.Handle`) that gives its whole `Reaction`: status, body, the `Set-Cookie` directives it appends, the upstream requests it makes and the pauses it takes;
  - an imperative `Handle` method that does what the source does step by step on a `Response` and a `Network` object.
- Each `Handle` method is proved to leave exactly the state that the function describes.
- The properties are proved as lemmas about the functions.
- Where the source loops (`fetchWithRetry`, the `totalPages` search, the page loop of `run`, the `forEach` of `parseCookieHeader`), the model has a `while` loop with invariants. That loop is proved equal to a recursive specification function.
- The upstream is `respond(n, request)`: the answer to the n-th call made while handling one request. A network exception is a `Reply.NetworkError` and becomes `Outcome.Thrown`.

Where the code differs from the system's design notes, the model follows the code:
- `/api/salla/products` stops after 5 pages. The cap is a literal in `run`, not a configurable 50.
- Its answer has no `hasMore` field. It has `pagination.pages_fetched`, `limited_to: 5` and `last`.
- `first_item` is `data[0] || null`, so a falsy first item also gives `null`.

## Model

| member | source | states |
|---|---|---|
| Lib.EnvConfig | api/_lib/salla.js:6-15 | each setting is its variable's value, or `''` when the variable is unset or empty; the API and accounts bases are their variables when those are set and non-empty, else `https://api.salla.dev` and `https://accounts.salla.sa`, so they are never empty; production exactly when NODE_ENV is `production` |
| Lib.ParseCookieHeader | api/_lib/salla.js:29-40 | the parsed cookies are the map built from the `;`-separated parts of the header, an absent header reading as `''` |
| Lib.ReadParts | api/_lib/salla.js:32-38 | the loop over the parts leaves the map of all parts, each part overriding what came before |
| Lib.CookieEntryAtFirstEquals | api/_lib/salla.js:33-37 | a part is split at its first `=` only; name and value are trimmed and the value URI-decoded |
| Lib.CookieMapKeys | api/_lib/salla.js:32-38 | a name is bound exactly when some part that has an `=` carries it; parts without `=` are skipped |
| Lib.CookieMapLastWins | api/_lib/salla.js:37 | the last part naming a cookie decides its value |
| Lib.EncodeSignedPayload | api/_lib/salla.js:46-50 | the signed value splits at `.` into exactly the base64url payload and the hex HMAC of that payload |
| Lib.DecodeSignedPayload | api/_lib/salla.js:52-66 | a value comes back only when there are two segments, the payload is non-empty and the second segment is the HMAC of the first |
| Lib.DecodeEncode | api/_lib/salla.js:46-66 | decoding what was encoded under the same secret gives the value back |
| Lib.DecodeIgnoresExtraSegments | api/_lib/salla.js:54 | a valid value with `.anything` appended decodes to the same value |
| Lib.DecodeRejectsEmpty | api/_lib/salla.js:53 | an absent or empty value gives null |
| Lib.DecodeRejectsUnsigned | api/_lib/salla.js:54-55 | a value without a signature segment, with or without the dot, gives null |
| Lib.DecodeRejectsNoPayload | api/_lib/salla.js:54-55 | an empty payload segment gives null |
| Lib.DecodeRejectsWrongSignature | api/_lib/salla.js:56-59 | a signature other than the HMAC of the payload gives null |
| Lib.DecodeRejectsForeignSecret | api/_lib/salla.js:56-59 | a value signed under a secret that gives a different HMAC is refused |
| Lib.TamperedSignatureRejected | api/_lib/salla.js:56-59 | changing any one character of the signature, even into a `.`, makes the cookie unreadable |
| Lib.DecodeNonJsonIsAbsent | api/_lib/salla.js:60-65 | a correctly signed payload that is not base64url JSON gives null, not an exception |
| Lib.CookieParts | api/_lib/salla.js:68-71 | the `name=value` pair the browser keeps is the name and the URI-escaped value |
| Lib.SessionTemplate | api/_lib/salla.js:68-71 | the session directive is `salla_session=<escaped signed value>; Path=/; HttpOnly; SameSite=Lax; Max-Age=2592000`, then `; Secure` in production |
| Lib.StateTemplate | api/_lib/salla.js:136-139 | the state directive is the same template with `Max-Age=600` |
| Lib.ClearTemplate | api/_lib/salla.js:73-76 | a clearing directive has an empty value and `Max-Age=0` |
| Lib.ClearCookieIsEmptyAndExpired | api/_lib/salla.js:73-76 | clearing is the same as building the cookie with value `''` and Max-Age 0 |
| Lib.SecureOnlyInProduction | api/_lib/salla.js:68-76 | both kinds of directive end in `; Secure` exactly in production |
| Lib.WithCookie | api/_lib/salla.js:78-89 | the header's directives become the previous ones followed by the new one; a previous `''` is replaced |
| Lib.SetCookie | api/_lib/salla.js:78-89 | the response's header becomes WithCookie of the old one; status and body are unchanged |
| Lib.WithCookiesAppends | api/_lib/salla.js:78-89 | successive setCookie calls keep every earlier directive, in order, followed by the new ones |
| Lib.UpstreamParsed | api/_lib/salla.js:91-98 | the status passes through; JSON text becomes the body; any other text becomes `{error: 'Non-JSON', raw}` with `raw` the longest prefix of at most 1000 UTF-16 code units, the whole text when it fits |
| Lib.FormPairsAt | api/_lib/salla.js:101 | the form body has one `name=value` pair per field, in the order of the fields |
| Lib.TokenRequest | api/_lib/salla.js:100-111 | one POST of the form-encoded fields to `<accounts base>/oauth2/token` is logged, and its parsed answer is returned |
| Lib.ReadSession | api/_lib/salla.js:117-120 | the decoded `salla_session` cookie of the request |
| Lib.ReadState | api/_lib/salla.js:131-134 | the decoded `salla_oauth_state` cookie of the request |
| Lib.WriteSession | api/_lib/salla.js:122-125 | the signed 30-day session directive is appended |
| Lib.ClearSession | api/_lib/salla.js:127-129 | the session-clearing directive is appended |
| Lib.WriteState | api/_lib/salla.js:136-139 | the signed 600-second directive holding `{state, at}` is appended |
| Lib.ClearState | api/_lib/salla.js:141-143 | the state-clearing directive is appended |
| Lib.SignedCookieReadsBack | api/_lib/salla.js:117-139 | a session or state cookie that was written and is sent back by the browser reads back as the value that was written |
| Strings.IndexOf | api/_lib/salla.js:33 | the first position of the character, or -1 exactly when it is absent |
| Strings.JoinSplit | api/_lib/salla.js:32 | splitting the header loses nothing: joining the parts again gives the header |
| Strings.SplitSegments | api/_lib/salla.js:32 | no part contains the separator |
| Strings.Slice | api/_lib/salla.js:96 | `slice(0, n)` is a prefix of the string within n UTF-16 code units, and no longer one fits |
| Strings.SliceExact | api/oauth/callback.js:39 | unless the cut splits a surrogate pair, the slice holds exactly min(n, length) code units, and is the whole string exactly when it fits |
| Strings.SliceOfBmp | api/_lib/salla.js:96 | over the Basic Multilingual Plane the slice is the first min(n, length) characters |
| Strings.SliceWhole | api/_lib/salla.js:96 | a string within n code units is kept whole |
| Strings.SplitShape | api/oauth/callback.js:39 | a split cut stops one code unit short of n, before a character of two code units |
| Strings.SliceStopsBeforePair | api/oauth/callback.js:39 | n - 1 characters of the Basic Multilingual Plane followed by one beyond it: the slice keeps the n - 1 and cuts the pair |
| Strings.StripTrailing | api/salla/test-token.js:12 | the result is a prefix of the input, everything removed was a `/`, and it does not end with `/` |
| Strings.StripTrailingMore | api/salla/test-token.js:12 | more trailing slashes are stripped just the same |
| Strings.NatToStringValue | api/salla.js:27 | the decimal rendering in a template literal reads back as the number |
| Refresh.RefreshedSessionFields | api/salla.js:101-106 | the rewritten session has the granted access token, the granted refresh token or else the stored one, `updated_at` = now, and every other stored field unchanged |
| Refresh.RefreshAtMostOnce | api/salla.js:91-109 | at most one token request, only after a 401/403 with a refresh token; the session is rewritten exactly when a token was granted; the second run then decides the result, otherwise the first run's result stands |
| Refresh.CoordinatedSize | api/salla/products.js:80-101 | the calls are the first run followed by at most the token request and one more run; more than one added call means the session was rewritten |
| Refresh.RewrittenSessionTokens | api/salla/test-token.js:54-61 | the rewritten session carries the token the second call used, and keeps the old refresh token when none was granted |
| SallaEndpoint.RetryPolicy | api/salla.js:37-51 | one to three calls of the same request; every call but the last got a 429 or 5xx; it stops early only on a final answer or an exception; the result is the last answer; pauses of 300 ms times the attempt number, one fewer than the calls |
| SallaEndpoint.RetryBounds | api/salla.js:40-49 | a retry run makes one to three calls, starting with its request, and pauses once fewer than it calls |
| SallaEndpoint.ExhaustedRetriesReturnThird | api/salla.js:44-50 | three retryable answers in a row give three calls, pauses of 300 and 600 ms, and the third answer |
| SallaEndpoint.FinalAnswerAtOnce | api/salla.js:44 | a status that is neither 429 nor 5xx is returned after one call and no pause |
| SallaEndpoint.Retry | api/salla.js:38-50 | the loop logs exactly the requests and pauses of the retry run and returns its result |
| SallaEndpoint.FetchWithRetry | api/salla.js:26-51 | the retry run of the page GET `/admin/v2/products?page=..&per_page=..` with the bearer token |
| SallaEndpoint.MissingSettings | api/salla.js:66-71 | exactly the names of the empty required settings, in the order client id, client secret, redirect URI, app secret |
| SallaEndpoint.PositiveOr | api/salla.js:81-82 | the query number when it is positive, else the default (1 for `page`, 100 for `per_page`) |
| SallaEndpoint.Items | api/salla.js:111-112 | `data` if it is an array, else `data.data` if that is, else `items` if that is, else nothing |
| SallaEndpoint.FirstPositive | api/salla.js:115-122 | the first positive candidate page count, none before it positive; none when there is no positive candidate |
| SallaEndpoint.CountsOfAt | api/salla.js:117 | the k-th candidate is the number under the k-th of `total_pages`, `totalPages`, `last_page`, `lastPage`, `pages` |
| SallaEndpoint.TotalPages | api/salla.js:115-122 | the search loop with its `break` finds FirstPositive of the candidates, and none for a falsy or non-object pagination |
| SallaEndpoint.NextPage | api/salla.js:124-126 | with a known page count, `page + 1` exactly while `page` is below it; without one, null exactly when the page came back short |
| SallaEndpoint.PageCallsBounded | api/salla.js:88-109 | products_page makes one to seven upstream calls and at most four pauses, the first call with the stored token; more than four calls only after a session rewrite |
| SallaEndpoint.PageRefreshGranted | api/salla.js:100-108 | a granted refresh is followed by the session rewrite and the retry run with the granted token |
| SallaEndpoint.RefreshAndRetry | api/salla.js:91-109 | the refresh block logs and writes exactly what the coordination prescribes |
| SallaEndpoint.FetchCoordinated | api/salla.js:88-109 | the first run and the refresh block together log, pause and write what ProductsPageCalls prescribes |
| SallaEndpoint.SendPageAnswer | api/salla.js:111-141 | the status and payload are the summary of the answer, or 500 with the exception message |
| SallaEndpoint.HandleProductsPage | api/salla.js:65-141 | the products_page branch does what ProductsPage describes |
| SallaEndpoint.Handle | api/salla.js:53-148 | the handler leaves the response, cookies, calls and pauses that Endpoint describes |
| SallaEndpoint.EndpointGuards | api/salla.js:53-148 | OPTIONS gives 200, an unknown action 400, missing settings 500 and a missing session or token 401, all without a call or a cookie |
| Products.HasNextPageCapped | api/salla/products.js:23 | never a next page at or past the cap |
| Products.HasNextPageRule | api/salla/products.js:24-29 | a numeric `currentPage`/`totalPages` pair decides, and `links` is then ignored; otherwise `links.next` decides |
| Products.PageData | api/salla/products.js:55-57 | a page adds its `data` array, or nothing when `data` is not an array |
| Products.NoMoreAtCap | api/salla/products.js:49-59 | at page 5 the loop never goes on, whatever the answer |
| Products.VerdictMeaning | api/salla/products.js:52-60 | an exception or a status of 400 or more stops the run with that outcome; otherwise the page's data is collected and the loop goes on exactly when there is a next page |
| Products.PagesOutcome | api/salla/products.js:45-76 | a walk ends with the outcome of its last page, or with the items of the pages walked concatenated in order and the last page's number |
| Products.RunFetchesAtMostFive | api/salla/products.js:44-77 | one to five GETs for pages 1, 2, ... in order, no pause; the first failing page ends the run with its status and body and no items; otherwise `data` concatenates the pages' arrays and `pages_fetched` is the number of pages fetched |
| Products.FetchPage | api/salla/products.js:50-60 | one pass logs the GET for its page and judges the answer |
| Products.WalkPages | api/salla/products.js:45-76 | the loop logs the GETs of the walk and returns its outcome |
| Products.RunPages | api/salla/products.js:44-77 | `run` logs and returns exactly what ProductsRun describes |
| Products.LastPagination | api/salla/products.js:73 | the last body's truthy `pagination`, else null |
| Products.FirstItem | api/salla/products.js:114 | `data[0]` when it is truthy, else null (also for an empty list) |
| Products.SuccessPayload | api/salla/products.js:111-115 | `success: true`, `count` equal to the number of items, the items, `first_item`, `debug_id` |
| Products.ProductsAnswer | api/salla/products.js:103-118 | 200 for a completed run, the failed page's status for a failed one, 500 for an exception |
| Products.RunRefreshGranted | api/salla/products.js:91-100 | a granted refresh is followed by the whole run again from page 1 with the granted token |
| Products.RefreshAndRerun | api/salla/products.js:82-101 | the refresh block logs and writes exactly what the coordination prescribes, with no pause |
| Products.RunCoordinated | api/salla/products.js:80-101 | the first run and the refresh block together log and write what ProductsCalls prescribes |
| Products.Handle | api/salla/products.js:32-119 | the handler leaves the response, cookies and calls that Endpoint describes |
| Products.EndpointGuards | api/salla/products.js:33-42 | OPTIONS, a missing app secret (500) and a missing session or token (401) make no call and write no cookie |
| TestToken.StoreInfoUrl | api/salla/test-token.js:11-15 | the URL starts with the base stripped of trailing slashes and ends with `/admin/v2/store/info` |
| TestToken.AdminPathNotDoubled | api/salla/test-token.js:13 | a base ending in `/admin/v2` only gets `/store/info` |
| TestToken.AdminPathAdded | api/salla/test-token.js:14 | any other base gets `/admin/v2/store/info`, the same URL as for the base with `/admin/v2` added by hand |
| TestToken.TrailingSlashesIgnored | api/salla/test-token.js:12 | appending slashes to the base never changes the URL |
| TestToken.EmptyBase | api/salla/test-token.js:12 | an empty base gives exactly `/admin/v2/store/info` |
| TestToken.CallStore | api/salla/test-token.js:17-27 | one GET of the store-info URL with the bearer token |
| TestToken.AtMostTwoStoreCalls | api/salla/test-token.js:41-64 | one to three calls: the store call with the stored token, the token request exactly when it was refused with a refresh token at hand, the second store call with the granted token exactly when one was granted; never a pause |
| TestToken.StatusOfLastStoreCall | api/salla/test-token.js:66-73 | the status sent is that of the last store call made, or 500 when a call threw |
| TestToken.StoreRefreshGranted | api/salla/test-token.js:54-61 | a granted refresh is followed by the session rewrite and the store call with the granted token |
| TestToken.RefreshAndRecall | api/salla/test-token.js:45-64 | the refresh block logs and writes exactly what the coordination prescribes |
| TestToken.StoreCoordinated | api/salla/test-token.js:42-64 | the first call and the refresh block log and write what StoreCalls prescribes |
| TestToken.Handle | api/salla/test-token.js:29-74 | the handler leaves the response, cookies and calls that Endpoint describes |
| TestToken.EndpointGuards | api/salla/test-token.js:30-39 | OPTIONS, a missing app secret (500) and a missing session or token (401) make no call and write no cookie |
| OAuthStart.Hex | api/oauth/start.js:13 | two lower-case hex digits per byte |
| OAuthStart.HexRoundTrip | api/oauth/start.js:13 | reading the hex string back gives the bytes |
| OAuthStart.NonceShape | api/oauth/start.js:13 | 16 random bytes make 32 hex digits |
| OAuthStart.StartGuard | api/oauth/start.js:7-11 | an empty client id, redirect URI, accounts base or app secret gives 500 and no cookie, else 302; the client secret plays no part |
| OAuthStart.UrlCarriesState | api/oauth/start.js:16-25 | the redirect starts with `<accounts base>/oauth2/auth?` and ends with the `state` parameter |
| OAuthStart.NonceUnescaped | api/oauth/start.js:21 | a hex nonce appears in the URL unescaped |
| OAuthStart.CookieKeepsState | api/oauth/start.js:13-25 | the one cookie written reads back as `{state: nonce, at: now}`, and the same nonce ends the redirect URL |
| OAuthStart.Handle | api/oauth/start.js:4-26 | the handler sends the status and redirect of Start and appends its cookie |
| OAuthCallback.EarlyExits | api/oauth/callback.js:14-26 | missing settings and a missing code redirect with their reason and touch no cookie; a rejected state redirects with `invalid_state` and only clears the state; none calls the token endpoint |
| OAuthCallback.AcceptsOnlyItsNonce | api/oauth/callback.js:23 | a stored non-empty nonce accepts exactly that string as the incoming state |
| OAuthCallback.StartedFlowAccepted | api/oauth/callback.js:22-26 | the nonce start.js stored and sent is accepted, and any other value is refused |
| OAuthCallback.ExchangeRequest | api/oauth/callback.js:29-35 | exactly one request: the authorization-code grant with the code and the configured redirect URI, to `<accounts base>/oauth2/token` |
| OAuthCallback.ExchangeOutcomes | api/oauth/callback.js:37-55 | an exception gives `exchange_exception` after one state clearing; a refused grant gives `token_exchange_failed` with a detail that reads back as the first 120 code units of the serialised answer, after one clearing, unless the cut splits a surrogate pair: then `encodeURIComponent` throws, the catch clears the state a second time and redirects with `exchange_exception`; a grant writes the session, then clears the state, then redirects to success |
| OAuthCallback.DoubleClearingReachable | api/oauth/callback.js:37-54 | a refused answer whose serialisation is 119 BMP characters and an emoji takes the throwing path: two state clearings and `exchange_exception` |
| OAuthCallback.NewSessionDefaults | api/oauth/callback.js:43-49 | the new session has the access token, the refresh token or `''`, the token type or `Bearer`, the expiry or null, and the time |
| OAuthCallback.ExchangeClearsStateLast | api/oauth/callback.js:37-55 | after the exchange the state is cleared as the last cookie write: twice when a refusal's detail throws, else exactly once |
| OAuthCallback.StateClearedLast | api/oauth/callback.js:22-55 | every path through the state check clears the state as the last cookie write: twice after an accepted state whose refused exchange's detail throws, else exactly once |
| OAuthCallback.Exchange | api/oauth/callback.js:28-55 | the try block and its catch log the grant and write the cookies of AfterExchange in order, including the second clearing when the detail throws |
| OAuthCallback.CheckState | api/oauth/callback.js:22-55 | the state check and what follows it do what Checked describes |
| OAuthCallback.Handle | api/oauth/callback.js:9-56 | the handler leaves the redirect, cookies and calls that Callback describes |
| Logout.AlwaysOk | api/salla/logout.js:3-7 | always 200 `{ok: true}`, with no call, whatever the deployment |
| Logout.EarlierDirectivesKept | api/salla/logout.js:4-5 | earlier directives stay, in order, ahead of the session clearing and then the state clearing |
| Logout.BothExpired | api/salla/logout.js:4-5 | both directives carry an empty value and `Max-Age=0` |
| Logout.Handle | api/salla/logout.js:3-7 | the handler appends the two clearing directives and sends 200 |
| Proxy.PreflightFirst | salla.js:6 | OPTIONS gives 200 with no body before the action is looked at |
| Proxy.PingAnswers | salla.js:11-13 | ping answers 200 with the time and makes no call |
| Proxy.TokenAction | salla.js:16-32 | the token endpoint is called exactly when code, client id and client secret are present, by one JSON POST whose grant has exactly the keys grant_type, client_id, client_secret, code and redirect_uri, with `authorization_code`, the given client id, client secret and code, and the given redirect URI or `''`; otherwise 400 and no call |
| Proxy.RefreshAction | salla.js:42-57 | the token endpoint is called exactly when refresh token, client id and client secret are present, by one JSON POST whose grant has exactly the keys grant_type, client_id, client_secret and refresh_token, with `refresh_token` and the given client id, client secret and refresh token; otherwise 400 and no call |
| Proxy.ApiAction | salla.js:67-84 | exactly when URL and token are present, one call to the given URL with the given method or GET, the bearer token and the JSON Content-Type and Accept headers, carrying the serialised body exactly when body and method are truthy and the method is not `GET`; otherwise 400 and no call |
| Proxy.OmittedMethodSendsNoBody | salla.js:73-83 | without a method the call is a GET and carries no body |
| Proxy.OnlyGetIsBodiless | salla.js:81-83 | a truthy body is sent for every method but `GET`, so HEAD with a body sends it |
| Proxy.StatusMirrored | salla.js:33-38 | the upstream status is mirrored; a non-JSON body becomes `{error, raw}` with the longest prefix of at most 500 UTF-16 code units; an exception gives 500 with its message (the same for lines 58-63 and 85-90) |
| Proxy.UnknownActionRefused | salla.js:93 | any other action gives 400 and makes no call |

## Left out

- Network I/O is an oracle. `fetch` and `resp.text()` become `respond(n, request)`, and a rejected promise becomes an exception outcome. `sleep` is recorded as a pause in milliseconds and no time passes.
- JSON.stringify/parse, base64url, HMAC-SHA256, encodeURIComponent/decodeURIComponent and URLSearchParams are function parameters.
  - The proofs assume only the round-trip and alphabet laws listed in `Lawful`.
  - `timingSafeEqual` is plain string equality, and its timing behaviour is not modelled.
- `crypto.randomBytes` (the nonce and `debugId`), `Date.now()` and `new Date().toISOString()` are parameters.
- `process.env` is an explicit map (`Lib.EnvConfig`) or a `Config` record. `NODE_ENV === 'production'` is a field of it.
- Lib.CookieEntry: `decodeURIComponent` throwing on a malformed `%` sequence is not modelled. The model decodes every value, where the source lets the exception escape the handler.
- Json.NumberOf: numbers are integers. `Number()` of fractions, exponents, hex literals, `Infinity` and NaN arithmetic is not modelled: a string is a number only when it is decimal digits, possibly surrounded by whitespace.
- SallaEndpoint.PositiveOr: for the same reason `page` and `per_page` are integers.
- JSON object key order is not modelled. Objects are maps, so the serialised token grant of the proxy and the session payload are compared as maps.
- CORS headers (`setCors`), the `Content-Type` of responses and every `console.log` are left out. None of them affects status, body, cookies or upstream calls.
- The `typeof signedValue !== 'string'` test is not modelled. Cookie values are always strings or absent here.
- Proxy.OnlyGetIsBodiless: the model states which options are built. It does not model that `fetch` rejects a GET or HEAD request carrying a body; that rejection would reach the catch as a 500.
- Strings.Slice: when `slice(0, n)` cuts a surrogate pair, JavaScript keeps the lone high surrogate, which a string of Unicode characters cannot hold. The model's prefix stops before it. For `detail` the consequence is modelled: `encodeURIComponent` throws (`OAuthCallback.DetailThrows`). For the `raw` text of a non-JSON answer (limits 1000 and 500), that one code unit is dropped from `raw`.
- Lib.SetCookie: the response always has `getHeader`, as Node's does. The fallback at api/_lib/salla.js:79 for a response without it is not modelled; there every call would replace the header instead of appending.
- `res.redirect(url)` with no status (api/oauth/callback.js; api/oauth/start.js passes 302 itself) is taken as 302, the Express default. A host whose helper defaults to another redirect status (307, say) answers with that status instead.
- Response headers other than `Set-Cookie` are not modelled. A response is its status, body and `Set-Cookie` value.
