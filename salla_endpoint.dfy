/** api/salla.js: the `/api/salla` endpoint with its `ping` and
    `products_page` actions. `products_page` fetches one page of products
    with a bounded retry on 429 and 5xx answers, refreshes the access token
    once on a 401/403, and derives `total_pages` and `next_page` from
    whatever pagination object the upstream returned. */
module SallaEndpoint {
  import opened Json
  import opened Strings
  import opened Platform
  import opened Http
  import opened Lib
  import opened Refresh

  const MaxAttempts: nat := 3
  /** Milliseconds of pause per attempt already made. */
  const BackoffStep: nat := 300
  const DefaultPage: int := 1
  const DefaultPerPage: int := 100
  const UnknownAction := "Unknown action for /api/salla. Use action=ping or action=products_page"

  // ---------------------------------------------------------------- fetchWithRetry

  /** Not 429 and outside 500..599: the answer is returned as it is. */
  predicate Final(status: int)
  {
    status != 429 && (status < 500 || status > 599)
  }

  /** The GET fetchProductsPage sends. */
  function PageRequest(config: Config, token: Json, page: int, perPage: int): Request
  {
    Request(
      "GET",
      config.apiBase + "/admin/v2/products?page=" + IntToString(page) + "&per_page=" + IntToString(perPage),
      BearerHeaders(token),
      None)
  }

  /** The loop of fetchWithRetry from its attempt number `attempt` (0-based)
      on; the first call of the loop is the n-th of the request. */
  function RetryLoop(p: Primitives, respond: (nat, Request) -> Reply, n: nat, req: Request, attempt: nat): Run<Upstream>
    requires attempt < MaxAttempts
    decreases MaxAttempts - attempt
  {
    match Receive(p, respond(n + attempt, req))
    case Thrown(e) => Run(Thrown(e), [req], [])
    case Ok(u) =>
      if Final(u.status) || attempt + 1 == MaxAttempts then Run(Ok(u), [req], [])
      else
        var rest := RetryLoop(p, respond, n, req, attempt + 1);
        Run(rest.result, [req] + rest.requests, [BackoffStep * (attempt + 1)] + rest.delays)
  }

  /** The answer to the n-th call of the request, once parsed. */
  function Answer(p: Primitives, respond: (nat, Request) -> Reply, req: Request, n: nat): Outcome<Upstream>
  {
    Receive(p, respond(n, req))
  }

  /** A 429 or 5xx answer, which fetchWithRetry tries again. */
  predicate Retryable(a: Outcome<Upstream>)
  {
    a.Ok? && !Final(a.value.status)
  }

  /** The whole retry policy: between one and three calls of the same
      request; every call but the last got a 429/5xx answer; the loop stops
      early only on a final answer or an exception; the result is the last
      answer; the pauses are 300 ms times the attempts made, one fewer than
      the calls. */
  lemma {:induction false} RetryPolicy(p: Primitives, respond: (nat, Request) -> Reply, n: nat, req: Request, attempt: nat)
    requires attempt < MaxAttempts
    ensures var r := RetryLoop(p, respond, n, req, attempt);
      && 1 <= |r.requests| <= MaxAttempts - attempt
      && (forall k :: 0 <= k < |r.requests| ==> r.requests[k] == req)
      && (forall i :: n + attempt <= i < n + attempt + |r.requests| - 1 ==> Retryable(Answer(p, respond, req, i)))
      && r.result == Answer(p, respond, req, n + attempt + |r.requests| - 1)
      && (r.result.Thrown? || Final(r.result.value.status) || |r.requests| == MaxAttempts - attempt)
      && |r.delays| == |r.requests| - 1
      && (forall k :: 0 <= k < |r.delays| ==> r.delays[k] == BackoffStep * (attempt + k + 1))
    decreases MaxAttempts - attempt
  {
    var r := RetryLoop(p, respond, n, req, attempt);
    if Retryable(Answer(p, respond, req, n + attempt)) && attempt + 1 < MaxAttempts {
      var rest := RetryLoop(p, respond, n, req, attempt + 1);
      RetryPolicy(p, respond, n, req, attempt + 1);
      assert r.requests == [req] + rest.requests;
      forall k | 0 <= k < |r.delays|
        ensures r.delays[k] == BackoffStep * (attempt + k + 1)
      {
        if k > 0 {
          assert r.delays[k] == rest.delays[k - 1];
        }
      }
    }
  }

  /** A retry run makes one to three calls, starting with its request, and
      pauses once fewer than it calls. */
  lemma RetryBounds(p: Primitives, respond: (nat, Request) -> Reply, n: nat, req: Request)
    ensures var r := RetryLoop(p, respond, n, req, 0);
      && 1 <= |r.requests| <= MaxAttempts && r.requests[0] == req && |r.delays| == |r.requests| - 1
  {
    RetryPolicy(p, respond, n, req, 0);
  }

  /** Three 429/5xx answers in a row: three calls, pauses of 300 and 600 ms
      and no pause after the third, whose answer is returned. */
  lemma ExhaustedRetriesReturnThird(p: Primitives, respond: (nat, Request) -> Reply, n: nat, req: Request)
    requires forall i :: n <= i < n + 3 ==> Retryable(Answer(p, respond, req, i))
    ensures RetryLoop(p, respond, n, req, 0) == Run(Answer(p, respond, req, n + 2), [req, req, req], [300, 600])
  {
    assert Retryable(Answer(p, respond, req, n + 0));
    assert Retryable(Answer(p, respond, req, n + 1));
    assert Retryable(Answer(p, respond, req, n + 2));
  }

  /** A final first answer is returned after exactly one call and no pause. */
  lemma FinalAnswerAtOnce(p: Primitives, respond: (nat, Request) -> Reply, n: nat, req: Request)
    requires Answer(p, respond, req, n).Ok? && Final(Answer(p, respond, req, n).value.status)
    ensures RetryLoop(p, respond, n, req, 0) == Run(Answer(p, respond, req, n), [req], [])
  {
    assert n + 0 == n;
  }

  function Repeat(req: Request, k: nat): (r: seq<Request>)
    ensures |r| == k
  {
    if k == 0 then [] else Repeat(req, k - 1) + [req]
  }

  /** The pauses after the first k attempts: 300, 600, ... */
  function Backoffs(k: nat): (r: seq<nat>)
    ensures |r| == k
  {
    if k == 0 then [] else Backoffs(k - 1) + [BackoffStep * k]
  }

  /** The retry loop after k attempts, with what the first k attempts did in front. */
  function AfterAttempts(p: Primitives, respond: (nat, Request) -> Reply, n: nat, req: Request, k: nat): Run<Upstream>
    requires k < MaxAttempts
  {
    var rest := RetryLoop(p, respond, n, req, k);
    Run(rest.result, Repeat(req, k) + rest.requests, Backoffs(k) + rest.delays)
  }

  /** One more retryable attempt moves the split point one attempt on. */
  lemma AfterAttemptsStep(p: Primitives, respond: (nat, Request) -> Reply, n: nat, req: Request, k: nat)
    requires k + 1 < MaxAttempts && Retryable(Answer(p, respond, req, n + k))
    ensures AfterAttempts(p, respond, n, req, k) == AfterAttempts(p, respond, n, req, k + 1)
  {
    assert Repeat(req, k) + [req] == Repeat(req, k + 1);
    assert Backoffs(k) + [BackoffStep * (k + 1)] == Backoffs(k + 1);
  }

  /** The attempt that ends the loop. */
  lemma AfterAttemptsLast(p: Primitives, respond: (nat, Request) -> Reply, n: nat, req: Request, k: nat)
    requires k < MaxAttempts && (!Retryable(Answer(p, respond, req, n + k)) || k + 1 == MaxAttempts)
    ensures AfterAttempts(p, respond, n, req, k) == Run(Answer(p, respond, req, n + k), Repeat(req, k + 1), Backoffs(k))
  {
    assert Repeat(req, k) + [req] == Repeat(req, k + 1);
    assert Backoffs(k) + [] == Backoffs(k);
  }

  /** `fetchWithRetry(config, token, page, perPage, id)`. */
  method FetchWithRetry(net: Network, p: Primitives, config: Config, token: Json, page: int, perPage: int)
    returns (upstream: Outcome<Upstream>)
    modifies net
    ensures var r := RetryLoop(p, net.respond, |old(net.log)|, PageRequest(config, token, page, perPage), 0);
      upstream == r.result && net.log == old(net.log) + r.requests && net.sleeps == old(net.sleeps) + r.delays
  {
    upstream := Retry(net, p, PageRequest(config, token, page, perPage));
  }

  /** The loop of fetchWithRetry, for the request it sends. */
  method Retry(net: Network, p: Primitives, req: Request) returns (upstream: Outcome<Upstream>)
    modifies net
    ensures var r := RetryLoop(p, net.respond, |old(net.log)|, req, 0);
      upstream == r.result && net.log == old(net.log) + r.requests && net.sleeps == old(net.sleeps) + r.delays
  {
    ghost var n := |net.log|;
    ghost var spec := AfterAttempts(p, net.respond, n, req, 0);
    assert spec == RetryLoop(p, net.respond, n, req, 0);
    var attempt := 0;
    var last := Upstream(0, Null);
    while attempt < MaxAttempts
      invariant 0 <= attempt < MaxAttempts
      invariant |net.log| == n + attempt
      invariant net.log == old(net.log) + Repeat(req, attempt)
      invariant net.sleeps == old(net.sleeps) + Backoffs(attempt)
      invariant spec == AfterAttempts(p, net.respond, n, req, attempt)
      decreases MaxAttempts - attempt
    {
      var reply := net.Fetch(req);
      var received := Receive(p, reply);
      assert received == Answer(p, net.respond, req, n + attempt);
      assert net.log == old(net.log) + Repeat(req, attempt + 1) by {
        assert Repeat(req, attempt) + [req] == Repeat(req, attempt + 1);
      }
      if received.Thrown? || Final(received.value.status) || attempt + 1 == MaxAttempts {
        AfterAttemptsLast(p, net.respond, n, req, attempt);
        upstream := received;
        return;
      }
      AfterAttemptsStep(p, net.respond, n, req, attempt);
      last := received.value;
      attempt := attempt + 1;
      net.Sleep(BackoffStep * attempt);
      assert Backoffs(attempt - 1) + [BackoffStep * attempt] == Backoffs(attempt);
    }
    upstream := Ok(last);
  }

  // ---------------------------------------------------------------- products_page

  const RequiredSettings := ["SALLA_CLIENT_ID", "SALLA_CLIENT_SECRET", "SALLA_REDIRECT_URI", "APP_SESSION_SECRET"]

  /** The value of the k-th required setting. */
  function Setting(config: Config, k: nat): string
    requires k < 4
  {
    match k
    case 0 => config.clientId
    case 1 => config.clientSecret
    case 2 => config.redirectUri
    case _ => config.appSecret
  }

  /** The names of the empty settings among the k-th required one and those after it, in order. */
  function MissingFrom(config: Config, k: nat): (missing: seq<string>)
    requires k <= 4
    ensures forall i :: 0 <= i < |missing| ==> k <= RankOf(missing[i]) < 4
    ensures forall i :: 0 < i < |missing| ==> RankOf(missing[i - 1]) < RankOf(missing[i])
    ensures forall j :: k <= j < 4 ==> (RequiredSettings[j] in missing <==> Setting(config, j) == "")
    decreases 4 - k
  {
    if k == 4 then []
    else
      var rest := MissingFrom(config, k + 1);
      RankOfRequired();
      var here := if Setting(config, k) == "" then [RequiredSettings[k]] else [];
      assert RequiredSettings[k] !in rest by {
        forall i | 0 <= i < |rest| ensures rest[i] != RequiredSettings[k] {
          assert RankOf(RequiredSettings[k]) == k;
        }
      }
      here + rest
  }

  /** The position of a setting name in the required list (4 for any other name). */
  function RankOf(name: string): nat
  {
    if name == RequiredSettings[0] then 0
    else if name == RequiredSettings[1] then 1
    else if name == RequiredSettings[2] then 2
    else if name == RequiredSettings[3] then 3
    else 4
  }

  lemma RankOfRequired()
    ensures forall j :: 0 <= j < 4 ==> RankOf(RequiredSettings[j]) == j
  {
    assert RankOf(RequiredSettings[1]) == 1;
    assert RankOf(RequiredSettings[2]) == 2;
    assert RankOf(RequiredSettings[3]) == 3;
  }

  /** The `missing` list: exactly the names of the empty required settings,
      in the order SALLA_CLIENT_ID, SALLA_CLIENT_SECRET, SALLA_REDIRECT_URI,
      APP_SESSION_SECRET. */
  function MissingSettings(config: Config): (missing: seq<string>)
    ensures forall j :: 0 <= j < 4 ==> (RequiredSettings[j] in missing <==> Setting(config, j) == "")
    ensures forall i :: 0 <= i < |missing| ==> RankOf(missing[i]) < 4
    ensures forall i :: 0 < i < |missing| ==> RankOf(missing[i - 1]) < RankOf(missing[i])
  {
    MissingFrom(config, 0)
  }

  /** `Number(v) > 0 ? Number(v) : default`. */
  function PositiveOr(v: Option<Json>, default: int): (n: int)
    ensures n == default || (NumberOf(v) == Some(n) && n > 0)
    ensures NumberOf(v).Some? && NumberOf(v).value > 0 ==> n == NumberOf(v).value
  {
    match NumberOf(v)
    case Some(x) => if x > 0 then x else default
    case None => default
  }

  /** `upstream.body || {}`. */
  function BodyOrEmpty(body: Json): Json
  {
    if Truthy(Some(body)) then body else Obj(map[])
  }

  /** The product list: `data` if it is an array, else `data.data` if that
      is, else `items` if that is, else nothing. */
  function Items(body: Json): (items: seq<Json>)
    ensures IsArray(Field(body, "data")) ==> items == Field(body, "data").value.items
    ensures !IsArray(Field(body, "data")) && Truthy(Field(body, "data")) && IsArray(Get(Field(body, "data"), "data")) ==>
      items == Get(Field(body, "data"), "data").value.items
    ensures !IsArray(Field(body, "data")) && !(Truthy(Field(body, "data")) && IsArray(Get(Field(body, "data"), "data"))) ==>
      items == (if IsArray(Field(body, "items")) then Field(body, "items").value.items else [])
    ensures items != [] ==>
      IsArray(Field(body, "data")) || IsArray(Get(Field(body, "data"), "data")) || IsArray(Field(body, "items"))
  {
    var data := Field(body, "data");
    if IsArray(data) then data.value.items
    else if Truthy(data) && IsArray(Get(data, "data")) then Get(data, "data").value.items
    else if IsArray(Field(body, "items")) then Field(body, "items").value.items
    else []
  }

  /** `body.pagination || body.meta || body.links || null`. */
  function Pagination(body: Json): Json
  {
    match Or(Or(Or(Field(body, "pagination"), Field(body, "meta")), Field(body, "links")), Some(Null))
    case Some(v) => v
    case None => Null
  }

  const PageCountKeys := ["total_pages", "totalPages", "last_page", "lastPage", "pages"]

  /** `Number(...)` of each candidate page count, in priority order; none
      when the pagination is not a truthy object. */
  function PageCounts(pagination: Json): (counts: seq<Option<int>>)
    ensures |counts| == 0 || |counts| == |PageCountKeys|
  {
    if Truthy(Some(pagination)) && (pagination.Obj? || pagination.Arr?) then
      CountsOf(pagination, PageCountKeys)
    else []
  }

  /** `Number(pagination[key])` for each key in order. */
  function CountsOf(pagination: Json, keys: seq<string>): (counts: seq<Option<int>>)
    ensures |counts| == |keys|
  {
    if keys == [] then [] else [NumberOf(Get(Some(pagination), keys[0]))] + CountsOf(pagination, keys[1..])
  }

  /** The k-th count is the number under the k-th key. */
  lemma {:induction false} CountsOfAt(pagination: Json, keys: seq<string>, k: nat)
    requires k < |keys|
    ensures CountsOf(pagination, keys)[k] == NumberOf(Get(Some(pagination), keys[k]))
  {
    if k > 0 {
      CountsOfAt(pagination, keys[1..], k - 1);
    }
  }

  /** A finite number above zero. */
  predicate Positive(c: Option<int>)
  {
    c.Some? && c.value > 0
  }

  /** The first positive count, or None when there is none. */
  function FirstPositive(counts: seq<Option<int>>): (r: Option<int>)
    ensures r.Some? ==>
      && r.value > 0
      && exists k :: 0 <= k < |counts| && counts[k] == r && forall j :: 0 <= j < k ==> !Positive(counts[j])
    ensures r.None? ==> forall k :: 0 <= k < |counts| ==> !Positive(counts[k])
  {
    if counts == [] then None
    else if Positive(counts[0]) then counts[0]
    else
      var r := FirstPositive(counts[1..]);
      assert forall k :: 1 <= k < |counts| ==> counts[k] == counts[1..][k - 1];
      r
  }

  /** The `totalPages` search: the first candidate field whose numeric value
      is finite and positive. */
  method TotalPages(pagination: Json) returns (total: Option<int>)
    ensures total == FirstPositive(PageCounts(pagination))
  {
    total := None;
    if Truthy(Some(pagination)) && (pagination.Obj? || pagination.Arr?) {
      ghost var counts := PageCounts(pagination);
      var k := 0;
      while k < |PageCountKeys|
        invariant 0 <= k <= |PageCountKeys|
        invariant FirstPositive(counts) == FirstPositive(counts[k..])
      {
        var n := NumberOf(Get(Some(pagination), PageCountKeys[k]));
        CountsOfAt(pagination, PageCountKeys, k);
        if n.Some? && n.value > 0 {
          total := n;
          break;
        }
        assert counts[k..][1..] == counts[k + 1..];
        k := k + 1;
      }
    }
  }

  /** `next_page`: with a known page count, the next page while there is
      one; without it, the next page unless this one came back short. */
  function NextPage(page: int, perPage: int, total: Option<int>, count: nat): (next: Option<int>)
    ensures next.Some? ==> next.value == page + 1
    ensures total.Some? && total.value != 0 ==> (next.Some? <==> page < total.value)
    ensures total.Some? && total.value > 0 && next.Some? ==> next.value <= total.value
    ensures total.None? ==> (next.None? <==> count < perPage)
  {
    if total.Some? && total.value != 0 then (if page < total.value then Some(page + 1) else None)
    else if count < perPage then None
    else Some(page + 1)
  }

  function NumOrNull(v: Option<int>): Json
  {
    if v.Some? then Num(v.value) else Null
  }

  /** The payload sent for an upstream answer. */
  function PageSummary(u: Upstream, page: int, perPage: int, id: string): Json
  {
    var body := BodyOrEmpty(u.body);
    var items := Items(body);
    var pagination := Pagination(body);
    var total := FirstPositive(PageCounts(pagination));
    Obj(map[
      "items" := Arr(items),
      "page" := Num(page),
      "per_page" := Num(perPage),
      "next_page" := NumOrNull(NextPage(page, perPage, total, |items|)),
      "total_pages" := NumOrNull(total),
      "pagination" := pagination,
      "upstream_status" := Num(u.status),
      "body" := body,
      "debug_id" := Str(id)])
  }

  /** The calls of products_page from the token request on, the token
      request being the k-th call; `firstResult` is what the first run gave. */
  function PageRefresh(p: Primitives, config: Config, session: Json, now: int, page: int, perPage: int,
                       respond: (nat, Request) -> Reply, k: nat, firstResult: Outcome<Upstream>): Coordinated<Upstream>
  {
    var refresh := Receive(p, respond(k, RefreshRequest(p, config, session)));
    var second := RetryLoop(p, respond, k + 1, PageRequest(config, GrantedToken(refresh), page, perPage), 0);
    AfterRefusal(p, config, session, now, firstResult, refresh, second)
  }

  /** The upstream calls of products_page from the n-th call on, after the
      refresh coordination. */
  function ProductsPageCalls(p: Primitives, config: Config, session: Json, now: int, page: int, perPage: int,
                             respond: (nat, Request) -> Reply, n: nat): Coordinated<Upstream>
  {
    var first := RetryLoop(p, respond, n, PageRequest(config, AccessToken(session), page, perPage), 0);
    PageCallsAfter(p, config, session, now, page, perPage, respond, first, n + |first.requests|)
  }

  /** The calls once the first run is over, the k-th call being the next. */
  function PageCallsAfter(p: Primitives, config: Config, session: Json, now: int, page: int, perPage: int,
                          respond: (nat, Request) -> Reply, first: Run<Upstream>, k: nat): Coordinated<Upstream>
  {
    Coordinate(first, Attempted(first, first.result.Ok? && Refused(first.result.value), session),
               PageRefresh(p, config, session, now, page, perPage, respond, k, first.result))
  }

  /** The `products_page` action; the n-th call of the request is the first one. */
  function ProductsPage(p: Primitives, config: Config, req: Incoming, id: string, now: int,
                        respond: (nat, Request) -> Reply, n: nat): Reaction
  {
    var missing := MissingSettings(config);
    if missing != [] then Reaction(500, MissingBody(missing, id), [], [], [])
    else ConfiguredPage(p, config, req, id, now, respond, n)
  }

  /** products_page once every required setting is present. */
  function ConfiguredPage(p: Primitives, config: Config, req: Incoming, id: string, now: int,
                          respond: (nat, Request) -> Reply, n: nat): Reaction
  {
    var session := StoredPayload(p, config.appSecret, req.cookie, SessionCookie);
    if session.None? || !Truthy(Field(session.value, "access_token")) then
      Reaction(401, JsonBody(Message("Not connected. Connect first.", id)), [], [], [])
    else ConnectedPage(p, config, session.value, req, id, now, respond, n)
  }

  /** The names as JSON strings. */
  function Strs(names: seq<string>): (items: seq<Json>)
    ensures |items| == |names|
  {
    if names == [] then [] else [Str(names[0])] + Strs(names[1..])
  }

  /** The 500 payload naming the missing settings. */
  function MissingBody(missing: seq<string>, id: string): Body
  {
    JsonBody(Obj(map[
      "error" := Str("Missing required env vars"),
      "missing" := Arr(Strs(missing)),
      "debug_id" := Str(id)]))
  }

  /** products_page once a connected session is at hand. */
  function ConnectedPage(p: Primitives, config: Config, session: Json, req: Incoming, id: string, now: int,
                         respond: (nat, Request) -> Reply, n: nat): Reaction
  {
    var page := PositiveOr(Query(req, "page"), DefaultPage);
    var perPage := PositiveOr(Query(req, "per_page"), DefaultPerPage);
    var c := ProductsPageCalls(p, config, session, now, page, perPage, respond, n);
    var a := PageAnswer(c.result, page, perPage, id);
    Reaction(a.0, a.1, SessionCookies(p, config, c.written), c.requests, c.delays)
  }

  /** The status and payload products_page sends once the upstream calls
      are over: the summary of the answer, or a 500 carrying the message of
      the exception. */
  function PageAnswer(result: Outcome<Upstream>, page: int, perPage: int, id: string): (int, Body)
  {
    match result
    case Thrown(e) =>
      (500, JsonBody(Obj(map["error" := Str(e), "debug_id" := Str(id), "page" := Num(page), "per_page" := Num(perPage)])))
    case Ok(u) => (u.status, JsonBody(PageSummary(u, page, perPage, id)))
  }

  /** The whole endpoint for one request. */
  function Endpoint(p: Primitives, config: Config, req: Incoming, id: string, nowIso: string, now: int,
                    respond: (nat, Request) -> Reply, n: nat): Reaction
  {
    if req.verb == "OPTIONS" then Reaction(200, NoBody, [], [], [])
    else
      var action := Query(req, "action");
      if action == Some(Str("ping")) then
        Reaction(200, JsonBody(Obj(map["ok" := Bool(true), "time" := Str(nowIso), "debug_id" := Str(id)])), [], [], [])
      else if action == Some(Str("products_page")) then ProductsPage(p, config, req, id, now, respond, n)
      else Reaction(400, JsonBody(Message(UnknownAction, id)), [], [], [])
  }

  /** PageRefresh when the token endpoint grants a new token; `m` is the
      index of the first call of the second run. */
  lemma PageRefreshGranted(p: Primitives, config: Config, session: Json, now: int, page: int, perPage: int,
                           respond: (nat, Request) -> Reply, k: nat, m: nat, firstResult: Outcome<Upstream>, refreshed: Upstream)
    ensures m == k + 1 && Receive(p, respond(k, RefreshRequest(p, config, session))) == Ok(refreshed) && Granted(refreshed) ==>
      var second := RetryLoop(p, respond, m, PageRequest(config, AccessToken(refreshed.body), page, perPage), 0);
      PageRefresh(p, config, session, now, page, perPage, respond, k, firstResult)
        == Coordinated(second.result, [RefreshRequest(p, config, session)] + second.requests, second.delays,
                       Some(RefreshedSession(session, refreshed.body, now)))
  {
  }

  /** The refresh block of products_page after a refused first run: one
      token request, then, if it granted a token, the session rewrite and
      the second run. */
  method RefreshAndRetry(net: Network, res: Response, p: Primitives, config: Config, session: Json, now: int,
                         page: int, perPage: int, firstResult: Outcome<Upstream>)
    returns (upstream: Outcome<Upstream>)
    modifies net, res
    ensures var c := PageRefresh(p, config, session, now, page, perPage, net.respond, |old(net.log)|, firstResult);
      && upstream == c.result
      && net.log == old(net.log) + c.requests && net.sleeps == old(net.sleeps) + c.delays
      && res.setCookie == WithCookies(old(res.setCookie), SessionCookies(p, config, c.written))
      && res.status == old(res.status) && res.body == old(res.body)
  {
    ghost var k := |net.log|;
    WithOneCookie(res.setCookie, "");
    var refreshed := TokenRequest(net, p, config, RefreshFields(config, session));
    if refreshed.Thrown? {
      upstream := Thrown(refreshed.message);
      return;
    }
    if !Granted(refreshed.value) {
      upstream := firstResult;
      return;
    }
    PageRefreshGranted(p, config, session, now, page, perPage, net.respond, k, |net.log|, firstResult, refreshed.value);
    var updated := RefreshedSession(session, refreshed.value.body, now);
    WithOneCookie(res.setCookie, SessionDirective(p, config, updated));
    WriteSession(res, p, config, updated);
    ghost var log := net.log;
    upstream := FetchWithRetry(net, p, config, AccessToken(refreshed.value.body), page, perPage);
    Regroup(old(net.log), [RefreshRequest(p, config, session)], net.log[|log|..]);
  }

  /** The upstream calls of products_page with the refresh coordination:
      what `upstream` holds after the refresh block, or the exception. */
  method FetchCoordinated(net: Network, res: Response, p: Primitives, config: Config, session: Json, now: int, page: int, perPage: int)
    returns (upstream: Outcome<Upstream>)
    modifies net, res
    ensures var c := ProductsPageCalls(p, config, session, now, page, perPage, net.respond, |old(net.log)|);
      && upstream == c.result
      && net.log == old(net.log) + c.requests && net.sleeps == old(net.sleeps) + c.delays
      && res.setCookie == WithCookies(old(res.setCookie), SessionCookies(p, config, c.written))
      && res.status == old(res.status) && res.body == old(res.body)
  {
    ghost var n := |net.log|;
    WithOneCookie(res.setCookie, "");
    upstream := FetchWithRetry(net, p, config, AccessToken(session), page, perPage);
    ghost var first := RetryLoop(p, net.respond, n, PageRequest(config, AccessToken(session), page, perPage), 0);
    ProductsPageCallsSplit(p, config, session, now, page, perPage, net.respond, n, first, |net.log|);
    if upstream.Ok? && Refused(upstream.value) && HasRefreshToken(session) {
      ghost var k := |net.log|;
      upstream := RefreshAndRetry(net, res, p, config, session, now, page, perPage, upstream);
      ghost var tail := PageRefresh(p, config, session, now, page, perPage, net.respond, k, first.result);
      Regroup(old(net.log), first.requests, tail.requests);
      Regroup(old(net.sleeps), first.delays, tail.delays);
    }
  }

  /** ProductsPageCalls split at the token request, the k-th call. */
  lemma ProductsPageCallsSplit(p: Primitives, config: Config, session: Json, now: int, page: int, perPage: int,
                               respond: (nat, Request) -> Reply, n: nat, first: Run<Upstream>, k: nat)
    requires first == RetryLoop(p, respond, n, PageRequest(config, AccessToken(session), page, perPage), 0)
    requires k == n + |first.requests|
    ensures ProductsPageCalls(p, config, session, now, page, perPage, respond, n)
        == PageCallsAfter(p, config, session, now, page, perPage, respond, first, k)
  {
  }

  /** products_page makes at most seven upstream calls and four pauses:
      the first retry run (at most three calls of the page request with the
      stored token), at most one token request, and at most one more retry
      run; the first call always asks for the page with the stored token. */
  lemma PageCallsBounded(p: Primitives, config: Config, session: Json, now: int, page: int, perPage: int,
                         respond: (nat, Request) -> Reply, n: nat)
    ensures var c := ProductsPageCalls(p, config, session, now, page, perPage, respond, n);
      && 1 <= |c.requests| <= 2 * MaxAttempts + 1
      && |c.delays| <= 2 * (MaxAttempts - 1)
      && c.requests[0] == PageRequest(config, AccessToken(session), page, perPage)
      && (|c.requests| > MaxAttempts + 1 ==> c.written.Some?)
  {
    var req := PageRequest(config, AccessToken(session), page, perPage);
    var first := RetryLoop(p, respond, n, req, 0);
    RetryBounds(p, respond, n, req);
    var k := n + |first.requests|;
    ProductsPageCallsSplit(p, config, session, now, page, perPage, respond, n, first, k);
    PageCallsAfterBounded(p, config, session, now, page, perPage, respond, first, k);
  }

  /** The calls after a first run of one to three calls: the bounds above,
      and the first run's calls come first. */
  lemma PageCallsAfterBounded(p: Primitives, config: Config, session: Json, now: int, page: int, perPage: int,
                              respond: (nat, Request) -> Reply, first: Run<Upstream>, k: nat)
    requires 1 <= |first.requests| <= MaxAttempts && |first.delays| == |first.requests| - 1
    ensures var c := PageCallsAfter(p, config, session, now, page, perPage, respond, first, k);
      && |first.requests| <= |c.requests| <= |first.requests| + 1 + MaxAttempts
      && c.requests[0] == first.requests[0]
      && |c.delays| <= |first.delays| + MaxAttempts - 1
      && (|c.requests| > |first.requests| + 1 ==> c.written.Some?)
  {
    var refresh := Receive(p, respond(k, RefreshRequest(p, config, session)));
    var second := PageRequest(config, GrantedToken(refresh), page, perPage);
    RetryBounds(p, respond, k + 1, second);
    CoordinatedSize(p, config, session, now, first, first.result.Ok? && Refused(first.result.value), refresh,
                    RetryLoop(p, respond, k + 1, second, 0));
    var c := PageCallsAfter(p, config, session, now, page, perPage, respond, first, k);
    assert c.requests[0] == c.requests[..|first.requests|][0];
  }

  /** The products_page branch of the handler. */
  method HandleProductsPage(net: Network, res: Response, p: Primitives, config: Config, req: Incoming, id: string, now: int)
    modifies net, res
    ensures var r := ProductsPage(p, config, req, id, now, net.respond, |old(net.log)|);
      && res.status == r.status && res.body == r.body
      && res.setCookie == WithCookies(old(res.setCookie), r.cookies)
      && net.log == old(net.log) + r.requests && net.sleeps == old(net.sleeps) + r.delays
  {
    var missing := MissingSettings(config);
    if |missing| > 0 {
      res.Send(500, MissingBody(missing, id));
      return;
    }
    HandleConfiguredPage(net, res, p, config, req, id, now);
  }

  method HandleConfiguredPage(net: Network, res: Response, p: Primitives, config: Config, req: Incoming, id: string, now: int)
    modifies net, res
    ensures var r := ConfiguredPage(p, config, req, id, now, net.respond, |old(net.log)|);
      && res.status == r.status && res.body == r.body
      && res.setCookie == WithCookies(old(res.setCookie), r.cookies)
      && net.log == old(net.log) + r.requests && net.sleeps == old(net.sleeps) + r.delays
  {
    WithOneCookie(res.setCookie, "");
    var session := ReadSession(p, config, req.cookie);
    if session.None? || !Truthy(Field(session.value, "access_token")) {
      res.Send(401, JsonBody(Message("Not connected. Connect first.", id)));
      return;
    }
    HandleConnectedPage(net, res, p, config, session.value, req, id, now);
  }

  method HandleConnectedPage(net: Network, res: Response, p: Primitives, config: Config, session: Json, req: Incoming, id: string, now: int)
    modifies net, res
    ensures var r := ConnectedPage(p, config, session, req, id, now, net.respond, |old(net.log)|);
      && res.status == r.status && res.body == r.body
      && res.setCookie == WithCookies(old(res.setCookie), r.cookies)
      && net.log == old(net.log) + r.requests && net.sleeps == old(net.sleeps) + r.delays
  {
    var page := PositiveOr(Query(req, "page"), DefaultPage);
    var perPage := PositiveOr(Query(req, "per_page"), DefaultPerPage);
    var upstream := FetchCoordinated(net, res, p, config, session, now, page, perPage);
    SendPageAnswer(res, upstream, page, perPage, id);
  }

  /** Sends PageAnswer; the page count is found by the loop of TotalPages. */
  method SendPageAnswer(res: Response, upstream: Outcome<Upstream>, page: int, perPage: int, id: string)
    modifies res
    ensures (res.status, res.body) == PageAnswer(upstream, page, perPage, id)
    ensures res.setCookie == old(res.setCookie)
  {
    if upstream.Thrown? {
      res.Send(500, JsonBody(Obj(map[
        "error" := Str(upstream.message), "debug_id" := Str(id), "page" := Num(page), "per_page" := Num(perPage)])));
      return;
    }
    var u := upstream.value;
    var body := BodyOrEmpty(u.body);
    var items := Items(body);
    var pagination := Pagination(body);
    var total := TotalPages(pagination);
    res.Send(u.status, JsonBody(Obj(map[
      "items" := Arr(items),
      "page" := Num(page),
      "per_page" := Num(perPage),
      "next_page" := NumOrNull(NextPage(page, perPage, total, |items|)),
      "total_pages" := NumOrNull(total),
      "pagination" := pagination,
      "upstream_status" := Num(u.status),
      "body" := body,
      "debug_id" := Str(id)])));
  }

  /** The whole handler for one request. */
  method Handle(net: Network, res: Response, p: Primitives, config: Config, req: Incoming, id: string, nowIso: string, now: int)
    modifies net, res
    ensures var r := Endpoint(p, config, req, id, nowIso, now, net.respond, |old(net.log)|);
      && res.status == r.status && res.body == r.body
      && res.setCookie == WithCookies(old(res.setCookie), r.cookies)
      && net.log == old(net.log) + r.requests && net.sleeps == old(net.sleeps) + r.delays
  {
    WithOneCookie(res.setCookie, "");
    if req.verb == "OPTIONS" {
      res.Send(200, NoBody);
      return;
    }
    var action := Query(req, "action");
    if action == Some(Str("ping")) {
      res.Send(200, JsonBody(Obj(map["ok" := Bool(true), "time" := Str(nowIso), "debug_id" := Str(id)])));
    } else if action == Some(Str("products_page")) {
      HandleProductsPage(net, res, p, config, req, id, now);
    } else {
      res.Send(400, JsonBody(Message(UnknownAction, id)));
    }
  }

  /** The answers given before any upstream call: OPTIONS, ping, an unknown
      action, missing settings (checked before the session is read) and a
      missing session or access token. */
  lemma EndpointGuards(p: Primitives, config: Config, req: Incoming, id: string, nowIso: string, now: int,
                       respond: (nat, Request) -> Reply, n: nat)
    ensures var r := Endpoint(p, config, req, id, nowIso, now, respond, n);
      var action := Query(req, "action");
      && (req.verb == "OPTIONS" ==> r == Reaction(200, NoBody, [], [], []))
      && (req.verb != "OPTIONS" && action != Some(Str("ping")) && action != Some(Str("products_page")) ==>
            r == Reaction(400, JsonBody(Message(UnknownAction, id)), [], [], []))
      && (req.verb != "OPTIONS" && action == Some(Str("products_page")) && MissingSettings(config) != [] ==>
            r.status == 500 && r.requests == [] && r.cookies == [])
      && (req.verb != "OPTIONS" && action == Some(Str("products_page")) && MissingSettings(config) == []
          && (StoredPayload(p, config.appSecret, req.cookie, SessionCookie).None?
              || !Truthy(Field(StoredPayload(p, config.appSecret, req.cookie, SessionCookie).value, "access_token"))) ==>
            r.status == 401 && r.requests == [] && r.cookies == [])
  {
  }
}
