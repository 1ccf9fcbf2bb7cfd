/** api/salla/products.js: the `/api/salla/products` endpoint. It walks the
    product pages from page 1 on, at most five of them, concatenating their
    `data` arrays, stops at the first page that has no next page and aborts
    at the first page answered with a status of 400 or more; a refused run
    is repeated once, from page 1, after a token refresh. */
module Products {
  import opened Json
  import opened Strings
  import opened Platform
  import opened Http
  import opened Lib
  import opened Refresh

  /** The hard cap on the pages one run fetches. */
  const MaxPages: int := 5

  const ProductsPath := "/admin/v2/products?page="

  /** The GET fetchProductsPage sends for `page`. */
  function ProductsRequest(config: Config, token: Json, page: int): Request
  {
    Request("GET", config.apiBase + ProductsPath + IntToString(page), BearerHeaders(token), None)
  }

  /** `hasNextPage(payload, page, maxPages)`: never at or past the cap; a
      numeric `currentPage`/`totalPages` pair decides when both are present,
      and the truthiness of `pagination.links.next` otherwise. */
  predicate HasNextPage(payload: Json, page: int, maxPages: int)
  {
    if page >= maxPages then false
    else
      var pagination := Field(payload, "pagination");
      var current := Get(pagination, "currentPage");
      var total := Get(pagination, "totalPages");
      if Truthy(pagination) && IsFiniteNumber(current) && IsFiniteNumber(total) then current.value.n < total.value.n
      else Truthy(Get(Get(pagination, "links"), "next"))
  }

  /** The cap wins over any payload. */
  lemma HasNextPageCapped(payload: Json, page: int, maxPages: int)
    requires page >= maxPages
    ensures !HasNextPage(payload, page, maxPages)
  {
  }

  /** With a numeric `currentPage` and `totalPages` below the cap, those two
      decide and `links` is ignored; without them, `links.next` alone decides. */
  lemma HasNextPageRule(pagination: map<string, Json>, page: int, maxPages: int, links: Json)
    requires page < maxPages
    ensures var payload := Obj(map["pagination" := Obj(pagination)]);
      var other := Obj(map["pagination" := Obj(pagination["links" := links])]);
      && ("currentPage" in pagination && "totalPages" in pagination
          && pagination["currentPage"].Num? && pagination["totalPages"].Num? ==>
            (HasNextPage(payload, page, maxPages) <==> pagination["currentPage"].n < pagination["totalPages"].n)
            && HasNextPage(other, page, maxPages) == HasNextPage(payload, page, maxPages))
      && (!("currentPage" in pagination && pagination["currentPage"].Num?) ==>
            (HasNextPage(other, page, maxPages) <==> Truthy(Get(Some(links), "next"))))
  {
    var other := Obj(map["pagination" := Obj(pagination["links" := links])]);
    assert Field(other, "pagination") == Some(Obj(pagination["links" := links]));
  }

  /** `upstream.body.data` when it is an array; any other page contributes nothing. */
  function PageData(body: Json): (data: seq<Json>)
    ensures !IsArray(Field(body, "data")) ==> data == []
    ensures IsArray(Field(body, "data")) ==> data == Field(body, "data").value.items
  {
    if IsArray(Field(body, "data")) then Field(body, "data").value.items else []
  }

  /** What `run` returns: the failed page's status and body, or the items
      collected, the value of `page` when the loop ended and the last body. */
  datatype RunResult =
    | Failed(status: int, payload: Json)
    | Fetched(data: seq<Json>, pagesFetched: int, last: Json)

  /** What the answer to the request for `page` tells the loop of `run`,
      whatever it collected before: an exception or a status of 400 or more
      ends the run with that outcome; otherwise the page's items are
      collected and the loop stops (`Last`) or goes on (`More`) as
      hasNextPage says. */
  datatype Verdict =
    | Stopped(result: Outcome<RunResult>)
    | Last(data: seq<Json>, body: Json)
    | More(data: seq<Json>, body: Json)

  function PageVerdict(upstream: Outcome<Upstream>, page: int): Verdict
  {
    match upstream
    case Thrown(e) => Stopped(Thrown(e))
    case Ok(u) =>
      if u.status >= 400 then Stopped(Ok(Failed(u.status, u.body)))
      else if HasNextPage(u.body, page, MaxPages) then More(PageData(u.body), u.body)
      else Last(PageData(u.body), u.body)
  }

  /** At the cap the loop never goes on, whatever the answer. */
  lemma NoMoreAtCap(upstream: Outcome<Upstream>, page: int)
    requires page >= MaxPages
    ensures !PageVerdict(upstream, page).More?
  {
    if upstream.Ok? {
      HasNextPageCapped(upstream.value.body, page, MaxPages);
    }
  }

  /** The verdicts of the first `count` pages of a run whose request for
      page 1 is the n-th call: page q is answered by the (n + q - 1)-th reply. */
  function Verdicts(p: Primitives, respond: (nat, Request) -> Reply, n: nat, config: Config, token: Json, count: nat): (verdicts: seq<Verdict>)
    ensures |verdicts| == count
  {
    if count == 0 then []
    else
      var answer := Receive(p, respond(n + count - 1, ProductsRequest(config, token, count)));
      Verdicts(p, respond, n, config, token, count - 1) + [PageVerdict(answer, count)]
  }

  /** The verdict on page i + 1 comes from the reply to the (n + i)-th call. */
  lemma {:induction false} VerdictsAt(p: Primitives, respond: (nat, Request) -> Reply, n: nat, config: Config, token: Json, count: nat, i: nat)
    requires i < count
    ensures Verdicts(p, respond, n, config, token, count)[i]
      == PageVerdict(Receive(p, respond(n + i, ProductsRequest(config, token, i + 1))), i + 1)
  {
    if i < count - 1 {
      VerdictsAt(p, respond, n, config, token, count - 1, i);
    }
  }

  /** How a walk over the pages ended: the outcome of `run` and the number
      of pages it requested. */
  datatype Walk = Walk(result: Outcome<RunResult>, fetched: nat)

  /** The loop of `run` from `page` on, with `all` collected and `last` the
      previous body, page q being judged by `verdicts[q - 1]`. */
  function Pages(verdicts: seq<Verdict>, page: int, all: seq<Json>, last: Json): Walk
    requires |verdicts| == MaxPages && 1 <= page <= MaxPages + 1
    decreases MaxPages + 1 - page
  {
    if page > MaxPages then Walk(Ok(Fetched(all, page, last)), 0)
    else
      match verdicts[page - 1]
      case Stopped(r) => Walk(r, 1)
      case Last(data, body) => Walk(Ok(Fetched(all + data, page, body)), 1)
      case More(data, body) =>
        var rest := Pages(verdicts, page + 1, all + data, body);
        Walk(rest.result, rest.fetched + 1)
  }

  /** The GETs for pages 1 to `count`, in order. */
  function PageRequests(config: Config, token: Json, count: nat): (requests: seq<Request>)
    ensures |requests| == count
  {
    if count == 0 then [] else PageRequests(config, token, count - 1) + [ProductsRequest(config, token, count)]
  }

  /** The i-th of those GETs asks for page i + 1. */
  lemma {:induction false} PageRequestsAt(config: Config, token: Json, count: nat, i: nat)
    requires i < count
    ensures PageRequests(config, token, count)[i] == ProductsRequest(config, token, i + 1)
  {
    if i < count - 1 {
      PageRequestsAt(config, token, count - 1, i);
    }
  }

  /** `run(token)` against the network, its first request being the n-th
      call: it requests pages 1, 2, ... and never pauses. */
  function ProductsRun(p: Primitives, respond: (nat, Request) -> Reply, n: nat, config: Config, token: Json): Run<RunResult>
  {
    var walk := Pages(Verdicts(p, respond, n, config, token, MaxPages), 1, [], Null);
    Run(walk.result, PageRequests(config, token, walk.fetched), [])
  }

  /** The items a verdict collects. */
  function VerdictData(v: Verdict): seq<Json>
  {
    if v.Stopped? then [] else v.data
  }

  /** The items of `count` pages from `page` on, concatenated in order
      (there are no pages beyond the last verdict). */
  function Collected(verdicts: seq<Verdict>, page: int, count: nat): seq<Json>
    requires page >= 1
    decreases count
  {
    if count == 0 || page > |verdicts| then []
    else VerdictData(verdicts[page - 1]) + Collected(verdicts, page + 1, count - 1)
  }

  /** Verdicts for the five pages, the fifth never letting the loop go on. */
  predicate Capped(verdicts: seq<Verdict>)
  {
    |verdicts| == MaxPages && !verdicts[MaxPages - 1].More?
  }

  /** The verdicts of a run are capped. */
  lemma VerdictsCapped(p: Primitives, respond: (nat, Request) -> Reply, n: nat, config: Config, token: Json)
    ensures Capped(Verdicts(p, respond, n, config, token, MaxPages))
  {
    VerdictsAt(p, respond, n, config, token, MaxPages, MaxPages - 1);
    NoMoreAtCap(Receive(p, respond(n + MaxPages - 1, ProductsRequest(config, token, MaxPages))), MaxPages);
  }

  /** A walk from `page` requests between one page and the pages left. */
  lemma {:induction false} PagesBounds(verdicts: seq<Verdict>, page: int, all: seq<Json>, last: Json)
    requires Capped(verdicts) && 1 <= page <= MaxPages
    ensures 1 <= Pages(verdicts, page, all, last).fetched <= MaxPages + 1 - page
    decreases MaxPages - page
  {
    if verdicts[page - 1].More? {
      PagesBounds(verdicts, page + 1, all + verdicts[page - 1].data, verdicts[page - 1].body);
    }
  }

  /** The walk goes on exactly as long as the verdicts say so: every page
      before the last one it requests said `More`, the last one did not. */
  lemma {:induction false} PagesStop(verdicts: seq<Verdict>, page: int, all: seq<Json>, last: Json)
    requires Capped(verdicts) && 1 <= page <= MaxPages
    ensures var w := Pages(verdicts, page, all, last);
      var at := page + w.fetched - 1;
      && page <= at <= MaxPages
      && (forall i :: page - 1 <= i < at - 1 ==> verdicts[i].More?)
      && !verdicts[at - 1].More?
    decreases MaxPages - page
  {
    var v := verdicts[page - 1];
    if v.More? {
      PagesStop(verdicts, page + 1, all + v.data, v.body);
    }
  }

  /** A walk ends with the outcome of its last verdict: the stopping outcome
      when that verdict stopped it, and otherwise the items collected from
      `page` on and the number of the last page. */
  lemma {:induction false} PagesOutcome(verdicts: seq<Verdict>, page: int, all: seq<Json>, last: Json)
    requires Capped(verdicts) && 1 <= page <= MaxPages
    ensures var w := Pages(verdicts, page, all, last);
      var at := page + w.fetched - 1;
      1 <= at <= MaxPages &&
      (if verdicts[at - 1].Stopped? then w.result == verdicts[at - 1].result
       else w.result == Ok(Fetched(all + Collected(verdicts, page, w.fetched), at, verdicts[at - 1].body)))
    decreases MaxPages - page
  {
    var v := verdicts[page - 1];
    if v.More? {
      var rest := Pages(verdicts, page + 1, all + v.data, v.body);
      PagesOutcome(verdicts, page + 1, all + v.data, v.body);
      PagesBounds(verdicts, page + 1, all + v.data, v.body);
      CollectedStep(verdicts, page, rest.fetched + 1);
      Regroup(all, v.data, Collected(verdicts, page + 1, rest.fetched));
    } else if v.Last? {
      CollectedStep(verdicts, page, 1);
      assert v.data + [] == v.data;
    }
  }

  /** The items of `count` pages from `page` are that page's items followed
      by those of the pages after it. */
  lemma CollectedStep(verdicts: seq<Verdict>, page: int, count: nat)
    requires 1 <= page <= |verdicts| && count >= 1
    ensures Collected(verdicts, page, count) == VerdictData(verdicts[page - 1]) + Collected(verdicts, page + 1, count - 1)
  {
  }

  /** The answer to a page lets the loop go on: no exception, a status
      below 400 and a next page. */
  predicate GoesOn(upstream: Outcome<Upstream>, page: int)
  {
    upstream.Ok? && upstream.value.status < 400 && HasNextPage(upstream.value.body, page, MaxPages)
  }

  /** What each verdict means about the answer it judges. */
  lemma VerdictMeaning(upstream: Outcome<Upstream>, page: int)
    ensures var v := PageVerdict(upstream, page);
      && (v.More? <==> GoesOn(upstream, page))
      && (v.Stopped? <==> upstream.Thrown? || upstream.value.status >= 400)
      && (upstream.Thrown? ==> v == Stopped(Thrown(upstream.message)))
      && (upstream.Ok? && upstream.value.status >= 400 ==> v == Stopped(Ok(Failed(upstream.value.status, upstream.value.body))))
      && (!v.Stopped? ==> upstream.Ok? && v.data == PageData(upstream.value.body) && v.body == upstream.value.body)
  {
  }

  /** A run from page 1: between one and five GETs, for pages 1, 2, ... in
      order and never a pause; every page but the last lets the loop go on
      and the last does not; a run that ends on an exception or a status of
      400 or more ends with that outcome; any other run completes, reporting
      the last page as `pages_fetched` and the pages' `data` arrays
      concatenated in order. */
  lemma RunFetchesAtMostFive(p: Primitives, respond: (nat, Request) -> Reply, n: nat, config: Config, token: Json)
    ensures var r := ProductsRun(p, respond, n, config, token);
      var verdicts := Verdicts(p, respond, n, config, token, MaxPages);
      var at := |r.requests|;
      && 1 <= at <= MaxPages
      && r.delays == []
      && (forall i :: 0 <= i < at ==> r.requests[i] == ProductsRequest(config, token, 1 + i))
      && (forall i :: 0 <= i < at - 1 ==> verdicts[i].More?)
      && !verdicts[at - 1].More?
      && (verdicts[at - 1].Stopped? ==> r.result == verdicts[at - 1].result)
      && (!verdicts[at - 1].Stopped? ==>
            r.result == Ok(Fetched(Collected(verdicts, 1, at), at, verdicts[at - 1].body)))
  {
    var verdicts := Verdicts(p, respond, n, config, token, MaxPages);
    var w := Pages(verdicts, 1, [], Null);
    VerdictsCapped(p, respond, n, config, token);
    PagesStop(verdicts, 1, [], Null);
    PagesOutcome(verdicts, 1, [], Null);
    assert [] + Collected(verdicts, 1, w.fetched) == Collected(verdicts, 1, w.fetched);
    forall i | 0 <= i < w.fetched
      ensures PageRequests(config, token, w.fetched)[i] == ProductsRequest(config, token, 1 + i)
    {
      PageRequestsAt(config, token, w.fetched, i);
    }
  }

  /** The verdict on page q of a run is the verdict on the reply to its
      q-th call, which asked for page q. */
  lemma RunVerdict(p: Primitives, respond: (nat, Request) -> Reply, n: nat, config: Config, token: Json, q: int)
    requires 1 <= q <= MaxPages
    ensures Verdicts(p, respond, n, config, token, MaxPages)[q - 1]
      == PageVerdict(Receive(p, respond(n + q - 1, ProductsRequest(config, token, q))), q)
  {
    VerdictsAt(p, respond, n, config, token, MaxPages, q - 1);
  }

  /** One pass of the loop of `run`: the request for `page`, sent as the
      next call, and the verdict on its answer. */
  method FetchPage(net: Network, p: Primitives, ghost n: nat, config: Config, token: Json, page: int)
    returns (req: Request, verdict: Verdict)
    requires 1 <= page <= MaxPages && |net.log| == n + page - 1
    modifies net
    ensures req == ProductsRequest(config, token, page)
    ensures verdict == Verdicts(p, net.respond, n, config, token, MaxPages)[page - 1]
    ensures net.log == old(net.log) + [req] && net.sleeps == old(net.sleeps)
  {
    req := ProductsRequest(config, token, page);
    var reply := net.Fetch(req);
    var upstream := Receive(p, reply);
    RunVerdict(p, net.respond, n, config, token, page);
    if upstream.Thrown? {
      verdict := Stopped(Thrown(upstream.message));
    } else if upstream.value.status >= 400 {
      verdict := Stopped(Ok(Failed(upstream.value.status, upstream.value.body)));
    } else {
      var data := PageData(upstream.value.body);
      if HasNextPage(upstream.value.body, page, MaxPages) {
        verdict := More(data, upstream.value.body);
      } else {
        verdict := Last(data, upstream.value.body);
      }
    }
  }

  /** The loop of `run` is at `page`, with `all` collected and `last` the
      previous body, on its way to the walk `walk` from page 1. */
  ghost predicate Resumes(verdicts: seq<Verdict>, walk: Walk, page: int, all: seq<Json>, last: Json)
  {
    && Capped(verdicts) && 1 <= page <= MaxPages + 1
    && var rest := Pages(verdicts, page, all, last);
      walk == Walk(rest.result, page - 1 + rest.fetched)
  }

  /** One pass of the loop, as the walk sees it. */
  lemma ResumeStep(verdicts: seq<Verdict>, walk: Walk, page: int, all: seq<Json>, last: Json)
    requires Resumes(verdicts, walk, page, all, last) && page <= MaxPages
    ensures match verdicts[page - 1]
      case Stopped(r) => walk == Walk(r, page)
      case Last(data, body) => walk == Walk(Ok(Fetched(all + data, page, body)), page)
      case More(data, body) => Resumes(verdicts, walk, page + 1, all + data, body)
  {
  }

  /** The loop cannot run past the cap. */
  lemma ResumeEnd(verdicts: seq<Verdict>, walk: Walk, page: int, all: seq<Json>, last: Json)
    requires Resumes(verdicts, walk, page, all, last) && page > MaxPages
    ensures walk == Walk(Ok(Fetched(all, page, last)), page - 1)
  {
  }

  /** `run(accessToken)`. */
  method RunPages(net: Network, p: Primitives, config: Config, token: Json) returns (result: Outcome<RunResult>)
    modifies net
    ensures var r := ProductsRun(p, net.respond, |old(net.log)|, config, token);
      result == r.result && net.log == old(net.log) + r.requests && net.sleeps == old(net.sleeps)
  {
    ghost var n := |net.log|;
    ghost var verdicts := Verdicts(p, net.respond, n, config, token, MaxPages);
    VerdictsCapped(p, net.respond, n, config, token);
    result := WalkPages(net, p, config, token, n, verdicts, Pages(verdicts, 1, [], Null));
  }

  /** The loop of `run`, on its way to the walk `walk` over the verdicts of
      the run's pages. */
  method WalkPages(net: Network, p: Primitives, config: Config, token: Json,
                   ghost n: nat, ghost verdicts: seq<Verdict>, ghost walk: Walk)
    returns (result: Outcome<RunResult>)
    requires |net.log| == n && verdicts == Verdicts(p, net.respond, n, config, token, MaxPages)
    requires Capped(verdicts) && walk == Pages(verdicts, 1, [], Null)
    modifies net
    ensures result == walk.result
    ensures net.log == old(net.log) + PageRequests(config, token, walk.fetched) && net.sleeps == old(net.sleeps)
  {
    var all: seq<Json> := [];
    var page := 1;
    var lastPayload := Null;
    while page <= MaxPages
      invariant Resumes(verdicts, walk, page, all, lastPayload)
      invariant |net.log| == n + page - 1 && net.sleeps == old(net.sleeps)
      invariant net.log == old(net.log) + PageRequests(config, token, page - 1)
      decreases MaxPages + 1 - page
    {
      var req, verdict := FetchPage(net, p, n, config, token, page);
      Regroup(old(net.log), PageRequests(config, token, page - 1), [req]);
      ResumeStep(verdicts, walk, page, all, lastPayload);
      match verdict
      case Stopped(r) =>
        return r;
      case Last(data, body) =>
        return Ok(Fetched(all + data, page, body));
      case More(data, body) =>
        all, lastPayload, page := all + data, body, page + 1;
    }
    ResumeEnd(verdicts, walk, page, all, lastPayload);
    result := Ok(Fetched(all, page, lastPayload));
  }

  /** `(lastPayload && lastPayload.pagination) || null`. */
  function LastPagination(last: Json): (j: Json)
    ensures last.Obj? && "pagination" in last.fields && Truthy(Some(last.fields["pagination"])) ==> j == last.fields["pagination"]
    ensures !Truthy(Field(last, "pagination")) ==> j == Null
  {
    var v := if Truthy(Some(last)) then Field(last, "pagination") else Some(last);
    if Truthy(v) then v.value else Null
  }

  /** `data[0] || null`. */
  function FirstItem(data: seq<Json>): (item: Json)
    ensures data == [] ==> item == Null
    ensures data != [] && Truthy(Some(data[0])) ==> item == data[0]
    ensures data != [] && !Truthy(Some(data[0])) ==> item == Null
  {
    if data != [] && Truthy(Some(data[0])) then data[0] else Null
  }

  /** The payload of a completed run with `debug_id` and `first_item` added. */
  function SuccessPayload(data: seq<Json>, pagesFetched: int, last: Json, id: string): (j: Json)
    ensures Field(j, "success") == Some(Bool(true))
    ensures Field(j, "count") == Some(Num(|data|)) && Field(j, "data") == Some(Arr(data))
    ensures Field(j, "first_item") == Some(FirstItem(data)) && Field(j, "debug_id") == Some(Str(id))
  {
    Obj(map[
      "success" := Bool(true),
      "count" := Num(|data|),
      "data" := Arr(data),
      "pagination" := Obj(map[
        "pages_fetched" := Num(pagesFetched),
        "limited_to" := Num(MaxPages),
        "last" := LastPagination(last)]),
      "debug_id" := Str(id),
      "first_item" := FirstItem(data)])
  }

  /** The run failed with 401 or 403. */
  predicate RunRefused(result: Outcome<RunResult>)
  {
    result.Ok? && result.value.Failed? && (result.value.status == 401 || result.value.status == 403)
  }

  /** The calls from the token request on, the token request being the k-th
      call: the refresh, then the whole run again from page 1. */
  function RunRefresh(p: Primitives, config: Config, session: Json, now: int,
                      respond: (nat, Request) -> Reply, k: nat, firstResult: Outcome<RunResult>): Coordinated<RunResult>
  {
    var refresh := Receive(p, respond(k, RefreshRequest(p, config, session)));
    var second := ProductsRun(p, respond, k + 1, config, GrantedToken(refresh));
    AfterRefusal(p, config, session, now, firstResult, refresh, second)
  }

  /** All upstream calls of the handler from the n-th call on. */
  function ProductsCalls(p: Primitives, config: Config, session: Json, now: int,
                         respond: (nat, Request) -> Reply, n: nat): Coordinated<RunResult>
  {
    var first := ProductsRun(p, respond, n, config, AccessToken(session));
    AfterFirst(p, config, session, now, respond, first, n + |first.requests|)
  }

  /** The calls once the first run is over, the k-th call being the next. */
  function AfterFirst(p: Primitives, config: Config, session: Json, now: int,
                      respond: (nat, Request) -> Reply, first: Run<RunResult>, k: nat): Coordinated<RunResult>
  {
    Coordinate(first, Attempted(first, RunRefused(first.result), session),
               RunRefresh(p, config, session, now, respond, k, first.result))
  }

  lemma ProductsCallsSplit(p: Primitives, config: Config, session: Json, now: int,
                           respond: (nat, Request) -> Reply, n: nat, k: nat, first: Run<RunResult>)
    requires first == ProductsRun(p, respond, n, config, AccessToken(session))
    requires k == n + |first.requests|
    ensures ProductsCalls(p, config, session, now, respond, n) == AfterFirst(p, config, session, now, respond, first, k)
  {
  }

  /** A granted refresh: the token request, then the run again with the granted token. */
  lemma RunRefreshGranted(p: Primitives, config: Config, session: Json, now: int,
                          respond: (nat, Request) -> Reply, k: nat, m: nat, firstResult: Outcome<RunResult>, refreshed: Upstream)
    requires m == k + 1
    requires Receive(p, respond(k, RefreshRequest(p, config, session))) == Ok(refreshed) && Granted(refreshed)
    ensures var second := ProductsRun(p, respond, m, config, AccessToken(refreshed.body));
      RunRefresh(p, config, session, now, respond, k, firstResult)
        == Coordinated(second.result, [RefreshRequest(p, config, session)] + second.requests, second.delays,
                       Some(RefreshedSession(session, refreshed.body, now)))
  {
    var refresh := Receive(p, respond(k, RefreshRequest(p, config, session)));
    assert GrantedToken(refresh) == AccessToken(refreshed.body);
  }

  /** The status and payload sent once the calls are over. */
  function ProductsAnswer(result: Outcome<RunResult>, id: string): (a: (int, Body))
    ensures result.Ok? && result.value.Fetched? ==> a.0 == 200
    ensures result.Ok? && result.value.Failed? ==> a.0 == result.value.status
    ensures result.Thrown? ==> a.0 == 500
  {
    match result
    case Thrown(e) => (500, JsonBody(Message(e, id)))
    case Ok(Failed(status, payload)) =>
      (status, JsonBody(Obj(map["status" := Num(status), "body" := payload, "debug_id" := Str(id)])))
    case Ok(Fetched(data, pagesFetched, last)) => (200, JsonBody(SuccessPayload(data, pagesFetched, last, id)))
  }

  /** The handler once a connected session is at hand. */
  function ConnectedProducts(p: Primitives, config: Config, session: Json, id: string, now: int,
                             respond: (nat, Request) -> Reply, n: nat): Reaction
  {
    var c := ProductsCalls(p, config, session, now, respond, n);
    var a := ProductsAnswer(c.result, id);
    Reaction(a.0, a.1, SessionCookies(p, config, c.written), c.requests, c.delays)
  }

  /** The whole handler for one request; the n-th call is its first. */
  function Endpoint(p: Primitives, config: Config, req: Incoming, id: string, now: int,
                    respond: (nat, Request) -> Reply, n: nat): Reaction
  {
    if req.verb == "OPTIONS" then Reaction(200, NoBody, [], [], [])
    else if config.appSecret == "" then Reaction(500, JsonBody(Message("Missing APP_SESSION_SECRET", id)), [], [], [])
    else
      var session := StoredPayload(p, config.appSecret, req.cookie, SessionCookie);
      if session.None? || !Truthy(Field(session.value, "access_token")) then
        Reaction(401, JsonBody(Message("Not connected. Connect first.", id)), [], [], [])
      else ConnectedProducts(p, config, session.value, id, now, respond, n)
  }

  /** No upstream call and no cookie before the session is known to be
      connected: OPTIONS, a missing app secret, a missing session or token. */
  lemma EndpointGuards(p: Primitives, config: Config, req: Incoming, id: string, now: int,
                       respond: (nat, Request) -> Reply, n: nat)
    ensures var r := Endpoint(p, config, req, id, now, respond, n);
      var session := StoredPayload(p, config.appSecret, req.cookie, SessionCookie);
      && (req.verb == "OPTIONS" ==> r == Reaction(200, NoBody, [], [], []))
      && (req.verb != "OPTIONS" && config.appSecret == "" ==> r.status == 500 && r.requests == [] && r.cookies == [])
      && (req.verb != "OPTIONS" && config.appSecret != ""
          && (session.None? || !Truthy(Field(session.value, "access_token"))) ==>
            r.status == 401 && r.requests == [] && r.cookies == [])
  {
  }

  /** The refresh block after a refused run. */
  method RefreshAndRerun(net: Network, res: Response, p: Primitives, config: Config, session: Json, now: int,
                         firstResult: Outcome<RunResult>)
    returns (result: Outcome<RunResult>)
    modifies net, res
    ensures var c := RunRefresh(p, config, session, now, net.respond, |old(net.log)|, firstResult);
      && result == c.result
      && net.log == old(net.log) + c.requests && c.delays == [] && net.sleeps == old(net.sleeps)
      && res.setCookie == WithCookies(old(res.setCookie), SessionCookies(p, config, c.written))
      && res.status == old(res.status) && res.body == old(res.body)
  {
    ghost var k := |net.log|;
    WithOneCookie(res.setCookie, "");
    var refreshed := TokenRequest(net, p, config, RefreshFields(config, session));
    if refreshed.Thrown? {
      result := Thrown(refreshed.message);
      return;
    }
    if !Granted(refreshed.value) {
      result := firstResult;
      return;
    }
    RunRefreshGranted(p, config, session, now, net.respond, k, |net.log|, firstResult, refreshed.value);
    var updated := RefreshedSession(session, refreshed.value.body, now);
    WithOneCookie(res.setCookie, SessionDirective(p, config, updated));
    WriteSession(res, p, config, updated);
    ghost var log := net.log;
    result := RunPages(net, p, config, AccessToken(refreshed.value.body));
    Regroup(old(net.log), [RefreshRequest(p, config, session)], net.log[|log|..]);
  }

  /** The first run and, when it was refused, the refresh block. */
  method RunCoordinated(net: Network, res: Response, p: Primitives, config: Config, session: Json, now: int)
    returns (result: Outcome<RunResult>)
    modifies net, res
    ensures var c := ProductsCalls(p, config, session, now, net.respond, |old(net.log)|);
      && result == c.result
      && net.log == old(net.log) + c.requests && c.delays == [] && net.sleeps == old(net.sleeps)
      && res.setCookie == WithCookies(old(res.setCookie), SessionCookies(p, config, c.written))
      && res.status == old(res.status) && res.body == old(res.body)
  {
    ghost var n := |net.log|;
    WithOneCookie(res.setCookie, "");
    result := RunPages(net, p, config, AccessToken(session));
    ghost var first := ProductsRun(p, net.respond, n, config, AccessToken(session));
    ProductsCallsSplit(p, config, session, now, net.respond, n, |net.log|, first);
    if RunRefused(result) && HasRefreshToken(session) {
      ghost var k := |net.log|;
      result := RefreshAndRerun(net, res, p, config, session, now, result);
      ghost var tail := RunRefresh(p, config, session, now, net.respond, k, first.result);
      Regroup(old(net.log), first.requests, tail.requests);
    }
  }

  method HandleConnected(net: Network, res: Response, p: Primitives, config: Config, session: Json, id: string, now: int)
    modifies net, res
    ensures var r := ConnectedProducts(p, config, session, id, now, net.respond, |old(net.log)|);
      && res.status == r.status && res.body == r.body
      && res.setCookie == WithCookies(old(res.setCookie), r.cookies)
      && net.log == old(net.log) + r.requests && net.sleeps == old(net.sleeps) + r.delays
  {
    var result := RunCoordinated(net, res, p, config, session, now);
    match result
    case Thrown(e) =>
      res.Send(500, JsonBody(Message(e, id)));
    case Ok(Failed(status, payload)) =>
      res.Send(status, JsonBody(Obj(map["status" := Num(status), "body" := payload, "debug_id" := Str(id)])));
    case Ok(Fetched(data, pagesFetched, last)) =>
      res.Send(200, JsonBody(SuccessPayload(data, pagesFetched, last, id)));
  }

  /** The handler. */
  method Handle(net: Network, res: Response, p: Primitives, config: Config, req: Incoming, id: string, now: int)
    modifies net, res
    ensures var r := Endpoint(p, config, req, id, now, net.respond, |old(net.log)|);
      && res.status == r.status && res.body == r.body
      && res.setCookie == WithCookies(old(res.setCookie), r.cookies)
      && net.log == old(net.log) + r.requests && net.sleeps == old(net.sleeps) + r.delays
  {
    WithOneCookie(res.setCookie, "");
    if req.verb == "OPTIONS" {
      res.Send(200, NoBody);
      return;
    }
    if config.appSecret == "" {
      res.Send(500, JsonBody(Message("Missing APP_SESSION_SECRET", id)));
      return;
    }
    var session := ReadSession(p, config, req.cookie);
    if session.None? || !Truthy(Field(session.value, "access_token")) {
      res.Send(401, JsonBody(Message("Not connected. Connect first.", id)));
      return;
    }
    HandleConnected(net, res, p, config, session.value, id, now);
  }
}
