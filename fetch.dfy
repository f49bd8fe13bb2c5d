/** What the items, accounts and transactions services share: the access
    token guard, the bearer header, and the cursor-following loop that each
    of them carries a copy of. */
module Fetch {
  import opened Js
  import opened Http

  const MissingTokenMessage: string := "Required access token is missing"

  /** The page size every request of the fetch-all loop asks for. */
  const PageSize: int := 500

  /** How the loop condition reads the cursor of a page: directly
      (`response.body.pagination.next_uri`, items and transactions) or
      through optional chaining (`response?.body?.pagination?.next_uri`,
      accounts). */
  datatype CursorRead = Strict | Optional

  /** `{ Authorization: `Bearer ${accessToken}` }` */
  function BearerHeaders(accessToken: Json): (h: map<string, Json>)
    ensures h.Keys == {"Authorization"} && h["Authorization"] == Str("Bearer " + Text(accessToken))
  {
    map["Authorization" := Str("Bearer " + Text(accessToken))]
  }

  /** `{ ...params, limit: 500 }` */
  function PageParams(params: map<string, Json>): (p: map<string, Json>)
    ensures p.Keys == params.Keys + {"limit"} && p["limit"] == Num(PageSize)
    ensures forall k :: k in params && k != "limit" ==> p[k] == params[k]
  {
    params["limit" := Num(PageSize)]
  }

  /** `response.body.resources`, spread into the accumulating array. */
  function Resources(body: Json): Result<seq<Json>> {
    match Member(body, "resources")
    case Err(e) => Err(e)
    case Ok(res) => Spread(res)
  }

  /** The value of the loop condition for a page body. */
  function Cursor(body: Json, style: CursorRead): Result<Json> {
    match style
    case Optional => Ok(OptMember(OptMember(body, "pagination"), "next_uri"))
    case Strict =>
      match Member(body, "pagination")
      case Err(e) => Err(e)
      case Ok(pagination) => Member(pagination, "next_uri")
  }

  /** What one page contributes: its resources (pushed first) and then its
      cursor. */
  function Page(body: Json, style: CursorRead): Result<(seq<Json>, Json)> {
    match Resources(body)
    case Err(e) => Err(e)
    case Ok(items) =>
      match Cursor(body, style)
      case Err(e) => Err(e)
      case Ok(next) => Ok((items, next))
  }

  /** How a page body reads: its resources must be an array (or a
      string, which spreads into characters) of a non-nullish body; the
      direct cursor read also needs a non-nullish `pagination`, which the
      optional chain does not; every failure is a TypeError. */
  lemma PageReads(body: Json, style: CursorRead)
    ensures Resources(body).Ok? <==> !Nullish(body) && (Field(body, "resources").Arr? || Field(body, "resources").Str?)
    ensures !Nullish(body) && Field(body, "resources").Arr? ==> Resources(body) == Ok(Field(body, "resources").elems)
    ensures Cursor(body, Optional).Ok?
    ensures Cursor(body, Strict).Ok? <==> !Nullish(body) && !Nullish(Field(body, "pagination"))
    ensures Cursor(body, style).Ok? ==> Cursor(body, style).value == Field(Field(body, "pagination"), "next_uri")
    ensures Page(body, style).Ok? <==> && !Nullish(body)
                                       && (Field(body, "resources").Arr? || Field(body, "resources").Str?)
                                       && (style == Strict ==> !Nullish(Field(body, "pagination")))
    ensures Page(body, style).Ok? ==>
      Page(body, style).value == (Resources(body).value, Field(Field(body, "pagination"), "next_uri"))
    ensures Page(body, style).Err? ==> Page(body, style).error == TypeError
  {
  }

  /** A run that first pushed `items` and sent `sent`, then did `run`. */
  function Prepend(items: seq<Json>, sent: seq<Request>, run: Run<seq<Json>>): Run<seq<Json>> {
    Run(match run.result
        case Ok(xs) => Ok(items + xs)
        case Err(e) => Err(e),
        sent + run.sent, run.rest)
  }

  /** The loop from a request to `target` on: request, push, test the cursor. */
  function FetchFrom(c: HttpClient, target: Json, headers: map<string, Json>, params: map<string, Json>,
                     style: CursorRead, script: seq<Reply>): (run: Run<seq<Json>>)
    ensures run.rest == script || |run.rest| < |script|
    decreases |script|, 0
  {
    var step := GetRun(c, target, PageParams(params), headers, script);
    match step.result
    case Err(e) => Run(Err(e), step.sent, step.rest)
    case Ok(body) =>
      match Page(body, style)
      case Err(e) => Run(Err(e), step.sent, step.rest)
      case Ok((items, next)) => Prepend(items, step.sent, Continue(c, next, headers, params, style, step.rest))
  }

  /** The loop at its condition: stop on a falsy cursor, else follow it. */
  function Continue(c: HttpClient, next: Json, headers: map<string, Json>, params: map<string, Json>,
                    style: CursorRead, script: seq<Reply>): (run: Run<seq<Json>>)
    ensures run.rest == script || |run.rest| < |script|
    decreases |script|, 1
  {
    if Truthy(next) then FetchFrom(c, next, headers, params, style, script)
    else Run(Ok([]), [], script)
  }

  /** With a credential missing the loop's first request is refused by the
      client: the missing-headers error, nothing sent, no reply used. */
  lemma FetchNeedsCredentials(c: HttpClient, target: Json, headers: map<string, Json>, params: map<string, Json>,
                              style: CursorRead, script: seq<Reply>)
    requires !CredentialsPresent(c)
    ensures FetchFrom(c, target, headers, params, style, script)
      == Run(Err(HeadersCheck(c.clientId, c.clientSecret, c.bridgeVersion).error), [], script)
  {
  }

  /** The cursor-following loop of the three services, run against a
      script of replies. */
  method FetchAll(client: HttpClient, endpoint: Json, headers: map<string, Json>, params: map<string, Json>,
                  style: CursorRead) returns (r: Result<seq<Json>>)
    modifies client.server
    ensures var run := FetchFrom(client, endpoint, headers, params, style, old(client.server.script));
      r == run.result && client.server.received == old(client.server.received) + run.sent
      && client.server.script == run.rest
  {
    ghost var received0 := client.server.received;
    ghost var total := FetchFrom(client, endpoint, headers, params, style, client.server.script);
    var response := client.Get(endpoint, PageParams(params), headers);
    if response.Err? {
      return Err(response.error);
    }
    var page := Page(response.value, style);
    if page.Err? {
      return Err(page.error);
    }
    var items := page.value.0;
    var next := page.value.1;
    ghost var sent := client.server.received[|received0|..];
    while Truthy(next)
      invariant client.server.received == received0 + sent
      invariant total == Prepend(items, sent, Continue(client, next, headers, params, style, client.server.script))
      decreases |client.server.script|
    {
      ghost var before := client.server.script;
      response := client.Get(next, PageParams(params), headers);
      ghost var step := GetRun(client, next, PageParams(params), headers, before);
      SentInOrder(received0, sent, step.sent);
      sent := sent + step.sent;
      if response.Err? {
        return Err(response.error);
      }
      page := Page(response.value, style);
      if page.Err? {
        return Err(page.error);
      }
      PrependTwice(items, page.value.0, sent[..|sent| - 1], step.sent,
                   Continue(client, page.value.1, headers, params, style, client.server.script));
      assert sent[..|sent| - 1] + step.sent == sent;
      items := items + page.value.0;
      next := page.value.1;
    }
    assert items + [] == items;
    return Ok(items);
  }

  lemma PrependTwice(a: seq<Json>, b: seq<Json>, s: seq<Request>, t: seq<Request>, run: Run<seq<Json>>)
    ensures Prepend(a, s, Prepend(b, t, run)) == Prepend(a + b, s + t, run)
  {
    assert s + (t + run.sent) == (s + t) + run.sent;
    if run.result.Ok? {
      assert a + (b + run.result.value) == (a + b) + run.result.value;
    }
  }

  /** The replies of a script as the loop reads them. */
  function PageOf(reply: Reply, style: CursorRead): Result<(seq<Json>, Json)> {
    match reply
    case Response(body) => Page(body, style)
    case Failure(s) => Err(TransportError(s))
  }

  /** The first `k` replies of `script` form a complete cursor chain: each
      is a readable page, each but the last has a truthy cursor, the last a
      falsy one. */
  ghost predicate CompleteChain(script: seq<Reply>, style: CursorRead, k: nat) {
    && 1 <= k <= |script|
    && (forall j :: 0 <= j < k ==> PageOf(script[j], style).Ok?)
    && (forall j :: 0 <= j < k - 1 ==> Truthy(PageOf(script[j], style).value.1))
    && !Truthy(PageOf(script[k - 1], style).value.1)
  }

  /** The resources of a sequence of pages, concatenated in order. */
  function ChainItems(pages: seq<Reply>, style: CursorRead): seq<Json> {
    if pages == [] then []
    else
      (if PageOf(pages[0], style).Ok? then PageOf(pages[0], style).value.0 else [])
      + ChainItems(pages[1..], style)
  }

  /** The endpoint request `j` of the loop targets: the first request the
      endpoint, every later one the cursor of the page before it. */
  function Target(endpoint: Json, script: seq<Reply>, style: CursorRead, j: nat): Json {
    if j == 0 then endpoint
    else if j <= |script| && PageOf(script[j - 1], style).Ok? then PageOf(script[j - 1], style).value.1
    else Undefined
  }

  /** One turn of the loop with the credentials present and a readable
      first reply: one request to `target`, that page's resources pushed,
      then the loop condition on its cursor over the remaining replies. */
  lemma FetchStep(c: HttpClient, target: Json, headers: map<string, Json>, params: map<string, Json>,
                  style: CursorRead, script: seq<Reply>)
    requires CredentialsPresent(c) && script != [] && PageOf(script[0], style).Ok?
    ensures FetchFrom(c, target, headers, params, style, script)
      == Prepend(PageOf(script[0], style).value.0,
                 [RequestFor(c, GET, target, PageParams(params), headers, Undefined)],
                 Continue(c, PageOf(script[0], style).value.1, headers, params, style, script[1..]))
  {
    var step := GetRun(c, target, PageParams(params), headers, script);
    assert step.result == Ok(script[0].body) && step.rest == script[1..];
  }

  /** A loop that succeeds had the credentials and a readable first reply. */
  lemma FetchOkStarts(c: HttpClient, target: Json, headers: map<string, Json>, params: map<string, Json>,
                      style: CursorRead, script: seq<Reply>)
    requires FetchFrom(c, target, headers, params, style, script).result.Ok?
    ensures CredentialsPresent(c) && script != [] && PageOf(script[0], style).Ok?
  {
    var step := GetRun(c, target, PageParams(params), headers, script);
    assert step.result == Answer(script);
  }

  /** A loop that succeeds has read a complete cursor chain, one reply per
      request, and returns the concatenation, in fetch order, of every
      page's resources. */
  lemma {:induction false} FetchSucceedsOnChain(c: HttpClient, target: Json, headers: map<string, Json>,
                                                params: map<string, Json>, style: CursorRead, script: seq<Reply>)
    requires FetchFrom(c, target, headers, params, style, script).result.Ok?
    ensures var run := FetchFrom(c, target, headers, params, style, script);
      var k := |run.sent|;
      && CompleteChain(script, style, k)
      && run.result.value == ChainItems(script[..k], style)
      && run.rest == script[k..]
    decreases |script|
  {
    FetchOkStarts(c, target, headers, params, style, script);
    FetchStep(c, target, headers, params, style, script);
    var run := FetchFrom(c, target, headers, params, style, script);
    var items, next := PageOf(script[0], style).value.0, PageOf(script[0], style).value.1;
    var rest := script[1..];
    if Truthy(next) {
      var tail := FetchFrom(c, next, headers, params, style, rest);
      assert Continue(c, next, headers, params, style, rest) == tail;
      FetchSucceedsOnChain(c, next, headers, params, style, rest);
      var k := |tail.sent|;
      ChainCons(script, style, k);
      assert |run.sent| == k + 1 && run.rest == tail.rest;
      assert script[k + 1..] == rest[k..];
    } else {
      assert Continue(c, next, headers, params, style, rest) == Run(Ok([]), [], rest);
      assert script[..1][1..] == [];
      assert ChainItems(script[..1], style) == items + [];
    }
  }

  /** Conversely, with the credentials present a complete cursor chain of
      `k` replies makes exactly `k` requests and yields their resources. */
  lemma {:induction false} FetchFollowsChain(c: HttpClient, target: Json, headers: map<string, Json>,
                                             params: map<string, Json>, style: CursorRead,
                                             script: seq<Reply>, k: nat)
    requires CredentialsPresent(c) && CompleteChain(script, style, k)
    ensures var run := FetchFrom(c, target, headers, params, style, script);
      run.result == Ok(ChainItems(script[..k], style)) && |run.sent| == k && run.rest == script[k..]
    decreases k
  {
    assert PageOf(script[0], style).Ok?;
    FetchStep(c, target, headers, params, style, script);
    var run := FetchFrom(c, target, headers, params, style, script);
    var items, next := PageOf(script[0], style).value.0, PageOf(script[0], style).value.1;
    var rest := script[1..];
    if k == 1 {
      assert Continue(c, next, headers, params, style, rest) == Run(Ok([]), [], rest);
      assert script[..1][1..] == [];
      assert ChainItems(script[..1], style) == items + [];
    } else {
      ChainTail(script, style, k);
      FetchFollowsChain(c, next, headers, params, style, rest, k - 1);
      var tail := FetchFrom(c, next, headers, params, style, rest);
      assert Continue(c, next, headers, params, style, rest) == tail;
      assert script[..k][1..] == rest[..k - 1];
      assert ChainItems(script[..k], style) == items + ChainItems(rest[..k - 1], style);
      assert run.result == Ok(items + ChainItems(rest[..k - 1], style));
      assert script[k..] == rest[k - 1..];
    }
  }

  /** A readable page with a truthy cursor in front of a chain of `k`
      replies makes a chain of `k + 1`. */
  lemma ChainCons(script: seq<Reply>, style: CursorRead, k: nat)
    requires script != [] && PageOf(script[0], style).Ok? && Truthy(PageOf(script[0], style).value.1)
    requires CompleteChain(script[1..], style, k)
    ensures CompleteChain(script, style, k + 1)
    ensures ChainItems(script[..k + 1], style) == PageOf(script[0], style).value.0 + ChainItems(script[1..][..k], style)
  {
    var rest := script[1..];
    forall j | 0 <= j < k + 1
      ensures PageOf(script[j], style).Ok?
    {
      if j > 0 { assert script[j] == rest[j - 1]; }
    }
    forall j | 0 <= j < k
      ensures Truthy(PageOf(script[j], style).value.1)
    {
      if j > 0 { assert script[j] == rest[j - 1]; }
    }
    assert script[k] == rest[k - 1];
    assert script[..k + 1][1..] == rest[..k];
  }

  /** A chain of more than one reply continues as a chain one shorter. */
  lemma ChainTail(script: seq<Reply>, style: CursorRead, k: nat)
    requires CompleteChain(script, style, k) && k > 1
    ensures CompleteChain(script[1..], style, k - 1)
  {
    var rest := script[1..];
    forall j | 0 <= j < k - 1
      ensures PageOf(rest[j], style).Ok?
    {
      assert rest[j] == script[j + 1];
    }
    forall j | 0 <= j < k - 2
      ensures Truthy(PageOf(rest[j], style).value.1)
    {
      assert rest[j] == script[j + 1];
    }
    assert rest[k - 2] == script[k - 1];
  }

  /** Past the first reply, the targets are those of the loop started at
      the first page's cursor on the rest of the script. */
  lemma TargetShift(endpoint: Json, script: seq<Reply>, style: CursorRead, j: nat)
    requires script != [] && PageOf(script[0], style).Ok? && j >= 1
    ensures Target(endpoint, script, style, j) == Target(PageOf(script[0], style).value.1, script[1..], style, j - 1)
  {
    if j > 1 && j <= |script| {
      assert script[1..][j - 2] == script[j - 1];
    }
  }

  /** Every request of the loop is a GET with the caller's headers merged
      with the credentials and the caller's params with `limit` forced to
      500; request 0 targets the endpoint and request `j + 1` the cursor of
      page `j`. The loop sends at most one request per reply, plus one. */
  lemma {:induction false} FetchRequests(c: HttpClient, target: Json, headers: map<string, Json>,
                                         params: map<string, Json>, style: CursorRead, script: seq<Reply>)
    ensures var run := FetchFrom(c, target, headers, params, style, script);
      && |run.sent| <= |script| + 1
      && forall j :: 0 <= j < |run.sent| ==>
           run.sent[j] == RequestFor(c, GET, Target(target, script, style, j), PageParams(params), headers, Undefined)
    decreases |script|
  {
    var run := FetchFrom(c, target, headers, params, style, script);
    var step := GetRun(c, target, PageParams(params), headers, script);
    SendChecksCredentialsFirst(c, GET, target, PageParams(params), headers, Undefined, script);
    if step.result.Ok? {
      var page := Page(step.result.value, style);
      if page.Ok? && Truthy(page.value.1) {
        var next := page.value.1;
        var tail := FetchFrom(c, next, headers, params, style, step.rest);
        FetchRequests(c, next, headers, params, style, step.rest);
        assert Continue(c, next, headers, params, style, step.rest) == tail;
        assert run == Prepend(page.value.0, step.sent, tail);
        assert run.sent == step.sent + tail.sent;
        assert step.rest == script[1..];
        assert PageOf(script[0], style) == page;
        forall j | 0 <= j < |run.sent|
          ensures run.sent[j] == RequestFor(c, GET, Target(target, script, style, j), PageParams(params), headers, Undefined)
        {
          if j > 0 {
            assert run.sent[j] == tail.sent[j - 1];
            TargetShift(target, script, style, j);
          } else {
            assert run.sent[0] == step.sent[0];
          }
        }
      }
    }
  }

  /** An empty first page without a cursor gives an empty list after
      exactly one request. */
  lemma EmptyFirstPage(c: HttpClient, endpoint: Json, headers: map<string, Json>,
                       params: map<string, Json>, style: CursorRead, script: seq<Reply>)
    requires CredentialsPresent(c)
    requires script != []
    requires script[0] == Response(Obj(map["resources" := Arr([]), "pagination" := Obj(map["next_uri" := Null])]))
    ensures FetchFrom(c, endpoint, headers, params, style, script)
      == Run(Ok([]), [RequestFor(c, GET, endpoint, PageParams(params), headers, Undefined)], script[1..])
  {
  }

  /** Two pages of two resources, the first pointing at the second, give
      the four resources in order after exactly two requests. */
  lemma TwoPagesOfTwo(c: HttpClient, target: Json, headers: map<string, Json>, params: map<string, Json>,
                      style: CursorRead, t1: Json, t2: Json, t3: Json, t4: Json, cursor: string, script: seq<Reply>)
    requires CredentialsPresent(c) && |script| >= 2 && cursor != ""
    requires script[0] == Response(Obj(map["resources" := Arr([t1, t2]),
                                           "pagination" := Obj(map["next_uri" := Str(cursor)])]))
    requires script[1] == Response(Obj(map["resources" := Arr([t3, t4]),
                                           "pagination" := Obj(map["next_uri" := Null])]))
    ensures var run := FetchFrom(c, target, headers, params, style, script);
      run.result == Ok([t1, t2, t3, t4]) && |run.sent| == 2
  {
    ChainOfTwo(style, t1, t2, t3, t4, cursor, script);
    FetchFollowsChain(c, target, headers, params, style, script, 2);
  }

  /** A page `{resources: [...], pagination: {next_uri}}` reads as its
      resources and that cursor, whichever way the cursor is read. */
  lemma PageOfShape(resources: seq<Json>, next: Json, style: CursorRead)
    ensures PageOf(Response(Obj(map["resources" := Arr(resources), "pagination" := Obj(map["next_uri" := next])])), style)
      == Ok((resources, next))
  {
  }

  lemma ChainOfTwo(style: CursorRead, t1: Json, t2: Json, t3: Json, t4: Json, cursor: string, script: seq<Reply>)
    requires |script| >= 2 && cursor != ""
    requires script[0] == Response(Obj(map["resources" := Arr([t1, t2]),
                                           "pagination" := Obj(map["next_uri" := Str(cursor)])]))
    requires script[1] == Response(Obj(map["resources" := Arr([t3, t4]),
                                           "pagination" := Obj(map["next_uri" := Null])]))
    ensures CompleteChain(script, style, 2) && ChainItems(script[..2], style) == [t1, t2, t3, t4]
  {
    PageOfShape([t1, t2], Str(cursor), style);
    PageOfShape([t3, t4], Null, style);
    var pages := script[..2];
    assert pages[1..][1..] == [];
    assert ChainItems(pages[1..], style) == [t3, t4] + [];
    assert ChainItems(pages, style) == [t1, t2] + [t3, t4];
  }

  /** A page whose `pagination` (or its `next_uri`) is absent ends the
      optional-chaining loop normally; the direct read fails with a
      TypeError when `pagination` itself is absent. A missing body fails in
      both, at the push of its resources. */
  lemma MissingPagination(body: Json, style: CursorRead)
    ensures Nullish(body) ==> Page(body, style) == Err(TypeError)
    ensures Resources(body).Ok? && Nullish(Field(body, "pagination")) ==>
      Page(body, Optional) == Ok((Resources(body).value, Undefined))
      && Page(body, Strict) == Err(TypeError)
    ensures Resources(body).Ok? && Field(Field(body, "pagination"), "next_uri") == Undefined ==>
      Page(body, Optional).Ok? && !Truthy(Page(body, Optional).value.1)
  {
  }

  /** The validating front door of the three services: the token guard,
      then either the fetch-all loop (the result is the collected array) or
      one request with the params as given, returning `response.body.resources`. */
  function ListRun(c: HttpClient, endpoint: Json, accessToken: Json, params: map<string, Json>,
                   fetchAll: bool, style: CursorRead, script: seq<Reply>): (run: Run<Json>)
    ensures run.rest == script || |run.rest| < |script|
  {
    if !Truthy(accessToken) then Run(Err(MissingParameter(MissingTokenMessage)), [], script)
    else if fetchAll then
      var loop := FetchFrom(c, endpoint, BearerHeaders(accessToken), params, style, script);
      Run(match loop.result case Ok(xs) => Ok(Arr(xs)) case Err(e) => Err(e), loop.sent, loop.rest)
    else
      var step := GetRun(c, endpoint, params, BearerHeaders(accessToken), script);
      Run(match step.result case Ok(body) => Member(body, "resources") case Err(e) => Err(e), step.sent, step.rest)
  }

  /** A falsy access token fails before any request is issued. */
  lemma ListRunNeedsToken(c: HttpClient, endpoint: Json, accessToken: Json, params: map<string, Json>,
                          fetchAll: bool, style: CursorRead, script: seq<Reply>)
    requires !Truthy(accessToken)
    ensures ListRun(c, endpoint, accessToken, params, fetchAll, style, script)
      == Run(Err(MissingParameter("Required access token is missing")), [], script)
  {
  }

  /** Without fetch-all: one request with the params exactly as given (no
      page-size override), whose `body.resources` is returned unchanged. */
  lemma ListRunSinglePage(c: HttpClient, endpoint: Json, accessToken: Json, params: map<string, Json>,
                          style: CursorRead, script: seq<Reply>)
    requires Truthy(accessToken) && CredentialsPresent(c)
    ensures var run := ListRun(c, endpoint, accessToken, params, false, style, script);
      && run.sent == [RequestFor(c, GET, endpoint, params, BearerHeaders(accessToken), Undefined)]
      && run.rest == Tail(script)
      && run.result == match Answer(script) case Ok(body) => Member(body, "resources") case Err(e) => Err(e)
  {
    SendChecksCredentialsFirst(c, GET, endpoint, params, BearerHeaders(accessToken), Undefined, script);
  }

  /** With fetch-all: every request is the loop's (limit 500 over the
      caller's params, cursor-following targets), and a success is the
      array of all pages' resources in fetch order, read off a complete
      cursor chain. */
  lemma ListRunFetchAll(c: HttpClient, endpoint: Json, accessToken: Json, params: map<string, Json>,
                        style: CursorRead, script: seq<Reply>)
    requires Truthy(accessToken)
    ensures var run := ListRun(c, endpoint, accessToken, params, true, style, script);
      && (forall j :: 0 <= j < |run.sent| ==>
            run.sent[j] == RequestFor(c, GET, Target(endpoint, script, style, j), PageParams(params),
                                      BearerHeaders(accessToken), Undefined))
      && (run.result.Ok? ==>
            && CompleteChain(script, style, |run.sent|)
            && run.result.value == Arr(ChainItems(script[..|run.sent|], style))
            && run.rest == script[|run.sent|..])
  {
    var headers := BearerHeaders(accessToken);
    FetchRequests(c, endpoint, headers, params, style, script);
    if FetchFrom(c, endpoint, headers, params, style, script).result.Ok? {
      FetchSucceedsOnChain(c, endpoint, headers, params, style, script);
    }
  }

  /** Every page request of a full listing is a GET with the bearer header
      merged into the credentials. */
  lemma FetchAllHeaders(c: HttpClient, endpoint: Json, accessToken: Json, params: map<string, Json>,
                        style: CursorRead, script: seq<Reply>)
    requires Truthy(accessToken)
    ensures var run := ListRun(c, endpoint, accessToken, params, true, style, script);
      forall j :: 0 <= j < |run.sent| ==>
        && run.sent[j].verb == GET
        && run.sent[j].headers == MergeHeaders(BearerHeaders(accessToken), c.clientId, c.clientSecret, c.bridgeVersion)
  {
    ListRunFetchAll(c, endpoint, accessToken, params, style, script);
  }

  /** On both paths every request carries `Authorization: Bearer <token>`
      next to the three credentials. */
  lemma ListRunAuthorization(c: HttpClient, endpoint: Json, accessToken: Json, params: map<string, Json>,
                             fetchAll: bool, style: CursorRead, script: seq<Reply>)
    ensures var run := ListRun(c, endpoint, accessToken, params, fetchAll, style, script);
      forall j :: 0 <= j < |run.sent| ==>
        && run.sent[j].verb == GET
        && run.sent[j].headers == MergeHeaders(BearerHeaders(accessToken), c.clientId, c.clientSecret, c.bridgeVersion)
        && run.sent[j].headers["Authorization"] == Str("Bearer " + Text(accessToken))
  {
    BearerSurvivesMerge(c, accessToken);
    if Truthy(accessToken) {
      if fetchAll {
        FetchAllHeaders(c, endpoint, accessToken, params, style, script);
      } else {
        SendChecksCredentialsFirst(c, GET, endpoint, params, BearerHeaders(accessToken), Undefined, script);
      }
    }
  }

  lemma BearerSurvivesMerge(c: HttpClient, accessToken: Json)
    ensures MergeHeaders(BearerHeaders(accessToken), c.clientId, c.clientSecret, c.bridgeVersion)["Authorization"]
      == Str("Bearer " + Text(accessToken))
  {
    assert "Authorization" !in CredentialHeaders;
  }
}
