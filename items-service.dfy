/** The items service: `listItems` over GET /v2/items. */
module Items {
  import opened Js
  import opened Http
  import opened Fetch

  const ItemsEndpoint: Json := Str("/v2/items")

  /** The options of `listItems`; an option left out is undefined. */
  datatype ItemsQuery = ItemsQuery(accessToken: Json, after: Json, limit: Json, fetchAll: bool)

  /** `{ after, limit }` */
  function ItemsParams(q: ItemsQuery): map<string, Json> {
    map["after" := q.after, "limit" := q.limit]
  }

  function ListItemsRun(c: HttpClient, q: ItemsQuery, script: seq<Reply>): Run<Json> {
    ListRun(c, ItemsEndpoint, q.accessToken, ItemsParams(q), q.fetchAll, Strict, script)
  }

  class ItemsService {
    const httpClient: HttpClient

    constructor (httpClient: HttpClient)
      ensures this.httpClient == httpClient
    {
      this.httpClient := httpClient;
    }

    /** The items copy of the cursor loop (direct cursor read). */
    method GetAllItems(endpoint: Json, headers: map<string, Json>, params: map<string, Json>)
      returns (r: Result<seq<Json>>)
      modifies httpClient.server
      ensures var run := FetchFrom(httpClient, endpoint, headers, params, Strict, old(httpClient.server.script));
        r == run.result && httpClient.server.received == old(httpClient.server.received) + run.sent
        && httpClient.server.script == run.rest
    {
      r := FetchAll(httpClient, endpoint, headers, params, Strict);
    }

    method ListItems(q: ItemsQuery) returns (r: Result<Json>)
      modifies httpClient.server
      ensures var run := ListItemsRun(httpClient, q, old(httpClient.server.script));
        r == run.result && httpClient.server.received == old(httpClient.server.received) + run.sent
        && httpClient.server.script == run.rest
    {
      if !Truthy(q.accessToken) {
        return Err(MissingParameter(MissingTokenMessage));
      }
      var headers := BearerHeaders(q.accessToken);
      var params := ItemsParams(q);
      if q.fetchAll {
        var all := GetAllItems(ItemsEndpoint, headers, params);
        return match all case Ok(xs) => Ok(Arr(xs)) case Err(e) => Err(e);
      }
      var response := httpClient.Get(ItemsEndpoint, params, headers);
      return match response case Ok(body) => Member(body, "resources") case Err(e) => Err(e);
    }
  }

  /** Without fetch-all: exactly one GET /v2/items with `{after, limit}` as
      given and the bearer header, returning that page's resources. */
  lemma ListItemsSinglePage(c: HttpClient, q: ItemsQuery, script: seq<Reply>)
    requires Truthy(q.accessToken) && !q.fetchAll && CredentialsPresent(c)
    ensures var run := ListItemsRun(c, q, script);
      && run.sent == [Request(GET, Text(c.baseUrl) + "/v2/items", map["after" := q.after, "limit" := q.limit],
                              MergeHeaders(map["Authorization" := Str("Bearer " + Text(q.accessToken))],
                                           c.clientId, c.clientSecret, c.bridgeVersion), Undefined)]
      && run.result == match Answer(script) case Ok(body) => Member(body, "resources") case Err(e) => Err(e)
  {
    ListRunSinglePage(c, ItemsEndpoint, q.accessToken, ItemsParams(q), Strict, script);
  }

  /** With fetch-all: every request, first and continuation, carries the
      caller's `after` and `limit = 500` whatever limit the caller gave; the
      first targets /v2/items and each later one the previous page's
      `next_uri`; a success is the concatenation of all pages' resources read
      off a chain that stops at the first falsy `next_uri`. */
  lemma ListItemsFetchAll(c: HttpClient, q: ItemsQuery, script: seq<Reply>)
    requires Truthy(q.accessToken) && q.fetchAll
    ensures var run := ListItemsRun(c, q, script);
      && (forall j :: 0 <= j < |run.sent| ==>
            && run.sent[j].params == map["after" := q.after, "limit" := Num(500)]
            && run.sent[j].url == Text(c.baseUrl) + Text(Target(ItemsEndpoint, script, Strict, j)))
      && (run.result.Ok? ==>
            && CompleteChain(script, Strict, |run.sent|)
            && run.result.value == Arr(ChainItems(script[..|run.sent|], Strict)))
  {
    ListRunFetchAll(c, ItemsEndpoint, q.accessToken, ItemsParams(q), Strict, script);
    assert PageParams(ItemsParams(q)) == map["after" := q.after, "limit" := Num(500)];
  }

  /** A first page that has resources but no `pagination` object makes the
      items loop fail with a TypeError after its one request. */
  lemma ListItemsNeedsPagination(c: HttpClient, q: ItemsQuery, resources: seq<Json>, script: seq<Reply>)
    requires Truthy(q.accessToken) && q.fetchAll && CredentialsPresent(c)
    requires script != [] && script[0] == Response(Obj(map["resources" := Arr(resources)]))
    ensures var run := ListItemsRun(c, q, script);
      run.result == Err(TypeError) && |run.sent| == 1
  {
  }
}
