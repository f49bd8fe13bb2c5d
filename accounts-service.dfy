/** The accounts service: `listAccounts` over GET /v2/accounts, filtered by
    item. */
module Accounts {
  import opened Js
  import opened Http
  import opened Fetch

  const AccountsEndpoint: Json := Str("/v2/accounts")

  /** The options of `listAccounts`; an option left out is undefined. */
  datatype AccountsQuery = AccountsQuery(accessToken: Json, itemId: Json, after: Json, limit: Json, fetchAll: bool)

  /** `{ item_id: itemId, after, limit }` */
  function AccountsParams(q: AccountsQuery): map<string, Json> {
    map["item_id" := q.itemId, "after" := q.after, "limit" := q.limit]
  }

  function ListAccountsRun(c: HttpClient, q: AccountsQuery, script: seq<Reply>): Run<Json> {
    ListRun(c, AccountsEndpoint, q.accessToken, AccountsParams(q), q.fetchAll, Optional, script)
  }

  class AccountsService {
    const httpClient: HttpClient

    constructor (httpClient: HttpClient)
      ensures this.httpClient == httpClient
    {
      this.httpClient := httpClient;
    }

    /** The accounts copy of the cursor loop (optional-chaining cursor read). */
    method GetAllAccounts(endpoint: Json, headers: map<string, Json>, params: map<string, Json>)
      returns (r: Result<seq<Json>>)
      modifies httpClient.server
      ensures var run := FetchFrom(httpClient, endpoint, headers, params, Optional, old(httpClient.server.script));
        r == run.result && httpClient.server.received == old(httpClient.server.received) + run.sent
        && httpClient.server.script == run.rest
    {
      r := FetchAll(httpClient, endpoint, headers, params, Optional);
    }

    method ListAccounts(q: AccountsQuery) returns (r: Result<Json>)
      modifies httpClient.server
      ensures var run := ListAccountsRun(httpClient, q, old(httpClient.server.script));
        r == run.result && httpClient.server.received == old(httpClient.server.received) + run.sent
        && httpClient.server.script == run.rest
    {
      if !Truthy(q.accessToken) {
        return Err(MissingParameter(MissingTokenMessage));
      }
      var headers := BearerHeaders(q.accessToken);
      var params := AccountsParams(q);
      if q.fetchAll {
        var all := GetAllAccounts(AccountsEndpoint, headers, params);
        return match all case Ok(xs) => Ok(Arr(xs)) case Err(e) => Err(e);
      }
      var response := httpClient.Get(AccountsEndpoint, params, headers);
      return match response case Ok(body) => Member(body, "resources") case Err(e) => Err(e);
    }
  }

  /** `item_id = itemId` is in the params of every request, first page and
      continuations alike; with fetch-all `limit` is 500 on every one of them
      and `after` is the caller's. */
  lemma ItemIdOnEveryRequest(c: HttpClient, q: AccountsQuery, script: seq<Reply>)
    ensures var run := ListAccountsRun(c, q, script);
      forall j :: 0 <= j < |run.sent| ==>
        run.sent[j].params == map["item_id" := q.itemId, "after" := q.after,
                                  "limit" := if q.fetchAll then Num(500) else q.limit]
  {
    assert PageParams(AccountsParams(q))
        == map["item_id" := q.itemId, "after" := q.after, "limit" := Num(500)];
    if Truthy(q.accessToken) {
      if q.fetchAll {
        ListRunFetchAll(c, AccountsEndpoint, q.accessToken, AccountsParams(q), Optional, script);
      } else {
        SendChecksCredentialsFirst(c, GET, AccountsEndpoint, AccountsParams(q),
                                   BearerHeaders(q.accessToken), Undefined, script);
      }
    }
  }

  /** Without fetch-all: one request with `{item_id, after, limit}` as
      given, returning its resources. */
  lemma ListAccountsSinglePage(c: HttpClient, q: AccountsQuery, script: seq<Reply>)
    requires Truthy(q.accessToken) && !q.fetchAll && CredentialsPresent(c)
    ensures var run := ListAccountsRun(c, q, script);
      && run.sent == [Request(GET, Text(c.baseUrl) + "/v2/accounts",
                              map["item_id" := q.itemId, "after" := q.after, "limit" := q.limit],
                              MergeHeaders(map["Authorization" := Str("Bearer " + Text(q.accessToken))],
                                           c.clientId, c.clientSecret, c.bridgeVersion), Undefined)]
      && run.result == match Answer(script) case Ok(body) => Member(body, "resources") case Err(e) => Err(e)
  {
    ListRunSinglePage(c, AccountsEndpoint, q.accessToken, AccountsParams(q), Optional, script);
  }

  /** With fetch-all a success is the in-order concatenation of all fetched
      pages' resources. */
  lemma ListAccountsCollectsPages(c: HttpClient, q: AccountsQuery, script: seq<Reply>)
    requires Truthy(q.accessToken) && q.fetchAll
    requires ListAccountsRun(c, q, script).result.Ok?
    ensures var run := ListAccountsRun(c, q, script);
      && CompleteChain(script, Optional, |run.sent|)
      && run.result.value == Arr(ChainItems(script[..|run.sent|], Optional))
  {
    ListRunFetchAll(c, AccountsEndpoint, q.accessToken, AccountsParams(q), Optional, script);
  }

  /** A first page that has resources but no `pagination` object ends the
      accounts loop normally, after one request, with those resources. */
  lemma ListAccountsWithoutPagination(c: HttpClient, q: AccountsQuery, resources: seq<Json>, script: seq<Reply>)
    requires Truthy(q.accessToken) && q.fetchAll && CredentialsPresent(c)
    requires script != [] && script[0] == Response(Obj(map["resources" := Arr(resources)]))
    ensures var run := ListAccountsRun(c, q, script);
      run.result == Ok(Arr(resources)) && |run.sent| == 1 && run.rest == script[1..]
  {
    var body := Obj(map["resources" := Arr(resources)]);
    MissingPagination(body, Optional);
    assert Page(body, Optional) == Ok((resources, Undefined));
    var headers := BearerHeaders(q.accessToken);
    var step := GetRun(c, AccountsEndpoint, PageParams(AccountsParams(q)), headers, script);
    assert step.result == Ok(body) && |step.sent| == 1 && step.rest == script[1..];
    var tail := Continue(c, Undefined, headers, AccountsParams(q), Optional, step.rest);
    assert tail == Run(Ok([]), [], script[1..]);
    assert resources + [] == resources;
    assert FetchFrom(c, AccountsEndpoint, headers, AccountsParams(q), Optional, script)
        == Run(Ok(resources), step.sent, script[1..]);
  }
}
