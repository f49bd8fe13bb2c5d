/** The transactions service: `listTransactions` over GET /v2/transactions,
    with a date window. */
module Transactions {
  import opened Js
  import opened Http
  import opened Fetch

  const TransactionsEndpoint: Json := Str("/v2/transactions")

  /** The options of `listTransactions`; an option left out is undefined. */
  datatype TransactionsQuery = TransactionsQuery(accessToken: Json, after: Json, limit: Json,
                                                 since: Json, until: Json, fetchAll: bool)

  /** `{ after, limit, since, until }` */
  function TransactionsParams(q: TransactionsQuery): map<string, Json> {
    map["after" := q.after, "limit" := q.limit, "since" := q.since, "until" := q.until]
  }

  function ListTransactionsRun(c: HttpClient, q: TransactionsQuery, script: seq<Reply>): Run<Json> {
    ListRun(c, TransactionsEndpoint, q.accessToken, TransactionsParams(q), q.fetchAll, Strict, script)
  }

  class TransactionsService {
    const httpClient: HttpClient

    constructor (httpClient: HttpClient)
      ensures this.httpClient == httpClient
    {
      this.httpClient := httpClient;
    }

    /** The transactions copy of the cursor loop (direct cursor read). */
    method GetAllTransactions(endpoint: Json, headers: map<string, Json>, params: map<string, Json>)
      returns (r: Result<seq<Json>>)
      modifies httpClient.server
      ensures var run := FetchFrom(httpClient, endpoint, headers, params, Strict, old(httpClient.server.script));
        r == run.result && httpClient.server.received == old(httpClient.server.received) + run.sent
        && httpClient.server.script == run.rest
    {
      r := FetchAll(httpClient, endpoint, headers, params, Strict);
    }

    method ListTransactions(q: TransactionsQuery) returns (r: Result<Json>)
      modifies httpClient.server
      ensures var run := ListTransactionsRun(httpClient, q, old(httpClient.server.script));
        r == run.result && httpClient.server.received == old(httpClient.server.received) + run.sent
        && httpClient.server.script == run.rest
    {
      if !Truthy(q.accessToken) {
        return Err(MissingParameter(MissingTokenMessage));
      }
      var headers := BearerHeaders(q.accessToken);
      var params := TransactionsParams(q);
      if q.fetchAll {
        var all := GetAllTransactions(TransactionsEndpoint, headers, params);
        return match all case Ok(xs) => Ok(Arr(xs)) case Err(e) => Err(e);
      }
      var response := httpClient.Get(TransactionsEndpoint, params, headers);
      return match response case Ok(body) => Member(body, "resources") case Err(e) => Err(e);
    }
  }

  /** Without fetch-all: one request with `{after, limit, since, until}` as
      given, whose resources come back exactly as received. */
  lemma ListTransactionsSinglePage(c: HttpClient, q: TransactionsQuery, script: seq<Reply>)
    requires Truthy(q.accessToken) && !q.fetchAll && CredentialsPresent(c)
    ensures var run := ListTransactionsRun(c, q, script);
      && run.sent == [Request(GET, Text(c.baseUrl) + "/v2/transactions",
                              map["after" := q.after, "limit" := q.limit, "since" := q.since, "until" := q.until],
                              MergeHeaders(map["Authorization" := Str("Bearer " + Text(q.accessToken))],
                                           c.clientId, c.clientSecret, c.bridgeVersion), Undefined)]
      && run.result == match Answer(script) case Ok(body) => Member(body, "resources") case Err(e) => Err(e)
  {
    ListRunSinglePage(c, TransactionsEndpoint, q.accessToken, TransactionsParams(q), Strict, script);
  }

  /** With fetch-all: every request uses `limit = 500` with the caller's
      `after`, `since` and `until`, follows the previous page's `next_uri`,
      and a success is the concatenation of the pages in order. */
  lemma ListTransactionsFetchAll(c: HttpClient, q: TransactionsQuery, script: seq<Reply>)
    requires Truthy(q.accessToken) && q.fetchAll
    ensures var run := ListTransactionsRun(c, q, script);
      && (forall j :: 0 <= j < |run.sent| ==>
            && run.sent[j].params == map["after" := q.after, "limit" := Num(500), "since" := q.since, "until" := q.until]
            && run.sent[j].url == Text(c.baseUrl) + Text(Target(TransactionsEndpoint, script, Strict, j)))
      && (run.result.Ok? ==>
            && CompleteChain(script, Strict, |run.sent|)
            && run.result.value == Arr(ChainItems(script[..|run.sent|], Strict)))
  {
    var run := ListTransactionsRun(c, q, script);
    ListRunFetchAll(c, TransactionsEndpoint, q.accessToken, TransactionsParams(q), Strict, script);
    var pageParams := PageParams(TransactionsParams(q));
    assert pageParams == map["after" := q.after, "limit" := Num(500), "since" := q.since, "until" := q.until];
    forall j | 0 <= j < |run.sent|
      ensures run.sent[j].params == pageParams
      ensures run.sent[j].url == Text(c.baseUrl) + Text(Target(TransactionsEndpoint, script, Strict, j))
    {
      assert run.sent[j] == RequestFor(c, GET, Target(TransactionsEndpoint, script, Strict, j), pageParams,
                                       BearerHeaders(q.accessToken), Undefined);
    }
  }

  /** Two pages of two transactions, the first pointing at the second, give
      the four transactions in order after exactly two requests. */
  lemma TwoPagesOfTwoTransactions(c: HttpClient, q: TransactionsQuery, t1: Json, t2: Json, t3: Json, t4: Json,
                                  cursor: string, script: seq<Reply>)
    requires Truthy(q.accessToken) && q.fetchAll && CredentialsPresent(c) && cursor != ""
    requires |script| >= 2
    requires script[0] == Response(Obj(map["resources" := Arr([t1, t2]),
                                           "pagination" := Obj(map["next_uri" := Str(cursor)])]))
    requires script[1] == Response(Obj(map["resources" := Arr([t3, t4]),
                                           "pagination" := Obj(map["next_uri" := Null])]))
    ensures var run := ListTransactionsRun(c, q, script);
      run.result == Ok(Arr([t1, t2, t3, t4])) && |run.sent| == 2
  {
    TwoPagesOfTwo(c, TransactionsEndpoint, BearerHeaders(q.accessToken), TransactionsParams(q), Strict,
                  t1, t2, t3, t4, cursor, script);
  }
}
