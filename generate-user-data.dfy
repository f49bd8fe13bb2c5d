/** `generateUserData`: look the user up by email, authenticate, fetch all
    items, attach every item's accounts, fetch the last two transactions and
    export the lot. All four services talk to the same server; the run is
    sequential. */
module Aggregator {
  import opened Js
  import opened Http
  import opened Fetch
  import opened Items
  import opened Accounts
  import opened Transactions
  import opened Users
  import opened Exporter

  /** The query for one item's accounts. */
  function AccountsOf(accessToken: Json, itemId: Json): AccountsQuery {
    AccountsQuery(accessToken, itemId, Undefined, Undefined, true)
  }

  /** The single page of the two latest transactions, without a date window. */
  function LatestTransactions(accessToken: Json): TransactionsQuery {
    TransactionsQuery(accessToken, Undefined, Num(2), Undefined, Undefined, false)
  }

  /** The body of the reduce callback for one item: `item.id`, all of that
      item's accounts, then `{ ...item, accounts: accountsList }`. */
  function AttachOneRun(ac: HttpClient, accessToken: Json, item: Json, script: seq<Reply>): Run<Json> {
    match Member(item, "id")
    case Err(e) => Run(Err(e), [], script)
    case Ok(id) =>
      var r := ListAccountsRun(ac, AccountsOf(accessToken, id), script);
      Run(match r.result
          case Ok(accounts) => Ok(Obj(ObjectSpread(item)["accounts" := accounts]))
          case Err(e) => Err(e),
          r.sent, r.rest)
  }

  /** The item/account join as an order-preserving fold: each item's
      accounts after the previous item's, the first failure ending the run. */
  function AttachAccountsRun(ac: HttpClient, accessToken: Json, items: seq<Json>, script: seq<Reply>)
    : Run<seq<Json>>
    decreases |items|, 1
  {
    if items == [] then Run(Ok([]), [], script) else AttachFirstRun(ac, accessToken, items, script)
  }

  /** The fold at a non-empty list: the first item, then the others. */
  function AttachFirstRun(ac: HttpClient, accessToken: Json, items: seq<Json>, script: seq<Reply>)
    : Run<seq<Json>>
    requires items != []
    decreases |items|, 0
  {
    var one := AttachOneRun(ac, accessToken, items[0], script);
    match one.result
    case Err(e) => Run(Err(e), one.sent, one.rest)
    case Ok(y) => Prepend([y], one.sent, AttachAccountsRun(ac, accessToken, items[1..], one.rest))
  }

  /** The accumulator an `async` reduce callback receives: the initial array,
      or the promise the previous callback returned, settled to its result. */
  datatype Accumulator = Array(elems: seq<Json>) | Promise(settled: Result<seq<Json>>)

  /** `await acc` */
  function Settle(acc: Accumulator): Result<seq<Json>> {
    match acc
    case Array(xs) => Ok(xs)
    case Promise(r) => r
  }

  /** The reduce as written: every callback runs (none waits for the
      accumulator), each spreads the accumulator it was handed, and the
      result is what the last callback's promise settles to. Spreading a
      promise throws a TypeError. */
  function AsyncReduceRun(ac: HttpClient, accessToken: Json, items: seq<Json>, acc: Accumulator,
                          script: seq<Reply>): (run: Run<seq<Json>>)
    ensures (acc.Promise? && items != []) || |items| >= 2 ==> run.result.Err?
    decreases |items|
  {
    if items == [] then Run(Settle(acc), [], script)
    else
      var one := AttachOneRun(ac, accessToken, items[0], script);
      var settled := match one.result
        case Err(e) => Err(e)
        case Ok(y) => (match acc case Array(xs) => Ok(xs + [y]) case Promise(_) => Err(TypeError));
      var next := AsyncReduceRun(ac, accessToken, items[1..], Promise(settled), one.rest);
      Run(next.result, one.sent + next.sent, next.rest)
  }

  function AttachAccountsAsWrittenRun(ac: HttpClient, accessToken: Json, items: seq<Json>, script: seq<Reply>)
    : Run<seq<Json>>
  {
    AsyncReduceRun(ac, accessToken, items, Array([]), script)
  }

  /** `run`, after `sent` went out first. */
  function After(sent: seq<Request>, run: Run<Json>): Run<Json> {
    Run(run.result, sent + run.sent, run.rest)
  }

  /** Everything after authentication: items, accounts, transactions, and
      the data handed to the exporter. */
  function CollectRun(ic: HttpClient, tc: HttpClient, ac: HttpClient, tokenInfo: Json, path: Json,
                      script: seq<Reply>): (run: Run<Json>)
    ensures run.result.Ok? ==> Truthy(path)
  {
    match Member(tokenInfo, "access_token")
    case Err(e) => Run(Err(e), [], script)
    case Ok(accessToken) => ItemsStepRun(ic, tc, ac, tokenInfo, accessToken, path, script)
  }

  /** All items, fetched with the access token. */
  function ItemsStepRun(ic: HttpClient, tc: HttpClient, ac: HttpClient, tokenInfo: Json, accessToken: Json,
                        path: Json, script: seq<Reply>): (run: Run<Json>)
    ensures run.result.Ok? ==> Truthy(path)
  {
    var items := ListItemsRun(ic, ItemsQuery(accessToken, Undefined, Undefined, true), script);
    match items.result
    case Err(e) => Run(Err(e), items.sent, items.rest)
    case Ok(itemsList) =>
      if !itemsList.Arr? then Run(Err(TypeError), items.sent, items.rest)
      else After(items.sent, AccountsStepRun(tc, ac, tokenInfo, accessToken, itemsList.elems, path, items.rest))
  }

  /** Every item with its accounts attached. */
  function AccountsStepRun(tc: HttpClient, ac: HttpClient, tokenInfo: Json, accessToken: Json, itemsList: seq<Json>,
                           path: Json, script: seq<Reply>): (run: Run<Json>)
    ensures run.result.Ok? ==> Truthy(path)
  {
    var attached := AttachAccountsRun(ac, accessToken, itemsList, script);
    match attached.result
    case Err(e) => Run(Err(e), attached.sent, attached.rest)
    case Ok(withAccounts) =>
      After(attached.sent, TransactionsStepRun(tc, tokenInfo, accessToken, withAccounts, path, attached.rest))
  }

  /** The two latest transactions, then the export. */
  function TransactionsStepRun(tc: HttpClient, tokenInfo: Json, accessToken: Json, withAccounts: seq<Json>,
                               path: Json, script: seq<Reply>): (run: Run<Json>)
    ensures run.result.Ok? ==> Truthy(path)
  {
    var txs := ListTransactionsRun(tc, LatestTransactions(accessToken), script);
    match txs.result
    case Err(e) => Run(Err(e), txs.sent, txs.rest)
    case Ok(transactionsList) => Run(ExportData(tokenInfo, Arr(withAccounts), transactionsList, path), txs.sent, txs.rest)
  }

  /** The whole run; on success the result is the value written to `path`. */
  function GenerateUserDataRun(uc: HttpClient, ic: HttpClient, tc: HttpClient, ac: HttpClient,
                               email: Json, password: Json, path: Json, script: seq<Reply>): (run: Run<Json>)
    ensures run.result.Ok? ==> Truthy(email) && Truthy(password) && Truthy(path)
  {
    var lookup := GetUserIdByEmailRun(uc, email, script);
    match lookup.result
    case Err(e) => Run(Err(e), lookup.sent, lookup.rest)
    case Ok(uuid) =>
      var auth := AuthenticateUserRun(uc, Credentials(Undefined, uuid, email, password), lookup.rest);
      match auth.result
      case Err(e) => Run(Err(e), lookup.sent + auth.sent, auth.rest)
      case Ok(tokenInfo) =>
        After(lookup.sent + auth.sent, CollectRun(ic, tc, ac, tokenInfo, path, auth.rest))
  }

  /** One reduce callback: `item.id`, then all of that item's accounts. */
  method AttachOne(accounts: AccountsService, accessToken: Json, item: Json) returns (r: Result<Json>)
    modifies accounts.httpClient.server
    ensures var run := AttachOneRun(accounts.httpClient, accessToken, item, old(accounts.httpClient.server.script));
      r == run.result && accounts.httpClient.server.received == old(accounts.httpClient.server.received) + run.sent
      && accounts.httpClient.server.script == run.rest
  {
    var id := Member(item, "id");
    if id.Err? {
      return Err(id.error);
    }
    var accountsList := accounts.ListAccounts(AccountsOf(accessToken, id.value));
    if accountsList.Err? {
      return Err(accountsList.error);
    }
    return Ok(Obj(ObjectSpread(item)["accounts" := accountsList.value]));
  }

  /** The corrected join: the callbacks in order, each awaiting the one
      before it. The reduce as written is `AttachAccountsAsWrittenRun`. */
  method AttachAccounts(accounts: AccountsService, accessToken: Json, itemsList: seq<Json>)
    returns (r: Result<seq<Json>>)
    modifies accounts.httpClient.server
    ensures var run := AttachAccountsRun(accounts.httpClient, accessToken, itemsList,
                                         old(accounts.httpClient.server.script));
      r == run.result && accounts.httpClient.server.received == old(accounts.httpClient.server.received) + run.sent
      && accounts.httpClient.server.script == run.rest
    decreases |itemsList|
  {
    if itemsList == [] {
      return Ok([]);
    }
    ghost var before := accounts.httpClient.server.received;
    ghost var one := AttachOneRun(accounts.httpClient, accessToken, itemsList[0], accounts.httpClient.server.script);
    var y := AttachOne(accounts, accessToken, itemsList[0]);
    if y.Err? {
      return Err(y.error);
    }
    ghost var others := AttachAccountsRun(accounts.httpClient, accessToken, itemsList[1..], one.rest);
    var ys := AttachAccounts(accounts, accessToken, itemsList[1..]);
    SentInOrder(before, one.sent, others.sent);
    return match ys case Ok(tail) => Ok([y.value] + tail) case Err(e) => Err(e);
  }

  /** Everything after authentication, against the shared server. */
  method Collect(items: ItemsService, transactions: TransactionsService, accounts: AccountsService,
                 tokenInfo: Json, jsonFilePath: Json, disk: Disk) returns (r: Outcome)
    requires transactions.httpClient.server == items.httpClient.server
    requires accounts.httpClient.server == items.httpClient.server
    modifies items.httpClient.server, disk
    ensures var run := CollectRun(items.httpClient, transactions.httpClient, accounts.httpClient, tokenInfo,
                                  jsonFilePath, old(items.httpClient.server.script));
      && (r.Pass? <==> run.result.Ok?) && (r.Fail? ==> r.error == run.result.error)
      && items.httpClient.server.received == old(items.httpClient.server.received) + run.sent
      && items.httpClient.server.script == run.rest
      && disk.files == if run.result.Ok? then old(disk.files)[jsonFilePath := run.result.value] else old(disk.files)
  {
    var accessToken := Member(tokenInfo, "access_token");
    if accessToken.Err? {
      return Fail(accessToken.error);
    }
    r := CollectItems(items, transactions, accounts, tokenInfo, accessToken.value, jsonFilePath, disk);
  }

  method CollectItems(items: ItemsService, transactions: TransactionsService, accounts: AccountsService,
                      tokenInfo: Json, accessToken: Json, jsonFilePath: Json, disk: Disk) returns (r: Outcome)
    requires transactions.httpClient.server == items.httpClient.server
    requires accounts.httpClient.server == items.httpClient.server
    modifies items.httpClient.server, disk
    ensures var run := ItemsStepRun(items.httpClient, transactions.httpClient, accounts.httpClient, tokenInfo,
                                    accessToken, jsonFilePath, old(items.httpClient.server.script));
      && (r.Pass? <==> run.result.Ok?) && (r.Fail? ==> r.error == run.result.error)
      && items.httpClient.server.received == old(items.httpClient.server.received) + run.sent
      && items.httpClient.server.script == run.rest
      && disk.files == if run.result.Ok? then old(disk.files)[jsonFilePath := run.result.value] else old(disk.files)
  {
    ghost var before := items.httpClient.server.received;
    ghost var fetched := ListItemsRun(items.httpClient, ItemsQuery(accessToken, Undefined, Undefined, true),
                                      items.httpClient.server.script);
    var itemsList := items.ListItems(ItemsQuery(accessToken, Undefined, Undefined, true));
    if itemsList.Err? {
      return Fail(itemsList.error);
    }
    if !itemsList.value.Arr? {
      return Fail(TypeError);
    }
    ghost var later := AccountsStepRun(transactions.httpClient, accounts.httpClient, tokenInfo, accessToken,
                                       itemsList.value.elems, jsonFilePath, fetched.rest);
    r := CollectAccounts(transactions, accounts, tokenInfo, accessToken, itemsList.value.elems, jsonFilePath, disk);
    SentInOrder(before, fetched.sent, later.sent);
  }

  method CollectAccounts(transactions: TransactionsService, accounts: AccountsService, tokenInfo: Json,
                         accessToken: Json, itemsList: seq<Json>, jsonFilePath: Json, disk: Disk) returns (r: Outcome)
    requires transactions.httpClient.server == accounts.httpClient.server
    modifies accounts.httpClient.server, disk
    ensures var run := AccountsStepRun(transactions.httpClient, accounts.httpClient, tokenInfo, accessToken,
                                       itemsList, jsonFilePath, old(accounts.httpClient.server.script));
      && (r.Pass? <==> run.result.Ok?) && (r.Fail? ==> r.error == run.result.error)
      && accounts.httpClient.server.received == old(accounts.httpClient.server.received) + run.sent
      && accounts.httpClient.server.script == run.rest
      && disk.files == if run.result.Ok? then old(disk.files)[jsonFilePath := run.result.value] else old(disk.files)
  {
    ghost var before := accounts.httpClient.server.received;
    ghost var attached := AttachAccountsRun(accounts.httpClient, accessToken, itemsList, accounts.httpClient.server.script);
    var withAccounts := AttachAccounts(accounts, accessToken, itemsList);
    if withAccounts.Err? {
      return Fail(withAccounts.error);
    }
    ghost var later := TransactionsStepRun(transactions.httpClient, tokenInfo, accessToken, withAccounts.value,
                                           jsonFilePath, attached.rest);
    r := CollectTransactions(transactions, tokenInfo, accessToken, withAccounts.value, jsonFilePath, disk);
    SentInOrder(before, attached.sent, later.sent);
  }

  method CollectTransactions(transactions: TransactionsService, tokenInfo: Json, accessToken: Json,
                             withAccounts: seq<Json>, jsonFilePath: Json, disk: Disk) returns (r: Outcome)
    modifies transactions.httpClient.server, disk
    ensures var run := TransactionsStepRun(transactions.httpClient, tokenInfo, accessToken, withAccounts,
                                           jsonFilePath, old(transactions.httpClient.server.script));
      && (r.Pass? <==> run.result.Ok?) && (r.Fail? ==> r.error == run.result.error)
      && transactions.httpClient.server.received == old(transactions.httpClient.server.received) + run.sent
      && transactions.httpClient.server.script == run.rest
      && disk.files == if run.result.Ok? then old(disk.files)[jsonFilePath := run.result.value] else old(disk.files)
  {
    var transactionsList := transactions.ListTransactions(LatestTransactions(accessToken));
    if transactionsList.Err? {
      return Fail(transactionsList.error);
    }
    var jsonExporter := new JsonExporter(tokenInfo, Arr(withAccounts), transactionsList.value);
    r := jsonExporter.Export(jsonFilePath, disk);
  }

  /** The orchestration, against one server shared by the four services. */
  method GenerateUserData(users: UsersService, items: ItemsService, transactions: TransactionsService,
                          accounts: AccountsService, email: Json, password: Json, jsonFilePath: Json, disk: Disk)
    returns (r: Outcome)
    requires items.httpClient.server == users.httpClient.server
    requires transactions.httpClient.server == users.httpClient.server
    requires accounts.httpClient.server == users.httpClient.server
    modifies users.httpClient.server, disk
    ensures var run := GenerateUserDataRun(users.httpClient, items.httpClient, transactions.httpClient,
                                           accounts.httpClient, email, password, jsonFilePath,
                                           old(users.httpClient.server.script));
      && (r.Pass? <==> run.result.Ok?) && (r.Fail? ==> r.error == run.result.error)
      && users.httpClient.server.received == old(users.httpClient.server.received) + run.sent
      && users.httpClient.server.script == run.rest
      && disk.files == if run.result.Ok? then old(disk.files)[jsonFilePath := run.result.value] else old(disk.files)
  {
    ghost var before := users.httpClient.server.received;
    ghost var lookup := GetUserIdByEmailRun(users.httpClient, email, users.httpClient.server.script);
    var uuid := users.GetUserIdByEmail(email);
    if uuid.Err? {
      return Fail(uuid.error);
    }
    ghost var auth := AuthenticateUserRun(users.httpClient, Credentials(Undefined, uuid.value, email, password),
                                          lookup.rest);
    var tokenInfo := users.AuthenticateUser(Credentials(Undefined, uuid.value, email, password));
    SentInOrder(before, lookup.sent, auth.sent);
    if tokenInfo.Err? {
      return Fail(tokenInfo.error);
    }
    ghost var collected := CollectRun(items.httpClient, transactions.httpClient, accounts.httpClient,
                                      tokenInfo.value, jsonFilePath, auth.rest);
    r := Collect(items, transactions, accounts, tokenInfo.value, jsonFilePath, disk);
    SentInOrder(before, lookup.sent + auth.sent, collected.sent);
  }

  /** `{ ...item, accounts }`: every own property of `item` except an
      `accounts` it may have had, and `accounts` the given list. */
  function WithAccounts(item: Json, accounts: seq<Json>): Json {
    Obj(ObjectSpread(item)["accounts" := Arr(accounts)])
  }

  /** `{item_id: item.id, after: undefined, limit: 500}`, the params of every
      accounts request of `item`. */
  function AccountsParamsOf(item: Json): map<string, Json> {
    map["item_id" := Field(item, "id"), "after" := Undefined, "limit" := Num(500)]
  }

  /** An accounts request for one of `items`. */
  predicate AccountsRequestFor(items: seq<Json>, req: Request) {
    exists j :: 0 <= j < |items| && req.params == AccountsParamsOf(items[j])
  }

  /** One callback: a null or undefined item fails before any request;
      otherwise it runs exactly that item's fetch-all of accounts, each
      request naming the item. */
  lemma AttachOneSends(ac: HttpClient, accessToken: Json, item: Json, script: seq<Reply>)
    ensures var run := AttachOneRun(ac, accessToken, item, script);
      && (Nullish(item) ==> run == Run(Err(TypeError), [], script))
      && (!Nullish(item) ==>
            var fetched := ListAccountsRun(ac, AccountsOf(accessToken, Field(item, "id")), script);
            run.sent == fetched.sent && run.rest == fetched.rest)
      && (forall j :: 0 <= j < |run.sent| ==> run.sent[j].params == AccountsParamsOf(item))
  {
    if !Nullish(item) {
      ItemIdOnEveryRequest(ac, AccountsOf(accessToken, Field(item, "id")), script);
    }
  }

  /** A successful callback has read a complete chain of account pages,
      and returns the item with the in-order concatenation of their
      resources as its accounts. */
  lemma AttachOneJoins(ac: HttpClient, accessToken: Json, item: Json, script: seq<Reply>)
    requires AttachOneRun(ac, accessToken, item, script).result.Ok?
    ensures var run := AttachOneRun(ac, accessToken, item, script);
      && CompleteChain(script, Optional, |run.sent|)
      && run.result.value == WithAccounts(item, ChainItems(script[..|run.sent|], Optional))
  {
    ListAccountsCollectsPages(ac, AccountsOf(accessToken, Field(item, "id")), script);
  }

  /** The replies left when the callback for `items[j]` starts: the script
      after the callbacks for `items[..j]` have run. */
  function AttachScriptAt(ac: HttpClient, accessToken: Json, items: seq<Json>, script: seq<Reply>, j: nat)
    : seq<Reply>
    decreases j
  {
    if j == 0 || items == [] then script
    else AttachScriptAt(ac, accessToken, items[1..], AttachOneRun(ac, accessToken, items[0], script).rest, j - 1)
  }

  /** The accounts the callback for `items[j]` collected: the resources of
      the pages it read, in order. */
  function FetchedAccounts(ac: HttpClient, accessToken: Json, items: seq<Json>, script: seq<Reply>, j: nat)
    : seq<Json>
    requires j < |items|
  {
    var s := AttachScriptAt(ac, accessToken, items, script, j);
    var one := AttachOneRun(ac, accessToken, items[j], s);
    ChainItems(if |one.sent| <= |s| then s[..|one.sent|] else s, Optional)
  }

  /** The callback for `items[j]`, run on the replies the callbacks before
      it left, succeeded with `out`: it read a complete chain of account
      pages, every request naming `items[j]`, and `out` is that item with
      the accounts collected from those pages. */
  ghost predicate AttachedAt(ac: HttpClient, accessToken: Json, items: seq<Json>, script: seq<Reply>, j: nat,
                             out: Json)
    requires j < |items|
  {
    var s := AttachScriptAt(ac, accessToken, items, script, j);
    var one := AttachOneRun(ac, accessToken, items[j], s);
    && one.result == Ok(out)
    && CompleteChain(s, Optional, |one.sent|)
    && (forall r :: r in one.sent ==> r.params == AccountsParamsOf(items[j]))
    && out == WithAccounts(items[j], FetchedAccounts(ac, accessToken, items, script, j))
  }

  /** The first callback of a fold. */
  lemma AttachedAtFirst(ac: HttpClient, accessToken: Json, items: seq<Json>, script: seq<Reply>)
    requires items != [] && AttachOneRun(ac, accessToken, items[0], script).result.Ok?
    ensures AttachedAt(ac, accessToken, items, script, 0, AttachOneRun(ac, accessToken, items[0], script).result.value)
  {
    var one := AttachOneRun(ac, accessToken, items[0], script);
    AttachOneJoins(ac, accessToken, items[0], script);
    AttachOneSends(ac, accessToken, items[0], script);
    assert AttachScriptAt(ac, accessToken, items, script, 0) == script;
    forall r | r in one.sent
      ensures r.params == AccountsParamsOf(items[0])
    {
      var i :| 0 <= i < |one.sent| && one.sent[i] == r;
    }
  }

  /** Callback `j` of a fold is callback `j - 1` of the fold over the other
      items, started where the first callback stopped. */
  lemma AttachedAtShift(ac: HttpClient, accessToken: Json, items: seq<Json>, script: seq<Reply>, j: nat, out: Json)
    requires 1 <= j < |items|
    ensures var rest := AttachOneRun(ac, accessToken, items[0], script).rest;
      AttachedAt(ac, accessToken, items, script, j, out) == AttachedAt(ac, accessToken, items[1..], rest, j - 1, out)
  {
    var rest := AttachOneRun(ac, accessToken, items[0], script).rest;
    assert AttachScriptAt(ac, accessToken, items, script, j) == AttachScriptAt(ac, accessToken, items[1..], rest, j - 1);
    assert items[j] == items[1..][j - 1];
    assert FetchedAccounts(ac, accessToken, items, script, j) == FetchedAccounts(ac, accessToken, items[1..], rest, j - 1);
  }

  /** The first callback's item in front of the other items' joined
      results, each as callback `j - 1` of the fold over the other items. */
  lemma AttachedAtCons(ac: HttpClient, accessToken: Json, items: seq<Json>, script: seq<Reply>, others: seq<Json>)
    requires items != [] && AttachOneRun(ac, accessToken, items[0], script).result.Ok?
    requires |others| == |items| - 1
    requires var rest := AttachOneRun(ac, accessToken, items[0], script).rest;
      forall j :: 0 <= j < |others| ==> AttachedAt(ac, accessToken, items[1..], rest, j, others[j])
    ensures var out := [AttachOneRun(ac, accessToken, items[0], script).result.value] + others;
      forall j :: 0 <= j < |items| ==> AttachedAt(ac, accessToken, items, script, j, out[j])
  {
    var out := [AttachOneRun(ac, accessToken, items[0], script).result.value] + others;
    AttachedAtFirst(ac, accessToken, items, script);
    forall j | 0 <= j < |items|
      ensures AttachedAt(ac, accessToken, items, script, j, out[j])
    {
      if j > 0 {
        assert out[j] == others[j - 1];
        AttachedAtShift(ac, accessToken, items, script, j, out[j]);
      }
    }
  }

  /** The corrected fold keeps every item, in order: item `j` comes back
      with exactly the accounts its own callback fetched, from the replies
      the callbacks before it left; the fold stops where the last callback
      stopped. */
  lemma {:induction false} AttachKeepsItems(ac: HttpClient, accessToken: Json, items: seq<Json>, script: seq<Reply>)
    requires AttachAccountsRun(ac, accessToken, items, script).result.Ok?
    ensures var run := AttachAccountsRun(ac, accessToken, items, script);
      && |run.result.value| == |items|
      && (forall j :: 0 <= j < |items| ==> AttachedAt(ac, accessToken, items, script, j, run.result.value[j]))
      && run.rest == AttachScriptAt(ac, accessToken, items, script, |items|)
    decreases |items|
  {
    if items != [] {
      var one := AttachOneRun(ac, accessToken, items[0], script);
      var tail := AttachAccountsRun(ac, accessToken, items[1..], one.rest);
      var run := AttachAccountsRun(ac, accessToken, items, script);
      assert run == Prepend([one.result.value], one.sent, tail);
      AttachKeepsItems(ac, accessToken, items[1..], one.rest);
      assert run.result.value == [one.result.value] + tail.result.value;
      AttachedAtCons(ac, accessToken, items, script, tail.result.value);
      assert AttachScriptAt(ac, accessToken, items, script, |items|)
          == AttachScriptAt(ac, accessToken, items[1..], one.rest, |items| - 1);
    }
  }

  /** Every one of `reqs` is an accounts request for one of `items`. */
  predicate AccountsRequestsFor(items: seq<Json>, reqs: seq<Request>) {
    forall j :: 0 <= j < |reqs| ==> AccountsRequestFor(items, reqs[j])
  }

  /** Sequential requests of the fold: the first item's, then the others'. */
  lemma RequestsNameItems(items: seq<Json>, first: seq<Request>, second: seq<Request>)
    requires items != []
    requires forall j :: 0 <= j < |first| ==> first[j].params == AccountsParamsOf(items[0])
    requires AccountsRequestsFor(items[1..], second)
    ensures AccountsRequestsFor(items, first + second)
  {
    forall j | 0 <= j < |first + second|
      ensures AccountsRequestFor(items, (first + second)[j])
    {
      if j < |first| {
        assert (first + second)[j].params == AccountsParamsOf(items[0]);
      } else {
        assert AccountsRequestFor(items[1..], second[j - |first|]);
        var i :| 0 <= i < |items[1..]| && second[j - |first|].params == AccountsParamsOf(items[1..][i]);
        assert (first + second)[j].params == AccountsParamsOf(items[i + 1]);
      }
    }
  }

  /** Every request of the fold is an accounts request for one of the
      items. */
  lemma {:induction false} AttachRequestsNameItems(ac: HttpClient, accessToken: Json, items: seq<Json>,
                                                   script: seq<Reply>)
    ensures AccountsRequestsFor(items, AttachAccountsRun(ac, accessToken, items, script).sent)
    decreases |items|
  {
    if items != [] {
      var one := AttachOneRun(ac, accessToken, items[0], script);
      AttachOneSends(ac, accessToken, items[0], script);
      if one.result.Ok? {
        var tail := AttachAccountsRun(ac, accessToken, items[1..], one.rest);
        AttachRequestsNameItems(ac, accessToken, items[1..], one.rest);
        RequestsNameItems(items, one.sent, tail.sent);
      } else {
        RequestsNameItems(items, one.sent, []);
        assert one.sent + [] == one.sent;
      }
    }
  }

  /** A callback handed a promise rejects: with its own failure, or with the
      TypeError of spreading the promise. When every callback's own work
      succeeds, the run sends what the corrected fold sends and ends in that
      TypeError. */
  lemma {:induction false} PromiseAccumulatorFails(ac: HttpClient, accessToken: Json, items: seq<Json>,
                                                   p: Result<seq<Json>>, script: seq<Reply>)
    requires items != []
    ensures AsyncReduceRun(ac, accessToken, items, Promise(p), script).result.Err?
    ensures var corrected := AttachAccountsRun(ac, accessToken, items, script);
      corrected.result.Ok? ==>
        AsyncReduceRun(ac, accessToken, items, Promise(p), script) == Run(Err(TypeError), corrected.sent, corrected.rest)
    decreases |items|
  {
    var one := AttachOneRun(ac, accessToken, items[0], script);
    var settled := if one.result.Ok? then Err(TypeError) else Err(one.result.error);
    var next := AsyncReduceRun(ac, accessToken, items[1..], Promise(settled), one.rest);
    assert AsyncReduceRun(ac, accessToken, items, Promise(p), script) == Run(next.result, one.sent + next.sent, next.rest);
    if one.result.Ok? {
      var tail := AttachAccountsRun(ac, accessToken, items[1..], one.rest);
      assert AttachAccountsRun(ac, accessToken, items, script) == Prepend([one.result.value], one.sent, tail);
      if |items| == 1 {
        assert items[1..] == [];
        assert next == Run(Err(TypeError), [], one.rest) && tail == Run(Ok([]), [], one.rest);
      } else {
        PromiseAccumulatorFails(ac, accessToken, items[1..], settled, one.rest);
      }
    } else if |items| > 1 {
      PromiseAccumulatorFails(ac, accessToken, items[1..], settled, one.rest);
    }
  }

  /** With at most one item the reduce as written and the corrected fold
      agree on everything. */
  lemma AsWrittenAgreesOnOneItem(ac: HttpClient, accessToken: Json, items: seq<Json>, script: seq<Reply>)
    requires |items| <= 1
    ensures AttachAccountsAsWrittenRun(ac, accessToken, items, script) == AttachAccountsRun(ac, accessToken, items, script)
  {
    if items != [] {
      var one := AttachOneRun(ac, accessToken, items[0], script);
      var settled := if one.result.Ok? then Ok([] + [one.result.value]) else Err(one.result.error);
      assert items[1..] == [];
      var next := AsyncReduceRun(ac, accessToken, items[1..], Promise(settled), one.rest);
      assert next == Run(settled, [], one.rest);
      assert AttachAccountsAsWrittenRun(ac, accessToken, items, script) == Run(settled, one.sent + [], one.rest);
      if one.result.Ok? {
        var tail := AttachAccountsRun(ac, accessToken, items[1..], one.rest);
        assert tail == Run(Ok([]), [], one.rest);
        assert AttachAccountsRun(ac, accessToken, items, script) == Prepend([one.result.value], one.sent, tail);
        assert [] + [one.result.value] == [one.result.value] + [];
      }
    }
  }

  /** From the second item on, the reduce as written always rejects; when
      the corrected fold succeeds, the run as written sends the same
      requests and uses the same replies, then throws the TypeError. */
  lemma AsWrittenFailsFromSecondItem(ac: HttpClient, accessToken: Json, items: seq<Json>, script: seq<Reply>)
    requires |items| >= 2
    ensures AttachAccountsAsWrittenRun(ac, accessToken, items, script).result.Err?
    ensures var corrected := AttachAccountsRun(ac, accessToken, items, script);
      corrected.result.Ok? ==>
        AttachAccountsAsWrittenRun(ac, accessToken, items, script) == Run(Err(TypeError), corrected.sent, corrected.rest)
  {
    var one := AttachOneRun(ac, accessToken, items[0], script);
    var settled := if one.result.Ok? then Ok([] + [one.result.value]) else Err(one.result.error);
    PromiseAccumulatorFails(ac, accessToken, items[1..], settled, one.rest);
  }

  /** An item `{id}` whose accounts come back as one page without
      resources or pagination: one request, and the item with no accounts. */
  lemma EmptyAccountsPage(ac: HttpClient, accessToken: Json, id: Json, script: seq<Reply>)
    requires Truthy(accessToken) && CredentialsPresent(ac)
    requires script != [] && script[0] == Response(Obj(map["resources" := Arr([])]))
    ensures var run := AttachOneRun(ac, accessToken, Obj(map["id" := id]), script);
      run.result == Ok(Obj(map["id" := id, "accounts" := Arr([])])) && run.rest == script[1..]
  {
    ListAccountsWithoutPagination(ac, AccountsOf(accessToken, id), [], script);
    assert ObjectSpread(Obj(map["id" := id]))["accounts" := Arr([])] == map["id" := id, "accounts" := Arr([])];
  }

  /** Two items whose accounts come back as one empty page each: the
      corrected fold returns both items with their (empty) accounts, the
      reduce as written a TypeError. */
  lemma TwoItemsAsWritten(ac: HttpClient, accessToken: Json, script: seq<Reply>)
    requires Truthy(accessToken) && CredentialsPresent(ac)
    requires |script| >= 2
    requires script[0] == Response(Obj(map["resources" := Arr([])]))
    requires script[1] == Response(Obj(map["resources" := Arr([])]))
    ensures var items := [Obj(map["id" := Num(1)]), Obj(map["id" := Num(2)])];
      && AttachAccountsRun(ac, accessToken, items, script).result
           == Ok([Obj(map["id" := Num(1), "accounts" := Arr([])]), Obj(map["id" := Num(2), "accounts" := Arr([])])])
      && AttachAccountsAsWrittenRun(ac, accessToken, items, script).result == Err(TypeError)
  {
    EmptyAccountsPage(ac, accessToken, Num(1), script);
    EmptyAccountsPage(ac, accessToken, Num(2), script[1..]);
    FoldOfTwo(ac, accessToken, Obj(map["id" := Num(1)]), Obj(map["id" := Num(2)]), script);
    AsWrittenFailsFromSecondItem(ac, accessToken, [Obj(map["id" := Num(1)]), Obj(map["id" := Num(2)])], script);
  }

  /** The corrected fold over two items whose callbacks both succeed. */
  lemma FoldOfTwo(ac: HttpClient, accessToken: Json, a: Json, b: Json, script: seq<Reply>)
    requires AttachOneRun(ac, accessToken, a, script).result.Ok?
    requires AttachOneRun(ac, accessToken, b, AttachOneRun(ac, accessToken, a, script).rest).result.Ok?
    ensures var first := AttachOneRun(ac, accessToken, a, script);
      var second := AttachOneRun(ac, accessToken, b, first.rest);
      AttachAccountsRun(ac, accessToken, [a, b], script).result == Ok([first.result.value, second.result.value])
  {
    var first := AttachOneRun(ac, accessToken, a, script);
    var second := AttachOneRun(ac, accessToken, b, first.rest);
    var none := AttachAccountsRun(ac, accessToken, [], second.rest);
    assert none.result == Ok([]);
    assert [b][0] == b && [b][1..] == [];
    FoldCons(ac, accessToken, [b], first.rest);
    var last := AttachAccountsRun(ac, accessToken, [b], first.rest);
    assert last.result == Ok([second.result.value] + none.result.value);
    assert [a, b][0] == a && [a, b][1..] == [b];
    FoldCons(ac, accessToken, [a, b], script);
    var whole := AttachAccountsRun(ac, accessToken, [a, b], script);
    assert whole.result == Ok([first.result.value] + last.result.value);
    assert [first.result.value] + ([second.result.value] + []) == [first.result.value, second.result.value];
  }

  /** The fold at a non-empty list whose first callback succeeds: that
      item's result in front of the fold over the others, which starts
      where the first callback stopped. */
  lemma FoldCons(ac: HttpClient, accessToken: Json, items: seq<Json>, script: seq<Reply>)
    requires items != [] && AttachOneRun(ac, accessToken, items[0], script).result.Ok?
    ensures var one := AttachOneRun(ac, accessToken, items[0], script);
      AttachAccountsRun(ac, accessToken, items, script)
        == Prepend([one.result.value], one.sent, AttachAccountsRun(ac, accessToken, items[1..], one.rest))
  {
  }

  /** A falsy email stops the run before any request. */
  lemma GenerateNeedsEmail(uc: HttpClient, ic: HttpClient, tc: HttpClient, ac: HttpClient,
                           email: Json, password: Json, path: Json, script: seq<Reply>)
    requires !Truthy(email)
    ensures GenerateUserDataRun(uc, ic, tc, ac, email, password, path, script)
      == Run(Err(MissingParameter(MissingEmailMessage)), [], script)
  {
    LookupNeedsEmail(uc, email, script);
  }

  /** An email no user has (or a user without a uuid) gives a falsy uuid:
      authentication then refuses it, and nothing after the users request
      is sent. */
  lemma UnknownUserStopsAtAuthentication(uc: HttpClient, ic: HttpClient, tc: HttpClient, ac: HttpClient,
                                         email: Json, password: Json, path: Json, script: seq<Reply>)
    requires var lookup := GetUserIdByEmailRun(uc, email, script);
      lookup.result.Ok? && !Truthy(lookup.result.value)
    ensures var lookup := GetUserIdByEmailRun(uc, email, script);
      GenerateUserDataRun(uc, ic, tc, ac, email, password, path, script)
        == Run(Err(MissingParameter(MissingIdentifierMessage)), lookup.sent, lookup.rest)
  {
    var lookup := GetUserIdByEmailRun(uc, email, script);
    IdentifierCheckedFirst(uc, Credentials(Undefined, lookup.result.value, email, password), lookup.rest);
    assert lookup.sent + [] == lookup.sent;
  }

  /** A found uuid is what the user authenticates with: right after the
      users request comes one POST /v2/authenticate whose body is the uuid,
      the email and the password. */
  lemma AuthenticatesWithFoundUuid(uc: HttpClient, ic: HttpClient, tc: HttpClient, ac: HttpClient,
                                   email: Json, password: Json, path: Json, script: seq<Reply>)
    requires CredentialsPresent(uc) && Truthy(password)
    requires var lookup := GetUserIdByEmailRun(uc, email, script);
      lookup.result.Ok? && Truthy(lookup.result.value)
    ensures var lookup := GetUserIdByEmailRun(uc, email, script);
      var run := GenerateUserDataRun(uc, ic, tc, ac, email, password, path, script);
      && |run.sent| > |lookup.sent|
      && run.sent[|lookup.sent|]
         == RequestFor(uc, POST, AuthenticateEndpoint, map[], map[],
                       Obj(map["user_uuid" := lookup.result.value, "email" := email, "password" := password]))
  {
    var lookup := GetUserIdByEmailRun(uc, email, script);
    var k := Credentials(Undefined, lookup.result.value, email, password);
    UuidBody(k);
    AuthenticatePostsOnce(uc, k, lookup.rest);
    var auth := AuthenticateUserRun(uc, k, lookup.rest);
    assert (lookup.sent + auth.sent)[|lookup.sent|] == auth.sent[0];
  }

  /** The last stage asks for one page of two transactions, with no cursor
      and no date window, using the access token. */
  lemma LatestTwoTransactions(tc: HttpClient, tokenInfo: Json, accessToken: Json, withAccounts: seq<Json>,
                              path: Json, script: seq<Reply>)
    requires Truthy(accessToken) && CredentialsPresent(tc)
    ensures TransactionsStepRun(tc, tokenInfo, accessToken, withAccounts, path, script).sent
      == [Request(GET, Text(tc.baseUrl) + "/v2/transactions",
                  map["after" := Undefined, "limit" := Num(2), "since" := Undefined, "until" := Undefined],
                  MergeHeaders(map["Authorization" := Str("Bearer " + Text(accessToken))],
                               tc.clientId, tc.clientSecret, tc.bridgeVersion), Undefined)]
  {
    ListTransactionsSinglePage(tc, LatestTransactions(accessToken), script);
  }

  /** The items stage fetches every page of items, each request with
      `limit = 500` and no `after`, before anything else goes out. */
  lemma ItemsFetchedFirst(ic: HttpClient, tc: HttpClient, ac: HttpClient, tokenInfo: Json, accessToken: Json,
                          path: Json, script: seq<Reply>)
    requires Truthy(accessToken)
    ensures var fetched := ListItemsRun(ic, ItemsQuery(accessToken, Undefined, Undefined, true), script);
      var run := ItemsStepRun(ic, tc, ac, tokenInfo, accessToken, path, script);
      && |fetched.sent| <= |run.sent| && run.sent[..|fetched.sent|] == fetched.sent
      && forall j :: 0 <= j < |fetched.sent| ==> run.sent[j].params == map["after" := Undefined, "limit" := Num(500)]
  {
    var q := ItemsQuery(accessToken, Undefined, Undefined, true);
    ListItemsFetchAll(ic, q, script);
    var fetched := ListItemsRun(ic, q, script);
    var run := ItemsStepRun(ic, tc, ac, tokenInfo, accessToken, path, script);
    assert run.sent[..|fetched.sent|] == fetched.sent;
  }

  /** How a fetched item ends up in the file: the item joined with
      `accounts`, then formatted. */
  predicate ExportedItem(item: Json, accounts: seq<Json>, out: Json) {
    FormattedItem(WithAccounts(item, accounts), out)
  }

  /** How the transactions end up in the file: one for one, in order, each
      projected onto the twelve transaction fields. */
  predicate ExportedTransactions(transactions: seq<Json>, out: Json) {
    && out.Arr? && |out.elems| == |transactions|
    && forall i :: 0 <= i < |transactions| ==>
         && out.elems[i].Obj? && out.elems[i].fields.Keys == TransactionFields
         && forall f :: f in TransactionFields ==> out.elems[i].fields[f] == Field(transactions[i], f)
  }

  /** After the join, a success is the export, under a truthy path, of the
      token block, of exactly the given items in order, each with the
      accounts its own callback fetched, and of the transactions page read
      from the replies the last callback left. */
  lemma AccountsStepExports(tc: HttpClient, ac: HttpClient, tokenInfo: Json, accessToken: Json, items: seq<Json>,
                            path: Json, script: seq<Reply>)
    requires AccountsStepRun(tc, ac, tokenInfo, accessToken, items, path, script).result.Ok?
    ensures var out := AccountsStepRun(tc, ac, tokenInfo, accessToken, items, path, script).result.value;
      var txs := ListTransactionsRun(tc, LatestTransactions(accessToken),
                                     AttachScriptAt(ac, accessToken, items, script, |items|)).result;
      && Truthy(path)
      && out.Obj? && out.fields.Keys == OutputKeys
      && out.fields["access_token"]
         == Obj(map["value" := Field(tokenInfo, "access_token"), "expires_at" := Field(tokenInfo, "expires_at")])
      && out.fields["items"].Arr? && |out.fields["items"].elems| == |items|
      && (forall i :: 0 <= i < |items| ==>
            ExportedItem(items[i], FetchedAccounts(ac, accessToken, items, script, i), out.fields["items"].elems[i]))
      && txs.Ok? && txs.value.Arr? && ExportedTransactions(txs.value.elems, out.fields["transactions"])
  {
    var attached := AttachAccountsRun(ac, accessToken, items, script);
    AttachKeepsItems(ac, accessToken, items, script);
    var joined := attached.result.value;
    var txs := ListTransactionsRun(tc, LatestTransactions(accessToken), attached.rest);
    var out := ExportData(tokenInfo, Arr(joined), txs.result.value, path).value;
    FormatDataShape(tokenInfo, Arr(joined), txs.result.value);
    TokenBlock(tokenInfo, Arr(joined), txs.result.value);
    forall i | 0 <= i < |items|
      ensures ExportedItem(items[i], FetchedAccounts(ac, accessToken, items, script, i), out.fields["items"].elems[i])
    {
      assert AttachedAt(ac, accessToken, items, script, i, joined[i]);
      assert FormattedItem(Arr(joined).elems[i], out.fields["items"].elems[i]);
    }
  }

  /** After authentication, a success exports every item the items stage
      fetched with `tokenInfo.access_token`, in order, each with the accounts
      its own callback fetched, and the transactions page read after the
      last callback. */
  lemma CollectExportsEveryItem(ic: HttpClient, tc: HttpClient, ac: HttpClient, tokenInfo: Json, path: Json,
                                script: seq<Reply>)
    requires CollectRun(ic, tc, ac, tokenInfo, path, script).result.Ok?
    ensures var out := CollectRun(ic, tc, ac, tokenInfo, path, script).result.value;
      var accessToken := Field(tokenInfo, "access_token");
      var fetched := ListItemsRun(ic, ItemsQuery(accessToken, Undefined, Undefined, true), script);
      && fetched.result.Ok? && fetched.result.value.Arr?
      && var items := fetched.result.value.elems;
      var txs := ListTransactionsRun(tc, LatestTransactions(accessToken),
                                     AttachScriptAt(ac, accessToken, items, fetched.rest, |items|)).result;
      && Truthy(path) && out.Obj? && out.fields.Keys == OutputKeys
      && out.fields["items"].Arr? && |out.fields["items"].elems| == |items|
      && (forall i :: 0 <= i < |items| ==>
            ExportedItem(items[i], FetchedAccounts(ac, accessToken, items, fetched.rest, i), out.fields["items"].elems[i]))
      && txs.Ok? && txs.value.Arr? && ExportedTransactions(txs.value.elems, out.fields["transactions"])
  {
    var accessToken := Field(tokenInfo, "access_token");
    var fetched := ListItemsRun(ic, ItemsQuery(accessToken, Undefined, Undefined, true), script);
    AccountsStepExports(tc, ac, tokenInfo, accessToken, fetched.result.value.elems, path, fetched.rest);
  }
}
