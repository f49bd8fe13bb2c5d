# bridge-api-assignment in Dafny

A model of the client side of the bridge-api-assignment repository, which
talks to a banking-aggregation API. It covers three layers:

- **The HTTP client** (`Http`). It holds the base URL and the three
  credentials (`Client-Id`, `Client-Secret`, `Bridge-Version`). Before any
  request it checks that all three are present, then merges them over the
  caller's headers.
- **Four services**:
  - items (`Items`), accounts (`Accounts`) and transactions
    (`Transactions`): each guards on the access token, sends a bearer
    header, and either fetches one page or follows `pagination.next_uri`
    across pages with `limit = 500`;
  - users (`Users`): authentication, one page of users, and the uuid
    lookup by email.
- **The helpers**:
  - the JSON exporter (`Exporter`): projects the token, the items with
    their accounts, and the transactions onto fixed field lists, behind a
    path guard;
  - `generateUserData` (`Aggregator`): looks the user up by email,
    authenticates, fetches all items, attaches every item's accounts,
    fetches the two latest transactions, and exports.

The JavaScript values the services handle are the datatype `Js.Json`. The
module `Js` gives their truthiness, `v.key` (a TypeError on null and
undefined), `v?.key`, spreading, template-literal text and `===`.

The network is a `Http.Server` object:

- It records every request it receives, in order.
- It answers from a fixed script of replies: a response body, or a failure
  status. A request the script has no reply for is answered with
  `Unanswered`. That bounds the cursor loop, which has no iteration guard of
  its own.

Every operation that talks to the server has two forms. The first is a method
that changes the server's log and script. The second is a function
`...Run(…, script)` that describes the same run as a value: its result, the
requests sent in order, and the replies left. Each method's postcondition ties
it to its function. The properties are lemmas about the functions.

The three copies of the cursor loop (`#getAllItems`, `#getAllAccounts`,
`#getAllTransactions`) are one method, `Fetch.FetchAll`. Its `CursorRead`
parameter says how the loop condition reads the cursor. `Strict` is
`response.body.pagination.next_uri` (items, transactions). `Optional` is
`response?.body?.pagination?.next_uri` (accounts). Each service's private
method is a method that calls it.

A behaviour of the code worth knowing: the accounts loop's optional chaining
does not make it tolerate a response without a body. The push
`accounts.push(...response.body.resources)` (src/services/accounts-service.js:25,
29) reads the body first and throws. Only a missing `pagination` object, or a
missing `next_uri`, ends that loop normally. The direct read of the other two
loops throws a TypeError when `pagination` is missing
(`Fetch.MissingPagination`).

## Model

| member | source | states |
|---|---|---|
| Js.Truthy | src/services/items-service.js:55 | `if (!v)` as JavaScript reads it; `Js.FalsyValues` states which values are falsy |
| Js.FalsyValues | src/services/http-client.js:36-40 | the falsy values are exactly undefined, null, `false`, `0` and the empty string, so null and undefined are always falsy |
| Js.Text | src/services/http-client.js:60 | the template-literal conversion `${v}`: a string converts to itself, and a value that is neither a string nor an array never converts to the empty string |
| Js.NatText | src/services/http-client.js:60 | a natural number converts to a non-empty run of decimal digits, with a leading zero only for 0 itself |
| Js.NumText | src/services/http-client.js:60 | an integer converts to a non-empty text that starts with `-` exactly when it is negative |
| Js.Member | src/services/items-service.js:74 | `v.key` throws a TypeError exactly on null and undefined, and otherwise reads the property (undefined when absent) |
| Js.OptMember | src/services/accounts-service.js:27 | `v?.key` is undefined on null and undefined, and agrees with `v.key` everywhere else |
| Js.Spread | src/services/items-service.js:29 | spreading an array gives its elements in order; anything that is neither an array nor a string throws a TypeError |
| Js.MapResults | src/helpers/json-exporter.js:31-45 | `xs.map(f)` succeeds iff `f` succeeds on every element; it keeps the count and the order; on failure the error is that of some failing element |
| Http.Server.constructor | src/services/http-client.js:64-73 | the remote API starts with no request received and the given script of replies |
| Http.Server.Respond | src/services/http-client.js:93-104 | one request is appended to the log and answered with the next reply, which is consumed |
| Http.MissingHeaderNames | src/services/http-client.js:34-40 | each credential name is in the list iff its value is falsy; only the three credential names occur, in the order Client-Id, Client-Secret, Bridge-Version |
| Http.HeadersCheck | src/services/http-client.js:42-46 | the check passes iff all three credentials are truthy; otherwise the error is the fixed prefix followed by the missing names joined with ", " |
| Http.MergeHeaders | src/services/http-client.js:67-72 | the merged headers are the caller's plus the three credentials; a credential overrides a caller header of the same name; every other caller header is kept |
| Http.HttpClient.constructor | src/services/http-client.js:22-27 | the client keeps the base URL and the three credentials as given |
| Http.HttpClient.CheckAuthenticationHeaders | src/services/http-client.js:33-47 | the list built push by push yields exactly the outcome of `HeadersCheck` |
| Http.HttpClient.Post | src/services/http-client.js:59-76 | a POST changes the server exactly as `PostRun` describes: the same result, the requests appended to the log, the replies consumed |
| Http.HttpClient.Get | src/services/http-client.js:88-105 | a GET changes the server exactly as `GetRun` describes |
| Http.HttpClient.Dispatch | src/services/http-client.js:60-62 | builds base URL + endpoint, runs the credential check, then sends, as `SendRun` describes |
| Http.SendRun | src/services/http-client.js:88-105 | a call sends at most one request and uses at most one reply; a success has sent exactly one request and used exactly one reply |
| Http.GetRun | src/services/http-client.js:88-105 | the same bounds for a GET |
| Http.PostRun | src/services/http-client.js:59-76 | the same bounds for a POST |
| Http.SendChecksCredentialsFirst | src/services/http-client.js:89-104 | with a credential missing nothing is sent, no reply is used, and the missing-headers error is raised; otherwise exactly one request goes to `baseUrl + endpoint` with the merged headers, and its reply is the result |
| Http.MissingIdAndVersionMessage | src/services/http-client.js:34-46 | a client with only a secret fails with "The following required headers are missing: Client-Id, Bridge-Version" |
| Fetch.BearerHeaders | src/services/items-service.js:59-61 | the headers are exactly `Authorization: "Bearer " + accessToken` |
| Fetch.PageParams | src/services/items-service.js:27 | `{...params, limit: 500}` forces `limit` to 500 and keeps every other caller parameter |
| Fetch.Resources | src/services/items-service.js:29 | `...response.body.resources`; its reading is stated by `Fetch.PageReads` |
| Fetch.Cursor | src/services/accounts-service.js:27 | the loop condition's read of `next_uri`, direct or through optional chaining; stated by `Fetch.PageReads` |
| Fetch.Page | src/services/items-service.js:29-31 | a page's resources, pushed first, then its cursor; stated by `Fetch.PageReads` |
| Fetch.PageReads | src/services/accounts-service.js:25-27 | the resources read succeeds iff the body is not null or undefined and its `resources` is an array or a string (an array gives its elements). The optional-chaining cursor read always succeeds; the direct read succeeds iff the body and its `pagination` are not null or undefined. A successful read gives `pagination.next_uri`, and every failure is a TypeError |
| Fetch.FetchAll | src/services/items-service.js:21-41 | the loop (first request, push, then follow a truthy cursor) changes the server exactly as `FetchFrom` describes; its invariant is that the first request's items plus the rest of the loop make the whole run |
| Fetch.FetchSucceedsOnChain | src/services/items-service.js:22-40 | a loop that succeeds has read a complete cursor chain, one reply per request: every page readable, every cursor but the last truthy. Its result is the in-order concatenation of those pages' resources, and it used exactly those replies |
| Fetch.FetchFollowsChain | src/services/items-service.js:31-38 | conversely, with the credentials present, a complete chain of `k` pages makes exactly `k` requests; it stops at the first falsy cursor and returns the concatenated resources |
| Fetch.FetchRequests | src/services/items-service.js:24-36 | every loop request is a GET with the caller's headers merged with the credentials, and the caller's params with `limit = 500`. Request 0 targets the endpoint and request `j` the cursor of page `j - 1`. At most one more request than replies is sent |
| Fetch.EmptyFirstPage | src/services/items-service.js:24-31 | an empty first page with a null `next_uri` gives an empty list after exactly one request |
| Fetch.TwoPagesOfTwo | src/services/transactions-service.js:21-41 | two pages of two resources, the first pointing at the second, give the four resources in order after exactly two requests |
| Fetch.MissingPagination | src/services/accounts-service.js:24-30 | a missing body fails with a TypeError; a missing `pagination` ends the optional-chaining loop normally, but makes the direct read fail with a TypeError; a missing `next_uri` ends the optional-chaining loop |
| Fetch.ListRun | src/services/items-service.js:52-75 | a listing either uses no reply or leaves a strictly shorter script of replies |
| Fetch.FetchFrom | src/services/items-service.js:24-38 | the loop from one request on: it uses no reply at all or leaves a strictly shorter script of replies, which also bounds its mutual recursion with `Continue` |
| Fetch.Continue | src/services/items-service.js:31-38 | the loop at its condition: a falsy cursor stops it, a truthy one starts the next request; it too uses no reply or leaves a shorter script |
| Fetch.FetchStep | src/services/items-service.js:24-37 | with the credentials present and a readable first reply, one turn is one GET to the target with `limit = 500`, that page's resources pushed first, then the loop condition on its cursor over the remaining replies |
| Fetch.FetchOkStarts | src/services/items-service.js:24-29 | a loop that succeeds had all three credentials and a readable first reply |
| Fetch.FetchNeedsCredentials | src/services/http-client.js:89-92 | with a credential missing the loop fails with the missing-headers error, sends nothing and uses no reply |
| Fetch.ListRunNeedsToken | src/services/items-service.js:55-57 | a falsy access token fails with "Required access token is missing" before any request |
| Fetch.ListRunSinglePage | src/services/items-service.js:72-74 | without fetch-all, exactly one request with the params as given, whose `body.resources` is the result |
| Fetch.ListRunFetchAll | src/services/items-service.js:68-70 | with fetch-all, every request is the loop's, and a success is the array of all the fetched pages' resources, in fetch order, over a complete cursor chain |
| Fetch.ListRunAuthorization | src/services/items-service.js:59-61 | on both paths every request is a GET carrying `Authorization: Bearer <token>` next to the three credentials |
| Items.ItemsService.constructor | src/services/items-service.js:8-10 | the service keeps its client |
| Items.ItemsService.GetAllItems | src/services/items-service.js:21-41 | the items loop reads the cursor directly, as `FetchFrom` with `Strict` describes |
| Items.ItemsService.ListItems | src/services/items-service.js:52-75 | `listItems` changes the server exactly as `ListItemsRun` describes |
| Items.ListItemsRun | src/services/items-service.js:52-75 | `listItems` as a run: endpoint `/v2/items`, params `{after, limit}`, the bearer header, and the direct (`Strict`) cursor read under fetch-all; its properties are `Items.ListItemsSinglePage`, `Items.ListItemsFetchAll` and the `Fetch.ListRun…` lemmas |
| Items.ListItemsSinglePage | src/services/items-service.js:63-74 | without fetch-all, exactly one GET `/v2/items` with `{after, limit}` as given and the bearer header; the result is that page's resources unchanged |
| Items.ListItemsFetchAll | src/services/items-service.js:22-40 | with fetch-all, every request carries the caller's `after` and `limit = 500`, and targets `/v2/items` first, then each previous `next_uri`. A success is the in-order concatenation of all pages |
| Items.ListItemsNeedsPagination | src/services/items-service.js:31 | a first page without `pagination` makes the items loop fail with a TypeError after one request |
| Accounts.AccountsService.constructor | src/services/accounts-service.js:8-10 | the service keeps its client |
| Accounts.AccountsService.GetAllAccounts | src/services/accounts-service.js:21-33 | the accounts loop reads the cursor through optional chaining, as `FetchFrom` with `Optional` describes |
| Accounts.AccountsService.ListAccounts | src/services/accounts-service.js:45-69 | `listAccounts` changes the server exactly as `ListAccountsRun` describes |
| Accounts.ListAccountsRun | src/services/accounts-service.js:45-69 | `listAccounts` as a run: endpoint `/v2/accounts`, params `{item_id, after, limit}`, the bearer header, and the optional-chaining (`Optional`) cursor read under fetch-all; its properties are `Accounts.ItemIdOnEveryRequest`, `Accounts.ListAccountsSinglePage` and `Accounts.ListAccountsCollectsPages` |
| Accounts.ItemIdOnEveryRequest | src/services/accounts-service.js:56-60 | every request, first and continuation, has params `{item_id, after, limit}`, with `limit` 500 under fetch-all and the caller's otherwise |
| Accounts.ListAccountsSinglePage | src/services/accounts-service.js:62-68 | without fetch-all, one GET `/v2/accounts` with `{item_id, after, limit}` as given, returning its resources |
| Accounts.ListAccountsCollectsPages | src/services/accounts-service.js:21-33 | with fetch-all, a success is the in-order concatenation of all fetched pages' resources |
| Accounts.ListAccountsWithoutPagination | src/services/accounts-service.js:27 | a first page without `pagination` ends the accounts loop normally after one request, with that page's resources |
| Transactions.TransactionsService.constructor | src/services/transactions-service.js:8-10 | the service keeps its client |
| Transactions.TransactionsService.GetAllTransactions | src/services/transactions-service.js:21-41 | the transactions loop reads the cursor directly, as `FetchFrom` with `Strict` describes |
| Transactions.TransactionsService.ListTransactions | src/services/transactions-service.js:54-86 | `listTransactions` changes the server exactly as `ListTransactionsRun` describes |
| Transactions.ListTransactionsRun | src/services/transactions-service.js:54-86 | `listTransactions` as a run: endpoint `/v2/transactions`, params `{after, limit, since, until}`, the bearer header, and the direct (`Strict`) cursor read under fetch-all; its properties are `Transactions.ListTransactionsSinglePage` and `Transactions.ListTransactionsFetchAll` |
| Transactions.ListTransactionsSinglePage | src/services/transactions-service.js:72-85 | without fetch-all, one GET `/v2/transactions` with `{after, limit, since, until}` as given and the bearer header; its resources come back exactly as received |
| Transactions.ListTransactionsFetchAll | src/services/transactions-service.js:21-41 | with fetch-all, every request has `limit = 500` with the caller's `after`, `since` and `until`, and follows the previous `next_uri`; a success is the pages concatenated in order |
| Transactions.TwoPagesOfTwoTransactions | src/services/transactions-service.js:21-41 | two pages of two transactions give the four transactions in order after two requests |
| Users.FirstWithEmail | src/services/users-service.js:84 | `find` stops at the first user whose `email` is `===` the argument; when there is none, no user matches |
| Users.HasEmail | src/services/users-service.js:84 | the `find` callback `user?.email === email`, read through optional chaining so a null or undefined user never matches; used by `Users.FirstWithEmail` |
| Users.AuthenticationBody | src/services/users-service.js:24-44 | the guards pass iff there is an identifier (external id or uuid), an email and a password, and a failure is a missing-parameter error. The body carries the email and the password, and the external id when it is truthy, the uuid otherwise |
| Users.AuthenticateUserRun | src/services/users-service.js:21-49 | a successful authentication had a truthy email and password |
| Users.FindUserUuid | src/services/users-service.js:84-86 | the lookup throws (a TypeError) exactly when the list is neither null, undefined nor an array |
| Users.GetUserIdByEmailRun | src/services/users-service.js:77-87 | at most one request; a falsy email sends nothing and uses no reply; a success had a truthy email, sent exactly one request and used exactly one reply |
| Users.UsersService.constructor | src/services/users-service.js:8-10 | the service keeps its client |
| Users.UsersService.AuthenticateUser | src/services/users-service.js:21-49 | `authenticateUser` changes the server exactly as `AuthenticateUserRun` describes |
| Users.UsersService.ListUsers | src/services/users-service.js:58-69 | `listUsers` changes the server exactly as `ListUsersRun` describes |
| Users.ListUsersRun | src/services/users-service.js:58-69 | `listUsers` as a run: one GET `/v2/users` with `{after, limit}`, no extra headers, returning `body.resources`; stated by `Users.ListUsersSinglePage` |
| Users.UsersService.GetUserIdByEmail | src/services/users-service.js:77-87 | `getUserIdByEmail` changes the server exactly as `GetUserIdByEmailRun` describes |
| Users.IdentifierCheckedFirst | src/services/users-service.js:24-28 | with neither an external id nor a uuid, the identifier error is raised, whatever the email and password, and nothing is sent |
| Users.CredentialsCheckedSecond | src/services/users-service.js:30-32 | with an identifier but a falsy email or password, the credentials error is raised and nothing is sent |
| Users.AuthenticatePostsOnce | src/services/users-service.js:24-48 | the guards pass iff there is an identifier, an email and a password; then exactly one POST `/v2/authenticate` with no params and no extra headers goes out, and its body is the result |
| Users.ExternalIdWins | src/services/users-service.js:34-39 | a truthy external id selects `{external_user_id, email, password}`; the uuid then plays no part in the run |
| Users.UuidBody | src/services/users-service.js:40-44 | without an external id the body is `{user_uuid, email, password}` |
| Users.ListUsersSinglePage | src/services/users-service.js:58-69 | one GET `/v2/users` with `{after, limit}` and no extra headers, returning that page's resources; no cursor is followed |
| Users.LookupNeedsEmail | src/services/users-service.js:78-80 | a falsy email fails with "Please provide an email" before any request |
| Users.LookupFindsFirstMatch | src/services/users-service.js:84-86 | the lookup returns the `uuid` of the first user with that email, or null when that user has none |
| Users.LookupWithoutMatch | src/services/users-service.js:84-86 | an absent list, an empty list, or a list without a match gives null |
| Users.LookupScansOnePage | src/services/users-service.js:82 | the lookup sends exactly one `listUsers()` request, with undefined `after` and `limit` |
| Exporter.Disk.constructor | src/helpers/json-exporter.js:82 | the file system starts with no file written |
| Exporter.Disk.Write | src/helpers/json-exporter.js:82-86 | a write sets the file at the path to the data, and leaves every other file as it was |
| Exporter.Project | src/helpers/json-exporter.js:33-44 | a projection throws exactly on null and undefined; otherwise it has exactly the listed keys, each holding the source's property |
| Exporter.ProjectAccount | src/helpers/json-exporter.js:33-44 | the account projection onto the ten fields `id` … `iban`, as `Exporter.Project` states; used by `Exporter.FormatItemProjects` |
| Exporter.ProjectTransaction | src/helpers/json-exporter.js:47-60 | the transaction projection onto the twelve fields `id` … `show_client_side`, as `Exporter.Project` states; used by `Exporter.FormatDataShape` |
| Exporter.FormatItem | src/helpers/json-exporter.js:31-45 | an item formats only when it is not null or undefined and its `accounts` is an array; every failure is a TypeError (`Exporter.FormatItemProjects` gives the whole iff) |
| Exporter.FormatToken | src/helpers/json-exporter.js:26-29 | the token block exists iff the token info is not null or undefined, and then has exactly the keys `value` (the access token) and `expires_at` (its expiry) |
| Exporter.FormatData | src/helpers/json-exporter.js:25-67 | a success needs token info and array items and transactions, and has exactly the three output keys; every failure is a TypeError |
| Exporter.ExportData | src/helpers/json-exporter.js:73-78 | export data exists iff the path is truthy and the data formats, and is then the formatted data; a falsy path gives "Required path is missing" |
| Exporter.JsonExporter.constructor | src/helpers/json-exporter.js:14-18 | the exporter keeps the token info, the items and the transactions |
| Exporter.JsonExporter.Export | src/helpers/json-exporter.js:73-87 | the path guard, then the formatting, then the write; it passes iff `ExportData` succeeds; a failure writes nothing |
| Exporter.FormatItemProjects | src/helpers/json-exporter.js:31-45 | an item formats iff it is not null or undefined and its `accounts` is an array without null or undefined entries. Every other field is kept, and the accounts keep their count and order, each projected onto exactly the ten account fields |
| Exporter.TokenBlock | src/helpers/json-exporter.js:26-29 | the token block is exactly `{value: tokenInfo.access_token, expires_at: tokenInfo.expires_at}`; a null or undefined token info throws |
| Exporter.FormatDataShape | src/helpers/json-exporter.js:25-67 | the output has exactly the keys `access_token`, `items` and `transactions`. Items and transactions keep their count and order; each transaction is projected onto exactly the twelve transaction fields |
| Exporter.FormatDataFails | src/helpers/json-exporter.js:25-67 | formatting succeeds iff the token info is present, the items and the transactions are arrays, every item formats, and no transaction is null or undefined |
| Exporter.ExportNeedsPath | src/helpers/json-exporter.js:74-76 | a falsy path fails with "Required path is missing", even for data that could not be formatted |
| Aggregator.AttachOne | src/helpers/generate-user-data.js:24-25 | one reduce callback changes the server exactly as `AttachOneRun` describes |
| Aggregator.AttachAccounts | src/helpers/generate-user-data.js:23-26 | the corrected join, one callback after the other, changes the server exactly as `AttachAccountsRun` describes |
| Aggregator.AttachOneRun | src/helpers/generate-user-data.js:24-25 | one reduce callback as a run; its requests are stated by `Aggregator.AttachOneSends` and its result by `Aggregator.AttachOneJoins` |
| Aggregator.WithAccounts | src/helpers/generate-user-data.js:25 | `{ ...item, accounts }`: the item's own properties with `accounts` set to the fetched list; `Aggregator.AttachOneJoins` and `Aggregator.AttachKeepsItems` state results in its terms |
| Aggregator.AttachAccountsRun | src/helpers/generate-user-data.js:23-26 | the corrected join, an order-preserving fold; its result and replies are stated by `Aggregator.AttachKeepsItems` |
| Aggregator.AsyncReduceRun | src/helpers/generate-user-data.js:23-26 | the reduce as written: a callback handed a promise, and so any run over two or more items, rejects |
| Aggregator.AttachAccountsAsWrittenRun | src/helpers/generate-user-data.js:23-26 | the reduce as written, started from `[]`: `AsyncReduceRun` on the initial array; stated by `Aggregator.AsWrittenFailsFromSecondItem`, `Aggregator.AsWrittenAgreesOnOneItem` and `Aggregator.TwoItemsAsWritten` |
| Aggregator.CollectRun | src/helpers/generate-user-data.js:18-33 | a success after authentication had a truthy path |
| Aggregator.ItemsStepRun | src/helpers/generate-user-data.js:21-33 | a success from the items stage on had a truthy path |
| Aggregator.AccountsStepRun | src/helpers/generate-user-data.js:23-33 | a success from the join on had a truthy path |
| Aggregator.TransactionsStepRun | src/helpers/generate-user-data.js:29-33 | a success of the last stage had a truthy path |
| Aggregator.GenerateUserDataRun | src/helpers/generate-user-data.js:13-34 | a successful run had a truthy email, password and path |
| Aggregator.FoldOfTwo | src/helpers/generate-user-data.js:23-26 | two items whose callbacks succeed in turn give both joined items, in order |
| Aggregator.FoldCons | src/helpers/generate-user-data.js:23-26 | a fold whose first callback succeeds is that item in front of the fold over the others, which starts where the first callback stopped |
| Aggregator.Collect | src/helpers/generate-user-data.js:18-33 | everything after authentication, with the corrected join, changes the server and the files exactly as `CollectRun` describes; a failure writes nothing |
| Aggregator.CollectItems | src/helpers/generate-user-data.js:21 | the items stage, followed by the rest, as `ItemsStepRun` describes |
| Aggregator.CollectAccounts | src/helpers/generate-user-data.js:23-26 | the corrected join stage, followed by the rest, as `AccountsStepRun` describes |
| Aggregator.CollectTransactions | src/helpers/generate-user-data.js:29-33 | the transactions page, then the export to the path, as `TransactionsStepRun` describes |
| Aggregator.GenerateUserData | src/helpers/generate-user-data.js:13-34 | the whole orchestration, with the corrected join, on one server shared by the four services changes the server and the files exactly as `GenerateUserDataRun` describes. The file at the path is written only on success, with the exported value; any earlier failure writes nothing |
| Aggregator.AttachOneSends | src/helpers/generate-user-data.js:24 | a null or undefined item fails before any request; otherwise the callback sends exactly the fetch-all of accounts for `item.id`, and every request has params `{item_id: item.id, after: undefined, limit: 500}` |
| Aggregator.AttachOneJoins | src/helpers/generate-user-data.js:24-25 | a successful callback read a complete cursor chain of account pages and returns `{...item, accounts}`: every own property of the item except `accounts`, plus `accounts` = the in-order concatenation of those pages' resources |
| Aggregator.AttachKeepsItems | src/helpers/generate-user-data.js:23-26 | a successful join keeps every item, in order. Item `j` is exactly what callback `j` returned, run on the replies the callbacks before it left: the item joined with the accounts of its own complete cursor chain, every request naming that item. The join stops where the last callback stopped |
| Aggregator.AttachRequestsNameItems | src/helpers/generate-user-data.js:23-26 | every request of the join is an accounts request naming one of the items |
| Aggregator.PromiseAccumulatorFails | src/helpers/generate-user-data.js:23-26 | a callback handed a promise rejects. When every callback's own work succeeds, the run sends what the corrected join sends and ends in the TypeError of spreading the promise |
| Aggregator.AsWrittenAgreesOnOneItem | src/helpers/generate-user-data.js:23-26 | with at most one item the reduce as written and the corrected join agree on the result, the requests and the replies used |
| Aggregator.AsWrittenFailsFromSecondItem | src/helpers/generate-user-data.js:23-26 | with two or more items the reduce as written always rejects. When the corrected join succeeds, it rejects with a TypeError after the same requests |
| Aggregator.EmptyAccountsPage | src/helpers/generate-user-data.js:24-25 | an item `{id}` whose accounts come back as one empty page without pagination becomes `{id, accounts: []}` after one reply |
| Aggregator.TwoItemsAsWritten | src/helpers/generate-user-data.js:23-26 | for items `{id: 1}` and `{id: 2}` with empty account pages, the corrected join returns both items with `accounts: []`; the reduce as written gives a TypeError |
| Aggregator.GenerateNeedsEmail | src/helpers/generate-user-data.js:15 | a falsy email stops the run with "Please provide an email" before any request |
| Aggregator.UnknownUserStopsAtAuthentication | src/helpers/generate-user-data.js:15-17 | when the lookup finds no uuid, authentication raises the identifier error, and nothing is sent after the users request |
| Aggregator.AuthenticatesWithFoundUuid | src/helpers/generate-user-data.js:15-17 | right after the users request comes one POST `/v2/authenticate` whose body is the found uuid with the same email and password |
| Aggregator.LatestTwoTransactions | src/helpers/generate-user-data.js:29 | the last stage sends exactly one GET `/v2/transactions` with `limit = 2`, no cursor, no date window, and the bearer header for the access token |
| Aggregator.ItemsFetchedFirst | src/helpers/generate-user-data.js:18-21 | the requests of the fetch-all of items come first, each with `limit = 500` and no `after` |
| Aggregator.AccountsStepExports | src/helpers/generate-user-data.js:23-33 | after the join, a success has a truthy path, exactly the three output keys and the token block of the token info. Exported item `i` is given item `i` joined with the accounts its own callback fetched, then formatted: other properties kept, each account projected onto the ten account fields with its values. The transactions are the page read after the last callback, one for one and in order, each projected onto the twelve transaction fields with its values |
| Aggregator.CollectExportsEveryItem | src/helpers/generate-user-data.js:18-33 | after authentication, a success exports every item fetched with `tokenInfo.access_token`, in order, each joined with the accounts its own callback fetched and formatted, plus the transactions page read after the last callback, projected field by field, under the three output keys |

## Left out

- Request sending (superagent). The server is a script of replies. URL query serialisation is not modelled, so an undefined parameter stays in the params map rather than being dropped from the query string.
- `JSON.stringify` and the file-write callback in `export`. The file system is a map from path to exported value, and serialisation is not modelled.
- Concurrency. The reduce callbacks run one after the other; the interleaving of their requests and the rejections nobody awaits are not modelled.
- src/app.js is not part of this model. It is environment loading and process start-up.
- Js.Text: number text is plain decimal, which matches JavaScript only for magnitudes below 10^21 (above that JavaScript uses exponent form such as "1e+21"). Every object converts to "[object Object]"; an object with its own non-callable `toString` key, for which `String(v)` throws a TypeError, is not modelled.
- Js.NatText: the digits it gives for 10^21 and above are not JavaScript's exponent form; tokens, cursors and base URLs are strings in practice.
- Js.NumText: the same exponent-form gap for magnitudes of 10^21 and above.
- Js.Json: numbers are integers. No arithmetic is done on them; floating-point balances are opaque payload.
- Js.ObjectSpread: `{...v}` of a string or an array copies nothing, instead of copying index keys. The orchestration only spreads parsed items.
- Js.StrictEquals: two objects are never equal, because object identity is not modelled.
- Fetch.FetchAll: a request the script has no reply for ends the run with `Unanswered`. That is an artefact of a finite script; the real loop would wait on the network.
- `fetchAll` is a boolean in the model. Only its truthiness is read, and every caller passes `true` or leaves it out.
- The RangeError a spread of a huge array can raise is not modelled.
- The key order of JSON objects is not modelled; objects are maps.
- Errors carry their message as a string; the `Error`/`MissingRequiredHeaders` class hierarchy is not modelled.
- Aggregator.GenerateUserData / Aggregator.AttachAccounts: these compose the corrected join (`AttachAccountsRun`), not the reduce as written. That reduce rejects from the second item on (see Findings); its run is `AttachAccountsAsWrittenRun`.
- Aggregator.GenerateUserData: requires that the four services share one server. That is how the program is deployed; requests are logged in one order.
- The server-side meaning of `after`, `since` and `until` is the remote API's, not this client's.

## Findings

| source | as written | input that shows it | evidently intended | confidence | as-written member | corrected member |
|---|---|---|---|---|---|---|
| src/helpers/generate-user-data.js:23-26 | `itemsList.reduce(async (items, item) => [...items, {...item, accounts}], [])`: from the second callback on, the accumulator is the previous callback's promise, and `[...items, …]` throws a TypeError | two items `{id: 1}` and `{id: 2}`, each with an empty page of accounts (`Aggregator.TwoItemsAsWritten`) | an order-preserving fold that awaits the accumulator and returns every item with its accounts | not executed | `Aggregator.AttachAccountsAsWrittenRun`, with `Aggregator.AsWrittenFailsFromSecondItem` and `Aggregator.TwoItemsAsWritten` | `Aggregator.AttachAccountsRun`, with `Aggregator.AttachKeepsItems` and `Aggregator.AsWrittenAgreesOnOneItem` |
