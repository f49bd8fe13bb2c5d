/** The users service: authentication (POST /v2/authenticate), a single
    page of users (GET /v2/users) and the lookup of a user's uuid by email. */
module Users {
  import opened Js
  import opened Http

  const AuthenticateEndpoint: Json := Str("/v2/authenticate")
  const UsersEndpoint: Json := Str("/v2/users")

  const MissingIdentifierMessage: string := "Please provide either externalUserId or userUUID of the user"
  const MissingCredentialsMessage: string := "Please provide email and password of the user"
  const MissingEmailMessage: string := "Please provide an email"

  datatype Option<T> = None | Some(value: T)

  /** The options of `authenticateUser`; an option left out is undefined. */
  datatype Credentials = Credentials(externalUserId: Json, uuid: Json, email: Json, password: Json)

  /** The two guards of `authenticateUser`, then the request body: keyed
      by the external id when there is one, by the uuid otherwise. */
  function AuthenticationBody(k: Credentials): (r: Result<Json>)
    ensures r.Ok? <==> (Truthy(k.externalUserId) || Truthy(k.uuid)) && Truthy(k.email) && Truthy(k.password)
    ensures r.Ok? ==> Field(r.value, "email") == k.email && Field(r.value, "password") == k.password
    ensures r.Ok? && Truthy(k.externalUserId) ==> Field(r.value, "external_user_id") == k.externalUserId
    ensures r.Ok? && !Truthy(k.externalUserId) ==> Field(r.value, "user_uuid") == k.uuid
    ensures r.Err? ==> r.error.MissingParameter?
  {
    if !Truthy(k.externalUserId) && !Truthy(k.uuid) then Err(MissingParameter(MissingIdentifierMessage))
    else if !Truthy(k.email) || !Truthy(k.password) then Err(MissingParameter(MissingCredentialsMessage))
    else if Truthy(k.externalUserId) then
      Ok(Obj(map["external_user_id" := k.externalUserId, "email" := k.email, "password" := k.password]))
    else
      Ok(Obj(map["user_uuid" := k.uuid, "email" := k.email, "password" := k.password]))
  }

  /** `authenticateUser`: no query params, no extra headers; the result is
      the response body as received. */
  function AuthenticateUserRun(c: HttpClient, k: Credentials, script: seq<Reply>): (run: Run<Json>)
    ensures run.result.Ok? ==> Truthy(k.email) && Truthy(k.password)
  {
    match AuthenticationBody(k)
    case Err(e) => Run(Err(e), [], script)
    case Ok(body) => PostRun(c, AuthenticateEndpoint, map[], map[], body, script)
  }

  /** `listUsers`: one page with `{after, limit}` as given. */
  function ListUsersRun(c: HttpClient, after: Json, limit: Json, script: seq<Reply>): Run<Json> {
    var step := GetRun(c, UsersEndpoint, map["after" := after, "limit" := limit], map[], script);
    Run(match step.result case Ok(body) => Member(body, "resources") case Err(e) => Err(e), step.sent, step.rest)
  }

  /** The test of the `find` callback: `user?.email === email`. */
  predicate HasEmail(user: Json, email: Json) {
    StrictEquals(OptMember(user, "email"), email)
  }

  /** The index `Array.prototype.find` stops at. */
  function FirstWithEmail(users: seq<Json>, email: Json): (r: Option<nat>)
    ensures r.Some? ==>
      && r.value < |users| && HasEmail(users[r.value], email)
      && (forall i :: 0 <= i < r.value ==> !HasEmail(users[i], email))
    ensures r.None? ==> forall i :: 0 <= i < |users| ==> !HasEmail(users[i], email)
  {
    if users == [] then None
    else if HasEmail(users[0], email) then Some(0)
    else match FirstWithEmail(users[1..], email)
      case None => None
      case Some(i) => Some(i + 1)
  }

  /** `usersList?.find(...)` followed by `user?.uuid ?? null`: an absent
      list gives null, a value that is neither absent nor an array has no
      `find` and throws. */
  function FindUserUuid(usersList: Json, email: Json): (r: Result<Json>)
    ensures r.Err? <==> !Nullish(usersList) && !usersList.Arr?
    ensures r.Err? ==> r.error == TypeError
  {
    if Nullish(usersList) then Ok(Null)
    else if !usersList.Arr? then Err(TypeError)
    else match FirstWithEmail(usersList.elems, email)
      case None => Ok(Null)
      case Some(i) => Ok(Coalesce(OptMember(usersList.elems[i], "uuid"), Null))
  }

  /** `getUserIdByEmail`: the email guard, then `listUsers()` with no
      options, then the lookup. */
  function GetUserIdByEmailRun(c: HttpClient, email: Json, script: seq<Reply>): (run: Run<Json>)
    ensures |run.sent| <= 1
    ensures !Truthy(email) ==> run.sent == [] && run.rest == script
    ensures run.result.Ok? ==> Truthy(email) && |run.sent| == 1 && script != [] && run.rest == script[1..]
  {
    if !Truthy(email) then Run(Err(MissingParameter(MissingEmailMessage)), [], script)
    else
      var list := ListUsersRun(c, Undefined, Undefined, script);
      Run(match list.result case Ok(users) => FindUserUuid(users, email) case Err(e) => Err(e), list.sent, list.rest)
  }

  class UsersService {
    const httpClient: HttpClient

    constructor (httpClient: HttpClient)
      ensures this.httpClient == httpClient
    {
      this.httpClient := httpClient;
    }

    method AuthenticateUser(k: Credentials) returns (r: Result<Json>)
      modifies httpClient.server
      ensures var run := AuthenticateUserRun(httpClient, k, old(httpClient.server.script));
        r == run.result && httpClient.server.received == old(httpClient.server.received) + run.sent
        && httpClient.server.script == run.rest
    {
      if !Truthy(k.externalUserId) && !Truthy(k.uuid) {
        return Err(MissingParameter(MissingIdentifierMessage));
      }
      if !Truthy(k.email) || !Truthy(k.password) {
        return Err(MissingParameter(MissingCredentialsMessage));
      }
      var requestBody := if Truthy(k.externalUserId)
        then Obj(map["external_user_id" := k.externalUserId, "email" := k.email, "password" := k.password])
        else Obj(map["user_uuid" := k.uuid, "email" := k.email, "password" := k.password]);
      r := httpClient.Post(AuthenticateEndpoint, map[], map[], requestBody);
    }

    method ListUsers(after: Json, limit: Json) returns (r: Result<Json>)
      modifies httpClient.server
      ensures var run := ListUsersRun(httpClient, after, limit, old(httpClient.server.script));
        r == run.result && httpClient.server.received == old(httpClient.server.received) + run.sent
        && httpClient.server.script == run.rest
    {
      var response := httpClient.Get(UsersEndpoint, map["after" := after, "limit" := limit], map[]);
      return match response case Ok(body) => Member(body, "resources") case Err(e) => Err(e);
    }

    method GetUserIdByEmail(email: Json) returns (r: Result<Json>)
      modifies httpClient.server
      ensures var run := GetUserIdByEmailRun(httpClient, email, old(httpClient.server.script));
        r == run.result && httpClient.server.received == old(httpClient.server.received) + run.sent
        && httpClient.server.script == run.rest
    {
      if !Truthy(email) {
        return Err(MissingParameter(MissingEmailMessage));
      }
      var usersList := ListUsers(Undefined, Undefined);
      return match usersList case Ok(users) => FindUserUuid(users, email) case Err(e) => Err(e);
    }
  }

  /** With neither identifier the identifier error is raised, whatever the
      email and password, and nothing is sent. */
  lemma IdentifierCheckedFirst(c: HttpClient, k: Credentials, script: seq<Reply>)
    requires !Truthy(k.externalUserId) && !Truthy(k.uuid)
    ensures AuthenticateUserRun(c, k, script)
      == Run(Err(MissingParameter("Please provide either externalUserId or userUUID of the user")), [], script)
  {
  }

  /** With an identifier but a falsy email or password nothing is sent and
      the credentials error is raised. */
  lemma CredentialsCheckedSecond(c: HttpClient, k: Credentials, script: seq<Reply>)
    requires Truthy(k.externalUserId) || Truthy(k.uuid)
    requires !Truthy(k.email) || !Truthy(k.password)
    ensures AuthenticateUserRun(c, k, script)
      == Run(Err(MissingParameter("Please provide email and password of the user")), [], script)
  {
  }

  /** The guards pass exactly when there is an identifier, an email and a
      password; then exactly one POST /v2/authenticate goes out (credentials
      permitting) and its body is returned unchanged. */
  lemma AuthenticatePostsOnce(c: HttpClient, k: Credentials, script: seq<Reply>)
    ensures AuthenticationBody(k).Ok? <==>
      (Truthy(k.externalUserId) || Truthy(k.uuid)) && Truthy(k.email) && Truthy(k.password)
    ensures var run := AuthenticateUserRun(c, k, script);
      AuthenticationBody(k).Ok? && CredentialsPresent(c) ==>
        run.sent == [RequestFor(c, POST, AuthenticateEndpoint, map[], map[], AuthenticationBody(k).value)]
        && run.result == Answer(script) && run.rest == Tail(script)
  {
    if AuthenticationBody(k).Ok? {
      SendChecksCredentialsFirst(c, POST, AuthenticateEndpoint, map[], map[], AuthenticationBody(k).value, script);
    }
  }

  /** A truthy external id selects the `external_user_id` body, and the uuid
      then plays no part at all in the run. */
  lemma ExternalIdWins(c: HttpClient, k: Credentials, otherUuid: Json, script: seq<Reply>)
    requires Truthy(k.externalUserId) && Truthy(k.email) && Truthy(k.password)
    ensures AuthenticationBody(k)
      == Ok(Obj(map["external_user_id" := k.externalUserId, "email" := k.email, "password" := k.password]))
    ensures "user_uuid" !in AuthenticationBody(k).value.fields
    ensures AuthenticateUserRun(c, k, script) == AuthenticateUserRun(c, k.(uuid := otherUuid), script)
  {
  }

  /** Without an external id the body carries the uuid instead. */
  lemma UuidBody(k: Credentials)
    requires !Truthy(k.externalUserId) && Truthy(k.uuid) && Truthy(k.email) && Truthy(k.password)
    ensures AuthenticationBody(k) == Ok(Obj(map["user_uuid" := k.uuid, "email" := k.email, "password" := k.password]))
    ensures "external_user_id" !in AuthenticationBody(k).value.fields
  {
  }

  /** `listUsers` is one GET /v2/users with `{after, limit}` and no extra
      headers, returning that page's resources; no cursor is followed. */
  lemma ListUsersSinglePage(c: HttpClient, after: Json, limit: Json, script: seq<Reply>)
    requires CredentialsPresent(c)
    ensures var run := ListUsersRun(c, after, limit, script);
      && run.sent == [Request(GET, Text(c.baseUrl) + "/v2/users", map["after" := after, "limit" := limit],
                              MergeHeaders(map[], c.clientId, c.clientSecret, c.bridgeVersion), Undefined)]
      && run.rest == Tail(script)
      && run.result == match Answer(script) case Ok(body) => Member(body, "resources") case Err(e) => Err(e)
  {
    SendChecksCredentialsFirst(c, GET, UsersEndpoint, map["after" := after, "limit" := limit], map[], Undefined, script);
  }

  /** A falsy email is refused before any request. */
  lemma LookupNeedsEmail(c: HttpClient, email: Json, script: seq<Reply>)
    requires !Truthy(email)
    ensures GetUserIdByEmailRun(c, email, script) == Run(Err(MissingParameter("Please provide an email")), [], script)
  {
  }

  /** On a list of users the lookup returns the uuid of the first user whose
      email is strictly equal to the argument (null if that user has none),
      and null when no user has it. */
  lemma LookupFindsFirstMatch(users: seq<Json>, email: Json, i: nat)
    requires i < |users| && HasEmail(users[i], email)
    requires forall j :: 0 <= j < i ==> !HasEmail(users[j], email)
    ensures FindUserUuid(Arr(users), email) == Ok(Coalesce(OptMember(users[i], "uuid"), Null))
  {
  }

  /** No match, an empty list or an absent list all give null. */
  lemma LookupWithoutMatch(usersList: Json, email: Json)
    requires Nullish(usersList) || (usersList.Arr? && forall j :: 0 <= j < |usersList.elems| ==> !HasEmail(usersList.elems[j], email))
    ensures FindUserUuid(usersList, email) == Ok(Null)
  {
  }

  /** The lookup reads only the first page of users: it sends exactly the
      one `listUsers()` request, with undefined `after` and `limit`. */
  lemma LookupScansOnePage(c: HttpClient, email: Json, script: seq<Reply>)
    requires Truthy(email) && CredentialsPresent(c)
    ensures var run := GetUserIdByEmailRun(c, email, script);
      run.sent == [RequestFor(c, GET, UsersEndpoint, map["after" := Undefined, "limit" := Undefined], map[], Undefined)]
      && run.rest == Tail(script)
  {
    ListUsersSinglePage(c, Undefined, Undefined, script);
  }
}
