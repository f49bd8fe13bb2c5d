/** The authenticated HTTP client: the credential-header check, the header
    merge and the URL it targets. The network behind it is a scripted
    server that records every request it receives and answers them, in
    order, from a fixed list of replies. */
module Http {
  import opened Js

  datatype Verb = GET | POST

  /** One request as it leaves the client (query parameters before
      serialisation, headers after the credential merge). */
  datatype Request = Request(verb: Verb, url: string, params: map<string, Json>,
                             headers: map<string, Json>, body: Json)

  /** What the remote API answers to one request. */
  datatype Reply = Response(body: Json) | Failure(status: int)

  /** One run of an operation against a script of replies: its result, the
      requests it sent in order, and the replies left over. */
  datatype Run<T> = Run(result: Result<T>, sent: seq<Request>, rest: seq<Reply>)

  /** Requests sent in two batches after `earlier`, listed as one batch. */
  lemma SentInOrder(earlier: seq<Request>, first: seq<Request>, second: seq<Request>)
    ensures earlier + first + second == earlier + (first + second)
  {
  }

  /** How the client sees the next reply of a script. */
  function Answer(script: seq<Reply>): Result<Json> {
    if script == [] then Err(Unanswered)
    else match script[0]
      case Response(b) => Ok(b)
      case Failure(s) => Err(TransportError(s))
  }

  function Tail(script: seq<Reply>): seq<Reply> {
    if script == [] then [] else script[1..]
  }

  /** The remote API. */
  class Server {
    var received: seq<Request>
    var script: seq<Reply>

    constructor (script: seq<Reply>)
      ensures received == [] && this.script == script
    {
      received := [];
      this.script := script;
    }

    method Respond(req: Request) returns (r: Result<Json>)
      modifies this
      ensures received == old(received) + [req]
      ensures r == Answer(old(script)) && script == Tail(old(script))
    {
      received := received + [req];
      r := Answer(script);
      script := Tail(script);
    }
  }

  const CredentialHeaders: seq<string> := ["Client-Id", "Client-Secret", "Bridge-Version"]

  const MissingHeadersPrefix: string := "The following required headers are missing: "

  /** Position of a credential header in the order the check tests them. */
  function HeaderRank(name: string): nat {
    if name == "Client-Id" then 0 else if name == "Client-Secret" then 1 else 2
  }

  /** The names of the credential headers whose value is falsy, in the
      order Client-Id, Client-Secret, Bridge-Version. */
  function MissingHeaderNames(clientId: Json, clientSecret: Json, bridgeVersion: Json): (names: seq<string>)
    ensures "Client-Id" in names <==> !Truthy(clientId)
    ensures "Client-Secret" in names <==> !Truthy(clientSecret)
    ensures "Bridge-Version" in names <==> !Truthy(bridgeVersion)
    ensures forall n :: n in names ==> n in CredentialHeaders
    ensures forall i, j :: 0 <= i < j < |names| ==> HeaderRank(names[i]) < HeaderRank(names[j])
  {
    (if Truthy(clientId) then [] else ["Client-Id"])
    + (if Truthy(clientSecret) then [] else ["Client-Secret"])
    + (if Truthy(bridgeVersion) then [] else ["Bridge-Version"])
  }

  /** The outcome of the credential check for the three credential values. */
  function HeadersCheck(clientId: Json, clientSecret: Json, bridgeVersion: Json): (r: Outcome)
    ensures r.Pass? <==> Truthy(clientId) && Truthy(clientSecret) && Truthy(bridgeVersion)
    ensures r.Fail? ==> r.error == MissingRequiredHeaders(
      MissingHeadersPrefix + Join(MissingHeaderNames(clientId, clientSecret, bridgeVersion), ", "))
  {
    var missing := MissingHeaderNames(clientId, clientSecret, bridgeVersion);
    if |missing| > 0 then Fail(MissingRequiredHeaders(MissingHeadersPrefix + Join(missing, ", ")))
    else Pass
  }

  /** `{...headers, "Client-Id": .., "Client-Secret": .., "Bridge-Version": ..}`:
      the credentials override caller headers of the same name. */
  function MergeHeaders(headers: map<string, Json>, clientId: Json, clientSecret: Json, bridgeVersion: Json)
    : (merged: map<string, Json>)
    ensures merged.Keys == headers.Keys + {"Client-Id", "Client-Secret", "Bridge-Version"}
    ensures merged["Client-Id"] == clientId && merged["Client-Secret"] == clientSecret
    ensures merged["Bridge-Version"] == bridgeVersion
    ensures forall k :: k in headers && k !in CredentialHeaders ==> merged[k] == headers[k]
  {
    headers["Client-Id" := clientId]["Client-Secret" := clientSecret]["Bridge-Version" := bridgeVersion]
  }

  class HttpClient {
    const baseUrl: Json
    const clientId: Json
    const clientSecret: Json
    const bridgeVersion: Json
    /** The network the requests go out to. */
    const server: Server

    constructor (baseUrl: Json, clientId: Json, clientSecret: Json, bridgeVersion: Json, server: Server)
      ensures this.baseUrl == baseUrl && this.clientId == clientId
      ensures this.clientSecret == clientSecret && this.bridgeVersion == bridgeVersion
      ensures this.server == server
    {
      this.baseUrl := baseUrl;
      this.clientId := clientId;
      this.clientSecret := clientSecret;
      this.bridgeVersion := bridgeVersion;
      this.server := server;
    }

    /** Collects the missing credential headers one by one and fails with
        all of them in one message. */
    method CheckAuthenticationHeaders() returns (r: Outcome)
      ensures r == HeadersCheck(clientId, clientSecret, bridgeVersion)
    {
      var missing: seq<string> := [];
      if !Truthy(clientId) { missing := missing + ["Client-Id"]; }
      if !Truthy(clientSecret) { missing := missing + ["Client-Secret"]; }
      if !Truthy(bridgeVersion) { missing := missing + ["Bridge-Version"]; }
      assert missing == MissingHeaderNames(clientId, clientSecret, bridgeVersion);
      if |missing| > 0 {
        return Fail(MissingRequiredHeaders(MissingHeadersPrefix + Join(missing, ", ")));
      }
      return Pass;
    }

    method Post(endpoint: Json, params: map<string, Json>, headers: map<string, Json>, requestBody: Json)
      returns (r: Result<Json>)
      modifies server
      ensures var run := PostRun(this, endpoint, params, headers, requestBody, old(server.script));
        r == run.result && server.received == old(server.received) + run.sent && server.script == run.rest
    {
      r := Dispatch(POST, endpoint, params, headers, requestBody);
    }

    /** A GET; no caller passes a request body, so it is always undefined. */
    method Get(endpoint: Json, params: map<string, Json>, headers: map<string, Json>)
      returns (r: Result<Json>)
      modifies server
      ensures var run := GetRun(this, endpoint, params, headers, old(server.script));
        r == run.result && server.received == old(server.received) + run.sent && server.script == run.rest
    {
      r := Dispatch(GET, endpoint, params, headers, Undefined);
    }

    /** Builds the URL, runs the credential check, then sends. */
    method Dispatch(verb: Verb, endpoint: Json, params: map<string, Json>, headers: map<string, Json>, requestBody: Json)
      returns (r: Result<Json>)
      modifies server
      ensures var run := SendRun(this, verb, endpoint, params, headers, requestBody, old(server.script));
        r == run.result && server.received == old(server.received) + run.sent && server.script == run.rest
    {
      var url := Text(baseUrl) + Text(endpoint);
      var check := CheckAuthenticationHeaders();
      if check.Fail? {
        return Err(check.error);
      }
      r := server.Respond(Request(verb, url, params, MergeHeaders(headers, clientId, clientSecret, bridgeVersion), requestBody));
    }
  }

  /** The request a client sends for an endpoint, or nothing when the
      credential check fails. */
  function SendRun(c: HttpClient, verb: Verb, endpoint: Json, params: map<string, Json>,
                   headers: map<string, Json>, body: Json, script: seq<Reply>): (run: Run<Json>)
    ensures run.rest == script || (script != [] && run.rest == script[1..])
    ensures run.result.Ok? ==> script != [] && run.rest == script[1..] && |run.sent| == 1
    ensures |run.sent| <= 1
  {
    match HeadersCheck(c.clientId, c.clientSecret, c.bridgeVersion)
    case Fail(e) => Run(Err(e), [], script)
    case Pass =>
      var req := Request(verb, Text(c.baseUrl) + Text(endpoint), params,
                         MergeHeaders(headers, c.clientId, c.clientSecret, c.bridgeVersion), body);
      Run(Answer(script), [req], Tail(script))
  }

  function GetRun(c: HttpClient, endpoint: Json, params: map<string, Json>,
                  headers: map<string, Json>, script: seq<Reply>): (run: Run<Json>)
    ensures run.rest == script || (script != [] && run.rest == script[1..])
    ensures run.result.Ok? ==> script != [] && run.rest == script[1..] && |run.sent| == 1
    ensures |run.sent| <= 1
  {
    SendRun(c, GET, endpoint, params, headers, Undefined, script)
  }

  function PostRun(c: HttpClient, endpoint: Json, params: map<string, Json>,
                   headers: map<string, Json>, body: Json, script: seq<Reply>): (run: Run<Json>)
    ensures run.rest == script || (script != [] && run.rest == script[1..])
    ensures run.result.Ok? ==> script != [] && run.rest == script[1..] && |run.sent| == 1
    ensures |run.sent| <= 1
  {
    SendRun(c, POST, endpoint, params, headers, body, script)
  }

  /** The request `c` sends for `verb`, `endpoint`, `params`, `headers` and `body`. */
  function RequestFor(c: HttpClient, verb: Verb, endpoint: Json, params: map<string, Json>,
                      headers: map<string, Json>, body: Json): Request {
    Request(verb, Text(c.baseUrl) + Text(endpoint), params,
            MergeHeaders(headers, c.clientId, c.clientSecret, c.bridgeVersion), body)
  }

  predicate CredentialsPresent(c: HttpClient) {
    Truthy(c.clientId) && Truthy(c.clientSecret) && Truthy(c.bridgeVersion)
  }

  /** The credential check runs before dispatch: with a credential missing
      nothing is sent and no reply is used; otherwise exactly one request goes
      to base URL + endpoint with the merged headers, and its reply is the
      result. */
  lemma SendChecksCredentialsFirst(c: HttpClient, verb: Verb, endpoint: Json, params: map<string, Json>,
                                   headers: map<string, Json>, body: Json, script: seq<Reply>)
    ensures var run := SendRun(c, verb, endpoint, params, headers, body, script);
      if CredentialsPresent(c) then
        run.sent == [RequestFor(c, verb, endpoint, params, headers, body)]
        && run.result == Answer(script) && run.rest == Tail(script)
      else
        run.sent == [] && run.rest == script
        && run.result == Err(MissingRequiredHeaders(MissingHeadersPrefix
             + Join(MissingHeaderNames(c.clientId, c.clientSecret, c.bridgeVersion), ", ")))
  {
  }

  /** The example of a client built with only its secret: the message names
      the two missing headers in check order. */
  lemma MissingIdAndVersionMessage(secret: Json)
    requires Truthy(secret)
    ensures HeadersCheck(Undefined, secret, Undefined)
      == Fail(MissingRequiredHeaders(MissingHeadersPrefix + "Client-Id, Bridge-Version"))
  {
    assert MissingHeaderNames(Undefined, secret, Undefined) == ["Client-Id", "Bridge-Version"];
    JoinTwo("Client-Id", "Bridge-Version");
    IdAndVersionText();
  }

  lemma IdAndVersionText()
    ensures "Client-Id" + ", " + "Bridge-Version" == "Client-Id, Bridge-Version"
  {
  }

  lemma JoinTwo(first: string, second: string)
    ensures Join([first, second], ", ") == first + ", " + second
  {
    assert [first, second][1..] == [second];
  }
}
