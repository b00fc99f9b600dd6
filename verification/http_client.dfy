/** The synchronous HTTP client: construction with the credential check, the
    bearer-token cache with its credential exchange, and `_make_request`,
    which merges headers, dispatches exactly one request and classifies the
    response.

    The client is a value: its configuration, the cached token and the log
    of every request it has put on the wire. The transport is a parameter,
    `server`, that answers the n-th request sent by this client; this keeps
    the model free of I/O while letting a server answer differently over
    time. */
module HttpClient {
  import opened Outcomes
  import opened Json
  import opened Errors
  import opened Classifier
  import opened Query

  datatype Config = Config(
    baseUrl: string,
    clientId: Option<string>,
    clientSecret: Option<string>,
    timeout: real,
    maxRetries: int,
    logRequests: bool,
    logDir: string)

  /** The configuration's defaults, before any environment variable. */
  const DefaultConfig: Config :=
    Config("https://api.alternatives.pe", None, None, 30.0, 3, false, "altpe-logs")

  datatype Body = NoBody | Form(fields: map<string, string>) | JsonBody(json: Json)

  datatype Request = Request(
    verb: string,
    url: string,
    params: Option<Params>,
    body: Body,
    headers: map<string, string>)

  /** One entry of the client's wire log. */
  datatype Sent = TokenExchange(req: Request) | ApiCall(req: Request)

  /** The remote side: the response to the n-th request this client sends. */
  type Server = (nat, Request) -> Response

  datatype Client = Client(config: Config, token: Option<string>, sent: seq<Sent>)

  /** What the constructor guarantees for the client's lifetime. */
  predicate Valid(c: Client) {
    Truthy(c.config.clientId) && Truthy(c.config.clientSecret)
  }

  const CredentialsMissing: string := "client_id and client_secret must be provided"

  /** `BaseHTTPClient.__init__`: an explicit credential replaces the
      configured one only when it is non-empty; both effective credentials
      must then be non-empty. */
  function NewClient(config: Config, clientId: Option<string>, clientSecret: Option<string>): (r: Result<Client, Raised>)
    ensures r.Ok? <==>
      (Truthy(clientId) || Truthy(config.clientId)) && (Truthy(clientSecret) || Truthy(config.clientSecret))
    ensures r.Err? ==> r.error == ValueError(CredentialsMissing)
    ensures r.Ok? ==> Valid(r.value) && r.value.token.None? && r.value.sent == []
    ensures r.Ok? ==> r.value.config.clientId == (if Truthy(clientId) then clientId else config.clientId)
    ensures r.Ok? ==> r.value.config.clientSecret == (if Truthy(clientSecret) then clientSecret else config.clientSecret)
    ensures r.Ok? ==> r.value.config.(clientId := config.clientId, clientSecret := config.clientSecret) == config
  {
    var c1 := if Truthy(clientId) then config.(clientId := clientId) else config;
    var c2 := if Truthy(clientSecret) then c1.(clientSecret := clientSecret) else c1;
    if !Truthy(c2.clientId) || !Truthy(c2.clientSecret) then Err(ValueError(CredentialsMissing))
    else Ok(Client(c2, None, []))
  }

  // ----- token cache ----------------------------------------------------

  const TokenUrl: string := "/api/v2/oauth/token"

  /** The credential exchange: a form-encoded POST of both credentials. */
  function TokenRequest(c: Client): Request
    requires Valid(c)
  {
    Request("POST", TokenUrl, None,
      Form(map["client_id" := c.config.clientId.value, "client_secret" := c.config.clientSecret.value]),
      map["Content-Type" := "application/x-www-form-urlencoded"])
  }

  /** `TokenResponse(**response.json())`: an object with a string `token`. */
  function ParseToken(j: Option<Json>): (r: Option<string>)
    ensures r.Some? <==> j.Some? && j.value.JObj? && Lookup(j.value.fields, "token").Some? && Lookup(j.value.fields, "token").value.JStr?
    ensures r.Some? ==> Lookup(j.value.fields, "token") == Some(JStr(r.value))
  {
    if j.None? || !j.value.JObj? then None
    else
      var t := Lookup(j.value.fields, "token");
      if t.Some? && t.value.JStr? then Some(t.value.s) else None
  }

  const InvalidCredentials: string := "Invalid client credentials"
  const AuthFailedPrefix: string := "Authentication failed: "

  datatype TokenStep = TokenStep(client: Client, result: Result<string, Raised>)

  /** `_get_token`. In this sequential model the check made before taking the
      lock and the one made after it see the same cache, so they are one. */
  function GetToken(c: Client, server: Server): (s: TokenStep)
    requires Valid(c)
    ensures Valid(s.client) && s.client.config == c.config
    // a usable cached token is returned without touching the wire
    ensures Truthy(c.token) ==> s.client == c && s.result == Ok(c.token.value)
    // otherwise exactly one exchange is sent
    ensures !Truthy(c.token) ==> s.client.sent == c.sent + [TokenExchange(TokenRequest(c))]
    // a token that is returned is the one now cached
    ensures s.result.Ok? ==> s.client.token == Some(s.result.value)
    // a failed exchange leaves the cache as it was
    ensures s.result.Err? ==> s.client.token == c.token
    ensures !Truthy(c.token) ==>
      var resp := server(|c.sent|, TokenRequest(c));
      && (s.result.Ok? <==> resp.status == 200 && ParseToken(resp.json).Some?)
      && (s.result.Ok? ==> s.result.value == ParseToken(resp.json).value)
      && (resp.status == 200 && s.result.Err? ==> s.result.error == DecodeError)
      && (resp.status == 422 ==>
            s.result == Err(AltPE(NewError(Authentication, InvalidCredentials, None))))
      && (resp.status != 200 && resp.status != 422 ==>
            s.result == Err(AltPE(NewError(Authentication, AuthFailedPrefix + resp.text, None))))
  {
    if Truthy(c.token) then TokenStep(c, Ok(c.token.value))
    else
      var req := TokenRequest(c);
      var resp := server(|c.sent|, req);
      var c1 := c.(sent := c.sent + [TokenExchange(req)]);
      if resp.status == 200 then
        match ParseToken(resp.json)
        case Some(t) => TokenStep(c1.(token := Some(t)), Ok(t))
        case None => TokenStep(c1, Err(DecodeError))
      else if resp.status == 422 then
        TokenStep(c1, Err(AltPE(NewError(Authentication, InvalidCredentials, None))))
      else
        TokenStep(c1, Err(AltPE(NewError(Authentication, AuthFailedPrefix + resp.text, None))))
  }

  /** Once a non-empty token has been obtained, asking again costs nothing. */
  lemma TokenIsCached(c: Client, server: Server, later: Server)
    requires Valid(c)
    requires GetToken(c, server).result.Ok? && GetToken(c, server).result.value != ""
    ensures var s := GetToken(c, server);
      GetToken(s.client, later) == TokenStep(s.client, s.result)
  {
  }

  /** An exchange that yields an empty token caches it but does not make it
      usable: the next call exchanges again. */
  lemma EmptyTokenIsExchangedAgain(c: Client, server: Server, later: Server)
    requires Valid(c)
    requires GetToken(c, server).result == Ok("")
    ensures var s := GetToken(c, server);
      |GetToken(s.client, later).client.sent| == |s.client.sent| + 1
  {
  }

  // ----- request assembly and dispatch ---------------------------------

  /** The request headers: `Accept: application/json`, then the caller's
      headers over it, then, for an authenticated call, the bearer token over
      both. */
  function MergeHeaders(caller: Option<map<string, string>>, bearer: Option<string>): (h: map<string, string>)
    ensures h.Keys == {"Accept"}
      + (if caller.Some? then caller.value.Keys else {})
      + (if bearer.Some? then {"Authorization"} else {})
    ensures bearer.Some? ==> h["Authorization"] == "Bearer " + bearer.value
    ensures forall k :: caller.Some? && k in caller.value && !(bearer.Some? && k == "Authorization") ==>
      h[k] == caller.value[k]
    ensures (caller.None? || "Accept" !in caller.value) ==> h["Accept"] == "application/json"
  {
    var base := map["Accept" := "application/json"];
    var merged := if caller.Some? then base + caller.value else base;
    if bearer.Some? then merged["Authorization" := "Bearer " + bearer.value] else merged
  }

  /** `json=data`: a JSON body only when data is given. */
  function BodyOf(data: Option<Json>): Body {
    if data.Some? then JsonBody(data.value) else NoBody
  }

  datatype Call = Call(client: Client, result: Result<Response, Raised>)

  function LiftError(r: Result<Response, AltPEError>): Result<Response, Raised> {
    match r
    case Ok(v) => Ok(v)
    case Err(e) => Err(AltPE(e))
  }

  /** Puts one request on the wire and classifies the answer. */
  function Dispatch(c: Client, server: Server, req: Request): (call: Call)
    ensures call.client.sent == c.sent + [ApiCall(req)]
    ensures call.client.config == c.config
    ensures var h := HandleResponse(c.token, server(|c.sent|, req));
      call.client.token == h.token && call.result == LiftError(h.result)
  {
    var h := HandleResponse(c.token, server(|c.sent|, req));
    Call(c.(sent := c.sent + [ApiCall(req)], token := h.token), LiftError(h.result))
  }

  /** `_make_request`: obtain the token if the call is authenticated (a
      failure there propagates and nothing else is sent), then put exactly
      one request on the wire and return what the classifier makes of its
      response. */
  function MakeRequest(
    c: Client, server: Server, verb: string, url: string, params: Option<Params>,
    data: Option<Json>, headers: Option<map<string, string>>, authenticated: bool): (call: Call)
    requires Valid(c)
    ensures Valid(call.client) && call.client.config == c.config
    ensures |call.client.sent| > |c.sent| && call.client.sent[..|c.sent|] == c.sent
    ensures authenticated && GetToken(c, server).result.Err? ==>
      call.client == GetToken(c, server).client && call.result == Err(GetToken(c, server).result.error)
    ensures Dispatched(c, server, authenticated) ==>
      var pre := if authenticated then GetToken(c, server).client else c;
      var bearer := if authenticated then Some(GetToken(c, server).result.value) else None;
      var req := Request(verb, url, params, BodyOf(data), MergeHeaders(headers, bearer));
      var h := HandleResponse(pre.token, server(|pre.sent|, req));
      && call.client.sent == pre.sent + [ApiCall(req)]
      && call.client.token == h.token
      && call.result == LiftError(h.result)
  {
    if authenticated then
      var ts := GetToken(c, server);
      if ts.result.Err? then Call(ts.client, Err(ts.result.error))
      else
        Dispatch(ts.client, server,
          Request(verb, url, params, BodyOf(data), MergeHeaders(headers, Some(ts.result.value))))
    else
      Dispatch(c, server, Request(verb, url, params, BodyOf(data), MergeHeaders(headers, None)))
  }

  /** The call gets past the token step and reaches the wire. */
  predicate Dispatched(c: Client, server: Server, authenticated: bool)
    requires Valid(c)
  {
    !authenticated || GetToken(c, server).result.Ok?
  }

  /** `get`: an authenticated GET without a body. */
  function Get(c: Client, server: Server, url: string, params: Option<Params>, headers: Option<map<string, string>>): (call: Call)
    requires Valid(c)
    ensures Valid(call.client) && call.client.config == c.config
    ensures |call.client.sent| > |c.sent| && call.client.sent[..|c.sent|] == c.sent
    ensures GetToken(c, server).result.Err? ==>
      call.client == GetToken(c, server).client && call.result == Err(GetToken(c, server).result.error)
    ensures GetToken(c, server).result.Ok? ==>
      var pre := GetToken(c, server).client;
      var req := Request("GET", url, params, NoBody, MergeHeaders(headers, Some(GetToken(c, server).result.value)));
      && call.client.sent == pre.sent + [ApiCall(req)]
      && call.result == LiftError(HandleResponse(pre.token, server(|pre.sent|, req)).result)
  {
    MakeRequest(c, server, "GET", url, params, None, headers, true)
  }

  /** Whatever else the object holds, and in whatever order, the token is
      the last `token` string in it. */
  lemma ParseTokenReadsLast(fields: seq<Field>, t: string)
    ensures ParseToken(Some(JObj(fields + [Field("token", JStr(t))]))) == Some(t)
  {
  }

  /** The number of API calls (not token exchanges) in a wire log. */
  function Attempts(log: seq<Sent>): nat
    decreases |log|
  {
    if |log| == 0 then 0
    else Attempts(log[..|log| - 1]) + (if log[|log| - 1].ApiCall? then 1 else 0)
  }

  lemma {:induction false} AttemptsAppend(log: seq<Sent>, extra: seq<Sent>)
    ensures Attempts(log + extra) == Attempts(log) + Attempts(extra)
    decreases |extra|
  {
    if |extra| > 0 {
      assert (log + extra)[..|log + extra| - 1] == log + extra[..|extra| - 1];
      assert (log + extra)[|log + extra| - 1] == extra[|extra| - 1];
      AttemptsAppend(log, extra[..|extra| - 1]);
    } else {
      assert log + extra == log;
    }
  }

  /** No retry inside `_make_request`, whatever `max_retries` says: one call
      makes one attempt if it gets past the token step and none otherwise,
      and the only other thing it may send is a single credential exchange. */
  lemma SingleAttempt(
    c: Client, server: Server, verb: string, url: string, params: Option<Params>,
    data: Option<Json>, headers: Option<map<string, string>>, authenticated: bool)
    requires Valid(c)
    ensures var call := MakeRequest(c, server, verb, url, params, data, headers, authenticated);
      && Attempts(call.client.sent) == Attempts(c.sent) + (if Dispatched(c, server, authenticated) then 1 else 0)
      && |call.client.sent| <= |c.sent| + 2
      && (call.result.Ok? ==> IsSuccess(call.result.value.status))
  {
    var call := MakeRequest(c, server, verb, url, params, data, headers, authenticated);
    var ts := GetToken(c, server);
    if authenticated && !Truthy(c.token) {
      AttemptsAppend(c.sent, [TokenExchange(TokenRequest(c))]);
      assert Attempts([TokenExchange(TokenRequest(c))]) == 0;
    }
    if Dispatched(c, server, authenticated) {
      var pre := if authenticated then ts.client else c;
      AttemptsAppend(pre.sent, [call.client.sent[|pre.sent|]]);
      assert Attempts([call.client.sent[|pre.sent|]]) == 1;
    }
  }

  /** `max_retries` is read by nothing: changing it changes no outcome. */
  lemma MaxRetriesIgnored(
    c: Client, server: Server, verb: string, url: string, params: Option<Params>,
    data: Option<Json>, headers: Option<map<string, string>>, authenticated: bool, retries: int)
    requires Valid(c)
    ensures var c' := c.(config := c.config.(maxRetries := retries));
      var call := MakeRequest(c, server, verb, url, params, data, headers, authenticated);
      var call' := MakeRequest(c', server, verb, url, params, data, headers, authenticated);
      call'.result == call.result && call'.client.sent == call.client.sent && call'.client.token == call.client.token
  {
  }

  /** A 401 empties the cache, so the next authenticated call starts with a
      fresh credential exchange. */
  lemma UnauthorizedForcesExchange(
    c: Client, server: Server, url: string, params: Option<Params>, url2: string, params2: Option<Params>)
    requires Valid(c) && Dispatched(c, server, true)
    requires var call := Get(c, server, url, params, None);
      server(|call.client.sent| - 1, call.client.sent[|call.client.sent| - 1].req).status == 401
    ensures var call := Get(c, server, url, params, None);
      && call.result.Err? && call.result.error.AltPE? && call.result.error.err.cls == Authentication
      && call.client.token.None?
      && var next := Get(call.client, server, url2, params2, None);
         next.client.sent[|call.client.sent|] == TokenExchange(TokenRequest(call.client))
  {
  }
}
