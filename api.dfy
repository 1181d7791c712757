/**
 * The HTTP client wrapper of the command-line tool: query-string appending,
 * the OAuth scopes and tokens a command holds, the options a request is
 * built from, the rule that turns a reply into a resolved or rejected
 * promise, and the single retry on listed status codes.
 */
module Api {
  import opened Wrappers
  import opened Strs
  import opened Lists
  import opened OMaps
  import opened Json
  import ResponseToError

  /** The default origin of `request`. */
  const AdminOrigin: string := "https://admin.firebase.com"

  /** The methods `request` passes through; any other becomes "GET". */
  const ValidMethods: seq<string> := ["GET", "PUT", "POST", "DELETE", "PATCH"]

  const Email: string := "email"
  const OpenId: string := "openid"
  const CloudProjectsReadonly: string := "https://www.googleapis.com/auth/cloudplatformprojects.readonly"
  const FirebasePlatform: string := "https://www.googleapis.com/auth/firebase"

  /** The scopes every command asks for, in order. */
  const BaseScopes: seq<string> := [Email, OpenId, CloudProjectsReadonly, FirebasePlatform]

  // ------------------------------------------------------- query strings

  /** `querystring.stringify(data)` for string values: `k=v` pairs joined by "&" (escaping is not modelled). */
  function Stringify(data: OMap<string>): string
  {
    Join(Pairs(data), "&")
  }

  function Pairs(data: OMap<string>): (ps: seq<string>)
    ensures |ps| == |data|
    ensures forall i :: 0 <= i < |data| ==> ps[i] == data[i].0 + "=" + data[i].1
  {
    if data == [] then [] else [data[0].0 + "=" + data[0].1] + Pairs(data[1..])
  }

  /**
   * `_appendQueryData(path, data)`: absent or empty data leaves the path as
   * it is; otherwise the query is appended after "&" when the path already
   * has a "?", after "?" when it has none.
   */
  function AppendQueryData(path: string, data: Option<OMap<string>>): (r: string)
    ensures data.None? || data.value == [] ==> r == path
    ensures data.Some? && data.value != [] ==>
      r == path + (if '?' in path then "&" else "?") + Stringify(data.value)
  {
    if data.Some? && |data.value| > 0 then
      path + (if '?' in path then "&" else "?") + Stringify(data.value)
    else path
  }

  /** The path and the query can be read back from an appended path, and the result always has a "?". */
  lemma AppendQueryDataSplits(path: string, data: OMap<string>)
    requires data != []
    ensures var r := AppendQueryData(path, Some(data));
      r[..|path|] == path && r[|path| + 1..] == Stringify(data) && '?' in r
  {
    var r := AppendQueryData(path, Some(data));
    if '?' !in path {
      assert r[|path|] == '?';
    }
  }

  // ------------------------------------------------------------- options

  /** The options `request` reads; `None` is a property that was not given. */
  datatype Options = Options(
    data: Option<OMap<string>>,
    origin: Option<string>,
    resolveOnHTTPError: Option<bool>,
    json: Option<bool>,
    query: Option<OMap<string>>,
    form: Option<OMap<string>>,
    files: Option<OMap<string>>,
    qs: Option<OMap<string>>,
    headers: Option<OMap<string>>,
    timeout: Option<int>,
    auth: bool,
    retryCodes: Option<seq<int>>,
    skipResponseBody: bool)

  /** What `request` hands to the HTTP library. */
  datatype ReqOptions = ReqOptions(
    verb: string,
    url: string,
    body: Option<OMap<string>>,
    form: Option<OMap<string>>,
    files: Option<OMap<string>>,
    resolveOnHTTPError: bool,
    json: bool,
    qs: Option<OMap<string>>,
    headers: Option<OMap<string>>,
    timeout: Option<int>)

  /** `method`, or "GET" for one outside the valid methods. */
  function NormalMethod(verb: string): (m: string)
    ensures m in ValidMethods
    ensures verb in ValidMethods ==> m == verb
  {
    if verb in ValidMethods then verb else "GET"
  }

  /**
   * The request `request(method, resource, options)` builds, with the
   * defaults `data: {}`, the admin origin, `resolveOnHTTPError: false` and
   * `json: true`. A GET carries its data in the URL; any other method sends
   * non-empty data as the body, or else a non-empty form as the form.
   */
  function BuildRequest(verb: string, resource: string, options: Options): (req: ReqOptions)
    ensures req.verb == NormalMethod(verb)
    ensures req.verb == "GET" ==>
      req.url == options.origin.GetOr(AdminOrigin) +
        AppendQueryData(AppendQueryData(resource, options.query), Some(options.data.GetOr([]))) &&
      req.body.None? && req.form.None?
    ensures req.verb != "GET" ==>
      req.url == options.origin.GetOr(AdminOrigin) + AppendQueryData(resource, options.query) &&
      (req.body.Some? <==> options.data.GetOr([]) != []) &&
      (req.body.Some? ==> req.body == options.data && req.form.None?) &&
      (req.form.Some? <==> options.data.GetOr([]) == [] && options.form.GetOr([]) != []) &&
      (req.form.Some? ==> req.form == options.form)
    ensures req.resolveOnHTTPError == options.resolveOnHTTPError.GetOr(false)
    ensures req.json == options.json.GetOr(true)
    ensures req.files == options.files && req.qs == options.qs && req.headers == options.headers &&
      req.timeout == options.timeout
  {
    var m := NormalMethod(verb);
    var data := options.data.GetOr([]);
    var path := AppendQueryData(resource, options.query);
    var path := if m == "GET" then AppendQueryData(path, Some(data)) else path;
    var body := if m != "GET" && |data| > 0 then Some(data) else None;
    var form := if m != "GET" && |data| == 0 && options.form.Some? && |options.form.value| > 0 then options.form else None;
    ReqOptions(m, options.origin.GetOr(AdminOrigin) + path, body, form, options.files,
               options.resolveOnHTTPError.GetOr(false), options.json.GetOr(true), options.qs, options.headers,
               options.timeout)
  }

  /** A GET puts its data in the query and no body; the URL starts with the origin. */
  lemma GetCarriesDataInUrl(resource: string, options: Options)
    requires options.query.None? && options.data.Some? && options.data.value != []
    ensures var req := BuildRequest("GET", resource, options);
      req.body.None? && req.url == options.origin.GetOr(AdminOrigin) + resource +
        (if '?' in resource then "&" else "?") + Stringify(options.data.value)
  {
  }

  /** The headers `addRequestHeaders` leaves: the client headers and the bearer token. */
  function RequestHeaders(headers: Option<OMap<string>>, version: string, token: string): (h: OMap<string>)
    ensures Get(h, "User-Agent") == Some("FirebaseCLI/" + version)
    ensures Get(h, "X-Client-Version") == Some("FirebaseCLI/" + version)
    ensures Get(h, "authorization") == Some("Bearer " + token)
    ensures forall k :: k != "User-Agent" && k != "X-Client-Version" && k != "authorization" ==>
      Get(h, k) == Get(headers.GetOr([]), k)
  {
    var h0 := headers.GetOr([]);
    var h1 := Put(h0, "User-Agent", "FirebaseCLI/" + version);
    var h2 := Put(h1, "X-Client-Version", "FirebaseCLI/" + version);
    var h3 := Put(h2, "authorization", "Bearer " + token);
    assert forall k :: Get(h3, k) == if k == "authorization" then Some("Bearer " + token)
      else if k == "X-Client-Version" then Some("FirebaseCLI/" + version)
      else if k == "User-Agent" then Some("FirebaseCLI/" + version)
      else Get(h0, k)
    by {
      forall k ensures Get(h3, k) == if k == "authorization" then Some("Bearer " + token)
        else if k == "X-Client-Version" then Some("FirebaseCLI/" + version)
        else if k == "User-Agent" then Some("FirebaseCLI/" + version)
        else Get(h0, k)
      {
        PutGet(h0, "User-Agent", "FirebaseCLI/" + version, k);
        PutGet(h1, "X-Client-Version", "FirebaseCLI/" + version, k);
        PutGet(h2, "authorization", "Bearer " + token, k);
      }
    }
    h3
  }

  /** `_request` adds `connection: keep-alive` to whatever headers it sends. */
  function SentHeaders(headers: Option<OMap<string>>): (h: OMap<string>)
    ensures Get(h, "connection") == Some("keep-alive")
    ensures forall k :: k != "connection" ==> Get(h, k) == Get(headers.GetOr([]), k)
  {
    var h0 := headers.GetOr([]);
    assert forall k :: Get(Put(h0, "connection", "keep-alive"), k) == if k == "connection" then Some("keep-alive") else Get(h0, k) by {
      forall k ensures Get(Put(h0, "connection", "keep-alive"), k) == if k == "connection" then Some("keep-alive") else Get(h0, k) {
        PutGet(h0, "connection", "keep-alive", k);
      }
    }
    Put(h0, "connection", "keep-alive")
  }

  // ----------------------------------------------------- settling a reply

  /** What the HTTP library reports: a transport error, or a response. */
  datatype Reply =
    | TransportError(message: string)
    | Response(status: int, response: Json, body: Option<Json>)

  datatype RequestError =
    | ServerError(message: string, exit: int)
    | HttpFailure(error: ResponseToError.HttpError)

  /** How the promise of one attempt settles; `Crashed` is a throw inside the reply callback. */
  datatype Settled =
    | Resolved(status: int, body: Option<Json>)
    | Rejected(error: RequestError)
    | Crashed

  /**
   * `_request`: a transport error rejects as a server error with exit 2; a
   * status of 400 or more rejects with the mapped HTTP error unless the
   * response body is skipped or `resolveOnHTTPError` is set; anything else
   * resolves.
   */
  function Settle(reply: Reply, resolveOnHTTPError: bool, skipResponseBody: bool, parse: string -> Option<Json>): (s: Settled)
    ensures reply.TransportError? ==> s == Rejected(ServerError("Server Error. " + reply.message, 2))
    ensures reply.Response? ==>
      (s.Resolved? <==> reply.status < 400 || skipResponseBody || resolveOnHTTPError)
    ensures s.Resolved? ==> reply.Response? && s.status == reply.status && s.body == reply.body
    ensures s.Rejected? && reply.Response? ==> s.error.HttpFailure? && s.error.error.status == reply.status
    ensures s.Rejected? && reply.Response? ==>
      var e := ResponseToError.ResponseToError(reply.status, reply.response, reply.body, parse);
      e.Raised? && s.error == HttpFailure(e.error)
    ensures s.Crashed? <==>
      (reply.Response? && reply.status >= 400 && !skipResponseBody && !resolveOnHTTPError &&
       ResponseToError.IsPrimitive(ResponseToError.EffectiveBody(reply.status, reply.body, parse)))
  {
    match reply
    case TransportError(message) => Rejected(ServerError("Server Error. " + message, 2))
    case Response(status, response, body) =>
      if status >= 400 && !skipResponseBody && !resolveOnHTTPError then
        match ResponseToError.ResponseToError(status, response, body, parse)
        case Raised(e) => Rejected(HttpFailure(e))
        case _ => Crashed
      else Resolved(status, body)
  }

  /** The status `_.get(err, "context.response.statusCode")` finds on a rejection. */
  function RejectedStatus(s: Settled): Option<int>
  {
    if s.Rejected? && s.error.HttpFailure? then Some(s.error.error.status) else None
  }

  /** The first attempt is retried, once, when it was rejected with a status in `retryCodes`. */
  predicate Retries(first: Settled, retryCodes: Option<seq<int>>)
  {
    retryCodes.Some? && RejectedStatus(first).Some? && RejectedStatus(first).value in retryCodes.value
  }

  /**
   * `request(...)` settled against the replies of the first and (if made)
   * second attempt: the result and the number of attempts.
   */
  function RequestResult(options: Options, first: Reply, second: Reply, parse: string -> Option<Json>): (r: (Settled, nat))
    ensures 1 <= r.1 <= 2
    ensures var s1 := Settle(first, options.resolveOnHTTPError.GetOr(false), options.skipResponseBody, parse);
      (r.1 == 2 <==> Retries(s1, options.retryCodes)) &&
      (r.1 == 1 ==> r.0 == s1) &&
      (r.1 == 2 ==> r.0 == Settle(second, options.resolveOnHTTPError.GetOr(false), options.skipResponseBody, parse))
  {
    var resolve := options.resolveOnHTTPError.GetOr(false);
    var s1 := Settle(first, resolve, options.skipResponseBody, parse);
    if Retries(s1, options.retryCodes) then (Settle(second, resolve, options.skipResponseBody, parse), 2)
    else (s1, 1)
  }

  /** With `skipResponseBody` no reply status rejects, so nothing is retried. */
  lemma SkipBodyNeverRejectsOnStatus(options: Options, first: Reply, second: Reply, parse: string -> Option<Json>)
    requires options.skipResponseBody && first.Response?
    ensures RequestResult(options, first, second, parse) == (Resolved(first.status, first.body), 1)
  {
  }

  /** A transport error is never retried. */
  lemma TransportErrorNotRetried(options: Options, message: string, second: Reply, parse: string -> Option<Json>)
    ensures RequestResult(options, TransportError(message), second, parse).1 == 1
  {
  }

  // ---------------------------------------------------------- the state

  /** `_.uniq(BaseScopes.concat(s))` starts with the base scopes. */
  lemma {:induction false} UniqKeepsPrefix(a: seq<string>, b: seq<string>)
    ensures |Uniq(a)| <= |Uniq(a + b)| && Uniq(a + b)[..|Uniq(a)|] == Uniq(a)
    decreases |b|
  {
    if b == [] {
      assert a + b == a;
    } else {
      var b' := b[..|b| - 1];
      UniqKeepsPrefix(a, b');
      assert (a + b)[..|a + b| - 1] == a + b';
    }
  }

  /** The module-level variables of the client: the tokens and the command's scopes. */
  class ApiState {
    var accessToken: Option<string>
    var refreshToken: Option<string>
    var commandScopes: Option<seq<string>>

    constructor()
      ensures accessToken.None? && refreshToken.None? && commandScopes.None?
    {
      accessToken := None;
      refreshToken := None;
      commandScopes := None;
    }

    /** `setRefreshToken(token)`. */
    method SetRefreshToken(token: string)
      modifies this
      ensures refreshToken == Some(token)
      ensures accessToken == old(accessToken) && commandScopes == old(commandScopes)
    {
      refreshToken := Some(token);
    }

    /** `setAccessToken(token)`. */
    method SetAccessToken(token: string)
      modifies this
      ensures accessToken == Some(token)
      ensures refreshToken == old(refreshToken) && commandScopes == old(commandScopes)
    {
      accessToken := Some(token);
    }

    /**
     * `setScopes(s)`: the base scopes first, then those of `s`, without
     * duplicates.
     */
    method SetScopes(s: Option<seq<string>>)
      modifies this
      ensures commandScopes == Some(Uniq(BaseScopes + s.GetOr([])))
      ensures accessToken == old(accessToken) && refreshToken == old(refreshToken)
    {
      commandScopes := Some(Uniq(BaseScopes + s.GetOr([])));
    }

    /** `getScopes()`. */
    function GetScopes(): Option<seq<string>>
      reads this
    {
      commandScopes
    }

    /**
     * The token `addRequestHeaders` uses: the access token when one is set,
     * else the one the auth module returns (`fetched`, outside the model).
     */
    function TokenFor(fetched: string): (t: string)
      reads this
      ensures accessToken.Some? && accessToken.value != "" ==> t == accessToken.value
      ensures accessToken.None? || accessToken.value == "" ==> t == fetched
    {
      if accessToken.Some? && accessToken.value != "" then accessToken.value else fetched
    }
  }

  /** The scopes `setScopes` stores hold the base scopes first, have no duplicates, and hold exactly the base and given scopes. */
  lemma ScopesShape(s: seq<string>)
    ensures var scopes := Uniq(BaseScopes + s);
      |scopes| >= 4 && scopes[..4] == BaseScopes && NoDups(scopes) &&
      forall x :: x in scopes <==> x in BaseScopes || x in s
  {
    assert NoDups(BaseScopes);
    UniqOfNoDups(BaseScopes);
    UniqKeepsPrefix(BaseScopes, s);
  }
}
