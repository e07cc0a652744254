/**
 * The request pipeline every API call goes through: default JSON headers, the
 * access token unless the caller opts out, the caller's extra headers on top,
 * the path appended to the API URL, object bodies sent as JSON text. An ok
 * response is returned; a 401 re-authenticates and repeats the request, or logs
 * out when that fails; any other failure throws an error classified by the
 * response's `statusCode`.
 */
module Api {
  import opened Wrappers
  import opened JsStrings
  import opened JsValues
  import opened Json
  import opened Platform
  import opened Auth

  /** The class of error `request` throws for a non-ok, non-401 `statusCode`. */
  function Classify(statusCode: Option<int>): (k: ErrorKind)
    ensures k == BadRequest <==> statusCode == Some(400)
    ensures k == Forbidden <==> statusCode == Some(403)
    ensures k == Server <==> statusCode.Some? && statusCode.value >= 500
    ensures k == GenericApi <==> !(statusCode.Some? && (statusCode.value in {400, 403} || statusCode.value >= 500))
  {
    match statusCode
    case None => GenericApi
    case Some(c) =>
      if c == 400 then BadRequest
      else if c == 403 then Forbidden
      else if c >= 500 then Server
      else GenericApi
  }

  /** `options.authenticated`: a boolean is used as given; anything else means true. */
  function Authenticated(options: Value): bool
    requires !(options.Undefined? || options.Null?)
  {
    var a := Get(options, "authenticated").value;
    if a.Bool? then a.b else true
  }

  /**
   * The headers sent: Accept and Content-Type set to JSON, Authorization set to the
   * access token when authenticated, then the own properties of a truthy
   * `options.headers` assigned over them.
   */
  function RequestHeaders(w: World, options: Value): (r: seq<Entry>)
    requires !(options.Undefined? || options.Null?)
    ensures DistinctKeys(r)
  {
    var base := if Authenticated(options)
      then SetProp(JsonHeaders, "Authorization", TokenValue(w, "access"))
      else JsonHeaders;
    var extra := Get(options, "headers").value;
    assert DistinctKeys(JsonHeaders);
    AssignKeepsDistinct([], base);
    AssignKeepsDistinct(AssignEntries([], base), OwnEntries(if Truthy(extra) then extra else Obj([])));
    Spread(AssignEntries([], base), if Truthy(extra) then extra else Obj([]))
  }

  /** The URL fetched: the API URL followed by the path with one leading '/' dropped. */
  function RequestUrl(apiUrl: string, path: string): (r: string)
    ensures StartsWith(r, apiUrl)
  {
    apiUrl + (if StartsWith(path, "/") then path[1..] else path)
  }

  /** The body sent: a truthy object or array as its JSON text; any other value unchanged. */
  function RequestBody(options: Value): (r: Value)
    requires !(options.Undefined? || options.Null?)
    ensures var b := Get(options, "body").value;
      ((b.Obj? || b.Arr?) ==> r.Str?) && (!(b.Obj? || b.Arr?) ==> r == b)
  {
    var b := Get(options, "body").value;
    if Truthy(b) && TypeOf(b) == "object" then Str(Serialize(b)) else b
  }

  function RequestCall(w: World, path: string, verb: string, options: Value): FetchCall
    requires !(options.Undefined? || options.Null?)
  {
    FetchCall(RequestUrl(w.apiUrl, path), verb, RequestHeaders(w, options), RequestBody(options))
  }

  /**
   * `request(path, method, options)`. `Normal(Some(response))` is an ok response,
   * `Normal(None)` the `undefined` it resolves to after a failed re-authentication
   * and logout. `options` being `undefined` or `null` is the TypeError of reading
   * `options.authenticated`.
   */
  function RequestW(w: World, path: string, verb: string, options: Value): (r: (Completion<Option<Response>>, World))
    ensures r.1.apiUrl == w.apiUrl
    decreases |w.replies|
  {
    if options.Undefined? || options.Null? then (Abrupt(TypeError), w)
    else
      var (reply, w1) := FetchW(w, RequestCall(w, path, verb, options));
      match reply
      case Reject => (Abrupt(NetworkError), w1)
      case Respond(resp) =>
        if resp.ok then (Normal(Some(resp)), w1)
        else if resp.statusCode == Some(401) then
          var (data, w2) := AuthenticateW(w1, false);
          if Truthy(data) then RequestW(w2, path, verb, options)
          else (Normal(None), LogoutW(w2))
        else (Abrupt(ApiError(Classify(resp.statusCode), resp.statusText, resp)), w1)
  }

  method Request(s: Services, path: string, verb: string, options: Value) returns (r: Completion<Option<Response>>)
    modifies s
    ensures (r, s.State()) == RequestW(old(s.State()), path, verb, options)
    decreases |s.replies|
  {
    if options.Undefined? || options.Null? {
      return Abrupt(TypeError);
    }
    var reply := s.Fetch(RequestCall(s.State(), path, verb, options));
    if reply.Reject? {
      return Abrupt(NetworkError);
    }
    var resp := reply.response;
    if resp.ok {
      return Normal(Some(resp));
    }
    if resp.statusCode == Some(401) {
      var data := Authenticate(s, false);
      if Truthy(data) {
        r := Request(s, path, verb, options);
      } else {
        Logout(s);
        r := Normal(None);
      }
    } else {
      r := Abrupt(ApiError(Classify(resp.statusCode), resp.statusText, resp));
    }
  }

  // ---------------------------------------------------------------- properties

  /** Without an options object nothing is fetched. */
  lemma RequestWithoutOptions(w: World, path: string, verb: string, options: Value)
    requires options.Undefined? || options.Null?
    ensures RequestW(w, path, verb, options) == (Abrupt(TypeError), w)
  {
  }

  /**
   * Every header the caller passes wins; otherwise Accept and Content-Type are JSON,
   * and Authorization is the access token exactly when the request is authenticated.
   */
  lemma HeadersLookup(w: World, options: Value, name: string)
    requires !(options.Undefined? || options.Null?)
    ensures var extra := Get(options, "headers").value;
      var given := if Truthy(extra) then Lookup(OwnEntries(extra), name) else None;
      Lookup(RequestHeaders(w, options), name) ==
        if given.Some? then given
        else if name == "Accept" || name == "Content-Type" then Some(Str("application/json"))
        else if name == "Authorization" && Authenticated(options) then Some(TokenValue(w, "access"))
        else None
  {
    var token := TokenValue(w, "access");
    var base := if Authenticated(options) then SetProp(JsonHeaders, "Authorization", token) else JsonHeaders;
    var extra := Get(options, "headers").value;
    var source := if Truthy(extra) then extra else Obj([]);
    assert !Truthy(extra) ==> OwnEntries(source) == [];
    DefaultHeadersLookup(token, Authenticated(options), name);
    AssignLookup(AssignEntries([], base), OwnEntries(source), name);
  }

  /** The headers before the caller's: JSON Accept and Content-Type, and the token when authenticated. */
  lemma DefaultHeadersLookup(token: Value, authenticated: bool, name: string)
    ensures Lookup(AssignEntries([], if authenticated then SetProp(JsonHeaders, "Authorization", token) else JsonHeaders), name)
         == if name == "Accept" || name == "Content-Type" then Some(Str("application/json"))
            else if name == "Authorization" && authenticated then Some(token)
            else None
  {
    var base := if authenticated then SetProp(JsonHeaders, "Authorization", token) else JsonHeaders;
    AssignLookup([], base, name);
    assert Lookup([], name) == None;
    assert Lookup(JsonHeaders, name) == if name == "Accept" || name == "Content-Type" then Some(Str("application/json")) else None by {
      assert JsonHeaders[1..] == [Entry("Content-Type", Str("application/json"))];
      assert JsonHeaders[1..][1..] == [];
    }
    if authenticated {
      SetPropLookup(JsonHeaders, "Authorization", token, name);
    }
  }

  /** One leading slash makes no difference to the URL. */
  lemma RequestUrlLeadingSlash(apiUrl: string, path: string)
    requires !StartsWith(path, "/")
    ensures RequestUrl(apiUrl, "/" + path) == RequestUrl(apiUrl, path) == apiUrl + path
  {
    assert ("/" + path)[1..] == path;
  }

  /**
   * An object or array body that JSON can carry is sent as text that parses back to
   * it; a string body is sent as it is, and so is any falsy body.
   */
  lemma RequestBodyEncoding(options: Value)
    requires !(options.Undefined? || options.Null?)
    ensures var b := Get(options, "body").value;
      ((b.Obj? || b.Arr?) && IsJson(b) ==> RequestBody(options).Str? && Parse(RequestBody(options).s) == Some(b))
      && (b.Str? || !Truthy(b) ==> RequestBody(options) == b)
  {
    var b := Get(options, "body").value;
    if (b.Obj? || b.Arr?) && IsJson(b) {
      ParseOfStringify(b);
    }
  }

  /** An ok first answer is returned as it is, after exactly one fetch and with no other effect. */
  lemma RequestOk(w: World, path: string, verb: string, options: Value)
    requires !(options.Undefined? || options.Null?)
    requires w.replies != [] && w.replies[0].Respond? && w.replies[0].response.ok
    ensures RequestW(w, path, verb, options) ==
      (Normal(Some(w.replies[0].response)),
       w.(replies := w.replies[1..], fetches := w.fetches + [RequestCall(w, path, verb, options)]))
  {
  }

  /**
   * A non-ok answer other than 401 throws the error its `statusCode` selects,
   * carrying the status text and the response, after one fetch.
   */
  lemma RequestFailure(w: World, path: string, verb: string, options: Value)
    requires !(options.Undefined? || options.Null?)
    requires w.replies != [] && w.replies[0].Respond?
    requires !w.replies[0].response.ok && w.replies[0].response.statusCode != Some(401)
    ensures var resp := w.replies[0].response;
      RequestW(w, path, verb, options).0 == Abrupt(ApiError(Classify(resp.statusCode), resp.statusText, resp))
      && |RequestW(w, path, verb, options).1.fetches| == |w.fetches| + 1
  {
  }

  /**
   * A fetch response without a `statusCode` property (the standard `Response` keeps
   * its code in `status`) is never re-authenticated: when not ok it is the generic
   * `ApiError`, even for a 401, 403 or 5xx answer.
   */
  lemma ResponseWithoutStatusCode(w: World, path: string, verb: string, options: Value)
    requires !(options.Undefined? || options.Null?)
    requires w.replies != [] && w.replies[0].Respond?
    requires !w.replies[0].response.ok && w.replies[0].response.statusCode.None?
    ensures RequestW(w, path, verb, options).0.Abrupt?
    ensures RequestW(w, path, verb, options).0.thrown.ApiError?
    ensures RequestW(w, path, verb, options).0.thrown.kind == GenericApi
  {
  }

  /** A 401 whose re-authentication fails resolves to `undefined` after logging out. */
  lemma RequestUnauthorized(w: World, path: string, verb: string, options: Value)
    requires !(options.Undefined? || options.Null?)
    requires w.replies != [] && w.replies[0].Respond?
    requires !w.replies[0].response.ok && w.replies[0].response.statusCode == Some(401)
    requires !Truthy(AuthenticateW(w.(replies := w.replies[1..], fetches := w.fetches + [RequestCall(w, path, verb, options)]), false).0)
    ensures RequestW(w, path, verb, options).0 == Normal(None)
    ensures var w' := RequestW(w, path, verb, options).1;
      w'.nav[|w'.nav| - 1] == SetRoot(LoginRoot) && GetToken(w', "access") == Normal(Null)
  {
  }

  /**
   * A 401 whose re-authentication gives a truthy result sends the same request again
   * (same path, method and options) and resolves to whatever that request does.
   */
  lemma RequestRetries(w: World, path: string, verb: string, options: Value)
    requires !(options.Undefined? || options.Null?)
    requires w.replies != [] && w.replies[0].Respond?
    requires !w.replies[0].response.ok && w.replies[0].response.statusCode == Some(401)
    requires var w1 := w.(replies := w.replies[1..], fetches := w.fetches + [RequestCall(w, path, verb, options)]);
      Truthy(AuthenticateW(w1, false).0)
    ensures var w1 := w.(replies := w.replies[1..], fetches := w.fetches + [RequestCall(w, path, verb, options)]);
      RequestW(w, path, verb, options) == RequestW(AuthenticateW(w1, false).1, path, verb, options)
  {
  }

  /**
   * A 401, an accepted refresh, then an ok answer: the request resolves to that ok
   * response after three fetches, the second one to the refresh endpoint, and the
   * request sent again is identical to the first.
   */
  lemma {:induction false} RequestRefreshedOnce(w: World, path: string, verb: string, options: Value)
    requires !(options.Undefined? || options.Null?)
    requires |w.replies| >= 3 && w.replies[0].Respond?
    requires !w.replies[0].response.ok && w.replies[0].response.statusCode == Some(401)
    requires AnswerAccepted(w.(replies := w.replies[1..]))
    requires w.replies[2].Respond? && w.replies[2].response.ok
    ensures var (r, w') := RequestW(w, path, verb, options);
      var call := RequestCall(w, path, verb, options);
      r == Normal(Some(w.replies[2].response))
      && w'.replies == w.replies[3..]
      && w'.fetches == w.fetches + [call, RefreshCall(w), call]
  {
    var call := RequestCall(w, path, verb, options);
    var w1 := w.(replies := w.replies[1..], fetches := w.fetches + [call]);
    AuthenticateRefreshed(w1);
    var w2 := AuthenticateW(w1, false).1;
    assert RefreshCall(w1) == RefreshCall(w);
    RequestCallOfStorage(w, w2, path, verb, options);
    RequestRetries(w, path, verb, options);
    RequestOk(w2, path, verb, options);
    AppendThree(w.fetches, call, RefreshCall(w), call);
  }

  lemma AppendThree<T>(s: seq<T>, x: T, y: T, z: T)
    ensures s + [x] + [y] + [z] == s + [x, y, z]
  {
  }

  /** The request sent depends on the world only through the API URL and the storage. */
  lemma RequestCallOfStorage(w: World, w': World, path: string, verb: string, options: Value)
    requires !(options.Undefined? || options.Null?)
    requires w'.apiUrl == w.apiUrl && w'.storage == w.storage
    ensures RequestCall(w', path, verb, options) == RequestCall(w, path, verb, options)
  {
    assert TokenValue(w', "access") == TokenValue(w, "access");
  }

  /** An accepted refresh re-authenticates with one fetch and leaves storage, hence the access token, alone. */
  lemma AuthenticateRefreshed(w: World)
    requires AnswerAccepted(w)
    ensures var (data, w') := AuthenticateW(w, false);
      data == Bool(true) && w'.replies == w.replies[1..] && w'.fetches == w.fetches + [RefreshCall(w)]
      && w'.storage == w.storage && w'.apiUrl == w.apiUrl
  {
    RefreshTokenOutcome(w);
    var (refreshed, w1) := RefreshTokenW(w);
    assert OneFetch(w, RefreshCall(w), w1.(keychain := w.keychain));
  }

  /**
   * Whatever the number of 401 rounds: a response returned is ok, and an error
   * thrown by the pipeline is the classified error of a non-ok, non-401 response.
   */
  lemma {:induction false} RequestOutcome(w: World, path: string, verb: string, options: Value)
    ensures var r := RequestW(w, path, verb, options).0;
      (r.Normal? && r.value.Some? ==> r.value.value.ok)
      && (r.Abrupt? && r.thrown.ApiError? ==>
            !r.thrown.response.ok && r.thrown.response.statusCode != Some(401)
            && r.thrown.kind == Classify(r.thrown.response.statusCode)
            && r.thrown.message == r.thrown.response.statusText)
    decreases |w.replies|
  {
    if !(options.Undefined? || options.Null?) {
      var (reply, w1) := FetchW(w, RequestCall(w, path, verb, options));
      if reply.Respond? && !reply.response.ok && reply.response.statusCode == Some(401) {
        var (data, w2) := AuthenticateW(w1, false);
        if Truthy(data) {
          RequestOutcome(w2, path, verb, options);
        }
      }
    }
  }

  /**
   * The pipeline writes no storage key other than the access token (re-authentication
   * may store it, logging out deletes it).
   */
  lemma {:induction false} RequestKeepsStorage(w: World, path: string, verb: string, options: Value, key: string)
    requires key != AccessTokenKey
    ensures var w' := RequestW(w, path, verb, options).1;
      (key in w'.storage <==> key in w.storage) && (key in w.storage ==> w'.storage[key] == w.storage[key])
    decreases |w.replies|
  {
    if !(options.Undefined? || options.Null?) {
      var (reply, w1) := FetchW(w, RequestCall(w, path, verb, options));
      assert w1.storage == w.storage;
      if reply.Respond? && !reply.response.ok && reply.response.statusCode == Some(401) {
        var (data, w2) := AuthenticateW(w1, false);
        AuthenticateKeepsStorage(w1, false, key);
        if Truthy(data) {
          assert RequestW(w, path, verb, options).1 == RequestW(w2, path, verb, options).1;
          RequestKeepsStorage(w2, path, verb, options, key);
        } else {
          assert RequestW(w, path, verb, options).1 == LogoutW(w2);
          assert LogoutW(w2).storage == w2.storage - {AccessTokenKey};
        }
      }
    }
  }
}
