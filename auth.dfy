/**
 * Authentication: where the tokens live and how they are renewed.
 *
 * The access token is an AsyncStorage entry under "access-token"; the refresh
 * token and the two tokens of the Velnota identity provider are keychain
 * entries under the service name "us.hearye.voting" followed directly by the
 * token kind. `RefreshToken` renews the refresh token, `Authenticate` falls
 * back to (or, when forced, also does) obtaining both tokens from the Velnota
 * tokens, and `Logout` clears the session and shows the login screen.
 */
module Auth {
  import opened Wrappers
  import opened JsStrings
  import opened JsValues
  import opened Json
  import opened Platform
  import opened Storage

  const AccessTokenKey := "access-token"
  const TokenService := "us.hearye.voting"

  /** The kinds kept in the keychain. */
  predicate IsKeychainKind(kind: string) {
    kind == "refresh" || kind == "velnota_access" || kind == "velnota_refresh"
  }

  predicate IsTokenKind(kind: string) {
    kind == "access" || IsKeychainKind(kind)
  }

  /** The keychain service of a kind: the two strings run together, with no separator. */
  function ServiceOf(kind: string): string {
    TokenService + kind
  }

  /**
   * `getToken(kind)`: the stored access text (or `null`), or the password of the
   * kind's keychain entry (`undefined` when there is none, since the keychain then
   * answers `false`). Any other kind throws.
   */
  function GetToken(w: World, kind: string): (r: Completion<Value>)
    ensures r.Abrupt? <==> !IsTokenKind(kind)
    ensures r.Abrupt? ==> r.thrown == Error("Invalid token type")
    ensures kind == "access" ==> r.Normal? && (r.value.Str? || r.value.Null?)
    ensures kind == "access" ==> r == Normal(GetString(w, AccessTokenKey))
    ensures kind == "access" && AccessTokenKey !in w.storage ==> r == Normal(Null)
    ensures IsKeychainKind(kind) && ServiceOf(kind) in w.keychain ==> r == Normal(w.keychain[ServiceOf(kind)].password)
    ensures IsKeychainKind(kind) && ServiceOf(kind) !in w.keychain ==> r == Normal(Undefined)
  {
    if kind == "access" then Normal(GetString(w, AccessTokenKey))
    else if IsKeychainKind(kind) then
      Normal(if ServiceOf(kind) in w.keychain then w.keychain[ServiceOf(kind)].password else Undefined)
    else Abrupt(Error("Invalid token type"))
  }

  /** `setToken(kind, value)`; an unknown kind is ignored. */
  function SetTokenW(w: World, kind: string, value: Value): (r: World)
    ensures r == w.(storage := r.storage, keychain := r.keychain)
    ensures !IsTokenKind(kind) ==> r == w
    ensures kind != "access" ==> r.storage == w.storage
  {
    if kind == "access" then SetW(w, AccessTokenKey, value)
    else if IsKeychainKind(kind) then w.(keychain := w.keychain[ServiceOf(kind) := Credential(kind, value)])
    else w
  }

  method SetToken(s: Services, kind: string, value: Value)
    modifies s
    ensures s.State() == SetTokenW(old(s.State()), kind, value)
  {
    if kind == "access" {
      Set(s, AccessTokenKey, value);
    } else if IsKeychainKind(kind) {
      s.SetGenericPassword(kind, value, ServiceOf(kind));
    }
  }

  const JsonHeaders := [Entry("Accept", Str("application/json")), Entry("Content-Type", Str("application/json"))]

  /** The stored value of a kind (`getToken` cannot throw for a known kind). */
  function TokenValue(w: World, kind: string): Value
    requires IsTokenKind(kind)
  {
    GetToken(w, kind).value
  }

  /** The refresh request: POST `{"refresh": <refresh token>}` to `users/v1/token/refresh/`. */
  function RefreshCall(w: World): FetchCall {
    FetchCall(w.apiUrl + "users/v1/token/refresh/", "POST", JsonHeaders,
      Str(Serialize(Obj([Entry("refresh", TokenValue(w, "refresh"))]))))
  }

  /** The obtain request: POST both Velnota tokens to `users/v1/token/obtain/`. */
  function ObtainCall(w: World): FetchCall {
    FetchCall(w.apiUrl + "users/v1/token/obtain/", "POST", JsonHeaders,
      Str(Serialize(Obj([Entry("access_token", TokenValue(w, "velnota_access")),
                         Entry("refresh_token", TokenValue(w, "velnota_refresh"))]))))
  }

  /** What one fetch does to the world apart from its reply: the call is logged and one reply used up. */
  predicate OneFetch(w: World, call: FetchCall, w': World) {
    w' == w.(replies := w'.replies, fetches := w.fetches + [call])
    && w'.replies == (if w.replies == [] then [] else w.replies[1..])
  }

  /**
   * `RefreshToken()`: true when the refresh endpoint answered ok with JSON data that
   * is neither `null` nor `undefined`; its `refresh` property becomes the new
   * refresh token. Every failure, thrown or not, is false.
   */
  function RefreshTokenW(w: World): (r: (bool, World))
    ensures OneFetch(w, RefreshCall(w), r.1.(keychain := w.keychain))
    ensures forall sv :: sv != ServiceOf("refresh") ==>
      (sv in r.1.keychain <==> sv in w.keychain) && (sv in w.keychain ==> r.1.keychain[sv] == w.keychain[sv])
  {
    var (reply, w1) := FetchW(w, RefreshCall(w));
    match reply
    case Reject => (false, w1)
    case Respond(resp) =>
      if !resp.ok then (false, w1)
      else
        match JsonBody(resp)
        case None => (false, w1)
        case Some(data) =>
          match Get(data, "refresh")
          case None => (false, w1)
          case Some(t) => (true, SetTokenW(w1, "refresh", t))
  }

  method RefreshToken(s: Services) returns (refreshed: bool)
    modifies s
    ensures (refreshed, s.State()) == RefreshTokenW(old(s.State()))
  {
    var reply := s.Fetch(RefreshCall(s.State()));
    refreshed := false;
    if reply.Respond? && reply.response.ok {
      var data := JsonBody(reply.response);
      if data.Some? {
        var t := Get(data.value, "refresh");
        if t.Some? {
          SetToken(s, "refresh", t.value);
          refreshed := true;
        }
      }
    }
  }

  /**
   * The `try` block of `Authenticate`: false on any failure; otherwise the response
   * data, after storing its `access_token` and `refresh_token`.
   */
  function ObtainW(w: World): (r: (Value, World))
    ensures OneFetch(w, ObtainCall(w), r.1.(storage := w.storage, keychain := w.keychain))
  {
    var (reply, w1) := FetchW(w, ObtainCall(w));
    match reply
    case Reject => (Bool(false), w1)
    case Respond(resp) =>
      if !resp.ok then (Bool(false), w1)
      else
        match JsonBody(resp)
        case None => (Bool(false), w1)
        case Some(data) =>
          match Get(data, "access_token")
          case None => (Bool(false), w1)
          case Some(access) =>
            var w2 := SetTokenW(w1, "access", access);
            (data, SetTokenW(w2, "refresh", Get(data, "refresh_token").value))
  }

  method Obtain(s: Services) returns (data: Value)
    modifies s
    ensures (data, s.State()) == ObtainW(old(s.State()))
  {
    var reply := s.Fetch(ObtainCall(s.State()));
    data := Bool(false);
    if reply.Respond? && reply.response.ok {
      var parsed := JsonBody(reply.response);
      if parsed.Some? {
        var access := Get(parsed.value, "access_token");
        if access.Some? {
          SetToken(s, "access", access.value);
          SetToken(s, "refresh", Get(parsed.value, "refresh_token").value);
          data := parsed.value;
        }
      }
    }
  }

  /**
   * `Authenticate(force)`: refresh first; when that fails, or when forced, obtain
   * both tokens and return that outcome; otherwise true.
   */
  function AuthenticateW(w: World, force: bool): (r: (Value, World))
    ensures r.1.apiUrl == w.apiUrl && |r.1.replies| <= |w.replies|
    ensures r.1.nav == w.nav && r.1.alerts == w.alerts && r.1.links == w.links
  {
    var (refreshed, w1) := RefreshTokenW(w);
    if !refreshed || force then ObtainW(w1) else (Bool(true), w1)
  }

  method Authenticate(s: Services, force: bool) returns (data: Value)
    modifies s
    ensures (data, s.State()) == AuthenticateW(old(s.State()), force)
  {
    var refreshed := RefreshToken(s);
    if !refreshed || force {
      data := Obtain(s);
    } else {
      data := Bool(true);
    }
  }

  /** `Logout()`: delete the access token, reset the keychain service "us.hearye.voting", show the login root. */
  function LogoutW(w: World): World {
    NavigateW(DeleteW(w, AccessTokenKey).(keychain := w.keychain - {TokenService}), SetRoot(LoginRoot))
  }

  method Logout(s: Services)
    modifies s
    ensures s.State() == LogoutW(old(s.State()))
  {
    Delete(s, AccessTokenKey);
    s.ResetGenericPassword(TokenService);
    s.Navigate(SetRoot(LoginRoot));
  }

  /** What `userStillNeeds` returns: a boolean passed through, or the list of task numbers. */
  datatype StillNeeds = Flag(b: bool) | Tasks(tasks: seq<int>)

  /**
   * `userStillNeeds(data)`: a boolean is returned as it is; otherwise task 1 (choose a
   * district) is due when `data` has an own `district` property that is falsy.
   * `hasOwnProperty` on `null` or `undefined` throws.
   */
  function UserStillNeeds(data: Value): (r: Completion<StillNeeds>)
    ensures data.Bool? ==> r == Normal(Flag(data.b))
    ensures r.Normal? && r.value.Flag? ==> data.Bool?
    ensures r.Abrupt? <==> data.Undefined? || data.Null?
    ensures r == Normal(Tasks([1])) <==>
      data.Obj? && "district" in Keys(data.entries) && !Truthy(Lookup(data.entries, "district").value)
    ensures r.Normal? && !data.Bool? ==> r.value.Tasks? && r.value.tasks in {[], [1]}
  {
    if data.Bool? then Normal(Flag(data.b))
    else
      match HasOwnProperty(data, "district")
      case None => Abrupt(TypeError)
      case Some(has) =>
        if has && !Truthy(Get(data, "district").value) then Normal(Tasks([1])) else Normal(Tasks([]))
  }

  // ---------------------------------------------------------------- properties

  lemma ServiceOfInjective(a: string, b: string)
    requires ServiceOf(a) == ServiceOf(b)
    ensures a == b
  {
    assert a == ServiceOf(a)[|TokenService|..];
    assert b == ServiceOf(b)[|TokenService|..];
  }

  /** A stored token reads back: any value for a keychain kind, any string for the access token. */
  lemma TokenRoundTrip(w: World, kind: string, value: Value)
    requires IsKeychainKind(kind) || (kind == "access" && value.Str?)
    ensures GetToken(SetTokenW(w, kind, value), kind) == Normal(value)
  {
  }

  /** Setting one kind leaves every other kind as it was. */
  lemma TokenKindsIndependent(w: World, kind: string, other: string, value: Value)
    requires IsTokenKind(kind) && IsTokenKind(other) && kind != other
    ensures GetToken(SetTokenW(w, kind, value), other) == GetToken(w, other)
  {
    if IsKeychainKind(kind) && IsKeychainKind(other) {
      if ServiceOf(kind) == ServiceOf(other) {
        ServiceOfInjective(kind, other);
      }
    }
  }

  /** The refresh request carries the refresh token as JSON: `{"refresh": token}`, or `{}` when none is stored. */
  lemma RefreshBody(w: World)
    ensures var token := TokenValue(w, "refresh");
      (token.Undefined? ==> RefreshCall(w).body == Str("{}"))
      && (IsJson(token) ==> Parse(RefreshCall(w).body.s) == Some(Obj([Entry("refresh", token)])))
  {
    var token := TokenValue(w, "refresh");
    var es := [Entry("refresh", token)];
    if token.Undefined? {
      assert es[1..] == [];
      assert MemberTexts(es) == [];
    }
    if IsJson(token) {
      var v := Obj([Entry("refresh", token)]);
      assert IsJson(v);
      ParseOfStringify(v);
    }
  }

  /** The next answer is accepted: an ok response whose JSON data is neither null nor undefined. */
  predicate AnswerAccepted(w: World) {
    w.replies != [] && w.replies[0].Respond? && w.replies[0].response.ok
    && JsonBody(w.replies[0].response).Some?
    && !(JsonBody(w.replies[0].response).value.Undefined? || JsonBody(w.replies[0].response).value.Null?)
  }

  /**
   * `RefreshToken` succeeds exactly when the answer is accepted, and then stores the
   * answer's `refresh` property; it never changes the access token, and on failure
   * changes no token at all.
   */
  lemma RefreshTokenOutcome(w: World)
    ensures var (ok, w') := RefreshTokenW(w);
      (ok <==> AnswerAccepted(w))
      && (ok ==> GetToken(w', "refresh") == Normal(Get(JsonBody(w.replies[0].response).value, "refresh").value))
      && (!ok ==> w'.keychain == w.keychain && w'.storage == w.storage)
      && GetToken(w', "access") == GetToken(w, "access")
  {
  }

  /**
   * A refresh keeps both Velnota entries, so the obtain request `Authenticate` sends
   * right after it carries the same tokens it would have carried before.
   */
  lemma RefreshKeepsObtainCall(w: World)
    ensures ObtainCall(RefreshTokenW(w).1) == ObtainCall(w)
  {
    var w' := RefreshTokenW(w).1;
    assert ServiceOf("velnota_access") != ServiceOf("refresh") by { assert |"velnota_access"| != |"refresh"|; }
    assert ServiceOf("velnota_refresh") != ServiceOf("refresh") by { assert |"velnota_refresh"| != |"refresh"|; }
    assert TokenValue(w', "velnota_access") == TokenValue(w, "velnota_access");
    assert TokenValue(w', "velnota_refresh") == TokenValue(w, "velnota_refresh");
  }

  /**
   * `Authenticate`: one fetch when refreshing is enough and not forced (and the
   * result is then true), two otherwise; a false result leaves the access token as
   * it was.
   */
  lemma AuthenticateOutcome(w: World, force: bool)
    ensures var (data, w') := AuthenticateW(w, force);
      (!force && AnswerAccepted(w) ==> data == Bool(true) && |w'.fetches| == |w.fetches| + 1)
      && (force || !AnswerAccepted(w) ==>
            |w'.fetches| == |w.fetches| + 2 && w'.fetches[|w.fetches| + 1].url == w.apiUrl + "users/v1/token/obtain/")
      && (data == Bool(false) ==> GetToken(w', "access") == GetToken(w, "access"))
  {
    RefreshTokenOutcome(w);
    var (refreshed, w1) := RefreshTokenW(w);
    if !refreshed || force {
      var (data, w2) := ObtainW(w1);
      assert OneFetch(w1, ObtainCall(w1), w2.(storage := w1.storage, keychain := w1.keychain));
      assert w2.fetches == w1.fetches + [ObtainCall(w1)];
    }
  }

  /**
   * Forced, `Authenticate` gives true only when the obtain endpoint itself answered
   * with the JSON text `true`: any other result is false or the obtained data.
   */
  lemma AuthenticateForced(w: World)
    ensures var data := AuthenticateW(w, true).0;
      data == Bool(true) ==>
        |w.replies| >= 2 && w.replies[1].Respond? && JsonBody(w.replies[1].response) == Some(Bool(true))
  {
    var (refreshed, w1) := RefreshTokenW(w);
    assert OneFetch(w, RefreshCall(w), w1.(keychain := w.keychain));
    if w.replies != [] {
      assert w1.replies == w.replies[1..];
    }
  }

  /**
   * An accepted obtain answer is returned as the data, its `refresh_token` becomes
   * the refresh token and a string `access_token` the access token.
   */
  lemma ObtainStoresTokens(w: World)
    requires AnswerAccepted(w)
    ensures var data := JsonBody(w.replies[0].response).value;
      ObtainW(w).0 == data
      && GetToken(ObtainW(w).1, "refresh") == Normal(Get(data, "refresh_token").value)
      && (Get(data, "access_token").value.Str? ==> GetToken(ObtainW(w).1, "access") == Normal(Get(data, "access_token").value))
  {
  }

  /**
   * When refreshing fails, or when forced, `Authenticate` gives the obtain answer's
   * outcome: false, with no storage written, for a rejected, non-ok, non-JSON,
   * `null` or `undefined` answer; the data otherwise, after storing its tokens.
   */
  lemma AuthenticateObtains(w: World, force: bool)
    requires force || !AnswerAccepted(w)
    ensures var (data, w') := AuthenticateW(w, force);
      var after := w.(replies := if w.replies == [] then [] else w.replies[1..]);
      (!AnswerAccepted(after) ==> data == Bool(false) && w'.storage == w.storage)
      && (AnswerAccepted(after) ==>
            var answer := JsonBody(after.replies[0].response).value;
            data == answer
            && GetToken(w', "refresh") == Normal(Get(answer, "refresh_token").value)
            && (Get(answer, "access_token").value.Str? ==> GetToken(w', "access") == Normal(Get(answer, "access_token").value)))
  {
    var (refreshed, w1) := RefreshTokenW(w);
    assert OneFetch(w, RefreshCall(w), w1.(keychain := w.keychain));
    assert w1.replies == (if w.replies == [] then [] else w.replies[1..]);
    RefreshTokenOutcome(w);
    assert w1.storage == w.storage;
    var (data, w2) := ObtainW(w1);
    assert OneFetch(w1, ObtainCall(w1), w2.(storage := w1.storage, keychain := w1.keychain));
    if AnswerAccepted(w1) {
      ObtainStoresTokens(w1);
    }
  }

  /**
   * `Logout` clears the access token and the "us.hearye.voting" entry, but the
   * per-kind entries ("us.hearye.votingrefresh" and the Velnota ones) survive it.
   */
  lemma LogoutKeepsKindTokens(w: World, kind: string)
    requires IsKeychainKind(kind)
    ensures GetToken(LogoutW(w), kind) == GetToken(w, kind)
    ensures GetToken(LogoutW(w), "access") == Normal(Null)
    ensures LogoutW(w).nav == w.nav + [SetRoot(LoginRoot)]
  {
    assert |ServiceOf(kind)| > |TokenService|;
  }

  /** `Authenticate` writes no storage key other than the access token. */
  lemma AuthenticateKeepsStorage(w: World, force: bool, key: string)
    requires key != AccessTokenKey
    ensures var w' := AuthenticateW(w, force).1;
      (key in w'.storage <==> key in w.storage) && (key in w.storage ==> w'.storage[key] == w.storage[key])
  {
    var (refreshed, w1) := RefreshTokenW(w);
    assert OneFetch(w, RefreshCall(w), w1.(keychain := w.keychain));
    if !refreshed || force {
      var (data, w2) := ObtainW(w1);
      assert OneFetch(w1, ObtainCall(w1), w2.(storage := w1.storage, keychain := w1.keychain));
    }
  }
}
