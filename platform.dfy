/**
 * The native services the application talks to, as abstract collaborators:
 * AsyncStorage as a string-to-string map, the keychain as a map from service name
 * to credential, `fetch` as a script of replies consumed in order, and navigation,
 * alerts and `Linking.openURL` as logs of the calls made.
 *
 * `World` is a snapshot of all of it. Each operation has a function on `World`
 * that says what it does, and a method on `Services` that does it in place.
 */
module Platform {
  import opened Wrappers
  import opened JsValues
  import Json

  /**
   * A fetch response: `ok`, the `statusCode` property the application reads
   * (a standard fetch `Response` keeps its code in `status` and has no
   * `statusCode`, which is `None` here), `statusText`, and the body text that
   * `response.json()` parses.
   */
  datatype Response = Response(ok: bool, statusCode: Option<int>, statusText: string, text: string)

  /** `response.json()`: the body parsed as JSON; `None` is the SyntaxError it rejects with. */
  function JsonBody(r: Response): Option<Value> {
    Json.Parse(r.text)
  }

  /** How one `fetch` settles: with a response, or rejected (network failure). */
  datatype Reply = Respond(response: Response) | Reject

  /** One `fetch(url, {method, headers, body})` call. */
  datatype FetchCall = FetchCall(url: string, verb: string, headers: seq<Entry>, body: Value)

  datatype Root = LoginRoot | DashboardRoot

  /** Calls into `Navigation`. */
  datatype NavCall =
    | SetRoot(root: Root)
    | ShowModal(name: string)
    | DismissModal(componentId: Value)
    | Push(componentId: Value, name: string, props: seq<Entry>)

  /** What `Keychain.setGenericPassword(username, password)` stores. */
  datatype Credential = Credential(username: string, password: Value)

  /** The kinds of the errors the modelled code throws or lets through. */
  datatype ErrorKind = GenericApi | BadRequest | Forbidden | Server

  datatype Exception =
    /** An `ApiError` of the request pipeline (or one of its subclasses), carrying the response. */
    | ApiError(kind: ErrorKind, message: string, response: Response)
    /** A property read on `undefined`/`null`, or a call of something that is not a function. */
    | TypeError
    /** `JSON.parse` of text that is not JSON. */
    | SyntaxError
    /** A rejected `fetch`. */
    | NetworkError
    /** `throw Error(message)`. */
    | Error(message: string)

  /** How an operation completes: normally with a value, or by throwing. */
  datatype Completion<+T> = Normal(value: T) | Abrupt(thrown: Exception)

  datatype World = World(
    apiUrl: string,
    storage: map<string, string>,
    keychain: map<string, Credential>,
    replies: seq<Reply>,
    fetches: seq<FetchCall>,
    nav: seq<NavCall>,
    alerts: seq<string>,
    links: seq<string>)

  /** `fetch`: logs the call and settles with the next scripted reply; an exhausted script rejects. */
  function FetchW(w: World, call: FetchCall): (r: (Reply, World))
    ensures r.1 == w.(replies := r.1.replies, fetches := w.fetches + [call])
    ensures w.replies == [] ==> r.0 == Reject && r.1.replies == []
    ensures w.replies != [] ==> r.0 == w.replies[0] && r.1.replies == w.replies[1..]
  {
    if w.replies == [] then (Reject, w.(fetches := w.fetches + [call]))
    else (w.replies[0], w.(replies := w.replies[1..], fetches := w.fetches + [call]))
  }

  function NavigateW(w: World, call: NavCall): (r: World)
    ensures r == w.(nav := w.nav + [call])
  {
    w.(nav := w.nav + [call])
  }

  function AlertW(w: World, title: string): (r: World)
    ensures r == w.(alerts := w.alerts + [title])
  {
    w.(alerts := w.alerts + [title])
  }

  class Services {
    const apiUrl: string
    var storage: map<string, string>
    var keychain: map<string, Credential>
    var replies: seq<Reply>
    var fetches: seq<FetchCall>
    var nav: seq<NavCall>
    var alerts: seq<string>
    var links: seq<string>

    function State(): World
      reads this
    {
      World(apiUrl, storage, keychain, replies, fetches, nav, alerts, links)
    }

    constructor (apiUrl: string, storage: map<string, string>, keychain: map<string, Credential>, replies: seq<Reply>)
      ensures State() == World(apiUrl, storage, keychain, replies, [], [], [], [])
    {
      this.apiUrl := apiUrl;
      this.storage := storage;
      this.keychain := keychain;
      this.replies := replies;
      fetches := [];
      nav := [];
      alerts := [];
      links := [];
    }

    /** `AsyncStorage.setItem(key, value)`. */
    method SetItem(key: string, value: string)
      modifies this
      ensures State() == old(State()).(storage := old(storage)[key := value])
    {
      storage := storage[key := value];
    }

    /** `AsyncStorage.removeItem(key)`. */
    method RemoveItem(key: string)
      modifies this
      ensures State() == old(State()).(storage := old(storage) - {key})
    {
      storage := storage - {key};
    }

    /** `Keychain.setGenericPassword(username, password, {service})`. */
    method SetGenericPassword(username: string, password: Value, service: string)
      modifies this
      ensures State() == old(State()).(keychain := old(keychain)[service := Credential(username, password)])
    {
      keychain := keychain[service := Credential(username, password)];
    }

    /** `Keychain.resetGenericPassword({service})`. */
    method ResetGenericPassword(service: string)
      modifies this
      ensures State() == old(State()).(keychain := old(keychain) - {service})
    {
      keychain := keychain - {service};
    }

    method Fetch(call: FetchCall) returns (reply: Reply)
      modifies this
      ensures (reply, State()) == FetchW(old(State()), call)
    {
      fetches := fetches + [call];
      if replies == [] {
        reply := Reject;
      } else {
        reply := replies[0];
        replies := replies[1..];
      }
    }

    method Navigate(call: NavCall)
      modifies this
      ensures State() == NavigateW(old(State()), call)
    {
      nav := nav + [call];
    }

    /** `Alert.alert(title, ...)`. */
    method Alert(title: string)
      modifies this
      ensures State() == AlertW(old(State()), title)
    {
      alerts := alerts + [title];
    }

    /** `Linking.openURL(url)`. */
    method OpenUrl(url: string)
      modifies this
      ensures State() == old(State()).(links := old(links) + [url])
    {
      links := links + [url];
    }
  }
}
