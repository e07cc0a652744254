/**
 * `handleWebViewStateChange(navState)`: a web view's navigation to an http(s)
 * address is handed to the system browser through `Linking.openURL`; anything
 * else is ignored.
 */
module WebView {
  import opened Wrappers
  import opened JsStrings
  import opened JsValues
  import opened Platform

  /** The first occurrence of "https://" or of "http://" in the string is at its start. */
  predicate HasWebScheme(url: string) {
    IndexOf(url, "https://") == 0 || IndexOf(url, "http://") == 0
  }

  /**
   * The handler on a navigation state: reading `url` from `undefined` or `null` throws;
   * a falsy url is ignored; a string url with a web scheme is opened; a truthy value
   * without an `indexOf` method (a number, boolean or object) throws on the call.
   */
  function HandleStateChangeW(w: World, navState: Value): (Completion<()>, World) {
    match Get(navState, "url")
    case None => (Abrupt(TypeError), w)
    case Some(url) =>
      if !Truthy(url) then (Normal(()), w)
      else
        match url
        case Str(s) => (Normal(()), if HasWebScheme(s) then w.(links := w.links + [s]) else w)
        case Arr(_) => (Normal(()), w)
        case _ => (Abrupt(TypeError), w)
  }

  method HandleStateChange(s: Services, navState: Value) returns (r: Completion<()>)
    modifies s
    ensures (r, s.State()) == HandleStateChangeW(old(s.State()), navState)
  {
    var url := Get(navState, "url");
    if url.None? {
      return Abrupt(TypeError);
    }
    if !Truthy(url.value) {
      return Normal(());
    }
    match url.value {
      case Str(text) =>
        if HasWebScheme(text) {
          s.OpenUrl(text);
        }
        return Normal(());
      case Arr(_) =>
        return Normal(());
      case _ =>
        return Abrupt(TypeError);
    }
  }

  // ---------------------------------------------------------------- properties

  /** The scheme test is a case-sensitive prefix test for 'https://' or 'http://'. */
  lemma WebSchemeIsPrefix(url: string)
    ensures HasWebScheme(url) <==> StartsWith(url, "https://") || StartsWith(url, "http://")
  {
    IndexOfZeroIsPrefix(url, "https://");
    IndexOfZeroIsPrefix(url, "http://");
  }

  /** A falsy url (missing, null, empty, false, 0) is ignored. */
  lemma FalsyUrlIgnored(w: World, navState: Value)
    requires Get(navState, "url").Some? && !Truthy(Get(navState, "url").value)
    ensures HandleStateChangeW(w, navState) == (Normal(()), w)
  {
  }

  /**
   * A string url is opened exactly once, as it is, when it starts with 'https://' or
   * 'http://', and otherwise nothing happens; nothing else in the world changes.
   */
  lemma StringUrlOutcome(w: World, navState: Value, url: string)
    requires Get(navState, "url") == Some(Str(url))
    ensures var (r, w') := HandleStateChangeW(w, navState);
      r == Normal(())
      && (StartsWith(url, "https://") || StartsWith(url, "http://") ==> w' == w.(links := w.links + [url]))
      && (!(StartsWith(url, "https://") || StartsWith(url, "http://")) ==> w' == w)
  {
    WebSchemeIsPrefix(url);
  }

  lemma NotPrefixAt(s: string, prefix: string, i: nat)
    requires i < |s| && i < |prefix| && s[i] != prefix[i]
    ensures !StartsWith(s, prefix)
  {
    if |prefix| <= |s| {
      assert s[..|prefix|][i] == s[i];
    }
  }

  /** Other schemes are not opened, and neither is an upper-case 'HTTP://'. */
  lemma OtherSchemesIgnored(w: World, navState: Value, url: string)
    requires Get(navState, "url") == Some(Str(url))
    requires url in {"about:blank", "mailto:someone@example.com", "HTTP://x"}
    ensures HandleStateChangeW(w, navState) == (Normal(()), w)
  {
    NotPrefixAt(url, "https://", 0);
    NotPrefixAt(url, "http://", 0);
    WebSchemeIsPrefix(url);
  }
}
