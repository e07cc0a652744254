/**
 * The base URL every API path is appended to. In development it is the
 * configured `LOCAL_API_URL` (or `http://localhost:8001` when that is unset or
 * empty) with one trailing slash dropped; otherwise it is `https://hearye.us`.
 * Either way `/api/` follows.
 */
module Url {
  import opened Wrappers
  import opened JsStrings

  const DefaultLocalUrl := "http://localhost:8001"
  const ProductionUrl := "https://hearye.us"

  /** The configured local URL when it is truthy (set and not empty), else the default. */
  function LocalBase(configured: Option<string>): string {
    if configured.Some? && configured.value != "" then configured.value else DefaultLocalUrl
  }

  /** `getLocalUrl()`: the local base with at most one trailing '/' removed. */
  function LocalUrl(configured: Option<string>): (r: string)
    ensures var base := LocalBase(configured);
      (EndsWith(base, "/") ==> base == r + "/") && (!EndsWith(base, "/") ==> r == base)
  {
    var base := LocalBase(configured);
    if EndsWith(base, "/") then base[..|base| - 1] else base
  }

  /** The exported `url`: the development or production base followed by `/api/`. */
  function ApiUrl(dev: bool, configured: Option<string>): (r: string)
    ensures EndsWith(r, "/api/")
    ensures !dev ==> r == "https://hearye.us/api/"
    ensures dev ==> r == LocalUrl(configured) + "/api/"
  {
    (if dev then LocalUrl(configured) else ProductionUrl) + "/api/"
  }

  /** An unset or empty `LOCAL_API_URL` gives `http://localhost:8001/api/` in development. */
  lemma ApiUrlDefault(configured: Option<string>)
    requires configured.None? || configured == Some("")
    ensures ApiUrl(true, configured) == "http://localhost:8001/api/"
  {
    assert !EndsWith(DefaultLocalUrl, "/");
  }

  /**
   * Only one trailing slash goes: the local URL still ends in '/' exactly when the
   * base ended in "//", so a base without "//" at its end never doubles the slash
   * before "api/".
   */
  lemma LocalUrlJoin(configured: Option<string>)
    ensures EndsWith(LocalUrl(configured), "/") <==> EndsWith(LocalBase(configured), "//")
  {
    StripOneSlash(LocalBase(configured));
  }

  lemma StripOneSlash(base: string)
    ensures var local := if EndsWith(base, "/") then base[..|base| - 1] else base;
      EndsWith(local, "/") <==> EndsWith(base, "//")
  {
    if |base| >= 1 && base[|base| - 1] == '/' {
      assert EndsWith(base, "/");
    }
    if EndsWith(base, "/") {
      assert base[|base| - 1] == '/';
    }
  }

  /** A configured URL without a trailing slash is used unchanged. */
  lemma LocalUrlKeeps(configured: string)
    requires configured != "" && !EndsWith(configured, "/")
    ensures ApiUrl(true, Some(configured)) == configured + "/api/"
  {
  }
}
