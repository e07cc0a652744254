/**
 * The app-launched listener: authenticate (forcing a fresh token), choose the
 * navigation root from the result, and open the district-selection modal when
 * the account still has to choose a district.
 */
module Launch {
  import opened Wrappers
  import opened JsValues
  import opened Platform
  import opened Auth

  const DistrictModal := "SELECT_DISTRICT_MODAL"

  /** The root shown for the result of `Authenticate(true)`. */
  function RootFor(data: Value): Root {
    if Truthy(data) then DashboardRoot else LoginRoot
  }

  function LaunchW(w: World): (Completion<()>, World) {
    var (data, w1) := AuthenticateW(w, true);
    var w2 := NavigateW(w1, SetRoot(RootFor(data)));
    match UserStillNeeds(data)
    case Abrupt(e) => (Abrupt(e), w2)
    case Normal(Flag(_)) => (Normal(()), w2)
    case Normal(Tasks(tasks)) => (Normal(()), if 1 in tasks then NavigateW(w2, ShowModal(DistrictModal)) else w2)
  }

  method AppLaunched(s: Services) returns (r: Completion<()>)
    modifies s
    ensures (r, s.State()) == LaunchW(old(s.State()))
  {
    var data := Authenticate(s, true);
    s.Navigate(SetRoot(RootFor(data)));
    var stillNeeds := UserStillNeeds(data);
    match stillNeeds {
      case Abrupt(e) => return Abrupt(e);
      case Normal(Flag(_)) => return Normal(());
      case Normal(Tasks(tasks)) =>
        if 1 in tasks {
          s.Navigate(ShowModal(DistrictModal));
        }
        return Normal(());
    }
  }

  // ---------------------------------------------------------------- properties

  /** `Authenticate` never resolves to `undefined` or `null`: `false`, `true`, or the obtained data object. */
  lemma AuthenticateNotNullish(w: World, force: bool)
    ensures var data := AuthenticateW(w, force).0;
      !data.Undefined? && !data.Null?
  {
    var (refreshed, w1) := RefreshTokenW(w);
    if !refreshed || force {
      var (reply, w2) := FetchW(w1, ObtainCall(w1));
      if reply.Respond? && reply.response.ok && JsonBody(reply.response).Some? {
        var data := JsonBody(reply.response).value;
        assert Get(data, "access_token").None? <==> data.Undefined? || data.Null?;
      }
    }
  }

  /**
   * Launch authenticates once, with force, before navigating: it makes the two token
   * calls (refresh, then obtain) and only then sets the root (dashboard exactly when
   * the result is truthy), then at most the district modal. It never throws.
   */
  lemma LaunchNavigation(w: World)
    ensures var (data, w1) := AuthenticateW(w, true);
      var (r, w') := LaunchW(w);
      r == Normal(())
      && w'.fetches == w1.fetches && |w'.fetches| == |w.fetches| + 2
      && w'.fetches[|w.fetches| + 1].url == w.apiUrl + "users/v1/token/obtain/"
      && (w'.nav == w.nav + [SetRoot(RootFor(data))] || w'.nav == w.nav + [SetRoot(RootFor(data)), ShowModal(DistrictModal)])
      && (RootFor(data) == DashboardRoot <==> Truthy(data))
  {
    AuthenticateNotNullish(w, true);
    AuthenticateOutcome(w, true);
  }

  /**
   * The modal is shown exactly when the authentication data is an object with an own,
   * falsy `district`; a boolean result (including a failed authentication) never shows it.
   */
  lemma ModalWhenDistrictMissing(w: World)
    ensures var (data, w1) := AuthenticateW(w, true);
      var w' := LaunchW(w).1;
      (w'.nav == w.nav + [SetRoot(RootFor(data)), ShowModal(DistrictModal)] <==>
         data.Obj? && "district" in Keys(data.entries) && !Truthy(Lookup(data.entries, "district").value))
      && (data.Bool? ==> w'.nav == w.nav + [SetRoot(RootFor(data))])
  {
    AuthenticateNotNullish(w, true);
    var (data, w1) := AuthenticateW(w, true);
    var nav := w.nav + [SetRoot(RootFor(data))];
    assert nav != nav + [ShowModal(DistrictModal)];
  }
}
