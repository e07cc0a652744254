/**
 * The district-selection modal: reading the district under the map's centre,
 * the confirmation guard, and the registration it sends. The map query is a
 * parameter (`features` is what `queryRenderedFeaturesAtPoint` resolves to), and so
 * is the user's answer to the confirmation dialog.
 */
module SelectDistrict {
  import opened Wrappers
  import opened JsStrings
  import opened JsValues
  import opened Platform
  import opened Storage
  import opened Api

  const InvalidDistrict := "Invalid district"
  const NoDistrictYet := "You must select a district first!"
  const ConfirmDistrict := "Confirm District"
  const RegistrationFailed := "Invalid district (if your state was just redrawn, you may need to wait)"
  const RegistrationPath := "users/v1/finish-registration/"

  /** The screen's state cells `districtProps`, `showConfirm` and `followUser`. */
  datatype PickerState = PickerState(districtProps: Value, showConfirm: bool, followUser: bool)

  /**
   * `displayLocation` once the query has resolved: follow mode is switched off; no
   * feature alerts; otherwise the first feature's `properties` become `districtProps`
   * and, once its `Code` has been read for the highlight, the confirmation shows.
   */
  function DisplayLocationW(st: PickerState, w: World, features: seq<Value>): (Completion<()>, PickerState, World) {
    var st1 := st.(followUser := false);
    if |features| == 0 then (Normal(()), st1, AlertW(w, InvalidDistrict))
    else
      match Get(features[0], "properties")
      case None => (Abrupt(TypeError), st1, w)
      case Some(props) =>
        var st2 := st1.(districtProps := props);
        if Get(props, "Code").None? then (Abrupt(TypeError), st2, w)
        else (Normal(()), st2.(showConfirm := true), w)
  }

  /** `let [state, district] = code.split('-')`, with the district 'AL' (at large) sent as 0. */
  function RegistrationFields(code: string): (Value, Value) {
    var parts := Split(code, '-');
    var district := if |parts| >= 2 then Str(parts[1]) else Undefined;
    (Str(parts[0]), if district == Str("AL") then Num(0) else district)
  }

  /** The options `{body: {state, district}}` of the registration request. */
  function RegistrationOptions(code: string): Value {
    var (state, district) := RegistrationFields(code);
    Obj([Entry("body", Obj([Entry("state", state), Entry("district", district)]))])
  }

  /**
   * `sendRegistration`: store the selection under 'district', split its `Code` (a
   * missing or non-string `Code` throws), then POST it; success dismisses the modal,
   * any failure only alerts.
   */
  function SendRegistrationW(props: Value, w: World, componentId: Value): (Completion<()>, World) {
    var w1 := SetW(w, "district", props);
    match Get(props, "Code")
    case None => (Abrupt(TypeError), w1)
    case Some(code) =>
      if !code.Str? then (Abrupt(TypeError), w1)
      else
        var (r, w2) := RequestW(w1, RegistrationPath, "POST", RegistrationOptions(code.s));
        if r.Normal? then (Normal(()), NavigateW(w2, DismissModal(componentId)))
        else (Normal(()), AlertW(w2, RegistrationFailed))
  }

  /**
   * `finalizeDistrict`: without a selection only an alert; otherwise the
   * confirmation dialog (whose text reads `districtProps.District`), and, when the
   * user presses OK, the registration.
   */
  function FinalizeDistrictW(st: PickerState, w: World, componentId: Value, confirmed: bool): (Completion<()>, World) {
    if st.districtProps == Null then (Normal(()), AlertW(w, NoDistrictYet))
    else if st.districtProps.Undefined? then (Abrupt(TypeError), w)
    else
      var w1 := AlertW(w, ConfirmDistrict);
      if confirmed then SendRegistrationW(st.districtProps, w1, componentId) else (Normal(()), w1)
  }

  class DistrictPicker {
    var districtProps: Value
    var showConfirm: bool
    var followUser: bool

    function State(): PickerState
      reads this
    {
      PickerState(districtProps, showConfirm, followUser)
    }

    constructor ()
      ensures State() == PickerState(Null, false, false)
    {
      districtProps := Null;
      showConfirm := false;
      followUser := false;
    }

    method DisplayLocation(s: Services, features: seq<Value>) returns (r: Completion<()>)
      modifies this, s
      ensures (r, State(), s.State()) == DisplayLocationW(old(State()), old(s.State()), features)
    {
      followUser := false;
      if |features| == 0 {
        s.Alert(InvalidDistrict);
        return Normal(());
      }
      var props := Get(features[0], "properties");
      if props.None? {
        return Abrupt(TypeError);
      }
      districtProps := props.value;
      if Get(props.value, "Code").None? {
        return Abrupt(TypeError);
      }
      showConfirm := true;
      return Normal(());
    }

    method SendRegistration(s: Services, componentId: Value) returns (r: Completion<()>)
      modifies s
      ensures (r, s.State()) == SendRegistrationW(districtProps, old(s.State()), componentId)
    {
      Set(s, "district", districtProps);
      var code := Get(districtProps, "Code");
      if code.None? || !code.value.Str? {
        return Abrupt(TypeError);
      }
      var sent := Request(s, RegistrationPath, "POST", RegistrationOptions(code.value.s));
      if sent.Normal? {
        s.Navigate(DismissModal(componentId));
      } else {
        s.Alert(RegistrationFailed);
      }
      return Normal(());
    }

    method FinalizeDistrict(s: Services, componentId: Value, confirmed: bool) returns (r: Completion<()>)
      modifies s
      ensures (r, s.State()) == FinalizeDistrictW(State(), old(s.State()), componentId, confirmed)
    {
      if districtProps == Null {
        s.Alert(NoDistrictYet);
        return Normal(());
      }
      if districtProps.Undefined? {
        return Abrupt(TypeError);
      }
      s.Alert(ConfirmDistrict);
      if confirmed {
        r := SendRegistration(s, componentId);
      } else {
        r := Normal(());
      }
    }
  }

  // ---------------------------------------------------------------- properties

  /** An empty query alerts 'Invalid district' and keeps the selection and the dialog as they were. */
  lemma EmptyQueryAlerts(st: PickerState, w: World)
    ensures var (r, st', w') := DisplayLocationW(st, w, []);
      r == Normal(()) && st'.districtProps == st.districtProps && st'.showConfirm == st.showConfirm
      && !st'.followUser && w' == w.(alerts := w.alerts + [InvalidDistrict])
  {
  }

  /**
   * A query whose first feature is an object with an object `properties` selects
   * those properties and shows the confirmation, with no alert or other effect.
   */
  lemma FirstFeatureSelected(st: PickerState, w: World, features: seq<Value>, props: seq<Entry>)
    requires |features| >= 1 && features[0].Obj?
    requires "properties" in Keys(features[0].entries) && Lookup(features[0].entries, "properties") == Some(Obj(props))
    ensures var (r, st', w') := DisplayLocationW(st, w, features);
      r == Normal(()) && st' == PickerState(Obj(props), true, false) && w' == w
  {
  }

  /** Without a selection, finalizing alerts once and sends, stores and navigates nothing. */
  lemma FinalizeWithoutSelection(st: PickerState, w: World, componentId: Value, confirmed: bool)
    requires st.districtProps == Null
    ensures var (r, w') := FinalizeDistrictW(st, w, componentId, confirmed);
      r == Normal(()) && w' == w.(alerts := w.alerts + [NoDistrictYet])
      && w'.fetches == w.fetches && w'.storage == w.storage && w'.nav == w.nav
  {
  }

  /** Cancelling the dialog registers nothing: the only effect is the dialog's alert. */
  lemma FinalizeCancelled(st: PickerState, w: World, componentId: Value)
    requires !st.districtProps.Null? && !st.districtProps.Undefined?
    ensures FinalizeDistrictW(st, w, componentId, false) == (Normal(()), w.(alerts := w.alerts + [ConfirmDistrict]))
  {
  }

  /**
   * A code `state-district[-...]` sends its first piece as the state and its second as
   * the district, except that 'AL' is sent as 0.
   */
  lemma {:induction false} RegistrationParsing(state: string, district: string, tail: string)
    requires '-' !in state && '-' !in district
    requires tail == [] || tail[0] == '-'
    ensures RegistrationFields(state + "-" + district + tail) ==
      (Str(state), if district == "AL" then Num(0) else Str(district))
  {
    assert state + "-" + district + tail == state + ['-'] + (district + tail);
    SplitPrefix(state, district + tail, '-');
    if tail == [] {
      assert district + tail == district;
      SplitOfSeparatorFree(district, '-');
    } else {
      assert district + tail == district + ['-'] + tail[1..];
      SplitPrefix(district, tail[1..], '-');
    }
  }

  /** A code without '-' is sent whole as the state, with an undefined district (dropped from the JSON body). */
  lemma CodeWithoutDash(code: string)
    requires '-' !in code
    ensures RegistrationFields(code) == (Str(code), Undefined)
  {
    SplitOfSeparatorFree(code, '-');
  }

  /**
   * The selection is in storage under 'district' once `sendRegistration` is done
   * whatever the request did, and an object selection reads back as itself.
   */
  lemma DistrictStored(props: Value, w: World, componentId: Value)
    requires props.Obj? && Json.IsJson(props)
    ensures var w' := SendRegistrationW(props, w, componentId).1;
      GetObject(w', "district") == props
  {
    var w1 := SetW(w, "district", props);
    assert GetObject(w1, "district") == props by {
      ObjectRoundTrip(w, "district", props);
    }
    var w' := SendRegistrationW(props, w, componentId).1;
    assert "district" in w'.storage && w'.storage["district"] == w1.storage["district"] by {
      var code := Get(props, "Code");
      if code.Some? && code.value.Str? {
        var (r, w2) := RequestW(w1, RegistrationPath, "POST", RegistrationOptions(code.value.s));
        RequestKeepsStorage(w1, RegistrationPath, "POST", RegistrationOptions(code.value.s), "district");
        assert w'.storage == w2.storage;
      }
    }
    assert w'.storage["district"] == w1.storage["district"];
  }

  /**
   * With a string `Code`, the request goes out after the store; a normal completion
   * dismisses the modal exactly once, and a thrown one alerts the failure text
   * without navigating.
   */
  lemma RegistrationOutcome(props: Value, w: World, componentId: Value, code: string)
    requires Get(props, "Code") == Some(Str(code))
    ensures var (r, w2) := RequestW(SetW(w, "district", props), RegistrationPath, "POST", RegistrationOptions(code));
      var (done, w') := SendRegistrationW(props, w, componentId);
      done == Normal(())
      && (r.Normal? ==> w' == w2.(nav := w2.nav + [DismissModal(componentId)]))
      && (r.Abrupt? ==> w' == w2.(alerts := w2.alerts + [RegistrationFailed]))
  {
  }

  /** An accepted registration: one POST to the registration path, then the modal is dismissed. */
  lemma RegistrationAccepted(props: Value, w: World, componentId: Value, code: string)
    requires Get(props, "Code") == Some(Str(code))
    requires w.replies != [] && w.replies[0].Respond? && w.replies[0].response.ok
    ensures var w0 := SetW(w, "district", props);
      SendRegistrationW(props, w, componentId) ==
        (Normal(()), w0.(replies := w.replies[1..],
                         fetches := w.fetches + [RequestCall(w0, RegistrationPath, "POST", RegistrationOptions(code))],
                         nav := w.nav + [DismissModal(componentId)]))
  {
    var w0 := SetW(w, "district", props);
    RequestOk(w0, RegistrationPath, "POST", RegistrationOptions(code));
  }

  /** A missing or non-string `Code` throws after the store, before any request. */
  lemma RegistrationWithoutCode(props: Value, w: World, componentId: Value)
    requires Get(props, "Code").None? || !Get(props, "Code").value.Str?
    ensures SendRegistrationW(props, w, componentId) == (Abrupt(TypeError), SetW(w, "district", props))
  {
  }
}
