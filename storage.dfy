/**
 * The typed wrapper over AsyncStorage. `set` turns a value into text by its
 * `typeof` (strings verbatim, booleans as '1'/'0', numbers as their decimal
 * text, objects, arrays and `null` as JSON) and writes nothing for any other
 * kind; the getters read the text back, and a missing key or a text the
 * decoder rejects gives `null`.
 */
module Storage {
  import opened Wrappers
  import opened JsStrings
  import opened JsValues
  import opened Json
  import opened Platform

  /** The text `set` writes for `value`; `None` when it writes nothing (`undefined`). */
  function Encode(value: Value): (r: Option<string>)
    ensures r.None? <==> value.Undefined?
    ensures TypeOf(value) == "object" ==> r == Stringify(value)
  {
    match value
    case Undefined => None
    case Str(s) => Some(s)
    case Bool(b) => Some(if b then "1" else "0")
    case Num(n) => Some(IntToString(n))
    case NaN => Some("NaN")
    case _ => Stringify(value)
  }

  /** `Storage.set(key, value)`. */
  function SetW(w: World, key: string, value: Value): World {
    match Encode(value)
    case None => w
    case Some(text) => w.(storage := w.storage[key := text])
  }

  /** `Storage.delete(key)`. */
  function DeleteW(w: World, key: string): World {
    w.(storage := w.storage - {key})
  }

  method Set(s: Services, key: string, value: Value)
    modifies s
    ensures s.State() == SetW(old(s.State()), key, value)
  {
    var text := Encode(value);
    if text.Some? {
      s.SetItem(key, text.value);
    }
  }

  method Delete(s: Services, key: string)
    modifies s
    ensures s.State() == DeleteW(old(s.State()), key)
  {
    s.RemoveItem(key);
  }

  /** `Storage.getString(key)`: the stored text, or `null`. */
  function GetString(w: World, key: string): (r: Value)
    ensures r == Null <==> key !in w.storage
    ensures r.Str? || r.Null?
  {
    if key in w.storage then Str(w.storage[key]) else Null
  }

  /**
   * `utilHandler(key, handler)`: `null` for a missing key, else what the handler
   * makes of the text; `None` from the handler is an exception, caught as `null`.
   */
  function UtilHandler(w: World, key: string, handler: string -> Option<Value>): Value {
    if key !in w.storage then Null
    else
      match handler(w.storage[key])
      case None => Null
      case Some(v) => v
  }

  function BooleanOf(text: string): Option<Value> {
    Some(Bool(text == "1"))
  }

  function NumberOf(text: string): Option<Value> {
    Some(match ParseInt(text) case None => NaN case Some(n) => Num(n))
  }

  function ObjectOf(text: string): Option<Value> {
    Parse(text)
  }

  /** `Storage.getBoolean(key)`: whether the text is '1'. */
  function GetBoolean(w: World, key: string): (r: Value)
    ensures r == Null <==> key !in w.storage
    ensures key in w.storage ==> r == Bool(w.storage[key] == "1")
  {
    UtilHandler(w, key, BooleanOf)
  }

  /** `Storage.getNumber(key)`: `parseInt` of the text in radix 10. */
  function GetNumber(w: World, key: string): (r: Value)
    ensures r == Null <==> key !in w.storage
    ensures r.Null? || r.Num? || r.NaN?
  {
    UtilHandler(w, key, NumberOf)
  }

  /** `Storage.getObject(key)`: `JSON.parse` of the text; text that is not JSON reads as `null`. */
  function GetObject(w: World, key: string): (r: Value)
    ensures key !in w.storage ==> r == Null
    ensures key in w.storage && Parse(w.storage[key]).None? ==> r == Null
    ensures key in w.storage && Parse(w.storage[key]).Some? ==> r == Parse(w.storage[key]).value
  {
    UtilHandler(w, key, ObjectOf)
  }

  // ---------------------------------------------------------------- properties

  /** A missing key reads as `null` whatever the decoder. */
  lemma UtilHandlerMissing(w: World, key: string, handler: string -> Option<Value>)
    requires key !in w.storage
    ensures UtilHandler(w, key, handler) == Null
  {
  }

  /** Writing `undefined` changes nothing. */
  lemma SetUndefined(w: World, key: string)
    ensures SetW(w, key, Undefined) == w
  {
  }

  /** `set` touches only its own key and only the storage. */
  lemma SetFrame(w: World, key: string, value: Value, other: string)
    requires other != key
    ensures var w' := SetW(w, key, value);
      w' == w.(storage := w'.storage)
      && (other in w'.storage <==> other in w.storage)
      && (other in w.storage ==> w'.storage[other] == w.storage[other])
  {
  }

  lemma StringRoundTrip(w: World, key: string, s: string)
    ensures GetString(SetW(w, key, Str(s)), key) == Str(s)
  {
  }

  lemma BooleanRoundTrip(w: World, key: string, b: bool)
    ensures GetBoolean(SetW(w, key, Bool(b)), key) == Bool(b)
  {
  }

  /** Integers, and `NaN`, read back as themselves. */
  lemma NumberRoundTrip(w: World, key: string, value: Value)
    requires value.Num? || value.NaN?
    ensures GetNumber(SetW(w, key, value), key) == value
  {
    var text := Encode(value).value;
    var w' := SetW(w, key, value);
    assert key in w'.storage && w'.storage[key] == text;
    assert NumberOf(text) == Some(value) by {
      NumberOfEncode(value);
    }
  }

  lemma NumberOfEncode(value: Value)
    requires value.Num? || value.NaN?
    ensures Encode(value).Some? && NumberOf(Encode(value).value) == Some(value)
  {
    if value.Num? {
      assert ParseInt(IntToString(value.n)) == Some(value.n) by {
        ParseIntOfIntToString(value.n);
      }
    } else {
      ParseIntOfNaN();
    }
  }

  /** `parseInt('NaN', 10)` is `NaN`. */
  lemma ParseIntOfNaN()
    ensures ParseInt("NaN") == None
  {
    var t := "NaN";
    assert !IsJsWhiteSpace(t[0]);
    assert TrimStart(t) == t;
    assert !IsDigit(t[0]);
    assert LeadingDigits(t) == 0;
    assert ParseDigits(t) == None;
  }

  /** Objects, arrays and `null` that JSON can carry read back as themselves. */
  lemma ObjectRoundTrip(w: World, key: string, value: Value)
    requires TypeOf(value) == "object" && IsJson(value)
    ensures GetObject(SetW(w, key, value), key) == value
  {
    ParseOfStringify(value);
  }

  /** After `delete` every getter reads `null`, and the other keys keep their text. */
  lemma DeleteReadsNull(w: World, key: string, other: string)
    ensures var w' := DeleteW(w, key);
      GetString(w', key) == Null && GetBoolean(w', key) == Null
      && GetNumber(w', key) == Null && GetObject(w', key) == Null
      && (other != key ==> GetString(w', other) == GetString(w, other))
  {
  }
}
