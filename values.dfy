/**
 * JavaScript values as the application sees them: the primitive kinds, arrays and
 * plain objects. An object is the list of its own properties in iteration order;
 * numbers are integral (plus `NaN`, which `parseInt` can produce).
 */
module JsValues {
  import opened Wrappers
  import opened JsStrings

  datatype Value =
    | Undefined
    | Null
    | Bool(b: bool)
    | Num(n: int)
    | NaN
    | Str(s: string)
    | Arr(items: seq<Value>)
    | Obj(entries: seq<Entry>)

  datatype Entry = Entry(key: string, value: Value)

  /** JavaScript truthiness: `undefined`, `null`, `false`, `0`, `NaN` and `''` are falsy. */
  predicate Truthy(v: Value) {
    match v
    case Undefined => false
    case Null => false
    case Bool(b) => b
    case Num(n) => n != 0
    case NaN => false
    case Str(s) => s != ""
    case _ => true
  }

  /** The `typeof` operator; `typeof null` is `'object'`. */
  function TypeOf(v: Value): string {
    match v
    case Undefined => "undefined"
    case Null => "object"
    case Bool(_) => "boolean"
    case Num(_) => "number"
    case NaN => "number"
    case Str(_) => "string"
    case Arr(_) => "object"
    case Obj(_) => "object"
  }

  function Keys(entries: seq<Entry>): (ks: seq<string>)
    ensures |ks| == |entries| && forall i :: 0 <= i < |entries| ==> ks[i] == entries[i].key
  {
    if entries == [] then [] else [entries[0].key] + Keys(entries[1..])
  }

  predicate DistinctKeys(entries: seq<Entry>) {
    forall i, j :: 0 <= i < j < |entries| ==> entries[i].key != entries[j].key
  }

  /**
   * The value of property `key` among `entries`; the last entry with that key wins,
   * which is what reading a property gives after the entries were assigned in order.
   */
  function Lookup(entries: seq<Entry>, key: string): (r: Option<Value>)
    ensures r.Some? <==> key in Keys(entries)
  {
    if entries == [] then None
    else
      var later := Lookup(entries[1..], key);
      assert Keys(entries) == [entries[0].key] + Keys(entries[1..]);
      if later.Some? then later
      else if entries[0].key == key then Some(entries[0].value)
      else None
  }

  /** With distinct keys the value found is the one at the key's position. */
  lemma {:induction false} LookupAt(entries: seq<Entry>, i: nat)
    requires DistinctKeys(entries) && i < |entries|
    ensures Lookup(entries, entries[i].key) == Some(entries[i].value)
  {
    if i > 0 {
      LookupAt(entries[1..], i - 1);
    }
  }

  /** Appending an entry makes it the one found for its key. */
  lemma {:induction false} LookupAppend(entries: seq<Entry>, e: Entry, key: string)
    ensures Lookup(entries + [e], key) == if e.key == key then Some(e.value) else Lookup(entries, key)
  {
    if entries != [] {
      assert (entries + [e])[1..] == entries[1..] + [e];
      LookupAppend(entries[1..], e, key);
    }
  }

  /**
   * `obj[key] = value`: an existing property keeps its position and takes the new
   * value, a new one is appended.
   */
  function SetProp(entries: seq<Entry>, key: string, value: Value): (r: seq<Entry>)
    ensures Keys(r) == if key in Keys(entries) then Keys(entries) else Keys(entries) + [key]
    ensures DistinctKeys(entries) ==> DistinctKeys(r)
  {
    if key in Keys(entries) then Replace(entries, key, value)
    else
      var r := entries + [Entry(key, value)];
      assert Keys(r) == Keys(entries) + [key];
      r
  }

  /** After `obj[key] = value`, reading `key` gives `value` and every other property is unchanged. */
  lemma SetPropLookup(entries: seq<Entry>, key: string, value: Value, k: string)
    ensures Lookup(SetProp(entries, key, value), k) == if k == key then Some(value) else Lookup(entries, k)
  {
    if key in Keys(entries) {
      ReplaceLookup(entries, key, value, k);
    } else {
      LookupAppend(entries, Entry(key, value), k);
    }
  }

  /** Gives every entry named `key` the value `value`. */
  function Replace(entries: seq<Entry>, key: string, value: Value): (r: seq<Entry>)
    ensures Keys(r) == Keys(entries)
  {
    if entries == [] then []
    else
      var r := [if entries[0].key == key then Entry(key, value) else entries[0]] + Replace(entries[1..], key, value);
      assert r[1..] == Replace(entries[1..], key, value);
      r
  }

  lemma {:induction false} ReplaceLookup(entries: seq<Entry>, key: string, value: Value, k: string)
    ensures Lookup(Replace(entries, key, value), k) == if k == key && key in Keys(entries) then Some(value) else Lookup(entries, k)
  {
    if entries != [] {
      var r := Replace(entries, key, value);
      assert r[1..] == Replace(entries[1..], key, value);
      assert Keys(entries) == [entries[0].key] + Keys(entries[1..]);
      ReplaceLookup(entries[1..], key, value, k);
    }
  }

  /**
   * Reading `v[key]` for a key that is not an array index or a built-in property:
   * `None` is the TypeError thrown for `undefined` and `null`; a property missing from
   * an object, and any such property of another primitive or of an array, is `undefined`.
   */
  function Get(v: Value, key: string): (r: Option<Value>)
    ensures r.None? <==> v.Undefined? || v.Null?
    ensures v.Obj? ==> r == Some(if key in Keys(v.entries) then Lookup(v.entries, key).value else Undefined)
  {
    match v
    case Undefined => None
    case Null => None
    case Obj(es) => Some(if key in Keys(es) then Lookup(es, key).value else Undefined)
    case _ => Some(Undefined)
  }

  /** `v.hasOwnProperty(key)` for a non-index key (it throws on `undefined` and `null`). */
  function HasOwnProperty(v: Value, key: string): (r: Option<bool>)
    ensures r.None? <==> v.Undefined? || v.Null?
    ensures r == Some(true) <==> v.Obj? && key in Keys(v.entries)
  {
    match v
    case Undefined => None
    case Null => None
    case Obj(es) => Some(key in Keys(es))
    case _ => Some(false)
  }

  /** The own enumerable properties that object spread (`{...v}`) copies from `v`. */
  function OwnEntries(v: Value): seq<Entry> {
    match v
    case Obj(es) => es
    case Str(s) => seq(|s|, i requires 0 <= i < |s| => Entry(IntToString(i), Str([s[i]])))
    case Arr(items) => seq(|items|, i requires 0 <= i < |items| => Entry(IntToString(i), items[i]))
    case _ => []
  }

  /** Assigns `entries` one after the other onto `target`. */
  function AssignEntries(target: seq<Entry>, entries: seq<Entry>): seq<Entry>
    decreases |entries|
  {
    if entries == [] then target
    else AssignEntries(SetProp(target, entries[0].key, entries[0].value), entries[1..])
  }

  /** After the assignments a property has its last assigned value, or its old one if none was assigned. */
  lemma {:induction false} AssignLookup(target: seq<Entry>, entries: seq<Entry>, k: string)
    ensures Lookup(AssignEntries(target, entries), k)
         == if Lookup(entries, k).Some? then Lookup(entries, k) else Lookup(target, k)
    decreases |entries|
  {
    if entries != [] {
      var next := SetProp(target, entries[0].key, entries[0].value);
      AssignLookup(next, entries[1..], k);
      SetPropLookup(target, entries[0].key, entries[0].value, k);
    }
  }

  /** Assigning properties one by one never gives an object two properties of the same name. */
  lemma {:induction false} AssignKeepsDistinct(target: seq<Entry>, entries: seq<Entry>)
    requires DistinctKeys(target)
    ensures DistinctKeys(AssignEntries(target, entries))
    decreases |entries|
  {
    if entries != [] {
      AssignKeepsDistinct(SetProp(target, entries[0].key, entries[0].value), entries[1..]);
    }
  }

  /** `{...target, ...source}` where `target` is a plain object's properties. */
  function Spread(target: seq<Entry>, source: Value): seq<Entry> {
    AssignEntries(target, OwnEntries(source))
  }

  /** `String(v)`, as a template literal `${v}` renders it. */
  function ToStr(v: Value): string {
    match v
    case Undefined => "undefined"
    case Null => "null"
    case Bool(b) => if b then "true" else "false"
    case Num(n) => IntToString(n)
    case NaN => "NaN"
    case Str(s) => s
    case Arr(items) => ArrayText(items)
    case Obj(_) => "[object Object]"
  }

  /** `items.join(',')`, where `null` and `undefined` elements render as ''. */
  function ArrayText(items: seq<Value>): string
    decreases items
  {
    if items == [] then ""
    else
      var first := if items[0].Undefined? || items[0].Null? then "" else ToStr(items[0]);
      if |items| == 1 then first else first + "," + ArrayText(items[1..])
  }
}
