/**
 * `JSON.stringify` and `JSON.parse` on the values of `JsValues`, for integral numbers.
 * `Stringify` writes the text `JSON.stringify` writes (compact, `NaN` as `null`,
 * `undefined` properties dropped from objects and written as `null` in arrays);
 * `Parse` reads JSON text with integral numbers. The two form an encode/decode pair:
 * `Parse(Stringify(v))` gives back every value that JSON can carry.
 */
module Json {
  import opened Wrappers
  import opened JsStrings
  import opened JsValues

  // ---------------------------------------------------------------- JSON.stringify

  function HexDigit(d: nat): (c: char)
    requires d < 16
    ensures HexValue(c) == Some(d)
  {
    if d < 10 then DigitChar(d) else (('a' as int) + d - 10) as char
  }

  /** How `JSON.stringify` writes one character inside a string literal. */
  function EscapeChar(c: char): (r: string)
    ensures |r| >= 1 && r[0] != '"'
  {
    if c == '"' then "\\\""
    else if c == '\\' then "\\\\"
    else if c == '\U{0008}' then "\\b"
    else if c == '\t' then "\\t"
    else if c == '\n' then "\\n"
    else if c == '\U{000C}' then "\\f"
    else if c == '\r' then "\\r"
    else if c < ' ' then "\\u00" + [HexDigit((c as int) / 16), HexDigit((c as int) % 16)]
    else [c]
  }

  function EscapeText(s: string): string {
    if s == [] then "" else EscapeChar(s[0]) + EscapeText(s[1..])
  }

  function Quote(s: string): string {
    "\"" + EscapeText(s) + "\""
  }

  /** The parts separated by commas. */
  function CommaList(parts: seq<string>): string {
    if parts == [] then "" else if |parts| == 1 then parts[0] else parts[0] + "," + CommaList(parts[1..])
  }

  /** The text of `v` where a value stands (an `undefined` array element is `null`). */
  function Serialize(v: Value): string
    decreases v
  {
    match v
    case Undefined => "null"
    case Null => "null"
    case NaN => "null"
    case Bool(b) => if b then "true" else "false"
    case Num(n) => IntToString(n)
    case Str(s) => Quote(s)
    case Arr(items) => "[" + CommaList(ElementTexts(items)) + "]"
    case Obj(es) => "{" + CommaList(MemberTexts(es)) + "}"
  }

  function ElementTexts(items: seq<Value>): (r: seq<string>)
    ensures |r| == |items|
    decreases items
  {
    if items == [] then [] else [Serialize(items[0])] + ElementTexts(items[1..])
  }

  /** The `"key":value` texts of the properties whose value is not `undefined`. */
  function MemberTexts(es: seq<Entry>): seq<string>
    decreases es
  {
    if es == [] then []
    else
      (if es[0].value.Undefined? then [] else [Quote(es[0].key) + ":" + Serialize(es[0].value)])
      + MemberTexts(es[1..])
  }

  /** `JSON.stringify(v)`; `None` is the `undefined` it returns for `undefined`. */
  function Stringify(v: Value): (r: Option<string>)
    ensures r.None? <==> v.Undefined?
  {
    if v.Undefined? then None else Some(Serialize(v))
  }

  // ---------------------------------------------------------------- JSON.parse

  predicate IsJsonWs(c: char) {
    c == ' ' || c == '\t' || c == '\n' || c == '\r'
  }

  function SkipWs(s: string): (r: string)
    ensures |r| <= |s|
    ensures r == [] || !IsJsonWs(r[0])
  {
    if s != [] && IsJsonWs(s[0]) then SkipWs(s[1..]) else s
  }

  function HexValue(c: char): Option<nat> {
    if '0' <= c <= '9' then Some((c as int) - ('0' as int))
    else if 'a' <= c <= 'f' then Some((c as int) - ('a' as int) + 10)
    else if 'A' <= c <= 'F' then Some((c as int) - ('A' as int) + 10)
    else None
  }

  function Hex4(h: string): (r: Option<nat>)
    requires |h| == 4
    ensures r.Some? ==> r.value < 0x1_0000
  {
    match (HexValue(h[0]), HexValue(h[1]), HexValue(h[2]), HexValue(h[3]))
    case (Some(a), Some(b), Some(c), Some(d)) =>
      if a < 16 && b < 16 && c < 16 && d < 16 then Some(((a * 16 + b) * 16 + c) * 16 + d) else None
    case _ => None
  }

  /** The character a two-character escape `\e` stands for. */
  function Unescape(e: char): Option<char> {
    if e == '"' then Some('"')
    else if e == '\\' then Some('\\')
    else if e == '/' then Some('/')
    else if e == 'b' then Some('\U{0008}')
    else if e == 'f' then Some('\U{000C}')
    else if e == 'n' then Some('\n')
    else if e == 'r' then Some('\r')
    else if e == 't' then Some('\t')
    else None
  }

  /**
   * One character of a string literal: an escape sequence or a plain character
   * (control characters must be escaped). Returns the character and the length read.
   * A `\u` escape naming a lone surrogate has no `char` and is refused.
   */
  function ParseChar(s: string): (r: Option<(char, nat)>)
    requires s != [] && s[0] != '"'
    ensures r.Some? ==> 1 <= r.value.1 <= |s|
  {
    if s[0] == '\\' then
      if |s| < 2 then None
      else if s[1] == 'u' then
        if |s| < 6 then None
        else
          match Hex4(s[2..6])
          case Some(code) => if 0xD800 <= code <= 0xDFFF then None else Some((code as char, 6))
          case None => None
      else
        match Unescape(s[1])
        case Some(c) => Some((c, 2))
        case None => None
    else if s[0] < ' ' then None
    else Some((s[0], 1))
  }

  /** The rest of a string literal after its opening quote: the string and what follows the closing quote. */
  function ParseString(s: string): (r: Option<(string, string)>)
    ensures r.Some? ==> |r.value.1| < |s|
    decreases |s|
  {
    if s == [] then None
    else if s[0] == '"' then Some(("", s[1..]))
    else
      match ParseChar(s)
      case None => None
      case Some((c, n)) =>
        match ParseString(s[n..])
        case None => None
        case Some((str, rest)) => Some(([c] + str, rest))
  }

  /** A number without fraction or exponent: optional '-', then '0' or digits not starting with '0'. */
  function ParseNumber(s: string): (r: Option<(Value, string)>)
    ensures r.Some? ==> |r.value.1| < |s|
  {
    var negative := s != [] && s[0] == '-';
    var body := if negative then s[1..] else s;
    var k := LeadingDigits(body);
    if k == 0 || (k > 1 && body[0] == '0') then None
    else
      var magnitude: int := DigitsValue(body[..k]);
      Some((Num(if negative then -magnitude else magnitude), body[k..]))
  }

  function ParseValue(s: string): (r: Option<(Value, string)>)
    ensures r.Some? ==> |r.value.1| < |s|
    decreases |s|, 0
  {
    var t := SkipWs(s);
    if t == [] then None
    else if t[0] == 'n' then (if StartsWith(t, "null") then Some((Null, t[4..])) else None)
    else if t[0] == 't' then (if StartsWith(t, "true") then Some((Bool(true), t[4..])) else None)
    else if t[0] == 'f' then (if StartsWith(t, "false") then Some((Bool(false), t[5..])) else None)
    else if t[0] == '"' then
      match ParseString(t[1..])
      case None => None
      case Some((str, rest)) => Some((Str(str), rest))
    else if t[0] == '[' then ParseArray(t[1..])
    else if t[0] == '{' then ParseObject(t[1..])
    else if t[0] == '-' || IsDigit(t[0]) then ParseNumber(t)
    else None
  }

  /** The rest of an array after '['. */
  function ParseArray(s: string): (r: Option<(Value, string)>)
    ensures r.Some? ==> |r.value.1| < |s|
    decreases |s|, 2
  {
    var t := SkipWs(s);
    if t != [] && t[0] == ']' then Some((Arr([]), t[1..]))
    else
      match ParseElements(t)
      case None => None
      case Some((items, rest)) => Some((Arr(items), rest))
  }

  /** `value (',' value)* ']'`. */
  function ParseElements(s: string): (r: Option<(seq<Value>, string)>)
    ensures r.Some? ==> |r.value.1| < |s|
    decreases |s|, 1
  {
    match ParseValue(s)
    case None => None
    case Some((v, rest)) =>
      var t := SkipWs(rest);
      if t == [] then None
      else if t[0] == ']' then Some(([v], t[1..]))
      else if t[0] == ',' then
        match ParseElements(t[1..])
        case None => None
        case Some((vs, rest')) => Some(([v] + vs, rest'))
      else None
  }

  /** The rest of an object after '{'; properties are assigned in order, so a repeated key keeps its last value. */
  function ParseObject(s: string): (r: Option<(Value, string)>)
    ensures r.Some? ==> |r.value.1| < |s|
    decreases |s|, 3
  {
    var t := SkipWs(s);
    if t != [] && t[0] == '}' then Some((Obj([]), t[1..]))
    else
      match ParseMembers(t)
      case None => None
      case Some((es, rest)) => Some((Obj(AssignEntries([], es)), rest))
  }

  /** One member `string ':' value`. */
  function ParseMember(s: string): (r: Option<(Entry, string)>)
    ensures r.Some? ==> |r.value.1| < |s|
    decreases |s|, 1
  {
    var t := SkipWs(s);
    if t == [] || t[0] != '"' then None
    else
      match ParseString(t[1..])
      case None => None
      case Some((key, afterKey)) =>
        var c := SkipWs(afterKey);
        if c == [] || c[0] != ':' then None
        else
          match ParseValue(c[1..])
          case None => None
          case Some((v, rest)) => Some((Entry(key, v), rest))
  }

  /** `member (',' member)* '}'`, as written (repeated keys kept). */
  function ParseMembers(s: string): (r: Option<(seq<Entry>, string)>)
    ensures r.Some? ==> |r.value.1| < |s|
    decreases |s|, 2
  {
    match ParseMember(s)
    case None => None
    case Some((e, rest)) =>
      var u := SkipWs(rest);
      if u == [] then None
      else if u[0] == '}' then Some(([e], u[1..]))
      else if u[0] == ',' then
        match ParseMembers(u[1..])
        case None => None
        case Some((es, rest')) => Some(([e] + es, rest'))
      else None
  }

  /** `JSON.parse(text)`; `None` is the SyntaxError it throws. */
  function Parse(text: string): Option<Value> {
    match ParseValue(text)
    case None => None
    case Some((v, rest)) => if SkipWs(rest) == [] then Some(v) else None
  }

  // ---------------------------------------------------------------- round trip

  /** The values JSON can carry unchanged: no `undefined`, no `NaN`, distinct keys. */
  predicate IsJson(v: Value)
    decreases v
  {
    match v
    case Undefined => false
    case NaN => false
    case Arr(items) => forall i :: 0 <= i < |items| ==> IsJson(items[i])
    case Obj(es) => DistinctKeys(es) && forall i :: 0 <= i < |es| ==> IsJson(es[i].value)
    case _ => true
  }

  /**
   * Regrouping concatenations. They are stated on plain variables so that the
   * solver need not look inside the pieces when it applies them.
   */
  lemma Regroup3(a: string, b: string, c: string)
    ensures a + b + c == a + (b + c)
  {
  }

  lemma Regroup4(a: string, b: string, c: string, d: string)
    ensures a + b + c + d == a + (b + c + d)
  {
  }

  lemma Regroup5(a: string, b: string, c: string, d: string, e: string)
    ensures a + b + c + d + e == a + (b + (c + d + e))
  {
  }

  lemma Regroup6(a: string, b: string, c: string, d: string, e: string, f: string)
    ensures a + b + c + d + e + f == a + (b + c + (d + e + f))
  {
  }

  lemma ParseCharOfEscape(c: char, tail: string)
    ensures ParseChar(EscapeChar(c) + tail) == Some((c, |EscapeChar(c)|))
  {
    var e := EscapeChar(c);
    if c < ' ' && c != '\U{0008}' && c != '\t' && c != '\n' && c != '\U{000C}' && c != '\r' {
      var n := c as int;
      var s := e + tail;
      assert s[2..6] == ['0', '0', HexDigit(n / 16), HexDigit(n % 16)];
      assert Hex4(s[2..6]) == Some(n);
    }
  }

  /** A string's escaped text, the closing quote and anything after it read back as the string. */
  lemma {:induction false} ParseStringOfQuote(s: string, rest: string)
    ensures ParseString(EscapeText(s) + "\"" + rest) == Some((s, rest))
  {
    if s == [] {
      assert EscapeText(s) + "\"" + rest == "\"" + rest;
    } else {
      var e := EscapeChar(s[0]);
      var tail := EscapeText(s[1..]) + "\"" + rest;
      Regroup4(e, EscapeText(s[1..]), "\"", rest);
      ParseCharOfEscape(s[0], tail);
      assert (e + tail)[|e|..] == tail;
      ParseStringOfQuote(s[1..], rest);
      assert [s[0]] + s[1..] == s;
    }
  }

  lemma ParseNumberOfIntToString(n: int, rest: string)
    requires rest == [] || !IsDigit(rest[0])
    ensures ParseNumber(IntToString(n) + rest) == Some((Num(n), rest))
  {
    var m: nat := if n < 0 then -n else n;
    var digits := NatToString(m);
    var s := IntToString(n) + rest;
    var body := digits + rest;
    if n < 0 {
      Regroup3("-", digits, rest);
      assert s[1..] == body;
    }
    LeadingDigitsOfDigitsThen(digits, rest);
    assert body[..|digits|] == digits;
    NatToStringValue(m);
    assert body[|digits|..] == rest;
  }

  lemma {:induction false} LeadingDigitsOfDigitsThen(digits: string, rest: string)
    requires AllDigits(digits) && (rest == [] || !IsDigit(rest[0]))
    ensures LeadingDigits(digits + rest) == |digits|
  {
    if digits != [] {
      assert (digits + rest)[1..] == digits[1..] + rest;
      LeadingDigitsOfDigitsThen(digits[1..], rest);
    } else {
      assert digits + rest == rest;
    }
  }

  lemma SerializeStart(v: Value)
    ensures |Serialize(v)| >= 1
    ensures !IsJsonWs(Serialize(v)[0])
    ensures Serialize(v)[0] != ']' && Serialize(v)[0] != '}'
  {
  }

  /** What `ParseValue` does with text that starts with a given character. */
  lemma ParseValueStart(s: string)
    requires s != [] && !IsJsonWs(s[0])
    ensures s[0] == '[' ==> ParseValue(s) == ParseArray(s[1..])
    ensures s[0] == '{' ==> ParseValue(s) == ParseObject(s[1..])
    ensures s[0] == '"' ==> ParseValue(s) == (match ParseString(s[1..]) case None => None case Some((str, rest)) => Some((Str(str), rest)))
    ensures s[0] == '-' || IsDigit(s[0]) ==> ParseValue(s) == ParseNumber(s)
  {
    assert SkipWs(s) == s;
  }

  /**
   * The text of a JSON value, followed by anything that cannot continue a number,
   * reads back as that value.
   */
  lemma {:induction false} ParseValueOfSerialize(v: Value, rest: string)
    requires IsJson(v) && (rest == [] || !IsDigit(rest[0]))
    ensures ParseValue(Serialize(v) + rest) == Some((v, rest))
    decreases v, 2
  {
    match v {
      case Null => ParseLiteralOfSerialize(v, rest);
      case Bool(_) => ParseLiteralOfSerialize(v, rest);
      case Num(n) =>
        var s := Serialize(v) + rest;
        assert s[0] == IntToString(n)[0];
        ParseValueStart(s);
        ParseNumberOfIntToString(n, rest);
      case Str(str) => ParseStrOfSerialize(str, rest);
      case Arr(items) => ParseArrayOfSerialize(items, rest);
      case Obj(es) => ParseObjectOfSerialize(es, rest);
    }
  }

  lemma ParseLiteralOfSerialize(v: Value, rest: string)
    requires v.Null? || v.Bool?
    ensures ParseValue(Serialize(v) + rest) == Some((v, rest))
  {
    var s := Serialize(v) + rest;
    assert SkipWs(s) == s;
    if v == Bool(false) {
      assert s[..5] == "false" && s[5..] == rest;
    } else {
      assert s[..4] == Serialize(v) && s[4..] == rest;
    }
  }

  lemma ParseStrOfSerialize(str: string, rest: string)
    ensures ParseValue(Serialize(Str(str)) + rest) == Some((Str(str), rest))
  {
    var q := EscapeText(str);
    var s := Serialize(Str(str)) + rest;
    Regroup4("\"", q, "\"", rest);
    ParseValueStart(s);
    assert s[1..] == q + "\"" + rest;
    ParseStringOfQuote(str, rest);
  }

  lemma {:induction false} ParseArrayOfSerialize(items: seq<Value>, rest: string)
    requires forall i :: 0 <= i < |items| ==> IsJson(items[i])
    requires rest == [] || !IsDigit(rest[0])
    ensures ParseValue(Serialize(Arr(items)) + rest) == Some((Arr(items), rest))
    decreases items, 1
  {
    var body := CommaList(ElementTexts(items));
    var s := Serialize(Arr(items)) + rest;
    var u := body + "]" + rest;
    Regroup4("[", body, "]", rest);
    ParseValueStart(s);
    assert s[1..] == u;
    if items == [] {
      assert u == "]" + rest;
      assert SkipWs(u) == u;
    } else {
      ElementsStart(items);
      ParseArrayOfElements(u);
      ParseElementsOfSerialize(items, rest);
    }
  }

  lemma ParseArrayOfElements(t: string)
    requires t != [] && !IsJsonWs(t[0]) && t[0] != ']'
    ensures ParseArray(t) == match ParseElements(t) case None => None case Some((items, r)) => Some((Arr(items), r))
  {
    assert SkipWs(t) == t;
  }

  lemma ElementsStart(items: seq<Value>)
    requires items != []
    ensures CommaList(ElementTexts(items)) + "]" != []
    ensures !IsJsonWs((CommaList(ElementTexts(items)) + "]")[0])
    ensures (CommaList(ElementTexts(items)) + "]")[0] != ']'
  {
    SerializeStart(items[0]);
    assert CommaList(ElementTexts(items))[0] == Serialize(items[0])[0];
  }

  lemma {:induction false} ParseElementsOfSerialize(items: seq<Value>, rest: string)
    requires items != [] && forall i :: 0 <= i < |items| ==> IsJson(items[i])
    requires rest == [] || !IsDigit(rest[0])
    ensures ParseElements(CommaList(ElementTexts(items)) + "]" + rest) == Some((items, rest))
    decreases items, 0
  {
    var more := ElementsTail(items, rest);
    ElementsTextSplit(items, rest);
    ParseValueOfSerialize(items[0], more);
    ParseElementsStep(Serialize(items[0]), items[0], more);
    if |items| > 1 {
      ParseElementsOfSerialize(items[1..], rest);
      assert [items[0]] + items[1..] == items;
    } else {
      assert items == [items[0]];
    }
  }

  /** What follows the first element in the text of `items` and `"]" + rest`. */
  function ElementsTail(items: seq<Value>, rest: string): string
    requires items != []
  {
    if |items| == 1 then "]" + rest else "," + (CommaList(ElementTexts(items[1..])) + "]" + rest)
  }

  lemma ElementsTextSplit(items: seq<Value>, rest: string)
    requires items != [] && forall i :: 0 <= i < |items| ==> IsJson(items[i])
    ensures IsJson(items[0])
    ensures CommaList(ElementTexts(items)) + "]" + rest == Serialize(items[0]) + ElementsTail(items, rest)
    ensures |items| == 1 ==> ElementsTail(items, rest) == "]" + rest
    ensures |items| > 1 ==> ElementsTail(items, rest) == "," + (CommaList(ElementTexts(items[1..])) + "]" + rest)
  {
    assert IsJson(items[0]);
    var parts := ElementTexts(items);
    var first := Serialize(items[0]);
    if |items| == 1 {
      assert CommaList(parts) == first;
      Regroup3(first, "]", rest);
    } else {
      var others := CommaList(ElementTexts(items[1..]));
      assert parts[1..] == ElementTexts(items[1..]);
      assert CommaList(parts) == first + "," + others;
      Regroup5(first, ",", others, "]", rest);
    }
  }

  /** Reading one element followed by ']' or ','. */
  lemma ParseElementsStep(valueText: string, v: Value, more: string)
    requires ParseValue(valueText + more) == Some((v, more))
    requires more != [] && (more[0] == ']' || more[0] == ',')
    ensures ParseElements(valueText + more)
         == if more[0] == ']' then Some(([v], more[1..]))
            else match ParseElements(more[1..]) case None => None case Some((vs, r)) => Some(([v] + vs, r))
  {
    assert SkipWs(more) == more;
  }

  lemma {:induction false} ParseObjectOfSerialize(es: seq<Entry>, rest: string)
    requires DistinctKeys(es) && forall i :: 0 <= i < |es| ==> IsJson(es[i].value)
    requires rest == [] || !IsDigit(rest[0])
    ensures ParseValue(Serialize(Obj(es)) + rest) == Some((Obj(es), rest))
    decreases es, 2
  {
    var body := CommaList(MemberTexts(es));
    var s := Serialize(Obj(es)) + rest;
    var u := body + "}" + rest;
    Regroup4("{", body, "}", rest);
    ParseValueStart(s);
    assert s[1..] == u;
    MemberTextsOfJson(es);
    if es == [] {
      assert u == "}" + rest;
      assert SkipWs(u) == u;
    } else {
      MembersStart(es);
      ParseObjectOfMembers(u);
      ParseMembersOfSerialize(es, rest);
      assert [] + es == es;
      AssignFresh([], es);
    }
  }

  lemma ParseObjectOfMembers(t: string)
    requires t != [] && t[0] == '"'
    ensures ParseObject(t) == match ParseMembers(t) case None => None case Some((es, r)) => Some((Obj(AssignEntries([], es)), r))
  {
    assert SkipWs(t) == t;
  }

  lemma MembersStart(es: seq<Entry>)
    requires es != [] && forall i :: 0 <= i < |es| ==> IsJson(es[i].value)
    ensures (CommaList(MemberTexts(es)) + "}")[0] == '"'
  {
    MemberTextsOfJson(es);
  }

  /** For JSON objects no property is dropped, so every member has its text. */
  lemma {:induction false} MemberTextsOfJson(es: seq<Entry>)
    requires forall i :: 0 <= i < |es| ==> IsJson(es[i].value)
    ensures |MemberTexts(es)| == |es|
    ensures es != [] ==> MemberTexts(es)[0] == Quote(es[0].key) + ":" + Serialize(es[0].value)
    ensures es != [] ==> MemberTexts(es)[1..] == MemberTexts(es[1..])
  {
    if es != [] {
      assert IsJson(es[0].value);
      MemberTextsOfJson(es[1..]);
    }
  }

  lemma {:induction false} ParseMembersOfSerialize(es: seq<Entry>, rest: string)
    requires es != [] && forall i :: 0 <= i < |es| ==> IsJson(es[i].value)
    requires rest == [] || !IsDigit(rest[0])
    ensures ParseMembers(CommaList(MemberTexts(es)) + "}" + rest) == Some((es, rest))
    decreases es, 1
  {
    ParseFirstMember(es, rest);
    if |es| > 1 {
      var others := es[1..];
      assert ParseMembers(CommaList(MemberTexts(others)) + "}" + rest) == Some((others, rest)) by {
        assert forall i :: 0 <= i < |others| ==> others[i] == es[i + 1];
        ParseMembersOfSerialize(others, rest);
      }
      assert [es[0]] + others == es;
    } else {
      assert es == [es[0]];
    }
  }

  /** Reading the first member of the text of `es` leaves the text of the others. */
  lemma ParseFirstMember(es: seq<Entry>, rest: string)
    requires es != [] && forall i :: 0 <= i < |es| ==> IsJson(es[i].value)
    requires rest == [] || !IsDigit(rest[0])
    ensures ParseMembers(CommaList(MemberTexts(es)) + "}" + rest)
         == if |es| == 1 then Some(([es[0]], rest))
            else match ParseMembers(CommaList(MemberTexts(es[1..])) + "}" + rest)
                 case None => None case Some((more, r)) => Some(([es[0]] + more, r))
    decreases es, 0
  {
    var v := es[0].value;
    var more := MembersTail(es, rest);
    MembersTextSplit(es, rest);
    ParseMembersOfEntry(es[0].key, Serialize(v), v, more) by {
      ParseValueOfSerialize(v, more);
    }
    if |es| > 1 {
      assert more[1..] == CommaList(MemberTexts(es[1..])) + "}" + rest;
    } else {
      assert more[1..] == rest;
    }
  }

  /** What follows the first member's value in the text of `es` and `"}" + rest`. */
  function MembersTail(es: seq<Entry>, rest: string): string
    requires es != []
  {
    if |es| == 1 then "}" + rest else "," + (CommaList(MemberTexts(es[1..])) + "}" + rest)
  }

  lemma MembersTextSplit(es: seq<Entry>, rest: string)
    requires es != [] && forall i :: 0 <= i < |es| ==> IsJson(es[i].value)
    ensures IsJson(es[0].value)
    ensures CommaList(MemberTexts(es)) + "}" + rest == Quote(es[0].key) + ":" + Serialize(es[0].value) + MembersTail(es, rest)
    ensures |es| == 1 ==> MembersTail(es, rest) == "}" + rest
    ensures |es| > 1 ==> MembersTail(es, rest) == "," + (CommaList(MemberTexts(es[1..])) + "}" + rest)
  {
    assert IsJson(es[0].value);
    MemberTextsOfJson(es);
    var parts := MemberTexts(es);
    var first := Quote(es[0].key) + ":" + Serialize(es[0].value);
    if |es| == 1 {
      assert CommaList(parts) == first;
      Regroup3(first, "}", rest);
    } else {
      var others := CommaList(MemberTexts(es[1..]));
      assert CommaList(parts) == first + "," + others;
      Regroup5(first, ",", others, "}", rest);
    }
  }

  /** Reading one `"key":value` member followed by '}' or ','. */
  lemma ParseMembersOfEntry(key: string, valueText: string, v: Value, more: string)
    requires ParseValue(valueText + more) == Some((v, more))
    requires more != [] && (more[0] == '}' || more[0] == ',')
    ensures ParseMembers(Quote(key) + ":" + valueText + more)
         == if more[0] == '}' then Some(([Entry(key, v)], more[1..]))
            else match ParseMembers(more[1..]) case None => None case Some((es, r)) => Some(([Entry(key, v)] + es, r))
  {
    ParseMemberOfEntry(key, valueText, v, more);
    assert SkipWs(more) == more;
  }

  lemma ParseMemberOfEntry(key: string, valueText: string, v: Value, more: string)
    requires ParseValue(valueText + more) == Some((v, more))
    ensures ParseMember(Quote(key) + ":" + valueText + more) == Some((Entry(key, v), more))
  {
    var q := EscapeText(key);
    var afterKey := ":" + valueText + more;
    var s := Quote(key) + ":" + valueText + more;
    Regroup6("\"", q, "\"", ":", valueText, more);
    assert SkipWs(s) == s;
    assert s[1..] == q + "\"" + afterKey;
    ParseStringOfQuote(key, afterKey);
    assert SkipWs(afterKey) == afterKey;
    Regroup3(":", valueText, more);
    assert afterKey[1..] == valueText + more;
  }

  /** Assigning properties with new, distinct keys appends them. */
  lemma {:induction false} AssignFresh(target: seq<Entry>, es: seq<Entry>)
    requires DistinctKeys(target + es)
    ensures AssignEntries(target, es) == target + es
    decreases |es|
  {
    if es == [] {
      assert target + es == target;
    } else {
      var next := target + [es[0]];
      assert (target + es)[|target|] == es[0];
      assert forall i :: 0 <= i < |target| ==> (target + es)[i] == target[i];
      assert SetProp(target, es[0].key, es[0].value) == next;
      assert next + es[1..] == target + es;
      AssignFresh(next, es[1..]);
    }
  }

  /** `JSON.parse(JSON.stringify(v))` gives `v` back for every JSON value. */
  lemma ParseOfStringify(v: Value)
    requires IsJson(v)
    ensures Stringify(v).Some? && Parse(Stringify(v).value) == Some(v)
  {
    ParseValueOfSerialize(v, "");
    assert Serialize(v) + "" == Serialize(v);
  }

  /** Distinct JSON values have distinct texts. */
  lemma StringifyInjective(a: Value, b: Value)
    requires IsJson(a) && IsJson(b) && Stringify(a) == Stringify(b)
    ensures a == b
  {
    ParseOfStringify(a);
    ParseOfStringify(b);
  }
}
