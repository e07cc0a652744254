/**
 * The personal-details screen: the local-time ISO text of a date (`toIsoString`
 * with its `pad` helper), the count of contributions per day, and what pressing a
 * day of the contribution graph does.
 *
 * Dates enter as their integer fields (what `getFullYear`, `getMonth`, ... and
 * `getTimezoneOffset` return); contributions as the day texts the API's
 * timestamps convert to.
 */
module Personal {
  import opened Wrappers
  import opened JsStrings
  import opened JsValues
  import opened Platform
  import opened Api

  // ---------------------------------------------------------------- toIsoString

  function Abs(n: int): nat {
    if n < 0 then -n else n
  }

  /** `pad(num)`: the decimal text of `floor(|num|)`, with a '0' in front when that is below 10. */
  function Pad(num: int): string {
    var norm := Abs(num);
    (if norm < 10 then "0" else "") + NatToString(norm)
  }

  /** The JavaScript remainder `a % b`, which takes the sign of `a` (truncated division). */
  function JsRem(a: int, b: int): (r: int)
    requires b > 0
    ensures Abs(r) == Abs(a) % b
    ensures (a >= 0 ==> r >= 0) && (a < 0 ==> r <= 0)
  {
    if a >= 0 then a % b else -((-a) % b)
  }

  /** The fields of a `Date` the formatting reads; `month` is `getMonth()`, counted from 0. */
  datatype DateFields = DateFields(year: int, month: int, day: int, hours: int, minutes: int, seconds: int, timezoneOffset: int)

  function DatePart(d: DateFields): string {
    IntToString(d.year) + "-" + Pad(d.month + 1) + "-" + Pad(d.day)
  }

  function TimePart(d: DateFields): string {
    Pad(d.hours) + ":" + Pad(d.minutes) + ":" + Pad(d.seconds)
  }

  /**
   * The offset: its sign, then the padded hours and the padded minutes of the negated
   * timezone offset, separated by ':'; the whole hours are `|tzo|` divided by 60,
   * rounded down, and the minutes the truncated remainder.
   */
  function OffsetPart(timezoneOffset: int): string {
    var tzo := -timezoneOffset;
    [if tzo >= 0 then '+' else '-'] + Pad(Abs(tzo) / 60) + ":" + Pad(JsRem(tzo, 60))
  }

  /** `toIsoString(date)`: `YYYY-MM-DDTHH:MM:SS±HH:MM` in local time. */
  function ToIsoString(d: DateFields): (r: string)
    ensures EndsInMinutes(r, Abs(d.timezoneOffset) % 60)
  {
    IsoEnds(DatePart(d) + "T" + TimePart(d), d.timezoneOffset);
    DatePart(d) + "T" + TimePart(d) + OffsetPart(d.timezoneOffset)
  }

  /** The text ends in ':' and two digits denoting `minutes`. */
  predicate EndsInMinutes(r: string, minutes: int) {
    |r| >= 3 && r[|r| - 3] == ':' && Denotes(r[|r| - 2..], minutes)
  }

  /** Whatever comes before it, the offset leaves ':' and the two digits of its minutes at the end. */
  lemma IsoEnds(front: string, timezoneOffset: int)
    ensures EndsInMinutes(front + OffsetPart(timezoneOffset), Abs(timezoneOffset) % 60)
  {
    OffsetPartEnds(timezoneOffset);
    MinutesEndKept(front, OffsetPart(timezoneOffset), Abs(timezoneOffset) % 60);
  }

  /** Text put in front keeps a ':'-and-two-digits ending. */
  lemma MinutesEndKept(front: string, p: string, minutes: int)
    requires |p| >= 3 && p[|p| - 3] == ':' && Denotes(p[|p| - 2..], minutes)
    ensures var r := front + p; |r| >= 3 && r[|r| - 3] == ':' && Denotes(r[|r| - 2..], minutes)
  {
    assert (front + p)[|front + p| - 2..] == p[|p| - 2..];
  }

  /** The offset always ends in ':' and the two digits of its minutes, whatever its hours. */
  lemma OffsetPartEnds(timezoneOffset: int)
    ensures var p := OffsetPart(timezoneOffset);
      |p| >= 3 && p[|p| - 3] == ':' && Denotes(p[|p| - 2..], Abs(timezoneOffset) % 60)
  {
    var tzo := -timezoneOffset;
    var m := Pad(Abs(tzo) % 60);
    PadTwoDigits(Abs(tzo) % 60);
    assert Pad(JsRem(tzo, 60)) == m;
    var front := [if tzo >= 0 then '+' else '-'] + Pad(Abs(tzo) / 60);
    assert OffsetPart(timezoneOffset) == front + ":" + m;
    assert (front + ":" + m)[|front| + 1..] == m;
  }

  /** `s` is a run of digits denoting `n`. */
  predicate Denotes(s: string, n: int) {
    AllDigits(s) && DigitsValue(s) == n
  }

  // ---------------------------------------------------------------- contributions

  /** The distinct texts of `s` in the order they first occur. */
  function Firsts(s: seq<string>): (r: seq<string>)
    ensures forall x :: x in r <==> x in s
    ensures forall i, j :: 0 <= i < j < |r| ==> r[i] != r[j]
  {
    if s == [] then []
    else
      var p := Firsts(s[..|s| - 1]);
      assert s == s[..|s| - 1] + [s[|s| - 1]];
      if s[|s| - 1] in s[..|s| - 1] then p else p + [s[|s| - 1]]
  }

  datatype DateCount = DateCount(date: string, count: nat)

  /** The `{date, count}` list of `keys`, with each key's count taken from `m`. */
  function Tally(keys: seq<string>, m: multiset<string>): (r: seq<DateCount>)
    ensures |r| == |keys| && forall i :: 0 <= i < |keys| ==> r[i] == DateCount(keys[i], m[keys[i]])
  {
    if keys == [] then [] else Tally(keys[..|keys| - 1], m) + [DateCount(keys[|keys| - 1], m[keys[|keys| - 1]])]
  }

  /** Each distinct day once, in first-occurrence order, with its number of occurrences. */
  function Tallied(dates: seq<string>): seq<DateCount> {
    Tally(Firsts(dates), multiset(dates))
  }

  function TotalCount(data: seq<DateCount>): nat {
    if data == [] then 0 else TotalCount(data[..|data| - 1]) + data[|data| - 1].count
  }

  /**
   * The two loops of `getLatestContributions`: count each day in `newData` (a new
   * day is added at the end), then list `newData`'s entries in order.
   */
  method CountContributions(dates: seq<string>) returns (finalData: seq<DateCount>)
    ensures finalData == Tallied(dates)
  {
    var keys, counts := CountDays(dates);
    finalData := ListCounts(keys, counts, multiset(dates));
  }

  /** The first loop: `newData[date]` counts the occurrences; `keys` is its insertion order. */
  method CountDays(dates: seq<string>) returns (keys: seq<string>, counts: map<string, nat>)
    ensures keys == Firsts(dates)
    ensures forall k :: k in keys ==> k in counts && counts[k] == multiset(dates)[k]
  {
    keys := [];
    counts := map[];
    var i := 0;
    ghost var seen: multiset<string> := multiset{};
    while i < |dates|
      invariant 0 <= i <= |dates|
      invariant keys == Firsts(dates[..i])
      invariant seen == multiset(dates[..i])
      invariant forall k :: k in counts <==> k in seen
      invariant forall k :: k in counts ==> counts[k] == seen[k]
    {
      var d := dates[i];
      assert dates[..i + 1] == dates[..i] + [d];
      CountStep(dates[..i], d);
      if d in counts {
        counts := counts[d := counts[d] + 1];
      } else {
        counts := counts[d := 1];
        keys := keys + [d];
      }
      seen := seen[d := seen[d] + 1];
      i := i + 1;
    }
    assert dates[..|dates|] == dates;
  }

  /** The second loop: one `{date, count}` per key, in the keys' order. */
  method ListCounts(keys: seq<string>, counts: map<string, nat>, m: multiset<string>) returns (finalData: seq<DateCount>)
    requires forall k :: k in keys ==> k in counts && counts[k] == m[k]
    ensures finalData == Tally(keys, m)
  {
    finalData := [];
    var j := 0;
    while j < |keys|
      invariant 0 <= j <= |keys|
      invariant finalData == Tally(keys[..j], m)
    {
      assert keys[..j + 1][..j] == keys[..j];
      finalData := finalData + [DateCount(keys[j], counts[keys[j]])];
      j := j + 1;
    }
    assert keys[..|keys|] == keys;
  }

  /** What one more day does to the first occurrences and to the counts. */
  lemma CountStep(prefix: seq<string>, d: string)
    ensures Firsts(prefix + [d]) == if d in prefix then Firsts(prefix) else Firsts(prefix) + [d]
    ensures multiset(prefix + [d]) == multiset(prefix)[d := multiset(prefix)[d] + 1]
  {
    FirstsStep(prefix, d);
    MultisetStep(prefix, d);
  }

  lemma FirstsStep(prefix: seq<string>, d: string)
    ensures Firsts(prefix + [d]) == if d in prefix then Firsts(prefix) else Firsts(prefix) + [d]
  {
    assert (prefix + [d])[..|prefix|] == prefix;
  }

  lemma MultisetStep(prefix: seq<string>, d: string)
    ensures multiset(prefix + [d]) == multiset(prefix)[d := multiset(prefix)[d] + 1]
  {
    assert multiset(prefix + [d]) == multiset(prefix) + multiset{d};
  }

  // ---------------------------------------------------------------- day press

  /**
   * `getDayContributionDetail`: `request(path, 'GET')` is called without options,
   * which throws before anything is fetched, so the catch gives `[]`.
   */
  function DayDetailW(w: World, isoDate: string): (Value, World) {
    var (r, w1) := RequestW(w, "users/contribution/day-detail/?date=" + isoDate, "GET", Undefined);
    match r
    case Normal(Some(resp)) => (match JsonBody(resp) case Some(v) => v case None => Arr([]), w1)
    case _ => (Arr([]), w1)
  }

  /** `getContributions(start, end)`: the same call shape, so also `[]`. */
  function ContributionsW(w: World, startIso: string, endIso: string): (Value, World) {
    var (r, w1) := RequestW(w, "users/contribution/?start=" + startIso + "&end=" + endIso, "GET", Undefined);
    match r
    case Normal(Some(resp)) => (match JsonBody(resp) case Some(v) => v case None => Arr([]), w1)
    case _ => (Arr([]), w1)
  }

  /** The screen cells `getDayPress` sets. */
  datatype DayState = DayState(showingDate: string, isFetchingSummaries: bool, listData: Value)

  /**
   * `getDayPress({date, count})`, where `shown` is `fullDate.toDateString()` and
   * `isoDate` is `toIsoString(new Date(date))`: a truthy count loads the day's detail
   * into the list, a falsy one empties it; either way fetching ends cleared.
   */
  function DayPressW(st: DayState, w: World, count: Value, shown: string, isoDate: string): (DayState, World) {
    if Truthy(count) then
      var (detail, w1) := DayDetailW(w, isoDate);
      (DayState(shown, false, detail), w1)
    else (DayState(shown, false, Arr([])), w)
  }

  class PersonalScreen {
    var showingDate: string
    var isFetchingSummaries: bool
    var listData: Value

    function State(): DayState
      reads this
    {
      DayState(showingDate, isFetchingSummaries, listData)
    }

    constructor ()
      ensures State() == DayState("None (select a square)", false, Arr([]))
    {
      showingDate := "None (select a square)";
      isFetchingSummaries := false;
      listData := Arr([]);
    }

    method GetDayPress(s: Services, count: Value, shown: string, isoDate: string)
      modifies this, s
      ensures (State(), s.State()) == DayPressW(old(State()), old(s.State()), count, shown, isoDate)
    {
      showingDate := shown;
      isFetchingSummaries := true;
      if Truthy(count) {
        var r := Request(s, "users/contribution/day-detail/?date=" + isoDate, "GET", Undefined);
        var detail := Arr([]);
        match r {
          case Normal(Some(resp)) =>
            match JsonBody(resp) {
              case Some(v) => detail := v;
              case None =>
            }
          case _ =>
        }
        listData := detail;
        isFetchingSummaries := false;
      } else {
        isFetchingSummaries := false;
        listData := Arr([]);
      }
    }
  }

  // ---------------------------------------------------------------- properties

  lemma PadTwoDigits(n: int)
    requires 0 <= n < 100
    ensures |Pad(n)| == 2 && Denotes(Pad(n), n)
  {
    if n < 10 {
      assert Pad(n) == "0" + [DigitChar(n)];
      assert Pad(n)[..1] == "0";
      assert DigitsValue("0") == 0 by { assert "0"[..0] == ""; }
    } else {
      assert NatToString(n) == NatToString(n / 10) + [DigitChar(n % 10)];
      NatToStringValue(n);
    }
  }

  /** `pad` writes `floor(|num|)` in decimal, with one leading '0' exactly below 10. */
  lemma PadValue(num: int)
    ensures var p := Pad(num); var norm := Abs(num);
      (norm < 10 ==> p == "0" + NatToString(norm)) && (norm >= 10 ==> p == NatToString(norm))
      && AllDigits(p) && DigitsValue(p) == norm
  {
    var norm := Abs(num);
    var p := Pad(num);
    if norm < 10 {
      assert p[..|p| - 1] == "0";
      assert DigitsValue("0") == 0 by { assert "0"[..0] == ""; }
    } else {
      NatToStringValue(norm);
    }
  }

  lemma FourDigits(y: int)
    requires 1000 <= y <= 9999
    ensures |IntToString(y)| == 4 && Denotes(IntToString(y), y)
  {
    assert NatToString(y) == NatToString(y / 10) + [DigitChar(y % 10)];
    assert NatToString(y / 10) == NatToString(y / 100) + [DigitChar((y / 10) % 10)];
    assert NatToString(y / 100) == NatToString(y / 1000) + [DigitChar((y / 100) % 10)];
    NatToStringValue(y);
  }

  lemma DatePartShape(d: DateFields)
    requires 1000 <= d.year <= 9999 && 0 <= d.month + 1 < 100 && 0 <= d.day < 100
    ensures var p := DatePart(d);
      |p| == 10 && Denotes(p[..4], d.year) && p[4] == '-' && Denotes(p[5..7], d.month + 1)
      && p[7] == '-' && Denotes(p[8..10], d.day)
  {
    var y, m, dd := IntToString(d.year), Pad(d.month + 1), Pad(d.day);
    FourDigits(d.year);
    PadTwoDigits(d.month + 1);
    PadTwoDigits(d.day);
    var p := DatePart(d);
    assert p == y + "-" + m + "-" + dd;
    assert p[..4] == y;
    assert p[5..7] == m;
    assert p[8..10] == dd;
  }

  lemma TimePartShape(d: DateFields)
    requires 0 <= d.hours < 100 && 0 <= d.minutes < 100 && 0 <= d.seconds < 100
    ensures var p := TimePart(d);
      |p| == 8 && Denotes(p[..2], d.hours) && p[2] == ':' && Denotes(p[3..5], d.minutes)
      && p[5] == ':' && Denotes(p[6..8], d.seconds)
  {
    var h, m, s := Pad(d.hours), Pad(d.minutes), Pad(d.seconds);
    PadTwoDigits(d.hours);
    PadTwoDigits(d.minutes);
    PadTwoDigits(d.seconds);
    var p := TimePart(d);
    assert p == h + ":" + m + ":" + s;
    assert p[..2] == h;
    assert p[3..5] == m;
    assert p[6..8] == s;
  }

  /** The offset is the sign of `-getTimezoneOffset()`, then its whole hours and remaining minutes. */
  lemma OffsetPartShape(timezoneOffset: int)
    requires Abs(timezoneOffset) < 6000
    ensures var p := OffsetPart(timezoneOffset);
      |p| == 6 && (p[0] == '+' <==> -timezoneOffset >= 0) && (p[0] == '+' || p[0] == '-')
      && Denotes(p[1..3], Abs(timezoneOffset) / 60) && p[3] == ':' && Denotes(p[4..6], Abs(timezoneOffset) % 60)
  {
    var tzo := -timezoneOffset;
    var h, m := Pad(Abs(tzo) / 60), Pad(JsRem(tzo, 60));
    PadTwoDigits(Abs(tzo) / 60);
    assert Abs(JsRem(tzo, 60)) == Abs(tzo) % 60;
    PadTwoDigits(Abs(tzo) % 60);
    assert Pad(JsRem(tzo, 60)) == Pad(Abs(tzo) % 60);
    var p := OffsetPart(timezoneOffset);
    assert p == [if tzo >= 0 then '+' else '-'] + h + ":" + m;
    assert p[1..3] == h;
    assert p[4..6] == m;
  }

  /**
   * For a four-digit year and in-range fields, `toIsoString` has the shape
   * `YYYY-MM-DDTHH:MM:SS±HH:MM`, and each numeric field reads back as the date's
   * field (the month as `getMonth() + 1`, the offset as `|tzo|` split into hours and
   * minutes).
   */
  lemma IsoShape(d: DateFields)
    requires 1000 <= d.year <= 9999 && 0 <= d.month < 12 && 1 <= d.day <= 31
    requires 0 <= d.hours < 24 && 0 <= d.minutes < 60 && 0 <= d.seconds < 60
    requires Abs(d.timezoneOffset) < 6000
    ensures var r := ToIsoString(d);
      |r| == 25
      && Denotes(r[..4], d.year) && r[4] == '-' && Denotes(r[5..7], d.month + 1) && r[7] == '-'
      && Denotes(r[8..10], d.day) && r[10] == 'T'
      && Denotes(r[11..13], d.hours) && r[13] == ':' && Denotes(r[14..16], d.minutes) && r[16] == ':'
      && Denotes(r[17..19], d.seconds)
      && (r[19] == '+' <==> -d.timezoneOffset >= 0) && (r[19] == '+' || r[19] == '-')
      && Denotes(r[20..22], Abs(d.timezoneOffset) / 60) && r[22] == ':'
      && Denotes(r[23..25], Abs(d.timezoneOffset) % 60)
  {
    DatePartShape(d);
    TimePartShape(d);
    OffsetPartShape(d.timezoneOffset);
    IsoOfParts(DatePart(d), TimePart(d), OffsetPart(d.timezoneOffset));
  }

  /** Where the date, time and offset parts land in `date + "T" + time + offset`. */
  lemma IsoOfParts(a: string, b: string, c: string)
    requires |a| == 10 && |b| == 8 && |c| == 6
    ensures var r := a + "T" + b + c;
      |r| == 25 && r[..4] == a[..4] && r[4] == a[4] && r[5..7] == a[5..7] && r[7] == a[7]
      && r[8..10] == a[8..10] && r[10] == 'T'
      && r[11..13] == b[..2] && r[13] == b[2] && r[14..16] == b[3..5] && r[16] == b[5] && r[17..19] == b[6..8]
      && r[19] == c[0] && r[20..22] == c[1..3] && r[22] == c[3] && r[23..25] == c[4..6]
  {
    var r := a + "T" + b + c;
    assert r[..10] == a;
    assert r[11..19] == b;
    assert r[19..] == c;
  }

  /** Each day is listed once. */
  lemma TalliedDistinct(dates: seq<string>)
    ensures forall i, j :: 0 <= i < j < |Tallied(dates)| ==> Tallied(dates)[i].date != Tallied(dates)[j].date
  {
  }

  /** A day is listed exactly when it occurs, with its number of occurrences. */
  lemma TalliedCounts(dates: seq<string>, day: string)
    ensures (exists i :: 0 <= i < |Tallied(dates)| && Tallied(dates)[i].date == day) <==> day in dates
    ensures forall i :: 0 <= i < |Tallied(dates)| ==> Tallied(dates)[i].count == multiset(dates)[Tallied(dates)[i].date]
  {
    var f := Firsts(dates);
    if day in dates {
      var i :| 0 <= i < |f| && f[i] == day;
      assert Tallied(dates)[i].date == day;
    }
  }

  /** The first position of `x` in `s`. */
  function FirstIndex(s: seq<string>, x: string): (r: nat)
    requires x in s
    ensures r < |s| && s[r] == x && forall j :: 0 <= j < r ==> s[j] != x
  {
    if s[0] == x then 0 else 1 + FirstIndex(s[1..], x)
  }

  /** Days are listed in the order of their first occurrence. */
  lemma {:induction false} FirstsInOrder(s: seq<string>)
    ensures forall i, j :: 0 <= i < j < |Firsts(s)| ==> FirstIndex(s, Firsts(s)[i]) < FirstIndex(s, Firsts(s)[j])
  {
    if s != [] {
      var p := s[..|s| - 1];
      var x := s[|s| - 1];
      FirstsInOrder(p);
      assert s == p + [x];
      forall y | y in p
        ensures FirstIndex(s, y) == FirstIndex(p, y)
      {
        FirstIndexPrefix(p, x, y);
      }
      var f := Firsts(s);
      forall i, j | 0 <= i < j < |f|
        ensures FirstIndex(s, f[i]) < FirstIndex(s, f[j])
      {
        if x in p {
          assert f == Firsts(p);
        } else {
          assert f == Firsts(p) + [x];
          if j == |f| - 1 {
            assert f[j] == x;
            assert FirstIndex(s, x) == |p|;
            assert f[i] in p;
          }
        }
      }
    }
  }

  lemma FirstIndexPrefix(p: seq<string>, x: string, y: string)
    requires y in p
    ensures FirstIndex(p + [x], y) == FirstIndex(p, y)
  {
    var s := p + [x];
    var a, b := FirstIndex(s, y), FirstIndex(p, y);
    assert s[b] == y;
    assert p[a] == y || a == |p|;
  }

  lemma TotalOfTally(keys: seq<string>, m: multiset<string>)
    requires keys != []
    ensures TotalCount(Tally(keys, m)) == TotalCount(Tally(keys[..|keys| - 1], m)) + m[keys[|keys| - 1]]
  {
    var t := Tally(keys, m);
    assert t[..|t| - 1] == Tally(keys[..|keys| - 1], m);
  }

  /** One more occurrence of `x` adds one to the total exactly when `x` is among the keys. */
  lemma {:induction false} TallyAddOne(keys: seq<string>, m: multiset<string>, x: string)
    requires forall i, j :: 0 <= i < j < |keys| ==> keys[i] != keys[j]
    ensures TotalCount(Tally(keys, m + multiset{x})) == TotalCount(Tally(keys, m)) + (if x in keys then 1 else 0)
  {
    if keys != [] {
      var init, last := keys[..|keys| - 1], keys[|keys| - 1];
      assert keys == init + [last];
      TallyAddOne(init, m, x);
      TotalOfTally(keys, m);
      TotalOfTally(keys, m + multiset{x});
    }
  }

  /** The counts add up to the number of contributions. */
  lemma {:induction false} TalliedTotal(dates: seq<string>)
    ensures TotalCount(Tallied(dates)) == |dates|
  {
    if dates != [] {
      var p := dates[..|dates| - 1];
      assert dates == p + [dates[|dates| - 1]];
      TalliedTotal(p);
      TalliedTotalStep(p, dates[|dates| - 1]);
    }
  }

  /** One more contribution adds one to the total. */
  lemma TalliedTotalStep(p: seq<string>, x: string)
    requires TotalCount(Tallied(p)) == |p|
    ensures TotalCount(Tallied(p + [x])) == |p| + 1
  {
    var m := multiset(p + [x]);
    assert m == multiset(p) + multiset{x};
    assert TotalCount(Tally(Firsts(p), m)) == |p| + (if x in p then 1 else 0) by {
      TallyAddOne(Firsts(p), multiset(p), x);
    }
    assert Firsts(p + [x]) == if x in p then Firsts(p) else Firsts(p) + [x] by {
      CountStep(p, x);
    }
    if x !in p {
      var f := Firsts(p) + [x];
      assert TotalCount(Tally(f, m)) == TotalCount(Tally(Firsts(p), m)) + m[x] by {
        assert f[..|f| - 1] == Firsts(p);
        TotalOfTally(f, m);
      }
      assert m[x] == 1 by {
        assert multiset(p)[x] == 0;
      }
    }
  }

  /** As written, no day detail or contribution list is ever fetched: both come back `[]` with nothing sent. */
  lemma RequestsWithoutOptionsAreEmpty(w: World, isoDate: string, startIso: string, endIso: string)
    ensures DayDetailW(w, isoDate) == (Arr([]), w)
    ensures ContributionsW(w, startIso, endIso) == (Arr([]), w)
  {
    RequestWithoutOptions(w, "users/contribution/day-detail/?date=" + isoDate, "GET", Undefined);
    RequestWithoutOptions(w, "users/contribution/?start=" + startIso + "&end=" + endIso, "GET", Undefined);
  }

  /**
   * A day press shows the pressed date and ends with fetching cleared; a falsy count
   * empties the list without any request, and (as written) so does a truthy one.
   */
  lemma DayPressOutcome(st: DayState, w: World, count: Value, shown: string, isoDate: string)
    ensures var (st', w') := DayPressW(st, w, count, shown, isoDate);
      st'.showingDate == shown && !st'.isFetchingSummaries
      && (!Truthy(count) ==> st'.listData == Arr([]) && w' == w)
      && (Truthy(count) ==> st'.listData == DayDetailW(w, isoDate).0)
      && st'.listData == Arr([]) && w' == w
  {
    RequestsWithoutOptionsAreEmpty(w, isoDate, "", "");
  }
}
