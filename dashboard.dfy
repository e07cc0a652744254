/**
 * The dashboard screen: the topic feed (`getTopics` and the `useTopics` hook),
 * the greeting chosen by the time of day, which feed items are rendered, and where
 * pressing an item navigates.
 */
module Dashboard {
  import opened Wrappers
  import opened JsValues
  import opened Platform
  import opened Api
  import opened Pagination

  // ---------------------------------------------------------------- getTopics

  const NoTopics := Batch(Null, [])

  /** The properties of `entries` other than `key`, in order (the `...rest` of a destructuring). */
  function Without(entries: seq<Entry>, key: string): (r: seq<Entry>)
    ensures key !in Keys(r)
    ensures forall k :: k != key ==> Lookup(r, k) == Lookup(entries, k)
  {
    if entries == [] then []
    else
      var rest := Without(entries[1..], key);
      if entries[0].key == key then rest
      else
        var r := [entries[0]] + rest;
        assert r[1..] == rest;
        assert Keys(r) == [entries[0].key] + Keys(rest);
        r
  }

  /**
   * A topic becomes a list item keyed by its `id` whose data is every other property;
   * destructuring `undefined` or `null` throws (`None`).
   */
  function TopicItem(element: Value): (r: Option<Value>)
    ensures r.None? <==> element.Undefined? || element.Null?
  {
    if element.Undefined? || element.Null? then None
    else Some(Obj([Entry("key", Get(element, "id").value), Entry("data", Obj(Without(OwnEntries(element), "id")))]))
  }

  /** `results.map(TopicItem)`: every element mapped in order, or the exception of the first that throws. */
  function MapTopics(results: seq<Value>): (r: Option<seq<Value>>)
    ensures r.Some? <==> forall i :: 0 <= i < |results| ==> TopicItem(results[i]).Some?
    ensures r.Some? ==> |r.value| == |results| && forall i :: 0 <= i < |results| ==> Some(r.value[i]) == TopicItem(results[i])
  {
    if results == [] then Some([])
    else
      match (TopicItem(results[0]), MapTopics(results[1..]))
      case (Some(item), Some(items)) =>
        var r := [item] + items;
        assert forall i :: 1 <= i < |results| ==> results[i] == results[1..][i - 1];
        Some(r)
      case (None, _) => None
      case (_, None) =>
        assert forall i :: 1 <= i < |results| ==> results[i] == results[1..][i - 1];
        None
  }

  /** The batch `getTopics` makes of what `request` gave; every exception gives the empty batch. */
  function TopicsBatch(r: Completion<Option<Response>>): Batch {
    match r
    case Abrupt(_) => NoTopics
    case Normal(None) => NoTopics
    case Normal(Some(resp)) =>
      match JsonBody(resp)
      case None => NoTopics
      case Some(data) =>
        match Get(data, "next")
        case None => NoTopics
        case Some(next) =>
          match Get(data, "results").value
          case Arr(results) =>
            (match MapTopics(results)
             case None => NoTopics
             case Some(items) => Batch(next, items))
          case _ => NoTopics
  }

  /**
   * `getTopics(next)`: `request(next, 'GET', {})`. A page that is not a string fails
   * at `path.startsWith`, before anything is fetched.
   */
  function GetTopicsW(w: World, next: Value): (r: (Batch, World))
    ensures !next.Str? ==> r == (NoTopics, w)
  {
    if !next.Str? then (NoTopics, w)
    else
      var (res, w1) := RequestW(w, next.s, "GET", Obj([]));
      (TopicsBatch(res), w1)
  }

  method GetTopics(s: Services, next: Value) returns (batch: Batch)
    modifies s
    ensures (batch, s.State()) == GetTopicsW(old(s.State()), next)
  {
    if !next.Str? {
      return NoTopics;
    }
    var res := Request(s, next.s, "GET", Obj([]));
    batch := TopicsBatch(res);
  }

  // ---------------------------------------------------------------- useTopics

  const FirstTopicsPage := Str("content/topic/")

  /** One effect run of `useTopics`: the `useFetch` effect with `getTopics` as the fetcher. */
  function TopicsEffectW(h: HookState, w: World): (HookState, World) {
    if !WillFetch(h) then (h, w)
    else
      var (batch, w1) := GetTopicsW(w, h.page);
      (EffectS(h, batch), w1)
  }

  method TopicsEffect(hook: FetchHook, s: Services) returns (fetched: bool)
    modifies hook, s
    ensures fetched == WillFetch(old(hook.State()))
    ensures (hook.State(), s.State()) == TopicsEffectW(old(hook.State()), old(s.State()))
  {
    if !hook.shouldFetch || !Truthy(hook.page) {
      return false;
    }
    var batch := GetTopics(s, hook.page);
    fetched := hook.Effect(batch);
  }

  // ---------------------------------------------------------------- GreetingText

  /** The greeting bucket: 1 night, 2 morning, 3 afternoon, 4 evening. */
  function Bucket(hour: int, minute: int): int {
    if hour < 5 || (minute >= 30 && hour == 23) then 1
    else if hour < 12 then 2
    else if hour < 18 then 3
    else 4
  }

  function TimeGreetings(bucket: int): seq<string> {
    if bucket == 1 then ["Exciting news for tonight"]
    else if bucket == 2 then ["Morning!", "Top of the morning!"]
    else if bucket == 3 then ["Good afternoon!", "Afternoon mate"]
    else ["Good evening!"]
  }

  /** `timeArray.concat(['Welcome back!'])`, the list `getRandomEl` draws from. */
  function Candidates(timeArray: seq<string>): (r: seq<string>)
    ensures |r| == |timeArray| + 1 && r[..|timeArray|] == timeArray && r[|timeArray|] == "Welcome back!"
  {
    timeArray + ["Welcome back!"]
  }

  /** `getRandomEl(timeArray)`, with the random draw given as `roll` (taken modulo the length). */
  function GetRandomEl(timeArray: seq<string>, roll: nat): (r: string)
    ensures r in Candidates(timeArray)
  {
    var combined := Candidates(timeArray);
    combined[roll % |combined|]
  }

  datatype GreetingState = GreetingState(hourState: int, greeting: string)

  /** One render: the cells change only when the current bucket differs from `hourState`. */
  function RenderS(g: GreetingState, hour: int, minute: int, roll: nat): GreetingState {
    var b := Bucket(hour, minute);
    if g.hourState == b then g else GreetingState(b, GetRandomEl(TimeGreetings(b), roll))
  }

  class GreetingText {
    var hourState: int
    var greeting: string

    function State(): GreetingState
      reads this
    {
      GreetingState(hourState, greeting)
    }

    constructor ()
      ensures State() == GreetingState(0, "")
    {
      hourState := 0;
      greeting := "";
    }

    /** The render body, given the clock reading and the random draw. */
    method Render(hour: int, minute: int, roll: nat)
      modifies this
      ensures State() == RenderS(old(State()), hour, minute, roll)
    {
      if hour < 5 || (minute >= 30 && hour == 23) {
        if hourState != 1 {
          hourState := 1;
          greeting := GetRandomEl(["Exciting news for tonight"], roll);
        }
      } else if hour < 12 {
        if hourState != 2 {
          hourState := 2;
          greeting := GetRandomEl(["Morning!", "Top of the morning!"], roll);
        }
      } else if hour < 18 {
        if hourState != 3 {
          hourState := 3;
          greeting := GetRandomEl(["Good afternoon!", "Afternoon mate"], roll);
        }
      } else {
        if hourState != 4 {
          hourState := 4;
          greeting := GetRandomEl(["Good evening!"], roll);
        }
      }
    }
  }

  // ---------------------------------------------------------------- feed items

  datatype Rendered = SummaryItemOf(topic: Value) | EmptyFragment

  /** `renderItem({item})`: a summary item for a topic whose `type` is 0, an empty fragment otherwise. */
  function RenderItem(item: Value): (r: Completion<Rendered>)
    ensures r.Normal? <==> !(item.Undefined? || item.Null?) && !(Get(item, "data").value.Undefined? || Get(item, "data").value.Null?)
    ensures r.Normal? ==> (r.value.SummaryItemOf? <==> Get(Get(item, "data").value, "type") == Some(Num(0)))
    ensures r.Normal? && r.value.SummaryItemOf? ==> r.value.topic == Get(item, "data").value
  {
    match Get(item, "data")
    case None => Abrupt(TypeError)
    case Some(topic) =>
      match Get(topic, "type")
      case None => Abrupt(TypeError)
      case Some(t) => Normal(if t == Num(0) then SummaryItemOf(topic) else EmptyFragment)
  }

  /**
   * Pressing a summary item: the summary screen for a topic not yet voted on
   * (`user_vote === null`), the analytics screen otherwise. `topic_id` is the item's
   * `key` prop, which React keeps to itself, so it is always `undefined`.
   */
  function SummaryRoute(topic: Value, componentId: Value): (r: Completion<NavCall>)
    ensures r.Abrupt? <==> topic.Undefined? || topic.Null?
    ensures r.Abrupt? ==> r.thrown == TypeError
    ensures r.Normal? ==>
      r.value.Push? && r.value.componentId == componentId
      && (r.value.name == "SummaryScreen" <==> Get(topic, "user_vote") == Some(Null))
      && (r.value.name == "SummaryScreen" || r.value.name == "AnalyticsScreen")
  {
    match Get(topic, "user_vote")
    case None => Abrupt(TypeError)
    case Some(vote) =>
      if vote == Null then
        Normal(Push(componentId, "SummaryScreen",
          [Entry("component_id", componentId), Entry("topic_id", Undefined), Entry("topic_title", Get(topic, "title").value)]))
      else
        Normal(Push(componentId, "AnalyticsScreen",
          [Entry("component_id", componentId), Entry("topic_id", Undefined), Entry("topic", topic)]))
  }

  method PressSummaryItem(s: Services, topic: Value, componentId: Value) returns (r: Completion<()>)
    modifies s
    ensures var route := SummaryRoute(topic, componentId);
      (route.Abrupt? ==> r == Abrupt(route.thrown) && s.State() == old(s.State()))
      && (route.Normal? ==> r == Normal(()) && s.State() == NavigateW(old(s.State()), route.value))
  {
    var route := SummaryRoute(topic, componentId);
    if route.Abrupt? {
      return Abrupt(route.thrown);
    }
    s.Navigate(route.value);
    return Normal(());
  }

  // ---------------------------------------------------------------- properties

  /** Each result `{id, ...rest}` becomes `{key: id, data: rest}`: `rest` has every other property and no `id`. */
  lemma TopicItemShape(entries: seq<Entry>, k: string)
    ensures var item := TopicItem(Obj(entries)).value;
      Get(item, "key") == Some(if "id" in Keys(entries) then Lookup(entries, "id").value else Undefined)
      && Get(item, "data").value.Obj?
      && "id" !in Keys(Get(item, "data").value.entries)
      && (k != "id" ==> Lookup(Get(item, "data").value.entries, k) == Lookup(entries, k))
  {
    var item := TopicItem(Obj(entries)).value;
    assert Keys(item.entries) == ["key", "data"];
    assert DistinctKeys(item.entries);
    LookupAt(item.entries, 0);
    LookupAt(item.entries, 1);
  }

  /** A page that answers ok with `{next, results: [...]}` gives `next` and the mapped results, in order. */
  lemma GetTopicsPage(w: World, path: string, data: Value, results: seq<Value>)
    requires w.replies != [] && w.replies[0].Respond? && w.replies[0].response.ok
    requires JsonBody(w.replies[0].response) == Some(data)
    requires data.Obj? && Get(data, "results") == Some(Arr(results))
    requires forall i :: 0 <= i < |results| ==> !(results[i].Undefined? || results[i].Null?)
    ensures var (batch, w') := GetTopicsW(w, Str(path));
      batch.next == Get(data, "next").value
      && |batch.data| == |results|
      && (forall i :: 0 <= i < |results| ==> Some(batch.data[i]) == TopicItem(results[i]))
      && w'.fetches == w.fetches + [RequestCall(w, path, "GET", Obj([]))]
  {
    RequestOk(w, path, "GET", Obj([]));
  }

  /** Any failure of the request gives `{next: null, data: []}`, which ends the feed. */
  lemma GetTopicsFailure(w: World, path: string)
    requires w.replies == [] || w.replies[0].Reject?
      || (w.replies[0].Respond? && !w.replies[0].response.ok && w.replies[0].response.statusCode != Some(401))
    ensures GetTopicsW(w, Str(path)).0 == Batch(Null, [])
  {
  }

  /** `useTopics` starts at 'content/topic/' and fetches on its first run; a failed page stops the feed for good. */
  lemma TopicsFeed(w: World, events: seq<Event>)
    ensures WillFetch(Init(FirstTopicsPage))
    ensures var h := EffectS(Init(FirstTopicsPage), NoTopics);
      Replay(h, events).requested == [FirstTopicsPage] && Replay(h, events).topics == []
  {
    FalsyPageStops(EffectS(Init(FirstTopicsPage), NoTopics), events);
  }

  /** When the topics effect does not fetch, nothing is requested from the network. */
  lemma TopicsEffectIdle(h: HookState, w: World)
    requires !WillFetch(h)
    ensures TopicsEffectW(h, w) == (h, w)
  {
  }

  /** Night is 23:30 to 5:00, morning 5:00 to 12:00, afternoon 12:00 to 18:00, evening 18:00 to 23:30. */
  lemma BucketByMinuteOfDay(hour: int, minute: int)
    requires 0 <= hour < 24 && 0 <= minute < 60
    ensures var t := 60 * hour + minute;
      (Bucket(hour, minute) == 1 <==> t < 300 || t >= 1410)
      && (Bucket(hour, minute) == 2 <==> 300 <= t < 720)
      && (Bucket(hour, minute) == 3 <==> 720 <= t < 1080)
      && (Bucket(hour, minute) == 4 <==> 1080 <= t < 1410)
  {
  }

  /** Every candidate, the time greetings and 'Welcome back!', can be drawn. */
  lemma EveryCandidateDrawn(timeArray: seq<string>, i: nat)
    requires i < |Candidates(timeArray)|
    ensures GetRandomEl(timeArray, i) == Candidates(timeArray)[i]
  {
  }

  /**
   * A render leaves `hourState` at the current bucket with a greeting from that
   * bucket's candidates, and rendering again in the same bucket changes nothing,
   * whatever the draw.
   */
  lemma RenderSettles(g: GreetingState, hour: int, minute: int, roll: nat, roll': nat)
    ensures var g' := RenderS(g, hour, minute, roll);
      g'.hourState == Bucket(hour, minute)
      && (g.hourState != Bucket(hour, minute) ==> g'.greeting in Candidates(TimeGreetings(Bucket(hour, minute))))
      && RenderS(g', hour, minute, roll') == g'
  {
  }

  /** The first render always chooses a greeting, since 0 is no bucket. */
  lemma FirstRenderGreets(hour: int, minute: int, roll: nat)
    ensures RenderS(GreetingState(0, ""), hour, minute, roll).greeting != ""
  {
    var b := Bucket(hour, minute);
    var c := Candidates(TimeGreetings(b));
    assert forall i :: 0 <= i < |c| ==> c[i] != "";
  }

  /** The summary screen is shown exactly for a topic whose `user_vote` is `null`. */
  lemma SummaryRouteChoice(topic: Value, componentId: Value)
    requires topic.Obj?
    ensures var r := SummaryRoute(topic, componentId);
      r.Normal? && r.value.Push? && r.value.componentId == componentId
      && (r.value.name == "SummaryScreen" <==> "user_vote" in Keys(topic.entries) && Lookup(topic.entries, "user_vote") == Some(Null))
      && Lookup(r.value.props, "topic_id") == Some(Undefined)
  {
    var r := SummaryRoute(topic, componentId);
    assert r.value.props[1..][1..][1..] == [];
  }
}
