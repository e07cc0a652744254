/**
 * The incremental-fetch hook `useFetch(initialPath, asyncFn)`: a cursor `page`,
 * a `shouldFetch` flag and the list of items loaded so far. An effect run
 * fetches the current page (when the flag is set and the page is truthy),
 * appends the batch's items and moves the cursor to the batch's `next`;
 * `fetchMore` only raises the flag.
 */
module Pagination {
  import opened JsValues

  /** What `asyncFn(page)` resolves to: `{next, data}`. */
  datatype Batch = Batch(next: Value, data: seq<Value>)

  /** The hook's three state cells, plus the pages `asyncFn` was called with. */
  datatype HookState = HookState(page: Value, shouldFetch: bool, topics: seq<Value>, requested: seq<Value>)

  function Init(initialPath: Value): (h: HookState)
    ensures h.page == initialPath && h.shouldFetch && h.topics == [] && h.requested == []
  {
    HookState(initialPath, true, [], [])
  }

  /** The effect's guard: it fetches only when asked to and the page is truthy. */
  predicate WillFetch(h: HookState) {
    h.shouldFetch && Truthy(h.page)
  }

  function FetchMoreS(h: HookState): HookState {
    h.(shouldFetch := true)
  }

  /** One effect run, where `batch` is what `asyncFn(h.page)` resolves to if it is called. */
  function EffectS(h: HookState, batch: Batch): HookState {
    if !WillFetch(h) then h
    else HookState(batch.next, false, h.topics + batch.data, h.requested + [h.page])
  }

  /** An event the hook reacts to: a `fetchMore` call, or an effect run with the batch the fetch yields. */
  datatype Event = FetchMore | Run(batch: Batch)

  function Step(h: HookState, e: Event): HookState {
    match e
    case FetchMore => FetchMoreS(h)
    case Run(batch) => EffectS(h, batch)
  }

  function Replay(h: HookState, events: seq<Event>): HookState
    decreases |events|
  {
    if events == [] then h else Replay(Step(h, events[0]), events[1..])
  }

  class FetchHook {
    var page: Value
    var shouldFetch: bool
    var topics: seq<Value>
    var requested: seq<Value>

    function State(): HookState
      reads this
    {
      HookState(page, shouldFetch, topics, requested)
    }

    constructor (initialPath: Value)
      ensures State() == Init(initialPath)
    {
      page := initialPath;
      shouldFetch := true;
      topics := [];
      requested := [];
    }

    method FetchMore()
      modifies this
      ensures State() == FetchMoreS(old(State()))
    {
      shouldFetch := true;
    }

    /** The effect body; returns whether `asyncFn` was called. */
    method Effect(batch: Batch) returns (fetched: bool)
      modifies this
      ensures fetched == WillFetch(old(State()))
      ensures State() == EffectS(old(State()), batch)
    {
      if !shouldFetch || !Truthy(page) {
        return false;
      }
      requested := requested + [page];
      shouldFetch := false;
      topics := topics + batch.data;
      page := batch.next;
      return true;
    }
  }

  // ---------------------------------------------------------------- properties

  /** The first effect run fetches exactly when the initial path is truthy. */
  lemma FirstRunFetches(initialPath: Value, batch: Batch)
    ensures WillFetch(Init(initialPath)) <==> Truthy(initialPath)
    ensures Truthy(initialPath) ==> EffectS(Init(initialPath), batch) == HookState(batch.next, false, batch.data, [initialPath])
  {
  }

  /** A completed fetch appends the batch in order and moves the cursor; a skipped run changes nothing. */
  lemma EffectAppends(h: HookState, batch: Batch)
    ensures var h' := EffectS(h, batch);
      (WillFetch(h) ==> h'.topics == h.topics + batch.data && h'.page == batch.next && !h'.shouldFetch
                        && h'.requested == h.requested + [h.page])
      && (!WillFetch(h) ==> h' == h)
  {
  }

  /** Calling `fetchMore` any number n >= 1 of times is the same as calling it once. */
  lemma {:induction false} FetchMoreIdempotent(h: HookState, n: nat)
    requires n >= 1
    ensures Replay(h, seq(n, _ => FetchMore)) == FetchMoreS(h)
    decreases n
  {
    if n > 1 {
      var events := seq(n, _ => FetchMore);
      assert events[1..] == seq(n - 1, _ => FetchMore);
      FetchMoreIdempotent(FetchMoreS(h), n - 1);
      assert FetchMoreS(FetchMoreS(h)) == FetchMoreS(h);
    } else {
      var events := seq(1, _ => FetchMore);
      assert events[1..] == [];
    }
  }

  /** Once the cursor is falsy (`null` after the last page), no event calls `asyncFn` again or changes the list. */
  lemma {:induction false} FalsyPageStops(h: HookState, events: seq<Event>)
    requires !Truthy(h.page)
    ensures Replay(h, events).requested == h.requested
    ensures Replay(h, events).topics == h.topics
    ensures Replay(h, events).page == h.page
    decreases |events|
  {
    if events != [] {
      FalsyPageStops(Step(h, events[0]), events[1..]);
    }
  }

  /** The list only grows at its end, and `asyncFn` is called at most once per event. */
  lemma {:induction false} TopicsOnlyGrow(h: HookState, events: seq<Event>)
    ensures var h' := Replay(h, events);
      |h.topics| <= |h'.topics| && h'.topics[..|h.topics|] == h.topics
      && |h.requested| <= |h'.requested| <= |h.requested| + |events| && h'.requested[..|h.requested|] == h.requested
    decreases |events|
  {
    if events != [] {
      var next := Step(h, events[0]);
      TopicsOnlyGrow(next, events[1..]);
      var h' := Replay(h, events);
      assert h'.topics[..|next.topics|][..|h.topics|] == h'.topics[..|h.topics|];
      assert h'.requested[..|next.requested|][..|h.requested|] == h'.requested[..|h.requested|];
    }
  }
}
