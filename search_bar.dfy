/**
 * The search bar component of the Next.js pages (`components/SearchBar.js`): the same kind of
 * dropdown as the static pages, with its own rules. Arrow keys saturate at both ends, the
 * highlighted index is never reset when new results arrive, and the list keeps at most
 * eight entries. The request and the `onAnimeSelect` callback are returned as effects.
 */
module SearchBar {
  import opened Common
  import opened Catalog
  import opened Text

  /** `results.slice(0, 8)`. */
  const MaxSuggestions := 8

  datatype Key = ArrowDown | ArrowUp | Enter | Escape | OtherKey

  /** How `searchAnime(query)` settles: its list, or a rejection. */
  datatype Reply = Results(items: seq<Anime>) | Failed

  datatype Effect =
    | Nothing
      /** `searchAnime(query)` with its default limit; the answer comes back as `Settled`. */
    | Request(query: string)
      /** `onAnimeSelect(animeId)`. */
    | Select(animeId: int)
      /** `suggestions[selectedIndex]` is `undefined`: reading its `mal_id` throws. */
    | Crash

  /** The component's hook state; `hasCallback` says whether `onAnimeSelect` was passed. */
  datatype Bar = Bar(
    query: string,
    suggestions: seq<Anime>,
    loading: bool,
    shown: bool,
    selected: int,
    /** The value the debounce timer in `searchTimeout` will fetch, `None` when none waits. */
    pending: Option<string>,
    hasCallback: bool)

  datatype Outcome = Outcome(bar: Bar, effect: Effect)

  /** The index stays within `[-1, 7]` and the list never holds more than eight entries. */
  predicate Valid(b: Bar) {
    -1 <= b.selected < MaxSuggestions && |b.suggestions| <= MaxSuggestions
  }

  /** The state on mount. */
  function Initial(hasCallback: bool): (b: Bar)
    ensures Valid(b) && !b.shown && b.selected == -1 && b.suggestions == []
  {
    Bar("", [], false, false, -1, None, hasCallback)
  }

  /** `handleInputChange`: store the text and restart the timer, whatever the text. */
  function OnInputChange(b: Bar, value: string): (r: Bar)
    ensures r.query == value && r.pending == Some(value)
    ensures r == b.(query := value, pending := r.pending)
  {
    b.(query := value, pending := Some(value))
  }

  /** The synchronous part of `fetchSuggestions(searchQuery)`. */
  function StartFetch(b: Bar, searchQuery: string): (r: Outcome)
    ensures Trim(searchQuery) == [] ==> r == Outcome(b.(suggestions := [], shown := false), Nothing)
    ensures Trim(searchQuery) != [] ==> r == Outcome(b.(loading := true), Request(searchQuery))
  {
    if Trim(searchQuery) == [] then Outcome(b.(suggestions := [], shown := false), Nothing)
    else Outcome(b.(loading := true), Request(searchQuery))
  }

  /** The debounce timer fires with the value it was set for. */
  function OnDebounce(b: Bar): (r: Outcome)
    ensures r.bar.pending == None
    ensures b.pending == None ==> r == Outcome(b, Nothing)
    ensures b.pending.Some? ==> r == StartFetch(b.(pending := None), b.pending.value)
  {
    match b.pending
      case None => Outcome(b, Nothing)
      case Some(value) => StartFetch(b.(pending := None), value)
  }

  /** The search button: `query && fetchSuggestions(query)`. */
  function OnSearchClick(b: Bar): (r: Outcome)
    ensures b.query == [] ==> r == Outcome(b, Nothing)
    ensures b.query != [] ==> r == StartFetch(b, b.query)
  {
    if b.query != [] then StartFetch(b, b.query) else Outcome(b, Nothing)
  }

  /** The rest of `fetchSuggestions` once `searchAnime` settles. */
  function OnSettled(b: Bar, reply: Reply): (r: Bar)
    ensures !r.loading && r.selected == b.selected && r.query == b.query && r.pending == b.pending
    ensures reply.Results? ==> r.shown && r.suggestions == Take(reply.items, MaxSuggestions)
    ensures reply.Failed? ==> r == b.(loading := false)
  {
    match reply
      case Failed => b.(loading := false)
      case Results(items) => b.(suggestions := Take(items, MaxSuggestions), shown := true, loading := false)
  }

  /** `handleClear`. The timer is not cancelled and the index is not reset. */
  function OnClear(b: Bar): (r: Bar)
    ensures r.query == [] && r.suggestions == [] && !r.shown
    ensures r.loading == b.loading && r.selected == b.selected && r.pending == b.pending
  {
    b.(query := [], suggestions := [], shown := false)
  }

  /** `handleSuggestionClick(animeId)`. */
  function SuggestionClick(b: Bar, animeId: int): (r: Outcome)
    ensures r.bar == b.(shown := false)
    ensures r.effect == (if b.hasCallback then Select(animeId) else Nothing)
  {
    Outcome(b.(shown := false), if b.hasCallback then Select(animeId) else Nothing)
  }

  /** A click on the rendered entry at `index`: entries are rendered only while the dropdown
      is shown and no request is loading. */
  function OnItemClick(b: Bar, index: int): (r: Outcome)
    ensures b.shown && !b.loading && 0 <= index < |b.suggestions| ==> r == SuggestionClick(b, b.suggestions[index].malId)
    ensures !(b.shown && !b.loading && 0 <= index < |b.suggestions|) ==> r == Outcome(b, Nothing)
  {
    if b.shown && !b.loading && 0 <= index < |b.suggestions| then SuggestionClick(b, b.suggestions[index].malId)
    else Outcome(b, Nothing)
  }

  /** The `ArrowDown` updater. */
  function Down(selected: int, length: int): (r: int)
    ensures selected < length - 1 ==> r == selected + 1
    ensures selected >= length - 1 ==> r == selected
  {
    if selected < length - 1 then selected + 1 else selected
  }

  /** The `ArrowUp` updater. */
  function Up(selected: int): (r: int)
    ensures r >= 0
    ensures selected > 0 ==> r == selected - 1
    ensures selected <= 0 ==> r == 0
  {
    if selected > 0 then selected - 1 else 0
  }

  /** `handleKeyDown(e)`: keys act only over a shown, non-empty list. */
  function OnKeyDown(b: Bar, key: Key): (r: Outcome)
    ensures !b.shown || b.suggestions == [] ==> r == Outcome(b, Nothing)
    ensures r.bar.selected >= Min(b.selected, 0)
    ensures r.bar == b.(selected := r.bar.selected, shown := r.bar.shown)
    ensures b.shown && b.suggestions != [] && key == ArrowDown ==>
              r == Outcome(b.(selected := Down(b.selected, |b.suggestions|)), Nothing)
    ensures b.shown && b.suggestions != [] && key == ArrowUp ==> r == Outcome(b.(selected := Up(b.selected)), Nothing)
    ensures key == OtherKey || (key == Enter && b.selected < 0) ==> r == Outcome(b, Nothing)
  {
    if !b.shown || |b.suggestions| == 0 then Outcome(b, Nothing)
    else match key
      case ArrowDown => Outcome(b.(selected := Down(b.selected, |b.suggestions|)), Nothing)
      case ArrowUp => Outcome(b.(selected := Up(b.selected)), Nothing)
      case Enter =>
        if b.selected < 0 then Outcome(b, Nothing)
        else if b.selected < |b.suggestions| then SuggestionClick(b, b.suggestions[b.selected].malId)
        else Outcome(b, Crash)
      case Escape => Outcome(b.(shown := false), Nothing)
      case OtherKey => Outcome(b, Nothing)
  }

  /** The document `mousedown` listener, for a target outside the field and the dropdown. */
  function OnOutside(b: Bar): (r: Bar)
    ensures !r.shown && r == b.(shown := false)
  {
    b.(shown := false)
  }

  datatype Event =
    | Changed(value: string)
    | DebounceElapsed
    | SearchClicked     // a click on the search button
    | Settled(reply: Reply)
    | ClearClicked      // a click on the clear button
    | ItemClicked(index: int)
    | Pressed(key: Key)
    | MouseDownOutside  // a mousedown outside the field and the dropdown

  function Step(b: Bar, e: Event): (r: Outcome)
    requires Valid(b)
    ensures Valid(r.bar) && r.bar.hasCallback == b.hasCallback
  {
    match e
      case Changed(value) => Outcome(OnInputChange(b, value), Nothing)
      case DebounceElapsed => OnDebounce(b)
      // The buttons lie outside the field and the dropdown: the press reaches the document
      // `mousedown` listener, which hides the dropdown, before the button's `click` handler runs.
      case SearchClicked => OnSearchClick(OnOutside(b))
      case Settled(reply) => Outcome(OnSettled(b, reply), Nothing)
      case ClearClicked => Outcome(OnClear(OnOutside(b)), Nothing)
      case ItemClicked(index) => OnItemClick(b, index)
      case Pressed(key) => OnKeyDown(b, key)
      case MouseDownOutside => Outcome(OnOutside(b), Nothing)
  }

  /** The state after a series of events, with the effects they asked for in order. */
  function Run(b: Bar, events: seq<Event>): (r: (Bar, seq<Effect>))
    requires Valid(b)
    decreases |events|
  {
    if events == [] then (b, [])
    else
      var first := Step(b, events[0]);
      var rest := Run(first.bar, events[1..]);
      (rest.0, [first.effect] + rest.1)
  }

  /** Every series of events keeps the state valid and yields one effect per event. */
  lemma {:induction false} RunKeepsValid(b: Bar, events: seq<Event>)
    requires Valid(b)
    ensures Valid(Run(b, events).0) && |Run(b, events).1| == |events|
    ensures Run(b, events).0.hasCallback == b.hasCallback
    decreases |events|
  {
    if events != [] {
      RunKeepsValid(Step(b, events[0]).bar, events[1..]);
    }
  }

  /** ArrowDown never moves the highlight past the last entry, and ArrowUp never leaves
      anything highlighted below the first: -1 becomes 0. */
  lemma ArrowsStayInside(b: Bar)
    requires b.shown && b.suggestions != [] && b.selected < |b.suggestions|
    ensures OnKeyDown(b, ArrowDown).bar.selected < |b.suggestions|
    ensures OnKeyDown(b, ArrowUp).bar.selected >= 0
    ensures b.selected == -1 ==> OnKeyDown(b, ArrowUp).bar.selected == 0
  {
  }

  /** Enter over an index inside the list hands that entry's id to the callback and closes
      the dropdown; over an index the list no longer reaches it throws. */
  lemma EnterSelects(b: Bar)
    requires b.shown && b.suggestions != [] && b.selected >= 0
    ensures b.selected < |b.suggestions| ==>
              OnKeyDown(b, Enter).effect == (if b.hasCallback then Select(b.suggestions[b.selected].malId) else Nothing)
              && !OnKeyDown(b, Enter).bar.shown
    ensures b.selected >= |b.suggestions| ==> OnKeyDown(b, Enter) == Outcome(b, Crash)
  {
  }

  /** Escape hides the dropdown and changes nothing else. */
  lemma EscapeOnlyHides(b: Bar)
    requires b.shown && b.suggestions != []
    ensures OnKeyDown(b, Escape) == Outcome(b.(shown := false), Nothing)
  {
  }

  /** Shorter results keep the old index: after highlighting entry `k` of a longer list, any
      non-empty answer of at most `k` entries makes Enter throw. */
  lemma StaleIndexCrashes(b: Bar, items: seq<Anime>)
    requires Valid(b) && b.selected >= 0 && 0 < |items| <= b.selected
    ensures var after := OnSettled(b, Results(items));
            after.shown && after.suggestions == items
            && OnKeyDown(after, Enter) == Outcome(after, Crash)
  {
    var after := OnSettled(b, Results(items));
    assert Take(items, MaxSuggestions) == items;
  }

  /** Running two series one after the other is running them joined. */
  lemma {:induction false} RunConcat(b: Bar, first: seq<Event>, second: seq<Event>)
    requires Valid(b)
    ensures (RunKeepsValid(b, first);
             var mid := Run(b, first);
             Run(b, first + second) == (Run(mid.0, second).0, mid.1 + Run(mid.0, second).1))
    decreases |first|
  {
    RunKeepsValid(b, first);
    if first != [] {
      var o := Step(b, first[0]);
      var s := o.bar;
      assert (first + second)[0] == first[0] && (first + second)[1..] == first[1..] + second;
      RunConcat(s, first[1..], second);
      RunKeepsValid(s, first[1..]);
      var tail := Run(s, first[1..]);
      var after := Run(tail.0, second);
      assert Run(b, first) == (tail.0, [o.effect] + tail.1);
      assert Run(b, first + second) == (after.0, [o.effect] + (tail.1 + after.1));
      assert [o.effect] + (tail.1 + after.1) == ([o.effect] + tail.1) + after.1;
    } else {
      assert first + second == second;
      assert Run(b, first) == (b, []);
      assert [] + Run(b, second).1 == Run(b, second).1;
    }
  }

  /** One event in front of a series: its step, then the rest. */
  lemma {:induction false} RunCons(b: Bar, e: Event, rest: seq<Event>)
    requires Valid(b)
    ensures var o := Step(b, e);
            Run(b, [e] + rest) == (Run(o.bar, rest).0, [o.effect] + Run(o.bar, rest).1)
  {
    assert ([e] + rest)[0] == e && ([e] + rest)[1..] == rest;
  }

  /** A single event: its step. */
  lemma {:induction false} RunOne(b: Bar, e: Event)
    requires Valid(b)
    ensures Run(b, [e]) == (Step(b, e).bar, [Step(b, e).effect])
  {
    var o := Step(b, e);
    assert [e][0] == e && [e][1..] == [];
    assert Run(o.bar, []) == (o.bar, []) && [o.effect] + [] == [o.effect];
  }

  /** One complete search from any state: typing a non-blank value, the debounce, and an
      answer of at most eight entries. The value is requested once, the answer is shown,
      and the highlighted index is left as it was. */
  lemma {:induction false} SearchRound(b: Bar, q: string, items: seq<Anime>)
    requires Valid(b) && !Blank(q) && |items| <= MaxSuggestions
    ensures Run(b, [Changed(q), DebounceElapsed, Settled(Results(items))])
            == (b.(query := q, suggestions := items, shown := true, loading := false, pending := None),
                [Nothing, Request(q), Nothing])
  {
    var b1 := b.(query := q, pending := Some(q));
    assert Step(b, Changed(q)) == Outcome(b1, Nothing);
    RoundAfterInput(b1, q, items);
    RunCons(b, Changed(q), [DebounceElapsed, Settled(Results(items))]);
    Prepend(Changed(q), DebounceElapsed, Settled(Results(items)));
    Prepend(Nothing, Request(q), Nothing);
  }

  /** The second half of a search round: the debounce for a non-blank value, then an
      answer of at most eight entries. */
  lemma {:induction false} RoundAfterInput(b: Bar, q: string, items: seq<Anime>)
    requires Valid(b) && b.pending == Some(q) && !Blank(q) && |items| <= MaxSuggestions
    ensures Run(b, [DebounceElapsed, Settled(Results(items))])
            == (b.(pending := None, suggestions := items, shown := true, loading := false),
                [Request(q), Nothing])
  {
    var b2 := b.(pending := None, loading := true);
    DebounceRequests(b, q);
    AnswerShown(b2, items);
    RunOne(b2, Settled(Results(items)));
    RunCons(b, DebounceElapsed, [Settled(Results(items))]);
    Prepend(DebounceElapsed, Settled(Results(items)), Settled(Results(items)));
    Prepend(Request(q), Nothing, Nothing);
  }

  /** `[x] + [y, z]` is `[x, y, z]`, and `[x] + [y]` is `[x, y]`. */
  lemma Prepend<T>(x: T, y: T, z: T)
    ensures [x] + [y, z] == [x, y, z] && [x] + [y] == [x, y]
  {
  }

  /** The debounce timer for a non-blank value starts loading and requests that value. */
  lemma DebounceRequests(b: Bar, q: string)
    requires Valid(b) && b.pending == Some(q) && !Blank(q)
    ensures Step(b, DebounceElapsed) == Outcome(b.(pending := None, loading := true), Request(q))
  {
    TrimEmptyIffBlank(q);
  }

  /** An answer of at most eight entries is shown whole and ends the loading. */
  lemma AnswerShown(b: Bar, items: seq<Anime>)
    requires Valid(b) && |items| <= MaxSuggestions
    ensures Step(b, Settled(Results(items))) == Outcome(b.(suggestions := items, shown := true, loading := false), Nothing)
  {
    assert Take(items, MaxSuggestions) == items;
  }

  /** Two presses of ArrowDown over two shown entries highlight the second. */
  lemma {:induction false} TwoArrowsDown(b: Bar)
    requires Valid(b) && b.shown && |b.suggestions| == 2 && b.selected == -1
    ensures Run(b, [Pressed(ArrowDown), Pressed(ArrowDown)]) == (b.(selected := 1), [Nothing, Nothing])
  {
    var b1 := b.(selected := 0);
    assert Step(b, Pressed(ArrowDown)) == Outcome(b1, Nothing);
    RunOne(b, Pressed(ArrowDown));
    assert Step(b1, Pressed(ArrowDown)) == Outcome(b.(selected := 1), Nothing);
    RunOne(b1, Pressed(ArrowDown));
    RunConcat(b, [Pressed(ArrowDown)], [Pressed(ArrowDown)]);
    assert [Pressed(ArrowDown)] + [Pressed(ArrowDown)] == [Pressed(ArrowDown), Pressed(ArrowDown)];
    assert [Nothing] + [Nothing] == [Nothing, Nothing];
  }

  /** Enter over an index the shown list no longer reaches: the one effect is the throw. */
  lemma {:induction false} EnterPastEndCrashes(b: Bar)
    requires Valid(b) && b.shown && 0 < |b.suggestions| <= b.selected
    ensures Run(b, [Pressed(Enter)]) == (b, [Crash])
  {
    assert Step(b, Pressed(Enter)) == Outcome(b, Crash);
    RunOne(b, Pressed(Enter));
  }

  /** A concrete series of events from mount that ends in the throw: a first search answers
      with two entries, the second is highlighted, a second search answers with one entry
      while the dropdown stays open, and Enter is pressed. */
  lemma {:induction false} StaleIndexTrace(a: Anime, c: Anime, q1: string, q2: string)
    requires !Blank(q1) && !Blank(q2)
    ensures Run(Initial(true), [Changed(q1), DebounceElapsed, Settled(Results([a, c]))]
                               + [Pressed(ArrowDown), Pressed(ArrowDown)]
                               + [Changed(q2), DebounceElapsed, Settled(Results([a]))]
                               + [Pressed(Enter)]).1
            == [Nothing, Request(q1), Nothing] + [Nothing, Nothing] + [Nothing, Request(q2), Nothing] + [Crash]
  {
    var s1 := [Changed(q1), DebounceElapsed, Settled(Results([a, c]))];
    var arrows := [Pressed(ArrowDown), Pressed(ArrowDown)];
    var s2 := [Changed(q2), DebounceElapsed, Settled(Results([a]))];
    var b0 := Initial(true);
    SearchRound(b0, q1, [a, c]);
    var b3 := b0.(query := q1, suggestions := [a, c], shown := true, loading := false, pending := None);
    TwoArrowsDown(b3);
    var b5 := b3.(selected := 1);
    RunConcat(b0, s1, arrows);
    SearchRound(b5, q2, [a]);
    var b8 := b5.(query := q2, suggestions := [a], shown := true, loading := false, pending := None);
    RunConcat(b0, s1 + arrows, s2);
    EnterPastEndCrashes(b8);
    RunConcat(b0, s1 + arrows + s2, [Pressed(Enter)]);
  }

  /** A whitespace-only value clears the list and hides the dropdown without a request; any
      other value marks the bar as loading and requests it. */
  lemma BlankQueryNeverRequested(b: Bar, value: string)
    ensures Trim(value) == [] <==> StartFetch(b, value).effect == Nothing
    ensures Trim(value) == [] <==> Blank(value)
  {
    TrimEmptyIffBlank(value);
  }

  /** The hook state of one mounted `SearchBar`. */
  class SearchBarState {
    var query: string
    var suggestions: seq<Anime>
    var loading: bool
    var showSuggestions: bool
    var selectedIndex: int
    /** The value `searchTimeout.current` will fetch. */
    var pending: Option<string>
    /** Whether the `onAnimeSelect` prop was passed. */
    const hasCallback: bool

    function Snapshot(): Bar
      reads this
    {
      Bar(query, suggestions, loading, showSuggestions, selectedIndex, pending, hasCallback)
    }

    predicate Ready()
      reads this
    {
      Valid(Snapshot())
    }

    constructor (onAnimeSelect: bool)
      ensures Snapshot() == Initial(onAnimeSelect) && Ready()
    {
      query := [];
      suggestions := [];
      loading := false;
      showSuggestions := false;
      selectedIndex := -1;
      pending := None;
      hasCallback := onAnimeSelect;
    }

    method HandleInputChange(value: string)
      requires Ready()
      modifies this
      ensures Snapshot() == OnInputChange(old(Snapshot()), value) && Ready()
    {
      query := value;
      pending := Some(value);
    }

    method FetchSuggestions(searchQuery: string) returns (e: Effect)
      requires Ready()
      modifies this
      ensures Outcome(Snapshot(), e) == StartFetch(old(Snapshot()), searchQuery) && Ready()
    {
      if Trim(searchQuery) == [] {
        suggestions := [];
        showSuggestions := false;
        return Nothing;
      }
      loading := true;
      e := Request(searchQuery);
    }

    /** The debounce timer fires. */
    method DebounceElapsed() returns (e: Effect)
      requires Ready()
      modifies this
      ensures Outcome(Snapshot(), e) == OnDebounce(old(Snapshot())) && Ready()
    {
      e := Nothing;
      if pending.Some? {
        var value := pending.value;
        pending := None;
        e := FetchSuggestions(value);
      }
    }

    /** The search button's `onClick`. */
    method SearchClick() returns (e: Effect)
      requires Ready()
      modifies this
      ensures Outcome(Snapshot(), e) == OnSearchClick(old(Snapshot())) && Ready()
    {
      e := Nothing;
      if query != [] {
        e := FetchSuggestions(query);
      }
    }

    /** The awaited `searchAnime` settles. */
    method Settle(reply: Reply)
      requires Ready()
      modifies this
      ensures Snapshot() == OnSettled(old(Snapshot()), reply) && Ready()
    {
      if reply.Results? {
        suggestions := Take(reply.items, MaxSuggestions);
        showSuggestions := true;
      }
      loading := false;
    }

    method HandleClear()
      requires Ready()
      modifies this
      ensures Snapshot() == OnClear(old(Snapshot())) && Ready()
    {
      query := [];
      suggestions := [];
      showSuggestions := false;
    }

    method HandleSuggestionClick(animeId: int) returns (e: Effect)
      requires Ready()
      modifies this
      ensures Outcome(Snapshot(), e) == SuggestionClick(old(Snapshot()), animeId) && Ready()
    {
      e := Nothing;
      if hasCallback {
        e := Select(animeId);
      }
      showSuggestions := false;
    }

    method HandleKeyDown(key: Key) returns (e: Effect)
      requires Ready()
      modifies this
      ensures Outcome(Snapshot(), e) == OnKeyDown(old(Snapshot()), key) && Ready()
    {
      e := Nothing;
      if !showSuggestions || |suggestions| == 0 {
        return;
      }
      match key {
        case ArrowDown =>
          selectedIndex := Down(selectedIndex, |suggestions|);
        case ArrowUp =>
          selectedIndex := Up(selectedIndex);
        case Enter =>
          if selectedIndex >= 0 {
            if selectedIndex < |suggestions| {
              e := HandleSuggestionClick(suggestions[selectedIndex].malId);
            } else {
              e := Crash;
            }
          }
        case Escape =>
          showSuggestions := false;
        case OtherKey =>
      }
    }

    /** The document `mousedown` listener, for a target outside the field and the dropdown. */
    method MouseDownOutside()
      requires Ready()
      modifies this
      ensures Snapshot() == OnOutside(old(Snapshot())) && Ready()
    {
      showSuggestions := false;
    }
  }
}
