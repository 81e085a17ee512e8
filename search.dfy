/**
 * The search box of the static pages (`js/search.js`): typed text, the clear button, the
 * suggestion dropdown with its highlighted entry, and the one debounced request that may be
 * waiting. Calls into the rest of the page (the API, the details view, the toast) are
 * returned as effects.
 */
module Search {
  import opened Common
  import opened Catalog
  import opened Text

  /** `API.searchAnime(query, 8)` is what the dropdown asks for. */
  const SuggestionLimit := 8

  datatype Key = ArrowDown | ArrowUp | Enter | Escape | OtherKey

  /** What the suggestion request settles with: the `data || []` list, or a rejection. */
  datatype Reply = Data(items: seq<Anime>) | Failed

  /** What a handler asks of the rest of the page. */
  datatype Effect =
    | Nothing
      /** `API.searchAnime(query, 8)`, whose answer comes back as `SuggestionsArrived`. */
    | Suggest(query: string)
      /** `API.searchAnime(query, 1)`, whose answer is handled by `SubmitResult`. */
    | SearchFirst(query: string)
      /** `Anime.showAnimeDetails(anime.mal_id)` then `Anime.addToRecentlyViewed(anime)`. */
    | Open(anime: Anime)
      /** `Anime.showAnimeDetails(id)` alone. */
    | OpenId(id: int)
      /** `UI.showToast(message)`. */
    | Toast(message: string)

  /** The state of the search box. */
  datatype Box = Box(
    input: string,
    clearShown: bool,
    dropdownShown: bool,
    suggestions: seq<Anime>,
    selected: int,
    /** The query of the debounce timer not yet fired, `None` when there is none. */
    pending: Option<string>)

  datatype Outcome = Outcome(box: Box, effect: Effect)

  /** The highlighted index stays within `[-1, len-1]`, and the dropdown is visible only over
      a non-empty list. */
  predicate Valid(b: Box) {
    -1 <= b.selected < |b.suggestions| && (b.dropdownShown ==> |b.suggestions| > 0)
  }

  /** The module's state when the page loads. */
  const Initial := Box("", false, false, [], -1, None)

  /** `handleSearchInput` after the field's value became `value`. */
  function OnInput(b: Box, value: string): (r: Box)
    ensures r.input == value && r.suggestions == b.suggestions && r.selected == b.selected
    ensures Trim(value) == [] ==> !r.clearShown && !r.dropdownShown && r.pending == None
    ensures Trim(value) != [] ==> r.clearShown && r.dropdownShown == b.dropdownShown && r.pending == Some(Trim(value))
  {
    var query := Trim(value);
    if query != [] then b.(input := value, clearShown := true, pending := Some(query))
    else b.(input := value, clearShown := false, dropdownShown := false, pending := None)
  }

  /** `handleSearchFocus`: reopen the dropdown over the list already fetched. */
  function OnFocus(b: Box): (r: Box)
    ensures r.dropdownShown <==> b.dropdownShown || (Trim(b.input) != [] && |b.suggestions| > 0)
    ensures r == b.(dropdownShown := r.dropdownShown)
  {
    if Trim(b.input) != [] && |b.suggestions| > 0 then b.(dropdownShown := true) else b
  }

  /** `hideSuggestions`: the dropdown is hidden and nothing else changes. */
  function Hide(b: Box): (r: Box)
    ensures !r.dropdownShown && r == b.(dropdownShown := false)
  {
    b.(dropdownShown := false)
  }

  /** `handleSearchSubmit`: a non-blank query hides the dropdown and looks up one result. */
  function OnSubmit(b: Box): (r: Outcome)
    ensures Trim(b.input) == [] ==> r == Outcome(b, Nothing)
    ensures Trim(b.input) != [] ==> r == Outcome(Hide(b), SearchFirst(Trim(b.input)))
  {
    var query := Trim(b.input);
    if query != [] then Outcome(Hide(b), SearchFirst(query)) else Outcome(b, Nothing)
  }

  /** `selectSuggestion(anime)`. */
  function OnSelect(b: Box, anime: Anime): (r: Outcome)
    ensures r.box.input == anime.title && !r.box.dropdownShown && r.box.clearShown
    ensures r.effect == Open(anime)
    ensures r.box.suggestions == b.suggestions && r.box.selected == b.selected && r.box.pending == b.pending
  {
    Outcome(b.(input := anime.title, dropdownShown := false, clearShown := true), Open(anime))
  }

  /** `handleSearchKeyDown(e)`: keys only act while the dropdown is visible. */
  function OnKeyDown(b: Box, key: Key): (r: Outcome)
    requires Valid(b)
    ensures !b.dropdownShown ==> r == Outcome(b, Nothing)
    ensures Valid(r.box)
    ensures key == ArrowDown || key == ArrowUp || key == OtherKey ==>
              r.effect == Nothing && r.box == b.(selected := r.box.selected)
    ensures b.dropdownShown && key == Escape ==> r == Outcome(Hide(b), Nothing)
    ensures b.dropdownShown && key == Enter && b.selected >= 0 ==> r == OnSelect(b, b.suggestions[b.selected])
    ensures b.dropdownShown && key == Enter && b.selected < 0 ==> r == OnSubmit(b)
  {
    if !b.dropdownShown then Outcome(b, Nothing)
    else match key
      case ArrowDown => Outcome(b.(selected := Min(b.selected + 1, |b.suggestions| - 1)), Nothing)
      case ArrowUp => Outcome(b.(selected := Max(b.selected - 1, -1)), Nothing)
      case Enter =>
        if b.selected >= 0 then OnSelect(b, b.suggestions[b.selected]) else OnSubmit(b)
      case Escape => Outcome(Hide(b), Nothing)
      case OtherKey => Outcome(b, Nothing)
  }

  /** The debounce delay elapsed: the waiting query, if any, is requested. */
  function OnDebounce(b: Box): (r: Outcome)
    ensures r.box == b.(pending := None)
    ensures r.effect == (if b.pending.Some? then Suggest(b.pending.value) else Nothing)
  {
    match b.pending
      case None => Outcome(b, Nothing)
      case Some(query) => Outcome(b.(pending := None), Suggest(query))
  }

  /** `fetchSuggestions` once its request settles. */
  function OnSuggestions(b: Box, reply: Reply): (r: Box)
    ensures reply.Data? ==> r.suggestions == reply.items && r.selected == -1
    ensures reply.Data? ==> (r.dropdownShown <==> |reply.items| > 0)
    ensures reply.Failed? ==> r == Hide(b)
    ensures r.input == b.input && r.clearShown == b.clearShown && r.pending == b.pending
  {
    match reply
      case Failed => Hide(b)
      case Data(items) => b.(suggestions := items, selected := -1, dropdownShown := |items| > 0)
  }

  /** `clearSearch`. The debounce timer is not cancelled. */
  function OnClear(b: Box): (r: Box)
    ensures r.input == [] && !r.clearShown && !r.dropdownShown
    ensures r.suggestions == b.suggestions && r.selected == b.selected && r.pending == b.pending
  {
    b.(input := [], clearShown := false, dropdownShown := false)
  }

  /** The mouse entered the suggestion at `index`. Only a visible entry can be entered. */
  function OnHover(b: Box, index: int): (r: Box)
    ensures b.dropdownShown && 0 <= index < |b.suggestions| ==> r == b.(selected := index)
    ensures !(b.dropdownShown && 0 <= index < |b.suggestions|) ==> r == b
  {
    if b.dropdownShown && 0 <= index < |b.suggestions| then b.(selected := index) else b
  }

  /** The suggestion at `index` was clicked. Only a visible entry can be clicked. */
  function OnSuggestionClick(b: Box, index: int): (r: Outcome)
    ensures b.dropdownShown && 0 <= index < |b.suggestions| ==> r == OnSelect(b, b.suggestions[index])
    ensures !(b.dropdownShown && 0 <= index < |b.suggestions|) ==> r == Outcome(b, Nothing)
  {
    if b.dropdownShown && 0 <= index < |b.suggestions| then OnSelect(b, b.suggestions[index])
    else Outcome(b, Nothing)
  }

  /** The handler of `API.searchAnime(query, 1)` in `handleSearchSubmit`. */
  function SubmitResult(reply: Reply): (e: Effect)
    ensures reply.Data? && |reply.items| > 0 ==> e == OpenId(reply.items[0].malId)
    ensures reply.Data? && |reply.items| == 0 ==> e == Toast("No results found")
    ensures reply.Failed? ==> e == Nothing
  {
    match reply
      case Failed => Nothing
      case Data(items) => if |items| > 0 then OpenId(items[0].malId) else Toast("No results found")
  }

  /** Everything that can happen to the search box. */
  datatype Event =
    | Typed(value: string)
    | Focused
    | Pressed(key: Key)
    | DebounceElapsed
    | SuggestionsArrived(reply: Reply)
    | Hovered(index: int)
    | Clicked(index: int)
    | SubmitClicked   // a click on the search button
    | ClearClicked    // a click on the clear button
    | ClickedOutside  // a click anywhere outside the field and the dropdown

  function Step(b: Box, e: Event): (r: Outcome)
    requires Valid(b)
    ensures Valid(r.box)
  {
    match e
      case Typed(value) => Outcome(OnInput(b, value), Nothing)
      case Focused => Outcome(OnFocus(b), Nothing)
      case Pressed(key) => OnKeyDown(b, key)
      case DebounceElapsed => OnDebounce(b)
      case SuggestionsArrived(reply) => Outcome(OnSuggestions(b, reply), Nothing)
      case Hovered(index) => Outcome(OnHover(b, index), Nothing)
      case Clicked(index) => OnSuggestionClick(b, index)
      // The buttons lie outside the field and the dropdown, so after their own handler the
      // click bubbles to the document listener, which hides the dropdown.
      case SubmitClicked => var o := OnSubmit(b); Outcome(Hide(o.box), o.effect)
      case ClearClicked => Outcome(Hide(OnClear(b)), Nothing)
      case ClickedOutside => Outcome(Hide(b), Nothing)
  }

  /** The state after a series of events, with the effects they asked for in order. */
  function Run(b: Box, events: seq<Event>): (r: (Box, seq<Effect>))
    requires Valid(b)
    decreases |events|
  {
    if events == [] then (b, [])
    else
      var first := Step(b, events[0]);
      var rest := Run(first.box, events[1..]);
      (rest.0, [first.effect] + rest.1)
  }

  /** Every state reachable from any valid state is valid; the initial state is valid. */
  lemma {:induction false} RunKeepsValid(b: Box, events: seq<Event>)
    requires Valid(b)
    ensures Valid(Run(b, events).0) && |Run(b, events).1| == |events|
    decreases |events|
  {
    if events != [] {
      RunKeepsValid(Step(b, events[0]).box, events[1..]);
    }
  }

  /** Arrow keys move the highlight one entry at a time and stop at both ends. */
  lemma ArrowsClamp(b: Box)
    requires Valid(b) && b.dropdownShown
    ensures var down := OnKeyDown(b, ArrowDown).box.selected;
            (b.selected < |b.suggestions| - 1 ==> down == b.selected + 1)
            && (b.selected == |b.suggestions| - 1 ==> down == b.selected)
    ensures var up := OnKeyDown(b, ArrowUp).box.selected;
            (b.selected > -1 ==> up == b.selected - 1) && (b.selected == -1 ==> up == -1)
  {
  }

  /** Enter opens the highlighted suggestion, or with nothing highlighted submits the text. */
  lemma EnterChoosesHighlight(b: Box)
    requires Valid(b) && b.dropdownShown
    ensures b.selected >= 0 ==> OnKeyDown(b, Enter).effect == Open(b.suggestions[b.selected])
    ensures b.selected == -1 ==> OnKeyDown(b, Enter) == OnSubmit(b)
  {
  }

  /** The dropdown only opens over a non-empty list, whichever handler opens it. */
  lemma {:induction false} OpensOnlyOverSuggestions(b: Box, e: Event)
    requires Valid(b) && !b.dropdownShown
    ensures var r := Step(b, e).box;
            r.dropdownShown ==> |r.suggestions| > 0 && (e == Focused || e.SuggestionsArrived?)
  {
  }

  /** A clear does not cancel the waiting request: its suggestions still arrive and reopen the
      dropdown under an empty field. */
  lemma ClearKeepsPendingRequest(b: Box, query: string, items: seq<Anime>)
    requires Valid(b) && b.pending == Some(query) && |items| > 0
    ensures var cleared := OnClear(b);
            var fired := OnDebounce(cleared);
            fired.effect == Suggest(query)
            && OnSuggestions(fired.box, Data(items)).dropdownShown
            && OnSuggestions(fired.box, Data(items)).input == []
  {
  }

  /** The module-level state of `js/search.js` and the DOM flags its handlers toggle. */
  class SearchBox {
    var input: string
    var clearShown: bool
    var dropdownShown: bool
    /** `currentSuggestions`. */
    var suggestions: seq<Anime>
    /** `selectedSuggestionIndex`. */
    var selected: int
    /** The query `searchTimeout` will fetch. */
    var pending: Option<string>

    function Snapshot(): Box
      reads this
    {
      Box(input, clearShown, dropdownShown, suggestions, selected, pending)
    }

    predicate Ready()
      reads this
    {
      Valid(Snapshot())
    }

    constructor ()
      ensures Snapshot() == Initial && Ready()
    {
      input := [];
      clearShown := false;
      dropdownShown := false;
      suggestions := [];
      selected := -1;
      pending := None;
    }

    method HandleSearchInput(value: string)
      requires Ready()
      modifies this
      ensures Snapshot() == OnInput(old(Snapshot()), value) && Ready()
    {
      ghost var before := Snapshot();
      input := value;
      var query := Trim(value);
      if query != [] {
        clearShown := true;
      } else {
        clearShown := false;
        dropdownShown := false;
      }
      pending := None;
      if query != [] {
        pending := Some(query);
      }
      assert Snapshot() == OnInput(before, value);
    }

    method HandleSearchFocus()
      requires Ready()
      modifies this
      ensures Snapshot() == OnFocus(old(Snapshot())) && Ready()
    {
      var query := Trim(input);
      if query != [] && |suggestions| > 0 {
        dropdownShown := true;
      }
    }

    method SelectSuggestion(anime: Anime) returns (e: Effect)
      requires Ready()
      modifies this
      ensures Snapshot() == OnSelect(old(Snapshot()), anime).box && e == Open(anime) && Ready()
    {
      input := anime.title;
      dropdownShown := false;
      clearShown := true;
      e := Open(anime);
    }

    method HandleSearchSubmit() returns (e: Effect)
      requires Ready()
      modifies this
      ensures Outcome(Snapshot(), e) == OnSubmit(old(Snapshot())) && Ready()
    {
      var query := Trim(input);
      e := Nothing;
      if query != [] {
        dropdownShown := false;
        e := SearchFirst(query);
      }
    }

    method HandleSearchKeyDown(key: Key) returns (e: Effect)
      requires Ready()
      modifies this
      ensures Outcome(Snapshot(), e) == OnKeyDown(old(Snapshot()), key) && Ready()
    {
      e := Nothing;
      if !dropdownShown {
        return;
      }
      match key {
        case ArrowDown =>
          selected := Min(selected + 1, |suggestions| - 1);
        case ArrowUp =>
          selected := Max(selected - 1, -1);
        case Enter =>
          if selected >= 0 {
            e := SelectSuggestion(suggestions[selected]);
          } else {
            e := HandleSearchSubmit();
          }
        case Escape =>
          dropdownShown := false;
        case OtherKey =>
      }
    }

    /** The debounce timer fires. */
    method DebounceElapsed() returns (e: Effect)
      requires Ready()
      modifies this
      ensures Outcome(Snapshot(), e) == OnDebounce(old(Snapshot())) && Ready()
    {
      e := Nothing;
      if pending.Some? {
        e := Suggest(pending.value);
        pending := None;
      }
    }

    /** The rest of `fetchSuggestions`, once the request settles. */
    method SuggestionsArrived(reply: Reply)
      requires Ready()
      modifies this
      ensures Snapshot() == OnSuggestions(old(Snapshot()), reply) && Ready()
    {
      match reply {
        case Failed =>
          dropdownShown := false;
        case Data(items) =>
          suggestions := items;
          selected := -1;
          if |suggestions| > 0 {
            dropdownShown := true;
          } else {
            dropdownShown := false;
          }
      }
    }

    method ClearSearch()
      requires Ready()
      modifies this
      ensures Snapshot() == OnClear(old(Snapshot())) && Ready()
    {
      input := [];
      clearShown := false;
      dropdownShown := false;
    }

    /** The `mouseenter` listener of the entry at `index`. */
    method HoverSuggestion(index: int)
      requires Ready()
      modifies this
      ensures Snapshot() == OnHover(old(Snapshot()), index) && Ready()
    {
      if dropdownShown && 0 <= index < |suggestions| {
        selected := index;
      }
    }

    /** The `click` listener of the entry at `index`. */
    method ClickSuggestion(index: int) returns (e: Effect)
      requires Ready()
      modifies this
      ensures Outcome(Snapshot(), e) == OnSuggestionClick(old(Snapshot()), index) && Ready()
    {
      e := Nothing;
      if dropdownShown && 0 <= index < |suggestions| {
        e := SelectSuggestion(suggestions[index]);
      }
    }

    /** The document `click` listener, for a target outside the field and the dropdown. */
    method ClickOutside()
      requires Ready()
      modifies this
      ensures Snapshot() == Hide(old(Snapshot())) && Ready()
    {
      dropdownShown := false;
    }
  }
}
