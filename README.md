# Easy Anime: a Dafny model of the request layer and the UI state

Easy Anime is a browser front end for the Jikan anime catalogue. It exists in two forms:

- a Next.js site (`lib/api.js`, `pages/index.js`, `components/SearchBar.js`);
- a set of static pages (`js/api.js`, `js/search.js`).

This project models the parts of both that hold state or logic of their own:

- **The request layer of each form.** `fetchAPI` builds the request URL, which is also the cache key. It answers from a cache when it can. It retries every 429 reply and turns the other failures into exceptions. The wrappers shape the endpoint and parameters and unwrap `response.data`.
  - `LibApi` models `lib/api.js`. Its cache is a `Map`, tested with `has`. Every stored entry gets a five-minute deletion timer.
  - `JsApi` models `js/api.js`. Its cache is a plain object tested for truthiness and never cleared.
  - Each module has its own pure specification function `Fetch`. The two differ only in the hit test, and `JsApi.VersionsDisagreeOnFalsyEntry` shows where they part ways. Both run over a scripted network: a sequence of replies, one consumed per `fetch`.
  - Each `Client` class keeps the cache, the script, the log of requested URLs and, for `lib/api.js`, the queue of pending deletion timers. Its methods are proved against `Fetch`.
- **The cache key** (`Query`, `Endpoints`).
  - `encodeURIComponent` is modelled for every string of Unicode scalar values: unreserved characters pass through, and every other character becomes its UTF-8 bytes written as `%XY`.
  - The query string joins `key=value` pairs with `&`, in the order the parameters are given.
  - The URL gets `?` only when the query string is non-empty.
  - The encoder is proved injective, and so is the URL for a fixed endpoint. As a consequence, two orders of the same parameters are two different cache keys.
- **The home page** (`Home`). `handleAnimeView` moves the viewed anime to the front of the recently-viewed list, drops its other copies and keeps ten entries. `handleAnimeSelect` and `closeModal` open and close the details modal. The class `HomePage` runs the same `forEach` loop, proved against the function `Viewed`.
- **The two suggestion dropdowns** (`Search`, `SearchBar`).
  - Each is a state datatype with one step function per event handler and an invariant that every step preserves.
  - A class holds the same state as fields, and each of its methods is proved to perform the matching step.
  - In the React component, the highlighted index is never reset when new results arrive. So Enter over a list that has since become shorter reads past its end and throws. The model keeps this behaviour and exhibits it (`SearchBar.StaleIndexCrashes`, `SearchBar.StaleIndexTrace`).

Three details of `fetchAPI` shape the cache, and the model keeps each of them:

- parameters are not sorted before the key is built;
- a 429 is retried for as long as 429 replies keep coming, not once;
- an entry is not checked for age when it is read. It stays until its own deletion timer removes it, and `js/api.js` has no timer at all.

## Model

| member | source | states |
|---|---|---|
| `Http.DataField` | lib/api.js:85 | reading `data` of `null` or `undefined` throws a TypeError; for an object that has `data` the result is exactly that field, and in every other case it is `undefined` |
| `Http.DataOrEmpty` | lib/api.js:75 | `data`-or-`[]` fails exactly when the field read fails; otherwise it is always truthy, and it is the field itself unless the field is falsy, in which case it is `[]` |
| `Text.TrimStart` | js/search.js:41 | the result is a suffix of the input, everything cut off is white space, and it does not start with white space |
| `Text.TrimEnd` | js/search.js:41 | the result is a prefix of the input, everything cut off is white space, and it does not end with white space |
| `Text.TrimIsSlice` | js/search.js:41 | `trim()` returns a contiguous slice of its input, starting where the leading white space ends, and everything it removes on either side is white space |
| `Text.TrimLeavesNoSpaceAtEnds` | js/search.js:41 | the trimmed text neither starts nor ends with white space |
| `Text.TrimEmptyIffBlank` | components/SearchBar.js:33 | the trimmed text is empty if and only if the input is entirely white space |
| `Text.Trim` | js/search.js:41 | `trim()` never lengthens its input and never leaves white space at the end |
| `Text.NatText` | lib/api.js:20 | the decimal text of a number is non-empty, made of digits only, reads back as that number, and has no leading zero: it starts with `0` only when it is `0` |
| `Text.IntText` | lib/api.js:20 | `String(n)` starts with a minus sign exactly for a negative number, is digits after it, has no leading zero after the sign, and reads back as `n`, so different limits are written differently |
| `Query.Utf8` | lib/api.js:20 | the UTF-8 encoding of a character is 1, 2, 3 or 4 bytes as its code point is below `0x80`, `0x800`, `0x10000` or not; its lead byte gives its length and is at least `0xC2` in a longer sequence, every other byte is a continuation byte (`0x80`-`0xBF`), and it decodes back to the code point, which together fix every byte |
| `Query.Escape` | lib/api.js:20 | each byte becomes `%` followed by its two upper-case hexadecimal digits, three characters per byte, using only encoder output characters |
| `Query.EncodeChar` | lib/api.js:20 | a character is left as it is exactly when it is unreserved; otherwise its encoding starts with `%` |
| `Query.EncodeComponent` | lib/api.js:20 | `encodeURIComponent` output contains only unreserved characters and `%`, and it is never shorter than its input |
| `Query.UnreservedUnchanged` | lib/api.js:20 | text made only of unreserved characters is encoded as itself |
| `Query.EncodeCharPrefixFree` | lib/api.js:20 | no character's encoding is a prefix of another's, so the first character of encoded text is determined |
| `Query.EncodeComponentInjective` | lib/api.js:20 | two texts with equal encodings are equal |
| `Query.Pair` | lib/api.js:20 | a `key=value` pair holds no `&`, and its first `=` is the one that ends the encoded key |
| `Query.PairInjective` | lib/api.js:20 | two equal `key=value` texts come from the same key and value |
| `Query.QueryString` | lib/api.js:19-21 | the query string is empty exactly when there are no parameters |
| `Query.QueryStringInjective` | lib/api.js:19-21 | the query string determines the parameter list, including its order |
| `Query.Url` | lib/api.js:23 | every URL starts with the API base, a `/` and the endpoint |
| `Query.BareUrlIffNoParams` | lib/api.js:23 | the URL is the bare `base/endpoint` exactly when there are no parameters; otherwise it is `base/endpoint?query` |
| `Query.UrlInjective` | lib/api.js:23 | for one endpoint, two equal URLs come from the same parameter list, so two different requests never share a cache entry |
| `Query.ParamOrderMatters` | lib/api.js:19-26 | two different parameters given in the other order make a different cache key, so such a request misses the cache |
| `Endpoints.SearchParams` | lib/api.js:69-73 | the search sends `q`, `limit` and `sfw=true`, in that order, and the `limit` text reads back as the limit |
| `Endpoints.TrendingParams` | lib/api.js:94-97 | the trending call sends `limit` and then `filter=airing`, and the `limit` text reads back as the limit |
| `Endpoints.AnimeEndpoint` | lib/api.js:84 | the path is `anime/` followed by the id and nothing else |
| `Endpoints.CharactersEndpoint` | lib/api.js:108 | the path is `anime/`, the id, then `/characters` |
| `Endpoints.RecommendationsEndpoint` | lib/api.js:118 | the path is `anime/`, the id, then `/recommendations` |
| `Endpoints.ItemEndpointsDistinct` | lib/api.js:84-118 | each detail path determines its id, the characters and recommendations paths never coincide, and a plain anime path for an id without `/` coincides with neither |
| `Endpoints.SearchUrlsDistinct` | lib/api.js:66-73 | two different search texts with the same limit never share a cache entry |
| `LibApi.Fetch` | lib/api.js:17-58 | a call only consumes replies from the front of the script; it makes no request exactly when the URL is stored, and then changes nothing; a failure leaves the cache as it was; a success stores the returned body under the URL and changes no other entry |
| `LibApi.HitServedFromCache` | lib/api.js:26-28 | a stored URL is answered with the stored value, falsy or not, with no request and no change |
| `LibApi.RateLimitsOnlyDelay` | lib/api.js:36-41 | any run of 429 replies costs one request each; the call then ends exactly as it would have without them |
| `LibApi.RetriedUntilSuccess` | lib/api.js:37-53 | `k` 429 replies followed by a success give `k + 1` requests, with the body stored and returned |
| `LibApi.RetriedUntilFailure` | lib/api.js:37-45 | `k` 429 replies followed by another failing status give `k + 1` requests and a failure carrying that status, with the cache unchanged |
| `LibApi.RetriedUntilDropped` | lib/api.js:34-57 | `k` 429 replies followed by a rejected `fetch` give `k + 1` requests and a network error, with the cache unchanged |
| `LibApi.RetriedUntilMalformed` | lib/api.js:37-57 | `k` 429 replies followed by a successful status whose body is not JSON give `k + 1` requests and a parse error, with nothing stored |
| `LibApi.RateLimitedToTheEnd` | lib/api.js:34-57 | when every reply left is a 429, the retries run the network dry: one more request than 429s, a network error, and nothing stored |
| `LibApi.SecondCallServedFromCache` | lib/api.js:26-53 | after a successful call, the same URL is answered from the cache with the same value and no request |
| `LibApi.ExpiredEntryRefetched` | lib/api.js:49-51 | once the deletion timer has removed an entry, the next call for its URL goes to the network |
| `Http.ListOf` | lib/api.js:75 | `data`-or-`[]` of the response passes a failed fetch through; for a fetched body it fails, with a TypeError, exactly when the body is `null` or `undefined`; a success is truthy and is the `data` field whenever that field is truthy; for a fetched body it is exactly `Http.DataOrEmpty` of it, so a falsy `data` gives `[]` |
| `Http.ItemOf` | lib/api.js:85 | `response.data` passes a failed fetch through; for a fetched body it fails, with a TypeError, exactly when the body is `null` or `undefined`, and otherwise it is the `data` field when there is one; for a fetched body it is exactly `Http.DataField` of it, so a body without `data` gives `undefined` |
| `LibApi.ListResult` | lib/api.js:75 | a list wrapper passes a failed fetch through; after a successful fetch it is `data`-or-`[]` of the body, which fails exactly when the body is `null` or `undefined`; a success is always truthy |
| `LibApi.ListResultOfReply` | lib/api.js:17-75 | a miss answered by one successful reply gives `data`-or-`[]` of that body, so a `null` body is a TypeError |
| `LibApi.Client.constructor` | lib/api.js:9 | the cache, the timer queue and the request log start empty |
| `LibApi.Client.FetchAPI` | lib/api.js:17-58 | the result, the new cache, the replies left and the request log are what `Fetch` says; a deletion timer is queued exactly when a new body is stored; every stored entry keeps exactly one pending timer |
| `LibApi.Client.Expire` | lib/api.js:49-51 | the oldest pending timer deletes its entry and nothing else; the one-timer-per-entry invariant is kept |
| `LibApi.Client.SearchAnime` | lib/api.js:66-76 | an empty query returns `[]` with no request and no change; otherwise it requests `anime` with `q`, `limit` and `sfw=true` in that order and returns `data`, or `[]` when it is falsy |
| `LibApi.Client.FetchAnimeById` | lib/api.js:83-86 | requests `anime/<id>` with no parameters and returns `data` as it is |
| `LibApi.Client.FetchTrendingAnime` | lib/api.js:93-100 | requests `top/anime` with `limit` and `filter=airing` and returns `data`, or `[]` when it is falsy |
| `LibApi.Client.FetchAnimeCharacters` | lib/api.js:107-110 | requests `anime/<id>/characters` and returns `data`, or `[]` when it is falsy |
| `LibApi.Client.FetchAnimeRecommendations` | lib/api.js:117-120 | requests `anime/<id>/recommendations` and returns `data`, or `[]` when it is falsy |
| `JsApi.Fetch` | js/api.js:18-58 | a call only consumes replies from the front of the script; there is no request exactly when a truthy value is stored under the URL, and then nothing changes; a failure leaves the cache as it was, a success stores its body under the URL, and no call ever removes a cache entry |
| `JsApi.RetriedUntilSuccess` | js/api.js:38-53 | with no truthy entry stored, `k` 429 replies followed by a success give `k + 1` requests, with the body stored under the URL and returned |
| `JsApi.RetriedUntilFailure` | js/api.js:38-46 | with no truthy entry stored, `k` 429 replies followed by another failing status give `k + 1` requests and a failure carrying that status, with the cache unchanged |
| `JsApi.RetriedUntilDropped` | js/api.js:35-57 | with no truthy entry stored, `k` 429 replies followed by a rejected `fetch` give `k + 1` requests and a network error, with the cache unchanged |
| `JsApi.RetriedUntilMalformed` | js/api.js:38-57 | with no truthy entry stored, `k` 429 replies followed by a successful status whose body is not JSON give `k + 1` requests and a parse error, with nothing stored |
| `JsApi.RateLimitedToTheEnd` | js/api.js:35-57 | with no truthy entry stored and only 429 replies left, one more request than 429s, a network error, and nothing stored |
| `JsApi.RateLimitsOnlyDelay` | js/api.js:38-42 | any run of 429 replies costs one request each; the call then ends exactly as it would have without them |
| `JsApi.HitServedFromCache` | js/api.js:27-29 | a URL holding a truthy value is answered with that value, with no request and no change |
| `JsApi.SecondCallServedFromCache` | js/api.js:27-53 | after a call that got a truthy body, the same URL is answered from the cache with the same body and no request |
| `JsApi.FalsyBodyRefetched` | js/api.js:27-51 | a successfully stored falsy body does not count as a hit: the next call for the URL makes a request |
| `JsApi.VersionsDisagreeOnFalsyEntry` | js/api.js:27-29 | for a stored falsy value, `lib/api.js` makes no request while `js/api.js` makes at least one |
| `JsApi.FetchSeries` | js/api.js:18-58 | consecutive calls only consume replies from the front of the script |
| `JsApi.CacheOnlyGrows` | js/api.js:50-51 | over any series of calls, every cached URL stays cached, and a successful first call's URL is cached at the end |
| `JsApi.Client.constructor` | js/api.js:10 | the cache and the request log start empty |
| `JsApi.Client.FetchAPI` | js/api.js:18-58 | the result, the new cache, the replies left and the request log are what `JsApi.Fetch` says |
| `JsApi.Client.SearchAnime` | js/api.js:66-74 | an empty query returns `{data: []}` with no request and no change; otherwise it returns the whole response for `anime` with `q`, `limit`, `sfw=true` |
| `JsApi.Client.GetAnimeById` | js/api.js:81-83 | the whole response for `anime/<id>` |
| `JsApi.Client.GetTrendingAnime` | js/api.js:90-95 | the whole response for `top/anime` with `limit` and `filter=airing` |
| `JsApi.Client.GetAnimeCharacters` | js/api.js:102-104 | the whole response for `anime/<id>/characters` |
| `JsApi.Client.GetAnimeRecommendations` | js/api.js:111-113 | the whole response for `anime/<id>/recommendations` |
| `Common.Take` | pages/index.js:57 | `slice(0, n)` keeps the first `min(length, n)` entries |
| `Home.Viewed` | pages/index.js:50-58 | the new list is never empty, has at most ten entries and starts with the viewed anime |
| `Home.Without` | pages/index.js:52-56 | the filter never lengthens the list, and no entry it keeps has the viewed `mal_id` |
| `Home.WithoutMembers` | pages/index.js:52-56 | an entry survives the filter if and only if it was in the list and has a different `mal_id` |
| `Home.WithoutCounts` | pages/index.js:52-56 | the filter keeps every copy of each entry with another `mal_id`, and none with the viewed one |
| `Home.WithoutKeepsOrder` | pages/index.js:52-56 | the surviving entries keep their original relative order |
| `Home.WithoutDistinct` | pages/index.js:52-56 | filtering a list with distinct ids leaves distinct ids |
| `Home.ViewedIdNotRepeated` | pages/index.js:51-56 | after a view, the anime is first and no later entry has its `mal_id` |
| `Home.ViewedKeepsOrder` | pages/index.js:51-57 | after the viewed anime come the old entries with other ids, in their old order, cut to nine |
| `Home.ViewedDistinct` | pages/index.js:51-57 | if the old list had distinct ids, so does the new one |
| `Home.ViewedIdempotent` | pages/index.js:50-58 | viewing the same anime twice in a row gives the list that one view gives |
| `Home.HomePage.constructor` | pages/index.js:12-39 | nothing is selected, the modal is closed, and the stored list is loaded when there is one |
| `Home.HomePage.HandleAnimeSelect` | pages/index.js:45-48 | selects the id and opens the modal; the list is untouched |
| `Home.HomePage.CloseModal` | pages/index.js:62-65 | closes the modal and clears the selection; the list is untouched |
| `Home.HomePage.HandleAnimeView` | pages/index.js:50-60 | the loop builds exactly `Viewed` of the old list, which is stored and saved; the modal state is untouched, so the modal stays open exactly when an anime is selected |
| `Search.OnInput` | js/search.js:40-58 | blank input hides the clear button and the dropdown and leaves no request waiting; other input shows the clear button and replaces any waiting request with one for the trimmed text |
| `Search.OnFocus` | js/search.js:63-68 | focus opens the dropdown only over non-blank text and an already-fetched non-empty list, and changes nothing else |
| `Search.Hide` | js/search.js:185-187 | the dropdown is hidden and nothing else changes |
| `Search.OnSubmit` | js/search.js:231-247 | a blank query does nothing; otherwise it hides the dropdown and asks for one result for the trimmed text |
| `Search.OnSelect` | js/search.js:216-226 | choosing an anime puts its title in the field, hides the dropdown, shows the clear button, and opens its details and records it as viewed |
| `Search.OnKeyDown` | js/search.js:74-108 | keys do nothing while the dropdown is hidden, and every key keeps the index within `[-1, length-1]` and the dropdown over a non-empty list; the arrows and other keys change only the index; Escape is `Hide`; Enter over a highlighted entry is `OnSelect` of that entry, and Enter with nothing highlighted is `OnSubmit` |
| `Search.OnDebounce` | js/search.js:52-57 | the elapsed timer requests exactly the waiting query and leaves nothing waiting |
| `Search.OnSuggestions` | js/search.js:114-135 | an answer replaces the list and resets the index to -1, and the dropdown is shown exactly when the new list is non-empty; a failure only hides it |
| `Search.OnClear` | js/search.js:252-257 | clearing empties the field and hides the clear button and the dropdown; the waiting request stays |
| `Search.OnHover` | js/search.js:166-169 | pointing at a visible entry highlights it; nothing else changes |
| `Search.OnSuggestionClick` | js/search.js:161-163 | clicking a visible entry selects that anime |
| `Search.SubmitResult` | js/search.js:239-245 | a non-empty answer opens the first result; an empty one shows "No results found" |
| `Search.Step` | js/search.js:21-35 | every handler, the button clicks included, keeps the index within `[-1, length-1]` and the dropdown visible only over a non-empty list |
| `Search.RunKeepsValid` | js/search.js:63-135 | the invariant holds after any series of events and each event yields one effect |
| `Search.ArrowsClamp` | js/search.js:79-92 | ArrowDown moves down one entry and stops at the last; ArrowUp moves up one and stops at -1 |
| `Search.EnterChoosesHighlight` | js/search.js:94-101 | Enter opens the highlighted suggestion, or submits the text when nothing is highlighted |
| `Search.OpensOnlyOverSuggestions` | js/search.js:63-130 | a hidden dropdown is opened only by focus or by an answer, and only over a non-empty list |
| `Search.ClearKeepsPendingRequest` | js/search.js:252-257 | a clear does not cancel the debounce timer: its answer still reopens the dropdown under an empty field |
| `Search.SearchBox.constructor` | js/search.js:13-16 | the page starts with an empty field, no suggestions, index -1 and everything hidden |
| `Search.SearchBox.HandleSearchInput` | js/search.js:40-58 | performs the `OnInput` step and keeps the invariant |
| `Search.SearchBox.HandleSearchFocus` | js/search.js:63-68 | performs the `OnFocus` step and keeps the invariant |
| `Search.SearchBox.SelectSuggestion` | js/search.js:216-226 | performs the `OnSelect` step and keeps the invariant |
| `Search.SearchBox.HandleSearchSubmit` | js/search.js:231-247 | performs the `OnSubmit` step and keeps the invariant |
| `Search.SearchBox.HandleSearchKeyDown` | js/search.js:74-108 | performs the `OnKeyDown` step and keeps the invariant |
| `Search.SearchBox.DebounceElapsed` | js/search.js:54-56 | performs the `OnDebounce` step and keeps the invariant |
| `Search.SearchBox.SuggestionsArrived` | js/search.js:114-135 | performs the `OnSuggestions` step and keeps the invariant |
| `Search.SearchBox.ClearSearch` | js/search.js:252-257 | performs the `OnClear` step and keeps the invariant |
| `Search.SearchBox.HoverSuggestion` | js/search.js:166-169 | performs the `OnHover` step and keeps the invariant |
| `Search.SearchBox.ClickSuggestion` | js/search.js:161-163 | performs the `OnSuggestionClick` step and keeps the invariant |
| `Search.SearchBox.ClickOutside` | js/search.js:30-34 | hides the dropdown and keeps the invariant |
| `SearchBar.Initial` | components/SearchBar.js:8-12 | the component mounts with nothing shown, index -1 and no suggestions |
| `SearchBar.OnInputChange` | components/SearchBar.js:51-64 | the text is stored and the timer restarted for it, even when it is blank; nothing else changes |
| `SearchBar.StartFetch` | components/SearchBar.js:32-41 | blank text clears the list and hides the dropdown with no request; other text sets `loading` and requests exactly that text |
| `SearchBar.OnDebounce` | components/SearchBar.js:61-63 | the elapsed timer fetches the value it was set for and leaves nothing waiting |
| `SearchBar.OnSearchClick` | components/SearchBar.js:134 | the button does nothing on an empty field and fetches the field's text otherwise |
| `SearchBar.OnSettled` | components/SearchBar.js:41-48 | `loading` ends either way; success stores at most the first eight results and shows the dropdown; failure changes nothing else; the index is kept |
| `SearchBar.OnClear` | components/SearchBar.js:66-71 | clearing empties the text and the list and hides the dropdown; the index and the timer are kept |
| `SearchBar.SuggestionClick` | components/SearchBar.js:73-78 | hides the dropdown and hands the id to `onAnimeSelect` when there is one |
| `SearchBar.OnItemClick` | components/SearchBar.js:156-160 | clicking a rendered entry selects its id; entries are rendered only while shown and not loading |
| `SearchBar.Down` | components/SearchBar.js:86-88 | ArrowDown increments only while the index is below the last position |
| `SearchBar.Up` | components/SearchBar.js:93 | ArrowUp decrements a positive index and otherwise gives 0, so the result is never negative |
| `SearchBar.OnKeyDown` | components/SearchBar.js:80-107 | keys do nothing unless the dropdown is shown over a non-empty list; keys change only the index and the visibility, and never lower a non-negative index below 0; over a shown, non-empty list ArrowDown sets the index to `Down` of it and ArrowUp to `Up` of it, with no effect; Enter with nothing highlighted and any other key change nothing and have no effect |
| `SearchBar.OnOutside` | components/SearchBar.js:19-24 | a mousedown outside hides the dropdown and changes nothing else |
| `SearchBar.Step` | components/SearchBar.js:19-107 | every handler, the button presses included, keeps the index within `[-1, 7]` and at most eight suggestions, and leaves the presence of the callback as it was |
| `SearchBar.RunKeepsValid` | components/SearchBar.js:42-93 | the invariant holds after any series of events and each event yields one effect |
| `SearchBar.ArrowsStayInside` | components/SearchBar.js:84-94 | ArrowDown never moves past the last entry, and ArrowUp always leaves an index of 0 or more (-1 becomes 0) |
| `SearchBar.EnterSelects` | components/SearchBar.js:96-101 | Enter over an index inside the list hands that entry's id to the callback and hides the dropdown; over an index past the end it throws |
| `SearchBar.EscapeOnlyHides` | components/SearchBar.js:103-106 | Escape hides the dropdown and changes nothing else |
| `SearchBar.StaleIndexCrashes` | components/SearchBar.js:42-99 | new results shorter than the highlighted position keep the old index, so the next Enter throws |
| `SearchBar.RunConcat` | components/SearchBar.js:32-107 | running two series of events one after the other is running them joined |
| `SearchBar.SearchRound` | components/SearchBar.js:32-64 | typing a non-blank value, the debounce and an answer of up to eight entries request the value once and show the answer, and the highlighted index is left as it was |
| `SearchBar.RoundAfterInput` | components/SearchBar.js:32-48 | once the timer fires for a non-blank value, that value is requested, and an answer of up to eight entries is shown whole with the loading flag cleared |
| `SearchBar.TwoArrowsDown` | components/SearchBar.js:84-88 | two ArrowDowns over two shown entries highlight the second |
| `SearchBar.EnterPastEndCrashes` | components/SearchBar.js:96-101 | Enter over an index the shown list no longer reaches throws |
| `SearchBar.StaleIndexTrace` | components/SearchBar.js:32-101 | from mount, for any two non-blank queries: a search answered with two entries, two ArrowDowns, a second search answered with one entry, then Enter; each search requests its text once and the last event throws |
| `SearchBar.BlankQueryNeverRequested` | components/SearchBar.js:33-37 | a value makes no request exactly when it is entirely white space |
| `SearchBar.SearchBarState.constructor` | components/SearchBar.js:8-14 | the hook state starts as `Initial` |
| `SearchBar.SearchBarState.HandleInputChange` | components/SearchBar.js:51-64 | performs the `OnInputChange` step and keeps the invariant |
| `SearchBar.SearchBarState.FetchSuggestions` | components/SearchBar.js:32-49 | performs the `StartFetch` step and keeps the invariant |
| `SearchBar.SearchBarState.DebounceElapsed` | components/SearchBar.js:61-63 | performs the `OnDebounce` step and keeps the invariant |
| `SearchBar.SearchBarState.SearchClick` | components/SearchBar.js:134 | performs the `OnSearchClick` step and keeps the invariant |
| `SearchBar.SearchBarState.Settle` | components/SearchBar.js:41-48 | performs the `OnSettled` step and keeps the invariant |
| `SearchBar.SearchBarState.HandleClear` | components/SearchBar.js:66-71 | performs the `OnClear` step and keeps the invariant |
| `SearchBar.SearchBarState.HandleSuggestionClick` | components/SearchBar.js:73-78 | performs the `SuggestionClick` step and keeps the invariant |
| `SearchBar.SearchBarState.HandleKeyDown` | components/SearchBar.js:80-107 | performs the `OnKeyDown` step and keeps the invariant |
| `SearchBar.SearchBarState.MouseDownOutside` | components/SearchBar.js:19-24 | performs the `OnOutside` step and keeps the invariant |

## Left out

- Real I/O is not modelled. `fetch` is a scripted sequence of replies, consumed one per request. A `Dropped` reply, or an exhausted script, stands for a rejected `fetch`. `response.json()` is a `Body` that is either a parsed value or malformed. `localStorage` is a field of the home page. Nothing is sent or stored for real.
- Time is not modelled. The 100 ms pause before each request and the 1000 ms pause before a retry change nothing else, so they are left out. Each debounce timer is one slot holding the value it will fetch, fired by an explicit event. The five-minute deletion timers of `lib/api.js` are a first-in, first-out queue fired by `LibApi.Client.Expire`, because they all have the same delay.
- Concurrency is not modelled. Calls run one after another to completion. Two overlapping requests for one URL, which in the code can store it twice and set two timers, are outside the model. So is the order in which overlapping suggestion answers arrive; the model does allow answers in any order relative to later typing.
- `console.error` logging is not modelled. Neither is rendering: the JSX, the suggestion markup, `highlightSelectedSuggestion`, `scrollIntoView`, image fallbacks and the display of the release year, which needs date parsing.
- Moving focus after a clear is not modelled. In `js/search.js` it triggers a focus handler that does nothing on an empty field.
- The trending fetch on the home page (pages/index.js:17-28) and its `loading` flag are not modelled. They are a call to `fetchTrendingAnime` followed by a state update.
- `Home.HomePage.constructor`: the stored list is taken as already parsed. A `JSON.parse` failure, which the page only logs, is not modelled.
- The `onFocus` handler of components/SearchBar.js:119 is not modelled. It replaces the suggestion list with the boolean result of an updater, which is not a list.
- `Search.OnSuggestions`: an answer is modelled as the list `data || []`, so a falsy `data` arrives as an empty list. A truthy `data` that is not an array is not modelled.
- `SearchBar.OnSettled`: the results are modelled as a list of anime. A `searchAnime` result that is not an array, which would throw in `slice`, is not modelled.
- `encodeURIComponent` throws a `URIError` on a string holding a lone surrogate. A `char` here is a Unicode scalar value, so such strings, and that error, are not modelled.
- JSON numbers are integers in `Http.Value`. Floating-point values, and the enumeration order JavaScript gives to integer-like object keys, are not modelled.
- The theme context, the other pages and components, and the build configuration are not part of this model.
