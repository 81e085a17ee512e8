/**
 * The request layer of the static pages (`js/api.js`): the same `fetchAPI` as the Next.js
 * version, but its cache is a plain object tested for truthiness and never cleared, and
 * the wrappers hand back the whole response body.
 */
module JsApi {
  import opened Common
  import opened Http
  import opened Query
  import opened Endpoints
  import LibApi

  /** `if (cache[url])`: only a stored truthy body counts as a hit. */
  predicate Hit(cache: map<string, Value>, url: string) {
    url in cache && Truthy(cache[url])
  }

  /** One call of `fetchAPI(url)` against `cache`, with `net` the replies `fetch` will get. */
  function Fetch(cache: map<string, Value>, url: string, net: seq<Response>): (r: Run)
    ensures Suffix(r.rest, net)
    ensures r.fetches == 0 <==> Hit(cache, url)
    ensures r.fetches == 0 ==> r.cache == cache && r.rest == net
    ensures r.outcome.Err? ==> r.cache == cache
    ensures r.outcome.Ok? ==> r.cache == cache[url := r.outcome.value]
    ensures cache.Keys <= r.cache.Keys
    decreases |net|
  {
    if Hit(cache, url) then Run(Ok(cache[url]), cache, net, 0)
    else if net == [] then Run(Err(NetworkError), cache, net, 1)
    else match net[0]
      case Dropped => Run(Err(NetworkError), cache, net[1..], 1)
      case Reply(status, body) =>
        if status == 429 then
          var again := Fetch(cache, url, net[1..]);
          again.(fetches := again.fetches + 1)
        else if !IsOkStatus(status) then Run(Err(RequestFailed(status)), cache, net[1..], 1)
        else match body
          case Malformed => Run(Err(ParseError), cache, net[1..], 1)
          case Json(v) => Run(Ok(v), cache[url := v], net[1..], 1)
  }

  /** A run of 429 replies only costs one `fetch` each and writes nothing to the cache. */
  lemma {:induction false} RateLimitsOnlyDelay(cache: map<string, Value>, url: string, limited: seq<Response>, net: seq<Response>)
    requires !Hit(cache, url)
    requires forall i :: 0 <= i < |limited| ==> RateLimited(limited[i])
    ensures Fetch(cache, url, limited + net) == Fetch(cache, url, net).(fetches := Fetch(cache, url, net).fetches + |limited|)
  {
    if limited != [] {
      var l := limited + net;
      assert l[0] == limited[0] && l[1..] == limited[1..] + net;
      var again := Fetch(cache, url, l[1..]);
      assert Fetch(cache, url, l) == again.(fetches := again.fetches + 1);
      RateLimitsOnlyDelay(cache, url, limited[1..], net);
      var after := Fetch(cache, url, net);
      assert again == after.(fetches := after.fetches + |limited| - 1);
    } else {
      assert limited + net == net;
    }
  }

  /** `k` replies of 429 and then a success: `k + 1` fetches, the body stored and returned. */
  lemma RetriedUntilSuccess(cache: map<string, Value>, url: string, limited: seq<Response>, status: int, v: Value, rest: seq<Response>)
    requires !Hit(cache, url) && IsOkStatus(status)
    requires forall i :: 0 <= i < |limited| ==> RateLimited(limited[i])
    ensures Fetch(cache, url, limited + [Reply(status, Json(v))] + rest) == Run(Ok(v), cache[url := v], rest, |limited| + 1)
  {
    assert limited + [Reply(status, Json(v))] + rest == limited + ([Reply(status, Json(v))] + rest);
    RateLimitsOnlyDelay(cache, url, limited, [Reply(status, Json(v))] + rest);
  }

  /** `k` replies of 429 and then another failing status: the error carries that status,
      after `k + 1` fetches, and the cache is as before. */
  lemma RetriedUntilFailure(cache: map<string, Value>, url: string, limited: seq<Response>, status: int, body: Body, rest: seq<Response>)
    requires !Hit(cache, url) && status != 429 && !IsOkStatus(status)
    requires forall i :: 0 <= i < |limited| ==> RateLimited(limited[i])
    ensures Fetch(cache, url, limited + [Reply(status, body)] + rest) == Run(Err(RequestFailed(status)), cache, rest, |limited| + 1)
  {
    assert limited + [Reply(status, body)] + rest == limited + ([Reply(status, body)] + rest);
    RateLimitsOnlyDelay(cache, url, limited, [Reply(status, body)] + rest);
  }

  /** `k` replies of 429 and then a rejected `fetch`: a network error after `k + 1`
      fetches, with the cache as before. */
  lemma RetriedUntilDropped(cache: map<string, Value>, url: string, limited: seq<Response>, rest: seq<Response>)
    requires !Hit(cache, url)
    requires forall i :: 0 <= i < |limited| ==> RateLimited(limited[i])
    ensures Fetch(cache, url, limited + [Dropped] + rest) == Run(Err(NetworkError), cache, rest, |limited| + 1)
  {
    assert limited + [Dropped] + rest == limited + ([Dropped] + rest);
    RateLimitsOnlyDelay(cache, url, limited, [Dropped] + rest);
  }

  /** `k` replies of 429 and then a success whose body is not JSON: `response.json()` throws,
      after `k + 1` fetches, and nothing is stored. */
  lemma RetriedUntilMalformed(cache: map<string, Value>, url: string, limited: seq<Response>, status: int, rest: seq<Response>)
    requires !Hit(cache, url) && IsOkStatus(status)
    requires forall i :: 0 <= i < |limited| ==> RateLimited(limited[i])
    ensures Fetch(cache, url, limited + [Reply(status, Malformed)] + rest) == Run(Err(ParseError), cache, rest, |limited| + 1)
  {
    assert limited + [Reply(status, Malformed)] + rest == limited + ([Reply(status, Malformed)] + rest);
    RateLimitsOnlyDelay(cache, url, limited, [Reply(status, Malformed)] + rest);
  }

  /** Replies of 429 until the network has nothing more to give: the last `fetch` is
      rejected, one more than the 429s, and nothing is stored. */
  lemma RateLimitedToTheEnd(cache: map<string, Value>, url: string, limited: seq<Response>)
    requires !Hit(cache, url)
    requires forall i :: 0 <= i < |limited| ==> RateLimited(limited[i])
    ensures Fetch(cache, url, limited) == Run(Err(NetworkError), cache, [], |limited| + 1)
  {
    assert limited + [] == limited;
    RateLimitsOnlyDelay(cache, url, limited, []);
  }

  /** A truthy stored body is answered from the cache: that body, no `fetch`, nothing changed. */
  lemma HitServedFromCache(cache: map<string, Value>, url: string, net: seq<Response>)
    requires Hit(cache, url)
    ensures Fetch(cache, url, net) == Run(Ok(cache[url]), cache, net, 0)
  {
  }

  /** Two calls in a row for one URL: once the first has a truthy body, the second makes no
      request and returns the same body. */
  lemma SecondCallServedFromCache(cache: map<string, Value>, url: string, net: seq<Response>)
    ensures var first := Fetch(cache, url, net);
            first.outcome.Ok? && Truthy(first.outcome.value) ==>
              Fetch(first.cache, url, first.rest) == Run(first.outcome, first.cache, first.rest, 0)
  {
  }

  /** A body that is stored but falsy (`null`, `false`, `0`, `""`) is fetched again next time. */
  lemma FalsyBodyRefetched(cache: map<string, Value>, url: string, net: seq<Response>)
    ensures var first := Fetch(cache, url, net);
            first.outcome.Ok? && !Truthy(first.outcome.value) ==>
              url in first.cache && Fetch(first.cache, url, first.rest).fetches >= 1
  {
  }

  /** The two versions part ways on a falsy stored body: `Map.has` serves it, the truthiness
      test goes back to the network. */
  lemma VersionsDisagreeOnFalsyEntry(cache: map<string, Value>, url: string, net: seq<Response>)
    requires url in cache && !Truthy(cache[url])
    ensures LibApi.Fetch(cache, url, net).fetches == 0
    ensures Fetch(cache, url, net).fetches >= 1
  {
  }

  /** Consecutive calls for the given URLs, each with the replies the previous one left. */
  function FetchSeries(cache: map<string, Value>, urls: seq<string>, net: seq<Response>): (r: (map<string, Value>, seq<Response>))
    ensures Suffix(r.1, net)
    decreases |urls|
  {
    if urls == [] then (cache, net)
    else
      var run := Fetch(cache, urls[0], net);
      FetchSeries(run.cache, urls[1..], run.rest)
  }

  /** Nothing is ever evicted: over any series of calls, the cache keeps every key it had
      and gains the URL of every body it stored. */
  lemma {:induction false} CacheOnlyGrows(cache: map<string, Value>, urls: seq<string>, net: seq<Response>)
    ensures cache.Keys <= FetchSeries(cache, urls, net).0.Keys
    ensures urls != [] && Fetch(cache, urls[0], net).outcome.Ok? ==> urls[0] in FetchSeries(cache, urls, net).0
    decreases |urls|
  {
    if urls != [] {
      var run := Fetch(cache, urls[0], net);
      CacheOnlyGrows(run.cache, urls[1..], run.rest);
    }
  }

  /** `{data: []}`, what `searchAnime` answers for an empty query. */
  const EmptySearch: Value := Obj(map["data" := Arr([])])

  class Client {
    /** The module-level object from URL to parsed body. */
    var cache: map<string, Value>
    /** The replies `fetch` will still receive, in order. */
    var network: seq<Response>
    /** Every URL passed to `fetch` so far. */
    var requests: seq<string>

    constructor (script: seq<Response>)
      ensures cache == map[] && network == script && requests == []
    {
      cache := map[];
      network := script;
      requests := [];
    }

    /** The state after one `fetchAPI(url)`: as `Fetch` says, with each `fetch` logged. */
    twostate predicate Performed(url: string)
      reads this
    {
      var run := Fetch(old(cache), url, old(network));
      && cache == run.cache
      && network == run.rest
      && requests == old(requests) + Repeat(url, run.fetches)
    }

    method FetchAPI(endpoint: string, params: seq<(string, string)>) returns (r: Result<Value>)
      modifies this
      ensures r == Fetch(old(cache), Url(endpoint, params), old(network)).outcome
      ensures Performed(Url(endpoint, params))
      decreases |network|
    {
      var url := Url(endpoint, params);
      if url in cache && Truthy(cache[url]) {
        r := Ok(cache[url]);
        return;
      }
      requests := requests + [url];
      if network == [] {
        r := Err(NetworkError);
        return;
      }
      var response := network[0];
      network := network[1..];
      match response {
        case Dropped =>
          r := Err(NetworkError);
        case Reply(status, body) =>
          if status == 429 {
            r := FetchAPI(endpoint, params);
          } else if !IsOkStatus(status) {
            r := Err(RequestFailed(status));
          } else {
            match body {
              case Malformed =>
                r := Err(ParseError);
              case Json(v) =>
                cache := cache[url := v];
                r := Ok(v);
            }
          }
      }
    }

    /** `searchAnime(query, limit)`: `{data: []}` and no request for an empty query,
        otherwise the whole response. */
    method SearchAnime(query: string, limit: int := DefaultLimit) returns (r: Result<Value>)
      modifies this
      ensures query == "" ==> r == Ok(EmptySearch) && unchanged(this)
      ensures query != "" ==> Performed(Url("anime", SearchParams(query, limit)))
      ensures query != "" ==> r == Fetch(old(cache), Url("anime", SearchParams(query, limit)), old(network)).outcome
    {
      if query == "" {
        return Ok(EmptySearch);
      }
      r := FetchAPI("anime", SearchParams(query, limit));
    }

    /** `getAnimeById(id)`. */
    method GetAnimeById(id: string) returns (r: Result<Value>)
      modifies this
      ensures Performed(Url(AnimeEndpoint(id), []))
      ensures r == Fetch(old(cache), Url(AnimeEndpoint(id), []), old(network)).outcome
    {
      r := FetchAPI(AnimeEndpoint(id), []);
    }

    /** `getTrendingAnime(limit)`. */
    method GetTrendingAnime(limit: int := DefaultLimit) returns (r: Result<Value>)
      modifies this
      ensures Performed(Url("top/anime", TrendingParams(limit)))
      ensures r == Fetch(old(cache), Url("top/anime", TrendingParams(limit)), old(network)).outcome
    {
      r := FetchAPI("top/anime", TrendingParams(limit));
    }

    /** `getAnimeCharacters(animeId)`. */
    method GetAnimeCharacters(animeId: string) returns (r: Result<Value>)
      modifies this
      ensures Performed(Url(CharactersEndpoint(animeId), []))
      ensures r == Fetch(old(cache), Url(CharactersEndpoint(animeId), []), old(network)).outcome
    {
      r := FetchAPI(CharactersEndpoint(animeId), []);
    }

    /** `getAnimeRecommendations(animeId)`. */
    method GetAnimeRecommendations(animeId: string) returns (r: Result<Value>)
      modifies this
      ensures Performed(Url(RecommendationsEndpoint(animeId), []))
      ensures r == Fetch(old(cache), Url(RecommendationsEndpoint(animeId), []), old(network)).outcome
    {
      r := FetchAPI(RecommendationsEndpoint(animeId), []);
    }
  }
}
