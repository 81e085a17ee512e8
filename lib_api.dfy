/**
 * The request layer of the Next.js pages (`lib/api.js`): `fetchAPI` with a `Map` cache
 * keyed by URL, a retry on every 429 reply, and a five-minute timer that deletes each
 * stored entry; and the wrappers that unwrap `response.data`.
 *
 * The network is a script of replies consumed one per `fetch`; the delays are no-ops;
 * the deletion timers are a queue fired oldest first by `Expire`.
 */
module LibApi {
  import opened Common
  import opened Http
  import opened Query
  import opened Endpoints

  /** One call of `fetchAPI(url)` against `cache`, with `net` the replies `fetch` will get.
      `Map.has` decides a hit, so any stored value is served, falsy or not. */
  function Fetch(cache: map<string, Value>, url: string, net: seq<Response>): (r: Run)
    ensures Suffix(r.rest, net)
    ensures r.fetches == 0 <==> url in cache
    ensures r.fetches == 0 ==> r.cache == cache && r.rest == net
    ensures r.outcome.Err? ==> r.cache == cache
    ensures r.outcome.Ok? ==> r.cache == cache[url := r.outcome.value]
    decreases |net|
  {
    if url in cache then Run(Ok(cache[url]), cache, net, 0)
    else if net == [] then Run(Err(NetworkError), cache, net, 1)
    else match net[0]
      case Dropped => Run(Err(NetworkError), cache, net[1..], 1)
      case Reply(status, body) =>
        if status == 429 then
          var again := Fetch(cache, url, net[1..]);
          again.(fetches := again.fetches + 1)
        else if !IsOkStatus(status) then Run(Err(RequestFailed(status)), cache, net[1..], 1)
        else match body
          case Malformed => Run(Err(ParseError), cache, net[1..], 1)
          case Json(v) => Run(Ok(v), cache[url := v], net[1..], 1)
  }

  /** A stored URL is answered from the cache: the stored value, no `fetch`, nothing changed. */
  lemma HitServedFromCache(cache: map<string, Value>, url: string, net: seq<Response>)
    requires url in cache
    ensures Fetch(cache, url, net) == Run(Ok(cache[url]), cache, net, 0)
  {
  }

  /** A run of 429 replies only costs one `fetch` each: afterwards the call goes on as if
      they had never come, with the cache untouched by them. */
  lemma {:induction false} RateLimitsOnlyDelay(cache: map<string, Value>, url: string, limited: seq<Response>, net: seq<Response>)
    requires url !in cache
    requires forall i :: 0 <= i < |limited| ==> RateLimited(limited[i])
    ensures Fetch(cache, url, limited + net) == Fetch(cache, url, net).(fetches := Fetch(cache, url, net).fetches + |limited|)
  {
    if limited != [] {
      var l := limited + net;
      assert l[0] == limited[0] && l[1..] == limited[1..] + net;
      var again := Fetch(cache, url, l[1..]);
      assert Fetch(cache, url, l) == again.(fetches := again.fetches + 1);
      RateLimitsOnlyDelay(cache, url, limited[1..], net);
      var after := Fetch(cache, url, net);
      assert again == after.(fetches := after.fetches + |limited| - 1);
    } else {
      assert limited + net == net;
    }
  }

  /** `k` replies of 429 and then a success: `k + 1` fetches, the body stored and returned. */
  lemma RetriedUntilSuccess(cache: map<string, Value>, url: string, limited: seq<Response>, status: int, v: Value, rest: seq<Response>)
    requires url !in cache && IsOkStatus(status)
    requires forall i :: 0 <= i < |limited| ==> RateLimited(limited[i])
    ensures Fetch(cache, url, limited + [Reply(status, Json(v))] + rest) == Run(Ok(v), cache[url := v], rest, |limited| + 1)
  {
    assert limited + [Reply(status, Json(v))] + rest == limited + ([Reply(status, Json(v))] + rest);
    RateLimitsOnlyDelay(cache, url, limited, [Reply(status, Json(v))] + rest);
  }

  /** `k` replies of 429 and then another failing status: the error carries that status,
      after `k + 1` fetches, and the cache is as before. */
  lemma RetriedUntilFailure(cache: map<string, Value>, url: string, limited: seq<Response>, status: int, body: Body, rest: seq<Response>)
    requires url !in cache && status != 429 && !IsOkStatus(status)
    requires forall i :: 0 <= i < |limited| ==> RateLimited(limited[i])
    ensures Fetch(cache, url, limited + [Reply(status, body)] + rest) == Run(Err(RequestFailed(status)), cache, rest, |limited| + 1)
  {
    assert limited + [Reply(status, body)] + rest == limited + ([Reply(status, body)] + rest);
    RateLimitsOnlyDelay(cache, url, limited, [Reply(status, body)] + rest);
  }

  /** `k` replies of 429 and then a rejected `fetch`: a network error after `k + 1`
      fetches, with the cache as before. */
  lemma RetriedUntilDropped(cache: map<string, Value>, url: string, limited: seq<Response>, rest: seq<Response>)
    requires url !in cache
    requires forall i :: 0 <= i < |limited| ==> RateLimited(limited[i])
    ensures Fetch(cache, url, limited + [Dropped] + rest) == Run(Err(NetworkError), cache, rest, |limited| + 1)
  {
    assert limited + [Dropped] + rest == limited + ([Dropped] + rest);
    RateLimitsOnlyDelay(cache, url, limited, [Dropped] + rest);
  }

  /** `k` replies of 429 and then a success whose body is not JSON: `response.json()` throws,
      after `k + 1` fetches, and nothing is stored. */
  lemma RetriedUntilMalformed(cache: map<string, Value>, url: string, limited: seq<Response>, status: int, rest: seq<Response>)
    requires url !in cache && IsOkStatus(status)
    requires forall i :: 0 <= i < |limited| ==> RateLimited(limited[i])
    ensures Fetch(cache, url, limited + [Reply(status, Malformed)] + rest) == Run(Err(ParseError), cache, rest, |limited| + 1)
  {
    assert limited + [Reply(status, Malformed)] + rest == limited + ([Reply(status, Malformed)] + rest);
    RateLimitsOnlyDelay(cache, url, limited, [Reply(status, Malformed)] + rest);
  }

  /** Replies of 429 until the network has nothing more to give: the last `fetch` is
      rejected, one more than the 429s, and nothing is stored. */
  lemma RateLimitedToTheEnd(cache: map<string, Value>, url: string, limited: seq<Response>)
    requires url !in cache
    requires forall i :: 0 <= i < |limited| ==> RateLimited(limited[i])
    ensures Fetch(cache, url, limited) == Run(Err(NetworkError), cache, [], |limited| + 1)
  {
    assert limited + [] == limited;
    RateLimitsOnlyDelay(cache, url, limited, []);
  }

  /** Two calls in a row for one URL: the second makes no request and returns the same data. */
  lemma SecondCallServedFromCache(cache: map<string, Value>, url: string, net: seq<Response>)
    ensures var first := Fetch(cache, url, net);
            first.outcome.Ok? ==> Fetch(first.cache, url, first.rest) == Run(first.outcome, first.cache, first.rest, 0)
  {
  }

  /** Once its timer has deleted the entry, the same URL goes to the network again. */
  lemma ExpiredEntryRefetched(cache: map<string, Value>, url: string, net: seq<Response>)
    ensures Fetch(cache - {url}, url, net).fetches >= 1
  {
  }

  /** The value a list wrapper returns: `response.data || []`. */
  function ListResult(cache: map<string, Value>, url: string, net: seq<Response>): (r: Result<Value>)
    ensures r.Ok? ==> Truthy(r.value)
    ensures Fetch(cache, url, net).outcome.Err? ==> r == Fetch(cache, url, net).outcome
    ensures Fetch(cache, url, net).outcome.Ok? ==>
              r == DataOrEmpty(Fetch(cache, url, net).outcome.value)
              && (r.Err? <==> Fetch(cache, url, net).outcome.value in {Null, Undefined})
    ensures r.Err? && Fetch(cache, url, net).outcome.Ok? ==> r.error == TypeError
  {
    ListOf(Fetch(cache, url, net).outcome)
  }

  /** A list wrapper over a miss answered by one successful reply: `data || []` of that body,
      so a `null` body is a TypeError and an object without a truthy `data` is `[]`. */
  lemma ListResultOfReply(cache: map<string, Value>, url: string, status: int, v: Value, rest: seq<Response>)
    requires url !in cache && IsOkStatus(status)
    ensures ListResult(cache, url, [Reply(status, Json(v))] + rest) == DataOrEmpty(v)
    ensures v == Null ==> ListResult(cache, url, [Reply(status, Json(v))] + rest) == Err(TypeError)
  {
    RetriedUntilSuccess(cache, url, [], status, v, rest);
    assert [] + [Reply(status, Json(v))] + rest == [Reply(status, Json(v))] + rest;
  }

  /** Storing a new URL together with its deletion timer keeps one timer per stored entry. */
  lemma StoreKeepsPairing(cache: map<string, Value>, timers: seq<string>, url: string, v: Value)
    requires cache.Keys == (set u | u in timers) && Distinct(timers) && url !in cache
    ensures cache[url := v].Keys == (set u | u in timers + [url]) && Distinct(timers + [url])
  {
    assert (set u | u in timers + [url]) == (set u | u in timers) + {url};
  }

  class Client {
    /** The module-level `Map` from URL to parsed body. */
    var cache: map<string, Value>
    /** URLs whose `cache.delete` timer is pending, in the order they were set. */
    var timers: seq<string>
    /** The replies `fetch` will still receive, in order. */
    var network: seq<Response>
    /** Every URL passed to `fetch` so far. */
    var requests: seq<string>

    /** Every stored entry has exactly one pending deletion, and nothing else is pending. */
    ghost predicate Valid()
      reads this
    {
      cache.Keys == (set u | u in timers) && Distinct(timers)
    }

    constructor (script: seq<Response>)
      ensures Valid()
      ensures cache == map[] && timers == [] && network == script && requests == []
    {
      cache := map[];
      timers := [];
      network := script;
      requests := [];
    }

    /** The state after one `fetchAPI(url)`: as `Fetch` says, each `fetch` logged, and a
        deletion timer queued exactly when a new body was stored. */
    twostate predicate Performed(url: string)
      reads this
    {
      var run := Fetch(old(cache), url, old(network));
      && cache == run.cache
      && network == run.rest
      && requests == old(requests) + Repeat(url, run.fetches)
      && timers == old(timers) + (if url !in old(cache) && run.outcome.Ok? then [url] else [])
    }

    method FetchAPI(endpoint: string, params: seq<(string, string)>) returns (r: Result<Value>)
      requires Valid()
      modifies this
      ensures Valid()
      ensures r == Fetch(old(cache), Url(endpoint, params), old(network)).outcome
      ensures Performed(Url(endpoint, params))
      decreases |network|
    {
      var url := Url(endpoint, params);
      if url in cache {
        r := Ok(cache[url]);
        return;
      }
      requests := requests + [url];
      if network == [] {
        r := Err(NetworkError);
        return;
      }
      var response := network[0];
      network := network[1..];
      match response {
        case Dropped =>
          r := Err(NetworkError);
        case Reply(status, body) =>
          if status == 429 {
            r := FetchAPI(endpoint, params);
          } else if !IsOkStatus(status) {
            r := Err(RequestFailed(status));
          } else {
            match body {
              case Malformed =>
                r := Err(ParseError);
              case Json(v) =>
                StoreKeepsPairing(cache, timers, url, v);
                cache := cache[url := v];
                timers := timers + [url];
                r := Ok(v);
            }
          }
      }
    }

    /** The oldest pending five-minute timer fires: `cache.delete(url)`. */
    method Expire()
      requires Valid()
      modifies this
      ensures Valid()
      ensures old(timers) == [] ==> cache == old(cache) && timers == []
      ensures old(timers) != [] ==> timers == old(timers)[1..] && cache == old(cache) - {old(timers)[0]}
      ensures network == old(network) && requests == old(requests)
    {
      if timers != [] {
        var url := timers[0];
        assert forall u :: u in timers[1..] ==> u != url;
        cache := cache - {url};
        timers := timers[1..];
      }
    }

    /** `searchAnime(query, limit)`: no request for an empty query. */
    method SearchAnime(query: string, limit: int := DefaultLimit) returns (r: Result<Value>)
      requires Valid()
      modifies this
      ensures Valid()
      ensures query == "" ==> r == Ok(Arr([])) && unchanged(this)
      ensures query != "" ==> Performed(Url("anime", SearchParams(query, limit)))
      ensures query != "" ==> r == ListResult(old(cache), Url("anime", SearchParams(query, limit)), old(network))
    {
      if query == "" {
        return Ok(Arr([]));
      }
      var response := FetchAPI("anime", SearchParams(query, limit));
      r := ListOf(response);
    }

    /** `fetchAnimeById(id)`: `response.data` as it is, possibly `undefined`. */
    method FetchAnimeById(id: string) returns (r: Result<Value>)
      requires Valid()
      modifies this
      ensures Valid()
      ensures Performed(Url(AnimeEndpoint(id), []))
      ensures r == ItemOf(Fetch(old(cache), Url(AnimeEndpoint(id), []), old(network)).outcome)
    {
      var response := FetchAPI(AnimeEndpoint(id), []);
      r := ItemOf(response);
    }

    /** `fetchTrendingAnime(limit)`. */
    method FetchTrendingAnime(limit: int := DefaultLimit) returns (r: Result<Value>)
      requires Valid()
      modifies this
      ensures Valid()
      ensures Performed(Url("top/anime", TrendingParams(limit)))
      ensures r == ListResult(old(cache), Url("top/anime", TrendingParams(limit)), old(network))
    {
      var response := FetchAPI("top/anime", TrendingParams(limit));
      r := ListOf(response);
    }

    /** `fetchAnimeCharacters(animeId)`. */
    method FetchAnimeCharacters(animeId: string) returns (r: Result<Value>)
      requires Valid()
      modifies this
      ensures Valid()
      ensures Performed(Url(CharactersEndpoint(animeId), []))
      ensures r == ListResult(old(cache), Url(CharactersEndpoint(animeId), []), old(network))
    {
      var response := FetchAPI(CharactersEndpoint(animeId), []);
      r := ListOf(response);
    }

    /** `fetchAnimeRecommendations(animeId)`. */
    method FetchAnimeRecommendations(animeId: string) returns (r: Result<Value>)
      requires Valid()
      modifies this
      ensures Valid()
      ensures Performed(Url(RecommendationsEndpoint(animeId), []))
      ensures r == ListResult(old(cache), Url(RecommendationsEndpoint(animeId), []), old(network))
    {
      var response := FetchAPI(RecommendationsEndpoint(animeId), []);
      r := ListOf(response);
    }
  }
}
