/** The endpoint and parameter shapes the convenience wrappers pass to `fetchAPI`; both
    versions of the request layer use the same ones. */
module Endpoints {
  import opened Text
  import opened Query

  /** The default `limit` of `searchAnime` and of the trending call. */
  const DefaultLimit: int := 10

  /** `{q: query, limit, sfw: true}`, in that order, the limit written in decimal. */
  function SearchParams(query: string, limit: int): (r: seq<(string, string)>)
    ensures |r| == 3 && r[0] == ("q", query) && r[2] == ("sfw", "true")
    ensures r[1].0 == "limit" && IntValue(r[1].1) == limit
  {
    [("q", query), ("limit", IntText(limit)), ("sfw", "true")]
  }

  /** `{limit, filter: 'airing'}`, in that order, the limit written in decimal. */
  function TrendingParams(limit: int): (r: seq<(string, string)>)
    ensures |r| == 2 && r[1] == ("filter", "airing")
    ensures r[0].0 == "limit" && IntValue(r[0].1) == limit
  {
    [("limit", IntText(limit)), ("filter", "airing")]
  }

  /** `anime/${id}`: the id is whatever follows the first six characters. */
  function AnimeEndpoint(id: string): (r: string)
    ensures |r| == 6 + |id| && r[..6] == "anime/" && r[6..] == id
  {
    "anime/" + id
  }

  /** `anime/${id}/characters`: the id sits between `anime/` and `/characters`. */
  function CharactersEndpoint(id: string): (r: string)
    ensures |r| == 17 + |id| && r[..6] == "anime/" && r[6..6 + |id|] == id && r[6 + |id|..] == "/characters"
  {
    "anime/" + id + "/characters"
  }

  /** `anime/${id}/recommendations`: the id sits between `anime/` and `/recommendations`. */
  function RecommendationsEndpoint(id: string): (r: string)
    ensures |r| == 22 + |id| && r[..6] == "anime/" && r[6..6 + |id|] == id && r[6 + |id|..] == "/recommendations"
  {
    "anime/" + id + "/recommendations"
  }

  /** Each detail endpoint names one id, and the three kinds never share a path (for the
      plain anime path, as long as the id holds no `/`, which a number never does). So two
      different detail requests never share a cache entry. */
  lemma {:induction false} ItemEndpointsDistinct(x: string, y: string)
    ensures AnimeEndpoint(x) == AnimeEndpoint(y) ==> x == y
    ensures CharactersEndpoint(x) == CharactersEndpoint(y) ==> x == y
    ensures RecommendationsEndpoint(x) == RecommendationsEndpoint(y) ==> x == y
    ensures CharactersEndpoint(x) != RecommendationsEndpoint(y)
    ensures '/' !in x ==> AnimeEndpoint(x) != CharactersEndpoint(y) && AnimeEndpoint(x) != RecommendationsEndpoint(y)
  {
    var a, c, r := AnimeEndpoint(x), CharactersEndpoint(x), RecommendationsEndpoint(x);
    if CharactersEndpoint(x) == CharactersEndpoint(y) {
      assert x == c[6..6 + |x|] == CharactersEndpoint(y)[6..6 + |y|] == y;
    }
    if RecommendationsEndpoint(x) == RecommendationsEndpoint(y) {
      assert x == r[6..6 + |x|] == RecommendationsEndpoint(y)[6..6 + |y|] == y;
    }
    var cy, ry := CharactersEndpoint(y), RecommendationsEndpoint(y);
    assert c[|c| - 11] == '/' && ry[|ry| - 11] == 'm';
    assert cy[6 + |y|] == '/' && ry[6 + |y|] == '/';
    assert |y| < |x| ==> a[6 + |y|] == x[|y|];
  }

  /** Two different search texts never share a cache entry. */
  lemma SearchUrlsDistinct(q1: string, q2: string, limit: int)
    requires q1 != q2
    ensures Url("anime", SearchParams(q1, limit)) != Url("anime", SearchParams(q2, limit))
  {
    if Url("anime", SearchParams(q1, limit)) == Url("anime", SearchParams(q2, limit)) {
      UrlInjective("anime", SearchParams(q1, limit), SearchParams(q2, limit));
    }
  }
}
