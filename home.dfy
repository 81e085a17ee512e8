/**
 * The home page's own state (`pages/index.js`): the recently-viewed list, which a view moves
 * to the front, and the details modal, which a selection opens and `closeModal` shuts.
 */
module Home {
  import opened Common
  import opened Catalog

  /** `slice(0, 10)`: the list never holds more than this many entries. */
  const RecentLimit := 10

  /** The entries of `s` whose `mal_id` is not `id`, in their order: what the `forEach` pushes. */
  function Without(s: seq<Anime>, id: int): (r: seq<Anime>)
    ensures |r| <= |s|
    ensures forall i :: 0 <= i < |r| ==> r[i].malId != id
  {
    if s == [] then []
    else (if s[0].malId == id then [] else [s[0]]) + Without(s[1..], id)
  }

  /** `a` occurs in `b` in order, possibly with other entries between. */
  predicate Subsequence<T(==)>(a: seq<T>, b: seq<T>)
    decreases |b|
  {
    if a == [] then true
    else if b == [] then false
    else (a[0] == b[0] && Subsequence(a[1..], b[1..])) || Subsequence(a, b[1..])
  }

  /** No two entries share a `mal_id`. */
  predicate DistinctIds(s: seq<Anime>) {
    forall i, j :: 0 <= i < j < |s| ==> s[i].malId != s[j].malId
  }

  /** The list `handleAnimeView(anime)` stores when the list was `list`. */
  function Viewed(list: seq<Anime>, anime: Anime): (r: seq<Anime>)
    ensures 1 <= |r| <= RecentLimit && r[0] == anime
  {
    Take([anime] + Without(list, anime.malId), RecentLimit)
  }

  /** An entry survives the filter exactly when it was in the list and has another id. */
  lemma {:induction false} WithoutMembers(s: seq<Anime>, id: int, x: Anime)
    ensures x in Without(s, id) <==> x in s && x.malId != id
  {
    if s != [] {
      WithoutMembers(s[1..], id, x);
      assert s == [s[0]] + s[1..];
    }
  }

  /** Every entry with another id keeps all its copies, and none with the id is left. */
  lemma {:induction false} WithoutCounts(s: seq<Anime>, id: int, x: Anime)
    ensures multiset(Without(s, id))[x] == if x.malId == id then 0 else multiset(s)[x]
  {
    if s == [] {
    } else {
      WithoutCounts(s[1..], id, x);
      assert s == [s[0]] + s[1..];
      assert multiset(s) == multiset([s[0]]) + multiset(s[1..]);
      var head := if s[0].malId == id then [] else [s[0]];
      assert multiset(Without(s, id)) == multiset(head) + multiset(Without(s[1..], id));
    }
  }

  /** Filtering a concatenation filters each part. */
  lemma {:induction false} WithoutConcat(a: seq<Anime>, b: seq<Anime>, id: int)
    ensures Without(a + b, id) == Without(a, id) + Without(b, id)
  {
    if a == [] {
      assert a + b == b;
    } else {
      assert (a + b)[0] == a[0] && (a + b)[1..] == a[1..] + b;
      WithoutConcat(a[1..], b, id);
    }
  }

  /** Filtering out an id no entry has changes nothing. */
  lemma {:induction false} WithoutNoop(s: seq<Anime>, id: int)
    requires forall i :: 0 <= i < |s| ==> s[i].malId != id
    ensures Without(s, id) == s
  {
    if s != [] {
      WithoutNoop(s[1..], id);
    }
  }

  /** The filter keeps the surviving entries in their original relative order. */
  lemma {:induction false} WithoutKeepsOrder(s: seq<Anime>, id: int)
    ensures Subsequence(Without(s, id), s)
  {
    if s != [] {
      WithoutKeepsOrder(s[1..], id);
      if s[0].malId == id {
        assert Without(s, id) == Without(s[1..], id);
        SkipFirst(Without(s[1..], id), s);
      }
    }
  }

  /** A subsequence of the tail is a subsequence of the whole. */
  lemma SkipFirst<T>(a: seq<T>, b: seq<T>)
    requires b != [] && Subsequence(a, b[1..])
    ensures Subsequence(a, b)
  {
  }

  /** Every prefix of a subsequence is one too. */
  lemma {:induction false} PrefixSubsequence<T>(a: seq<T>, b: seq<T>, k: nat)
    requires k <= |a| && Subsequence(a, b)
    ensures Subsequence(a[..k], b)
    decreases |b|
  {
    if k > 0 {
      assert b != [];
      if a[0] == b[0] && Subsequence(a[1..], b[1..]) {
        PrefixSubsequence(a[1..], b[1..], k - 1);
        assert a[..k][1..] == a[1..][..k - 1];
      } else {
        PrefixSubsequence(a, b[1..], k);
      }
    }
  }

  /** Filtering keeps distinct ids distinct. */
  lemma {:induction false} WithoutDistinct(s: seq<Anime>, id: int)
    requires DistinctIds(s)
    ensures DistinctIds(Without(s, id))
  {
    if s != [] {
      WithoutDistinct(s[1..], id);
      if s[0].malId != id {
        var t := Without(s[1..], id);
        forall k | 0 <= k < |t|
          ensures t[k].malId != s[0].malId
        {
          WithoutMembers(s[1..], id, t[k]);
          var j :| 0 <= j < |s[1..]| && s[1..][j] == t[k];
          assert s[j + 1] == t[k];
        }
      }
    }
  }

  /** After a view, the viewed anime is first and its id occurs nowhere else in the list. */
  lemma ViewedIdNotRepeated(list: seq<Anime>, anime: Anime)
    ensures var r := Viewed(list, anime);
            r[0] == anime && forall i :: 1 <= i < |r| ==> r[i].malId != anime.malId
  {
    var r := Viewed(list, anime);
    forall i | 1 <= i < |r|
      ensures r[i].malId != anime.malId
    {
      var w := Without(list, anime.malId);
      assert r[i] == w[i - 1];
      WithoutMembers(list, anime.malId, w[i - 1]);
    }
  }

  /** Behind the viewed anime come the old entries with other ids, in their old order, cut to
      nine: as many as there are, up to that limit. */
  lemma ViewedKeepsOrder(list: seq<Anime>, anime: Anime)
    ensures var r := Viewed(list, anime);
            var w := Without(list, anime.malId);
            |r| == Min(RecentLimit, |w| + 1) && r[1..] == w[..|r| - 1]
            && Subsequence(r[1..], list)
  {
    var r := Viewed(list, anime);
    var w := Without(list, anime.malId);
    assert r[1..] == w[..|r| - 1];
    WithoutKeepsOrder(list, anime.malId);
    PrefixSubsequence(w, list, |r| - 1);
  }

  /** Distinct ids stay distinct after a view. */
  lemma ViewedDistinct(list: seq<Anime>, anime: Anime)
    requires DistinctIds(list)
    ensures DistinctIds(Viewed(list, anime))
  {
    var r := Viewed(list, anime);
    WithoutDistinct(list, anime.malId);
    ViewedIdNotRepeated(list, anime);
    var w := Without(list, anime.malId);
    forall i, j | 0 <= i < j < |r|
      ensures r[i].malId != r[j].malId
    {
      if i > 0 {
        assert r[i] == w[i - 1] && r[j] == w[j - 1];
      }
    }
  }

  /** Viewing the same anime twice in a row leaves the list as one view did. */
  lemma ViewedIdempotent(list: seq<Anime>, anime: Anime)
    ensures Viewed(Viewed(list, anime), anime) == Viewed(list, anime)
  {
    var r := Viewed(list, anime);
    ViewedIdNotRepeated(list, anime);
    assert r == [r[0]] + r[1..];
    WithoutConcat([r[0]], r[1..], anime.malId);
    assert Without([r[0]], anime.malId) == [] by {
      assert [r[0]][1..] == [];
    }
    WithoutNoop(r[1..], anime.malId);
  }

  /** The state of the `Home` page that its handlers change. */
  class HomePage {
    /** `recentlyViewed`. */
    var recentlyViewed: seq<Anime>
    /** `selectedAnimeId`, `null` as `None`. */
    var selectedAnimeId: Option<int>
    /** `isModalOpen`. */
    var isModalOpen: bool
    /** The `recentlyViewed` entry of `localStorage`, `None` when absent. */
    var stored: Option<seq<Anime>>

    /** The modal is open exactly when an anime is selected. */
    predicate Valid()
      reads this
    {
      isModalOpen <==> selectedAnimeId.Some?
    }

    /** First render: nothing selected, modal closed, and the stored list loaded when there is one. */
    constructor (saved: Option<seq<Anime>>)
      ensures Valid() && !isModalOpen && selectedAnimeId == None
      ensures stored == saved
      ensures recentlyViewed == (if saved.Some? then saved.value else [])
    {
      recentlyViewed := if saved.Some? then saved.value else [];
      selectedAnimeId := None;
      isModalOpen := false;
      stored := saved;
    }

    /** `handleAnimeSelect(animeId)`: select it and open the modal. */
    method HandleAnimeSelect(animeId: int)
      modifies this
      ensures selectedAnimeId == Some(animeId) && isModalOpen && Valid()
      ensures recentlyViewed == old(recentlyViewed) && stored == old(stored)
    {
      selectedAnimeId := Some(animeId);
      isModalOpen := true;
    }

    /** `closeModal()`: close it and clear the selection. */
    method CloseModal()
      modifies this
      ensures selectedAnimeId == None && !isModalOpen && Valid()
      ensures recentlyViewed == old(recentlyViewed) && stored == old(stored)
    {
      isModalOpen := false;
      selectedAnimeId := None;
    }

    /** `handleAnimeView(anime)`: move it to the front, drop its other copies, keep ten and
        save the result. */
    method HandleAnimeView(anime: Anime)
      requires Valid()
      modifies this
      ensures Valid()
      ensures recentlyViewed == Viewed(old(recentlyViewed), anime)
      ensures stored == Some(recentlyViewed)
      ensures selectedAnimeId == old(selectedAnimeId) && isModalOpen == old(isModalOpen)
    {
      var updated := [anime];
      var i := 0;
      while i < |recentlyViewed|
        invariant unchanged(this)
        invariant 0 <= i <= |recentlyViewed|
        invariant updated == [anime] + Without(recentlyViewed[..i], anime.malId)
      {
        var item := recentlyViewed[i];
        WithoutConcat(recentlyViewed[..i], [item], anime.malId);
        assert recentlyViewed[..i + 1] == recentlyViewed[..i] + [item];
        assert [item][1..] == [];
        if item.malId != anime.malId {
          updated := updated + [item];
        }
        i := i + 1;
      }
      assert recentlyViewed[..i] == recentlyViewed;
      var limited := if |updated| <= RecentLimit then updated else updated[..RecentLimit];
      recentlyViewed := limited;
      stored := Some(limited);
    }
  }
}
