/** The tabbed ranking lists of components/TopLists.tsx: the genre filter selection, the tab to
    fetcher switch, and the paging rule (a reset replaces the list, "load more" appends). */
module TopLists {
  import opened Wrappers
  import opened Types
  import opened AnimeApi
  import opened Text

  /** `selected.filter(g => g !== id)` */
  function Without(selected: seq<nat>, id: nat): (r: seq<nat>)
    ensures |r| <= |selected|
  {
    if selected == [] then []
    else (if selected[0] != id then [selected[0]] else []) + Without(selected[1..], id)
  }

  /** `toggleGenre`: a selected genre is dropped, any other one appended. */
  function ToggleGenre(selected: seq<nat>, id: nat): seq<nat>
  {
    if id in selected then Without(selected, id) else selected + [id]
  }

  lemma {:induction false} WithoutMembers(selected: seq<nat>, id: nat)
    ensures forall g :: g in Without(selected, id) <==> g in selected && g != id
  {
    if selected != [] {
      WithoutMembers(selected[1..], id);
      assert selected == [selected[0]] + selected[1..];
    }
  }

  /** Dropping an id keeps the others in their order: the filter distributes over concatenation. */
  lemma {:induction false} WithoutDistributes(a: seq<nat>, b: seq<nat>, id: nat)
    ensures Without(a + b, id) == Without(a, id) + Without(b, id)
  {
    if a == [] {
      assert a + b == b;
    } else {
      var ab := a + b;
      assert ab != [] && ab[0] == a[0] && ab[1..] == a[1..] + b;
      WithoutDistributes(a[1..], b, id);
      var rest := Without(a[1..], id);
      if a[0] != id {
        calc {
          Without(ab, id);
          [a[0]] + Without(a[1..] + b, id);
          [a[0]] + (rest + Without(b, id));
          ([a[0]] + rest) + Without(b, id);
        }
      } else {
        calc {
          Without(ab, id);
          [] + Without(a[1..] + b, id);
          rest + Without(b, id);
        }
      }
    }
  }

  lemma {:induction false} WithoutAbsent(selected: seq<nat>, id: nat)
    requires id !in selected
    ensures Without(selected, id) == selected
  {
    if selected != [] {
      assert id !in selected[1..];
      WithoutAbsent(selected[1..], id);
      assert selected == [selected[0]] + selected[1..];
    }
  }

  lemma ToggleGenreFacts(selected: seq<nat>, id: nat)
    ensures id !in selected ==> ToggleGenre(selected, id) == selected + [id]
    ensures id in selected ==> id !in ToggleGenre(selected, id)
    ensures forall g :: g != id ==> (g in ToggleGenre(selected, id) <==> g in selected)
  {
    WithoutMembers(selected, id);
  }

  /** Toggling a genre that is not selected twice gives back the selection. */
  lemma ToggleGenreTwice(selected: seq<nat>, id: nat)
    requires id !in selected
    ensures ToggleGenre(ToggleGenre(selected, id), id) == selected
  {
    assert id in selected + [id];
    WithoutDistributes(selected, [id], id);
    WithoutAbsent(selected, id);
    assert Without([id], id) == [];
  }

  /** Toggling a selected genre twice moves it to the end rather than restoring the selection. */
  lemma ToggleSelectedTwiceMoves(selected: seq<nat>, id: nat)
    requires id in selected
    ensures ToggleGenre(ToggleGenre(selected, id), id) == Without(selected, id) + [id]
  {
    WithoutMembers(selected, id);
  }

  datatype Tab = Trending | MostPopular | MostFavorite | TopAiring | Completed | Movies

  /** The `switch` in `fetchData`: the fetcher each tab uses. */
  function Fetcher(tab: Tab): (c: Category)
    ensures c != Upcoming
    ensures tab == MostFavorite ==> c == TopRated
  {
    match tab
    case Trending => AnimeApi.Trending
    case MostPopular => Popular
    case MostFavorite => TopRated
    case TopAiring => AnimeApi.TopAiring
    case Completed => LatestCompleted
    case Movies => AnimeApi.Movies
  }

  /** Each tab has a fetcher of its own. */
  lemma FetcherInjective(a: Tab, b: Tab)
    ensures Fetcher(a) == Fetcher(b) <==> a == b
  {
  }

  /** The endpoint `fetchData` requests for a tab, a page and a genre selection. */
  function TabEndpoint(tab: Tab, page: nat, genres: seq<nat>): string
  {
    ListEndpoint(Fetcher(tab), page, genres)
  }

  /** With no genre selected only the Completed tab goes through the search path; with a selection
      every tab does. */
  lemma TabEndpointRoute(tab: Tab, page: nat, genres: seq<nat>)
    ensures StartsWith(TabEndpoint(tab, page, genres), "/anime?") <==> (tab == Completed || genres != [])
    ensures StartsWith(TabEndpoint(tab, page, genres), "/top/anime?") <==> (tab != Completed && genres == [])
  {
    ListEndpointRoute(Fetcher(tab), page, genres);
  }

  /** The component's state. `requested` records the endpoints asked for, in order, and `load(e)` is
      the mapped list a request to `e` yields, `None` when it failed. */
  class View {
    var tab: Tab
    var genres: seq<nat>
    var list: seq<Anime>
    var page: nat
    var loading: bool
    var loadingMore: bool
    var requested: seq<string>

    constructor ()
      ensures tab == Tab.Trending && genres == [] && list == [] && page == 1
      ensures loading && !loadingMore && requested == []
    {
      tab, genres, list, page := Tab.Trending, [], [], 1;
      loading, loadingMore, requested := true, false, [];
    }

    /** The effect on `[activeTab, selectedGenres]`: back to page 1, the list emptied, then replaced
        by what page 1 yields. */
    method Reset(load: string -> Option<seq<Anime>>)
      modifies this
      ensures tab == old(tab) && genres == old(genres) && page == 1
      ensures requested == old(requested) + [TabEndpoint(tab, 1, genres)]
      ensures list == load(TabEndpoint(tab, 1, genres)).GetOr([])
      ensures !loading && !loadingMore
    {
      list := [];
      page := 1;
      FetchData(1, true, load);
    }

    /** A click on a tab. Setting the active tab to the value it already has is no change of state,
        so the reset effect runs only when another tab is picked. */
    method SelectTab(t: Tab, load: string -> Option<seq<Anime>>)
      modifies this
      ensures tab == t && genres == old(genres)
      ensures t == old(tab) ==> unchanged(this)
      ensures t != old(tab) ==>
        && page == 1
        && requested == old(requested) + [TabEndpoint(t, 1, genres)]
        && list == load(TabEndpoint(t, 1, genres)).GetOr([])
        && !loading && !loadingMore
    {
      if t != tab {
        tab := t;
        Reset(load);
      }
    }

    /** A click on a genre of the dropdown. */
    method ToggleGenreAndReset(id: nat, load: string -> Option<seq<Anime>>)
      modifies this
      ensures tab == old(tab) && genres == ToggleGenre(old(genres), id) && page == 1
      ensures requested == old(requested) + [TabEndpoint(tab, 1, genres)]
      ensures list == load(TabEndpoint(tab, 1, genres)).GetOr([])
      ensures !loading && !loadingMore
    {
      genres := ToggleGenre(genres, id);
      Reset(load);
    }

    /** "Clear All" in the dropdown. */
    method ClearAll(load: string -> Option<seq<Anime>>)
      modifies this
      ensures tab == old(tab) && genres == [] && page == 1
      ensures requested == old(requested) + [TabEndpoint(tab, 1, [])]
      ensures list == load(TabEndpoint(tab, 1, [])).GetOr([])
      ensures !loading && !loadingMore
    {
      genres := [];
      Reset(load);
    }

    /** `handleLoadMore`: the next page is requested and appended. The page counter advances even
        when the request fails. */
    method LoadMore(load: string -> Option<seq<Anime>>)
      modifies this
      ensures tab == old(tab) && genres == old(genres) && page == old(page) + 1
      ensures requested == old(requested) + [TabEndpoint(tab, page, genres)]
      ensures list == old(list) + load(TabEndpoint(tab, page, genres)).GetOr([])
      ensures |old(list)| <= |list| && list[..|old(list)|] == old(list)
      ensures !loading && !loadingMore
    {
      page := page + 1;
      FetchData(page, false, load);
    }

    /** `fetchData`: on success a reset replaces the list and a later page extends it; a failure
        leaves the list as it was. */
    method FetchData(pageNum: nat, isReset: bool, load: string -> Option<seq<Anime>>)
      modifies this`list, this`loading, this`loadingMore, this`requested
      ensures requested == old(requested) + [TabEndpoint(tab, pageNum, genres)]
      ensures var data := load(TabEndpoint(tab, pageNum, genres));
        list == (if data.None? then old(list) else if isReset then data.value else old(list) + data.value)
      ensures !loading && !loadingMore
    {
      if isReset {
        loading := true;
      } else {
        loadingMore := true;
      }
      var endpoint := TabEndpoint(tab, pageNum, genres);
      requested := requested + [endpoint];
      var data := load(endpoint);
      if data.Some? {
        list := if isReset then data.value else list + data.value;
      }
      loading := false;
      loadingMore := false;
    }
  }
}
