/** The Top 100 overlay of components/Top100Overlay.tsx: four ranking pages merged into one list,
    pages 2 to 4 skipping anime already listed. */
module Top100Overlay {
  import opened Wrappers
  import opened Types

  const LastPage: nat := 4

  /** `page.filter(a => !ids.has(a.id))` where `ids` are the ids of `prev`. */
  function NotListed(page: seq<Anime>, prev: seq<Anime>): (r: seq<Anime>)
    ensures |r| <= |page|
  {
    if page == [] then []
    else (if !HasId(prev, page[0].id) then [page[0]] else []) + NotListed(page[1..], prev)
  }

  /** One merge of pages 2 to 4. */
  function MergePage(prev: seq<Anime>, page: seq<Anime>): seq<Anime>
  {
    prev + NotListed(page, prev)
  }

  /** Exactly the page's anime whose id is not yet listed are added, all after the old list. */
  lemma {:induction false} NotListedMembers(page: seq<Anime>, prev: seq<Anime>)
    ensures forall x :: x in NotListed(page, prev) <==> x in page && !HasId(prev, x.id)
  {
    if page != [] {
      NotListedMembers(page[1..], prev);
      assert page == [page[0]] + page[1..];
    }
  }

  /** The filter keeps the page's order: it distributes over concatenation. */
  lemma {:induction false} NotListedDistributes(a: seq<Anime>, b: seq<Anime>, prev: seq<Anime>)
    ensures NotListed(a + b, prev) == NotListed(a, prev) + NotListed(b, prev)
  {
    if a == [] {
      assert a + b == b;
    } else {
      var ab := a + b;
      assert ab != [] && ab[0] == a[0] && ab[1..] == a[1..] + b;
      NotListedDistributes(a[1..], b, prev);
      var head := if !HasId(prev, a[0].id) then [a[0]] else [];
      calc {
        NotListed(ab, prev);
        head + NotListed(a[1..] + b, prev);
        head + (NotListed(a[1..], prev) + NotListed(b, prev));
        (head + NotListed(a[1..], prev)) + NotListed(b, prev);
      }
    }
  }

  /** A merge keeps the old list as a prefix and appends the page's unlisted anime in page order. */
  lemma MergePageFacts(prev: seq<Anime>, page: seq<Anime>)
    ensures var m := MergePage(prev, page);
      && |prev| <= |m| && m[..|prev|] == prev
      && m[|prev|..] == NotListed(page, prev)
      && (forall x :: x in m[|prev|..] <==> x in page && !HasId(prev, x.id))
  {
    var m := MergePage(prev, page);
    NotListedMembers(page, prev);
    assert m[..|prev|] == prev;
    assert m[|prev|..] == NotListed(page, prev);
  }

  /** A merge adds no id twice when the old list and the page each have none twice. */
  lemma {:induction false} MergeKeepsDistinct(prev: seq<Anime>, page: seq<Anime>)
    requires DistinctIds(prev) && DistinctIds(page)
    ensures DistinctIds(MergePage(prev, page))
  {
    var added := NotListed(page, prev);
    NotListedMembers(page, prev);
    NotListedKeepsDistinct(page, prev);
    var m := prev + added;
    forall i, j | 0 <= i < j < |m| ensures m[i].id != m[j].id {
      if j >= |prev| {
        assert m[j] == added[j - |prev|];
        assert m[j] in added;
        if i < |prev| {
          assert m[i] == prev[i];
        } else {
          assert m[i] == added[i - |prev|];
        }
      } else {
        assert m[i] == prev[i] && m[j] == prev[j];
      }
    }
  }

  lemma {:induction false} NotListedKeepsDistinct(page: seq<Anime>, prev: seq<Anime>)
    requires DistinctIds(page)
    ensures DistinctIds(NotListed(page, prev))
  {
    if page != [] {
      NotListedKeepsDistinct(page[1..], prev);
      NotListedMembers(page[1..], prev);
      HeadIdNotInTail(page);
      if !HasId(prev, page[0].id) {
        ConsDistinctIds(page[0], NotListed(page[1..], prev));
      } else {
        assert NotListed(page, prev) == [] + NotListed(page[1..], prev);
      }
    }
  }

  /** The filter looks only at the old list, so a page that repeats an id keeps the repeat. */
  lemma RepeatWithinPageSurvives(a: Anime)
    ensures MergePage([], [a, a]) == [a, a]
    ensures !DistinctIds(MergePage([], [a, a]))
  {
    assert !HasId([], a.id);
    assert NotListed([a], []) == [a];
    assert [a, a][1..] == [a];
  }

  /** `fetchTop100` from page `page` on: each page is requested in turn, page 1 appended as it is and
      later pages merged; the first failed request ends the load (the `catch`). The result is the
      list and the pages requested. */
  function LoadFrom(list: seq<Anime>, fetch: nat -> Option<seq<Anime>>, page: nat): (seq<Anime>, seq<nat>)
    requires 1 <= page
  {
    (ListFrom(list, fetch, page), Asked(fetch, page))
  }

  /** The list a load from `page` on ends with. */
  function ListFrom(list: seq<Anime>, fetch: nat -> Option<seq<Anime>>, page: nat): seq<Anime>
    requires 1 <= page
    decreases LastPage + 1 - page
  {
    if page > LastPage then list
    else match fetch(page)
      case None => list
      case Some(p) => ListFrom(Merged(list, p, page), fetch, page + 1)
  }

  /** The pages a load from `page` on requests, up to and including the first that fails: they do
      not depend on the list. */
  function Asked(fetch: nat -> Option<seq<Anime>>, page: nat): seq<nat>
    decreases LastPage + 1 - page
  {
    if page > LastPage then []
    else if fetch(page).None? then [page]
    else [page] + Asked(fetch, page + 1)
  }

  /** The list after page `page` arrives: page 1 is appended as it is, later pages are merged. */
  function Merged(list: seq<Anime>, p: seq<Anime>, page: nat): (r: seq<Anime>)
    ensures |list| <= |r| && r[..|list|] == list
  {
    if page == 1 then list + p else MergePage(list, p)
  }

  /** The list only grows, at its end. */
  lemma {:induction false} LoadFromGrows(list: seq<Anime>, fetch: nat -> Option<seq<Anime>>, page: nat)
    requires 1 <= page
    ensures var result := ListFrom(list, fetch, page);
      |list| <= |result| && result[..|list|] == list
    decreases LastPage + 1 - page
  {
    if page <= LastPage && fetch(page).Some? {
      var merged := Merged(list, fetch(page).value, page);
      LoadFromGrows(merged, fetch, page + 1);
      var rest := ListFrom(merged, fetch, page + 1);
      assert ListFrom(list, fetch, page) == rest;
      assert rest[..|list|] == rest[..|merged|][..|list|];
    }
  }

  /** The pages `lo` to `hi - 1`, in order. */
  function Pages(lo: nat, hi: nat): (ps: seq<nat>)
    ensures |ps| == if lo <= hi then hi - lo else 0
    decreases hi - lo
  {
    if lo >= hi then [] else [lo] + Pages(lo + 1, hi)
  }

  /** Pages are requested one after another from `page` on, at most up to the last page, and only
      the last page requested may have failed. */
  lemma {:induction false} LoadFromAsks(fetch: nat -> Option<seq<Anime>>, page: nat)
    requires 1 <= page <= LastPage + 1
    ensures var asked := Asked(fetch, page);
      && |asked| <= LastPage + 1 - page
      && asked == Pages(page, page + |asked|)
      && (forall k :: page <= k < page + |asked| - 1 ==> fetch(k).Some?)
    decreases LastPage + 1 - page
  {
    if page <= LastPage && fetch(page).Some? {
      LoadFromAsks(fetch, page + 1);
      var rest := Asked(fetch, page + 1);
      assert Asked(fetch, page) == [page] + rest;
      assert Pages(page, page + 1 + |rest|) == [page] + Pages(page + 1, page + 1 + |rest|);
    }
  }

  /** Started on an empty list with pages that each repeat no id, the overlay lists no id twice. */
  lemma {:induction false} LoadFromDistinct(list: seq<Anime>, fetch: nat -> Option<seq<Anime>>, page: nat)
    requires 1 <= page
    requires DistinctIds(list) && (page == 1 ==> list == [])
    requires forall k :: page <= k <= LastPage && fetch(k).Some? ==> DistinctIds(fetch(k).value)
    ensures DistinctIds(ListFrom(list, fetch, page))
    decreases LastPage + 1 - page
  {
    if page <= LastPage && fetch(page).Some? {
      var p := fetch(page).value;
      if page == 1 {
        assert list + p == p;
      } else {
        MergeKeepsDistinct(list, p);
      }
      var merged := Merged(list, p, page);
      LoadFromDistinct(merged, fetch, page + 1);
      assert ListFrom(list, fetch, page) == ListFrom(merged, fetch, page + 1);
    }
  }

  /** `#{anime.rank || index + 1}` */
  function DisplayRank(anime: Anime, index: nat): (r: int)
    ensures anime.rank.None? || anime.rank == Some(0) ==> r == index + 1
    ensures anime.rank.Some? && anime.rank.value != 0 ==> r == anime.rank.value
    ensures (anime.rank.None? || anime.rank.value >= 0) ==> r >= 1
  {
    if anime.rank.Some? && anime.rank.value != 0 then anime.rank.value else index + 1
  }

  /** The overlay's list, its loading flag and the ranking pages it has requested. `fetch(k)` is the
      answer to `getTopAnime(k)`, `None` when that request failed. */
  class Overlay {
    var list: seq<Anime>
    var loading: bool
    var requested: seq<nat>

    constructor ()
      ensures list == [] && loading && requested == []
    {
      list, loading, requested := [], true, [];
    }

    /** The effect on `isOpen`: an open overlay with an empty list loads the Top 100. */
    method OnOpenChange(isOpen: bool, fetch: nat -> Option<seq<Anime>>)
      modifies this
      ensures isOpen && old(list) == [] ==>
        (list, requested) == (LoadFrom([], fetch, 1).0, old(requested) + LoadFrom([], fetch, 1).1) && !loading
      ensures !(isOpen && old(list) == []) ==>
        list == old(list) && requested == old(requested) && loading == old(loading)
    {
      if isOpen && list == [] {
        FetchTop100(fetch);
      }
    }

    method FetchTop100(fetch: nat -> Option<seq<Anime>>)
      modifies this
      ensures list == LoadFrom(old(list), fetch, 1).0
      ensures requested == old(requested) + LoadFrom(old(list), fetch, 1).1
      ensures !loading
    {
      loading := true;
      ghost var asked := requested;
      ghost var goal := LoadFrom(list, fetch, 1);
      var ok := FetchPage(1, fetch);
      ResumeStep(goal, asked, fetch, 1, old(list), asked, list, requested);
      if ok {
        ghost var l, q := list, requested;
        ok := FetchPage(2, fetch);
        ResumeStep(goal, asked, fetch, 2, l, q, list, requested);
      }
      if ok {
        ghost var l, q := list, requested;
        ok := FetchPage(3, fetch);
        ResumeStep(goal, asked, fetch, 3, l, q, list, requested);
      }
      if ok {
        ghost var l, q := list, requested;
        ok := FetchPage(4, fetch);
        ResumeStep(goal, asked, fetch, 4, l, q, list, requested);
      }
      loading := false;
    }

    /** One `await getTopAnime(page)` and the list update that follows it. */
    method FetchPage(page: nat, fetch: nat -> Option<seq<Anime>>) returns (ok: bool)
      requires 1 <= page <= LastPage
      modifies this`list, this`requested
      ensures requested == old(requested) + [page]
      ensures ok == fetch(page).Some?
      ensures ok ==> list == (if page == 1 then old(list) + fetch(page).value else MergePage(old(list), fetch(page).value))
      ensures !ok ==> list == old(list)
    {
      requested := requested + [page];
      var p := fetch(page);
      if p.None? {
        return false;
      }
      if page == 1 {
        list := list + p.value;
      } else {
        list := MergePage(list, p.value);
      }
      ok := true;
    }
  }

  /** Part way through `fetchTop100`: what is left of the load from `page` on, after the list
      `list` and the requests `requested`, completes `goal`, the load begun with the requests `asked`. */
  ghost predicate Resumes(goal: (seq<Anime>, seq<nat>), asked: seq<nat>, fetch: nat -> Option<seq<Anime>>, page: nat,
                          list: seq<Anime>, requested: seq<nat>)
    requires 1 <= page
  {
    var rest := LoadFrom(list, fetch, page);
    && |asked| <= |requested| && requested[..|asked|] == asked
    && goal == (rest.0, requested[|asked|..] + rest.1)
  }

  /** One page of `fetchTop100`: a success resumes at the next page, a failure or the last page ends
      the load. */
  lemma ResumeStep(goal: (seq<Anime>, seq<nat>), asked: seq<nat>, fetch: nat -> Option<seq<Anime>>, page: nat,
                   list: seq<Anime>, requested: seq<nat>, list': seq<Anime>, requested': seq<nat>)
    requires 1 <= page <= LastPage
    requires page == 1 ==> goal == LoadFrom(list, fetch, page) && asked == requested
    requires page > 1 ==> Resumes(goal, asked, fetch, page, list, requested)
    requires requested' == requested + [page]
    requires fetch(page).Some? ==>
      list' == Merged(list, fetch(page).value, page)
    requires fetch(page).None? ==> list' == list
    ensures fetch(page).Some? ==> Resumes(goal, asked, fetch, page + 1, list', requested')
    ensures fetch(page).None? || page == LastPage ==> (list', requested') == (goal.0, asked + goal.1)
  {
    var done := requested[|asked|..];
    var here := LoadFrom(list, fetch, page);
    if page == 1 {
      assert done == [];
      assert done + here.1 == here.1;
    }
    assert requested'[..|asked|] == asked by {
      assert requested'[..|asked|] == requested[..|asked|];
    }
    assert requested'[|asked|..] == done + [page];
    assert requested' == asked + requested'[|asked|..];
    if fetch(page).Some? {
      ResumeAnswered(goal, done, fetch, page, list, list');
    } else {
      LoadFromFailed(list, fetch, page);
    }
  }

  lemma ResumeAnswered(goal: (seq<Anime>, seq<nat>), done: seq<nat>, fetch: nat -> Option<seq<Anime>>, page: nat,
                       list: seq<Anime>, list': seq<Anime>)
    requires 1 <= page <= LastPage && fetch(page).Some?
    requires goal == (LoadFrom(list, fetch, page).0, done + LoadFrom(list, fetch, page).1)
    requires list' == Merged(list, fetch(page).value, page)
    ensures goal == (LoadFrom(list', fetch, page + 1).0, (done + [page]) + LoadFrom(list', fetch, page + 1).1)
    ensures page == LastPage ==> goal == (list', done + [page])
  {
    var rest := LoadFrom(list', fetch, page + 1);
    LoadFromAnswered(list, fetch, page);
    assert done + ([page] + rest.1) == (done + [page]) + rest.1;
    if page == LastPage {
      LoadFromEnd(list', fetch);
      assert (done + [page]) + rest.1 == done + [page];
    }
  }

  lemma LoadFromFailed(list: seq<Anime>, fetch: nat -> Option<seq<Anime>>, page: nat)
    requires 1 <= page <= LastPage && fetch(page).None?
    ensures LoadFrom(list, fetch, page) == (list, [page])
  {
  }

  lemma LoadFromAnswered(list: seq<Anime>, fetch: nat -> Option<seq<Anime>>, page: nat)
    requires 1 <= page <= LastPage && fetch(page).Some?
    ensures var merged := Merged(list, fetch(page).value, page);
      LoadFrom(list, fetch, page) == (LoadFrom(merged, fetch, page + 1).0, [page] + LoadFrom(merged, fetch, page + 1).1)
  {
  }

  lemma LoadFromPast(list: seq<Anime>, fetch: nat -> Option<seq<Anime>>, page: nat)
    requires page > LastPage
    ensures LoadFrom(list, fetch, page) == (list, [])
  {
  }

  lemma LoadFromEnd(list: seq<Anime>, fetch: nat -> Option<seq<Anime>>)
    ensures LoadFrom(list, fetch, LastPage + 1) == (list, [])
  {
  }
}
