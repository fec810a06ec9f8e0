/** The logic of components/AnimeCard.tsx: the estimate of the episode now airing and the bookmark
    toggle. */
module AnimeCard {
  import opened Wrappers
  import opened Types
  import opened Storage
  import opened WatchlistContext

  /** One week in milliseconds, `1000 * 60 * 60 * 24 * 7`. */
  const WeekMs: int := 604800000
  const Airing: string := "Currently Airing"

  /** `anime.episodes` used as a cap: only a non-zero count is truthy. */
  predicate HasCap(episodes: Option<int>) {
    episodes.Some? && episodes.value != 0
  }

  /** `getEstimatedEpisode`. `parseDate(s)` is `new Date(s).getTime()`, `None` when that is NaN, and
      `now` is the current time in milliseconds. */
  function EstimatedEpisode(anime: Anime, parseDate: string -> Option<int>, now: int): (r: Option<int>)
    ensures r.Some? <==>
      Truthy(anime.airedFrom) && anime.status == Some(Airing) && parseDate(anime.airedFrom.value).Some?
    ensures r.Some? ==> r.value == EpisodeAt(parseDate(anime.airedFrom.value).value, now, anime.episodes)
  {
    if !Truthy(anime.airedFrom) || anime.status != Some(Airing) then None
    else
      var start := parseDate(anime.airedFrom.value);
      if start.None? then None
      else Some(EpisodeAt(start.value, now, anime.episodes))
  }

  /** The estimate once the start date is known: 1 before the start, then one more per whole week
      elapsed, never above a truthy episode count. */
  function EpisodeAt(start: int, now: int, episodes: Option<int>): int
  {
    var diff := now - start;
    if diff < 0 then 1
    else
      var current := diff / WeekMs + 1;
      if HasCap(episodes) && current > episodes.value then episodes.value else current
  }

  /** The estimate is k + 1 throughout the k-th week after the start, unless the cap is lower. */
  lemma EpisodeAtWeeks(start: int, now: int, episodes: Option<int>, k: nat)
    requires start + k * WeekMs <= now < start + (k + 1) * WeekMs
    ensures !HasCap(episodes) || k + 1 <= episodes.value ==> EpisodeAt(start, now, episodes) == k + 1
    ensures HasCap(episodes) && k + 1 > episodes.value ==> EpisodeAt(start, now, episodes) == episodes.value
  {
    var diff := now - start;
    assert k * WeekMs <= diff < (k + 1) * WeekMs;
    DivInRange(diff, k);
  }

  lemma DivInRange(diff: int, k: nat)
    requires k * WeekMs <= diff < (k + 1) * WeekMs
    ensures diff / WeekMs == k
  {
    var q, m := diff / WeekMs, diff % WeekMs;
    assert diff == q * WeekMs + m && 0 <= m < WeekMs;
    assert q < k ==> q * WeekMs <= (k - 1) * WeekMs;
    assert q > k ==> q * WeekMs >= (k + 1) * WeekMs;
  }

  /** A start in the future gives episode 1, and the estimate is at least 1 and at most a positive
      cap. */
  lemma EpisodeAtBounds(start: int, now: int, episodes: Option<int>)
    ensures now < start ==> EpisodeAt(start, now, episodes) == 1
    ensures episodes.None? || episodes.value >= 0 ==> EpisodeAt(start, now, episodes) >= 1
    ensures HasCap(episodes) && episodes.value >= 1 ==> EpisodeAt(start, now, episodes) <= episodes.value
  {
  }

  /** For a fixed start the estimate never goes down as time passes (the count, when given, is not
      negative). */
  lemma EpisodeAtMonotonic(start: int, now: int, later: int, episodes: Option<int>)
    requires now <= later
    requires episodes.None? || episodes.value >= 0
    ensures EpisodeAt(start, now, episodes) <= EpisodeAt(start, later, episodes)
  {
    if now - start >= 0 {
      DivMonotonic(now - start, later - start);
    }
  }

  lemma DivMonotonic(a: int, b: int)
    requires 0 <= a <= b
    ensures a / WeekMs <= b / WeekMs
  {
    var qa, qb := a / WeekMs, b / WeekMs;
    assert a == qa * WeekMs + a % WeekMs && b == qb * WeekMs + b % WeekMs;
    assert qa > qb ==> qa * WeekMs >= (qb + 1) * WeekMs;
  }

  /** `toggleWatchlist`'s effect on the list: a bookmarked anime is removed, any other added. */
  function Toggled(list: seq<Anime>, anime: Anime): seq<Anime>
  {
    if IsIn(list, anime.id) then Remove(list, anime.id) else Add(list, anime)
  }

  /** The toggle flips this anime's bookmark and no other one. */
  lemma ToggledFlips(list: seq<Anime>, anime: Anime)
    ensures IsIn(Toggled(list, anime), anime.id) <==> !IsIn(list, anime.id)
    ensures forall id :: id != anime.id ==> (IsIn(Toggled(list, anime), id) <==> IsIn(list, id))
  {
    AddFacts(list, anime);
    RemoveFacts(list, anime.id);
  }

  /** Bookmarking an anime and then un-bookmarking it gives back the list. */
  lemma ToggledTwice(list: seq<Anime>, anime: Anime)
    requires !IsIn(list, anime.id)
    ensures Toggled(Toggled(list, anime), anime) == list
  {
    AddFacts(list, anime);
    var added := [anime] + list;
    assert added[0].id == anime.id;
    assert IsIn(added, anime.id);
    RemoveDistributes([anime], list, anime.id);
    RemoveAbsent(list, anime.id);
    assert Remove([anime], anime.id) == [] by {
      assert [anime][1..] == [];
    }
  }

  /** The click handler: dispatches to the provider's remove or add. */
  method ToggleWatchlist(provider: Provider, anime: Anime)
    modifies provider
    ensures provider.userId == old(provider.userId)
    ensures provider.watchlist == Toggled(old(provider.watchlist), anime)
    ensures provider.storage == old(provider.storage)[StorageKey(provider.userId) := Holds(provider.watchlist)]
  {
    if provider.IsInWatchlist(anime.id) {
      provider.RemoveFromWatchlist(anime.id);
    } else {
      provider.AddToWatchlist(anime);
    }
  }
}
