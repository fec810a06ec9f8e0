/** The episode navigation of components/VideoPlayerOverlay.tsx: the position of the current episode
    in the list, the next/previous buttons, and the first episode loaded when the player opens. */
module VideoPlayerOverlay {
  import opened Wrappers
  import opened Types
  import opened Storage
  import opened StreamingService

  /** The first index at or after `from` whose episode has the id `id`, or -1. */
  function FindFrom(episodes: seq<StreamEpisode>, id: string, from: nat): (i: int)
    requires from <= |episodes|
    ensures i == -1 || from <= i < |episodes|
    ensures i >= 0 ==> episodes[i].id == id && forall j :: from <= j < i ==> episodes[j].id != id
    ensures i == -1 ==> forall j :: from <= j < |episodes| ==> episodes[j].id != id
    decreases |episodes| - from
  {
    if from == |episodes| then -1
    else if episodes[from].id == id then from
    else FindFrom(episodes, id, from + 1)
  }

  /** `episodes.findIndex(ep => ep.id === currentEpisode?.id)`: with no current episode the id is
      undefined and no episode matches. */
  function CurrentIndex(episodes: seq<StreamEpisode>, current: Option<StreamEpisode>): (i: int)
    ensures -1 <= i < |episodes|
    ensures i >= 0 <==> current.Some? && exists j :: 0 <= j < |episodes| && episodes[j].id == current.value.id
    ensures i >= 0 ==> episodes[i].id == current.value.id && forall j :: 0 <= j < i ==> episodes[j].id != current.value.id
  {
    if current.None? then -1 else FindFrom(episodes, current.value.id, 0)
  }

  predicate HasNext(episodes: seq<StreamEpisode>, current: Option<StreamEpisode>)
  {
    CurrentIndex(episodes, current) != -1 && CurrentIndex(episodes, current) < |episodes| - 1
  }

  predicate HasPrev(episodes: seq<StreamEpisode>, current: Option<StreamEpisode>)
  {
    CurrentIndex(episodes, current) > 0
  }

  /** Next is offered exactly when the current episode is listed and not last, previous exactly when
      it is listed and not first; with no current episode neither is. */
  lemma NavigationBounds(episodes: seq<StreamEpisode>, current: Option<StreamEpisode>)
    ensures var i := CurrentIndex(episodes, current);
      && (HasNext(episodes, current) <==> 0 <= i < |episodes| - 1)
      && (HasPrev(episodes, current) <==> 1 <= i < |episodes|)
    ensures current.None? ==> !HasNext(episodes, current) && !HasPrev(episodes, current)
    ensures HasNext(episodes, current) || HasPrev(episodes, current) ==> |episodes| >= 2
  {
  }

  predicate DistinctEpisodeIds(episodes: seq<StreamEpisode>)
  {
    forall i, j :: 0 <= i < j < |episodes| ==> episodes[i].id != episodes[j].id
  }

  /** With distinct ids, loading the episode at index k makes k the current index. */
  lemma IndexOfListed(episodes: seq<StreamEpisode>, k: nat)
    requires DistinctEpisodeIds(episodes) && k < |episodes|
    ensures CurrentIndex(episodes, Some(episodes[k])) == k
  {
  }

  /** The mock catalogue has distinct ids, so next and previous step through it one episode at a time. */
  lemma MockEpisodesStep(k: nat)
    requires k < EpisodeCount
    ensures CurrentIndex(Episodes(), Some(Episodes()[k])) == k
    ensures HasNext(Episodes(), Some(Episodes()[k])) <==> k < EpisodeCount - 1
    ensures HasPrev(Episodes(), Some(Episodes()[k])) <==> k > 0
  {
    EpisodeIdsDistinct();
    IndexOfListed(Episodes(), k);
  }

  /** The overlay's state for one anime. The watch history it writes lives in `store`. */
  class Player {
    const anime: Option<Anime>
    const userId: Option<string>
    const store: Store
    var episodes: seq<StreamEpisode>
    var current: Option<StreamEpisode>
    var embedUrl: Option<string>
    var loading: bool

    constructor (anime: Option<Anime>, userId: Option<string>, store: Store)
      ensures this.anime == anime && this.userId == userId && this.store == store
      ensures episodes == [] && current.None? && embedUrl.None? && loading
    {
      this.anime, this.userId, this.store := anime, userId, store;
      episodes, current, embedUrl, loading := [], None, None, true;
    }

    /** `initPlayer`. `found` is the episode list of the matching remote anime, `None` when the remote
        search finds none; the stream URL lookup always yields no URL. */
    method InitPlayer(found: Option<seq<StreamEpisode>>, now: int)
      modifies this, store
      ensures anime.None? ==> unchanged(this) && unchanged(store)
      ensures anime.Some? ==> embedUrl.None? && !loading
      ensures anime.Some? ==> episodes == found.GetOr([])
      ensures anime.Some? ==> current == if found.Some? && found.value != [] then Some(found.value[0]) else None
      ensures anime.Some? && (found.None? || found.value == []) ==> unchanged(store)
      ensures anime.Some? && found.Some? && found.value != [] ==>
        && store.comments == old(store.comments)
        && store.histories == ProgressSaved(old(store.histories), anime.value, found.value[0].number, userId, now)
        && Recorded(old(store.histories), found.value[0])
    {
      if anime.None? {
        return;
      }
      loading := true;
      episodes := [];
      embedUrl := None;
      current := None;
      if found.Some? {
        episodes := found.value;
        if found.value != [] {
          LoadEpisode(found.value[0], now);
        }
      }
      loading := false;
    }

    /** What saving progress for `episode` leaves in the store: unless the stored history does not
        parse, this anime heads the history with that episode's number. */
    ghost predicate Recorded(before: map<string, Slot<seq<WatchHistoryItem>>>, episode: StreamEpisode)
      reads this, store
      requires anime.Some?
    {
      !Lookup(before, HistoryKey(userId)).Garbage? ==>
        var h := store.WatchHistory(userId);
        |h| >= 1 && h[0].animeId == anime.value.id && h[0].episodeNumber == episode.number
    }

    /** `loadEpisode`: the episode becomes current and, when an anime is open, its progress is saved. */
    method LoadEpisode(episode: StreamEpisode, now: int)
      modifies this`current, this`loading, this`embedUrl, store
      ensures current == Some(episode) && embedUrl.None? && !loading
      ensures anime.None? ==> unchanged(store)
      ensures anime.Some? ==>
        && store.comments == old(store.comments)
        && store.histories == ProgressSaved(old(store.histories), anime.value, episode.number, userId, now)
        && Recorded(old(store.histories), episode)
    {
      current := Some(episode);
      loading := true;
      if anime.Some? {
        store.SaveWatchProgress(anime.value, episode.number, userId, now);
      }
      embedUrl := None;
      loading := false;
    }

    /** `playNext`: the following episode when there is one, otherwise nothing changes. */
    method PlayNext(now: int)
      modifies this`current, this`loading, this`embedUrl, store
      ensures episodes == old(episodes)
      ensures old(HasNext(episodes, current)) ==>
        var next := episodes[old(CurrentIndex(episodes, current)) + 1];
        && current == Some(next) && embedUrl.None? && !loading
        && (anime.None? ==> unchanged(store))
        && (anime.Some? ==>
          && store.comments == old(store.comments)
          && store.histories == ProgressSaved(old(store.histories), anime.value, next.number, userId, now)
          && Recorded(old(store.histories), next))
      ensures !old(HasNext(episodes, current)) ==>
        current == old(current) && loading == old(loading) && embedUrl == old(embedUrl) && unchanged(store)
    {
      if HasNext(episodes, current) {
        LoadEpisode(episodes[CurrentIndex(episodes, current) + 1], now);
      }
    }

    /** `playPrev`: the preceding episode when there is one, otherwise nothing changes. */
    method PlayPrev(now: int)
      modifies this`current, this`loading, this`embedUrl, store
      ensures episodes == old(episodes)
      ensures old(HasPrev(episodes, current)) ==>
        var prev := episodes[old(CurrentIndex(episodes, current)) - 1];
        && current == Some(prev) && embedUrl.None? && !loading
        && (anime.None? ==> unchanged(store))
        && (anime.Some? ==>
          && store.comments == old(store.comments)
          && store.histories == ProgressSaved(old(store.histories), anime.value, prev.number, userId, now)
          && Recorded(old(store.histories), prev))
      ensures !old(HasPrev(episodes, current)) ==>
        current == old(current) && loading == old(loading) && embedUrl == old(embedUrl) && unchanged(store)
    {
      if HasPrev(episodes, current) {
        LoadEpisode(episodes[CurrentIndex(episodes, current) - 1], now);
      }
    }
  }
}
