/** The watch history and comments kept in `localStorage`, and the template's mock episode list
    (services/streamingService.ts). */
module StreamingService {
  import opened Wrappers
  import opened Text
  import opened Storage
  import opened Types

  datatype WatchHistoryItem = WatchHistoryItem(
    animeId: string, animeTitle: string, animeImage: Option<string>, episodeNumber: int, timestamp: int)

  datatype Comment = Comment(
    id: string, userId: string, username: string, avatar: string, content: string, timestamp: int, likes: nat)

  datatype StreamEpisode = StreamEpisode(id: string, number: nat, title: string)

  /** The optional `user` argument of `saveComment`. */
  datatype CommentAuthor = CommentAuthor(id: Option<string>, name: Option<string>, avatar: Option<string>)

  const HistoryPrefix := "aniverse_history_"
  const GuestHistoryKey := "aniverse_history_guest"
  const CommentsKey := "aniverse_comments"
  const MaxHistory: nat := 20
  const GuestAvatar := "https://api.dicebear.com/7.x/avataaars/svg?seed=Guest"
  const EpisodeCount: nat := 24

  /** The history key of a user; guests (no id, or an empty one) share one key. */
  function HistoryKey(userId: Option<string>): string
  {
    if Truthy(userId) then HistoryPrefix + userId.value else GuestHistoryKey
  }

  /** Distinct users keep distinct histories; the only id that shares the guests' history is "guest". */
  lemma HistoryKeySeparates(u: string, v: string)
    requires u != "" && v != ""
    ensures HistoryKey(Some(u)) == HistoryKey(Some(v)) <==> u == v
    ensures HistoryKey(Some(u)) == HistoryKey(None) <==> u == "guest"
  {
    var p := HistoryPrefix;
    if HistoryKey(Some(u)) == HistoryKey(Some(v)) {
      assert u == (p + u)[|p|..] && v == (p + v)[|p|..];
    }
    if HistoryKey(Some(u)) == GuestHistoryKey {
      assert GuestHistoryKey == p + "guest";
      assert u == (p + u)[|p|..] && "guest" == (p + "guest")[|p|..];
    }
  }

  /** `history.filter(h => h.animeId !== id)` */
  function WithoutAnime(history: seq<WatchHistoryItem>, id: string): (r: seq<WatchHistoryItem>)
    ensures |r| <= |history|
    ensures forall i :: 0 <= i < |r| ==> r[i].animeId != id
  {
    if history == [] then []
    else (if history[0].animeId != id then [history[0]] else []) + WithoutAnime(history[1..], id)
  }

  /** Exactly the entries for other anime survive the filter. */
  lemma {:induction false} WithoutAnimeMembers(history: seq<WatchHistoryItem>, id: string)
    ensures forall x :: x in WithoutAnime(history, id) <==> x in history && x.animeId != id
  {
    if history != [] {
      WithoutAnimeMembers(history[1..], id);
      assert history == [history[0]] + history[1..];
    }
  }

  /** The history after watching: the new entry first, then the older entries for other anime in
      their order, at most twenty in all. */
  function BumpHistory(history: seq<WatchHistoryItem>, item: WatchHistoryItem): (r: seq<WatchHistoryItem>)
  {
    var h := [item] + WithoutAnime(history, item.animeId);
    if |h| > MaxHistory then h[..MaxHistory] else h
  }

  lemma BumpHistoryFacts(history: seq<WatchHistoryItem>, item: WatchHistoryItem)
    ensures var r := BumpHistory(history, item);
      && 1 <= |r| <= MaxHistory
      && r[0] == item
      && (forall i :: 0 < i < |r| ==> r[i].animeId != item.animeId)
      && r[1..] == WithoutAnime(history, item.animeId)[..|r| - 1]
  {
    var f := WithoutAnime(history, item.animeId);
    var r := BumpHistory(history, item);
    assert ([item] + f)[1..] == f;
    if |f| + 1 > MaxHistory {
      assert r[1..] == f[..MaxHistory - 1];
    } else {
      assert f[..|r| - 1] == f;
    }
  }

  predicate DistinctAnime(history: seq<WatchHistoryItem>) {
    forall i, j :: 0 <= i < j < |history| ==> history[i].animeId != history[j].animeId
  }

  lemma {:induction false} WithoutAnimeKeepsDistinct(history: seq<WatchHistoryItem>, id: string)
    requires DistinctAnime(history)
    ensures DistinctAnime(WithoutAnime(history, id))
  {
    if history != [] {
      WithoutAnimeKeepsDistinct(history[1..], id);
      WithoutAnimeMembers(history[1..], id);
      var rest := WithoutAnime(history[1..], id);
      forall x | x in rest ensures x.animeId != history[0].animeId {
        var k :| 0 <= k < |history[1..]| && history[1..][k] == x;
        assert history[k + 1] == x;
      }
    }
  }

  /** A history with one entry per anime stays that way: saving progress replaces an anime's entry. */
  lemma BumpHistoryKeepsDistinct(history: seq<WatchHistoryItem>, item: WatchHistoryItem)
    requires DistinctAnime(history)
    ensures DistinctAnime(BumpHistory(history, item))
  {
    var f := WithoutAnime(history, item.animeId);
    WithoutAnimeKeepsDistinct(history, item.animeId);
    var h := [item] + f;
    assert DistinctAnime(h) by {
      forall i, j | 0 <= i < j < |h| ensures h[i].animeId != h[j].animeId {
        if i > 0 {
          assert h[i] == f[i - 1] && h[j] == f[j - 1];
        }
      }
    }
  }

  const FelixAvatar := "https://api.dicebear.com/7.x/avataaars/svg?seed=Felix"
  const AnekaAvatar := "https://api.dicebear.com/7.x/avataaars/svg?seed=Aneka"
  const FirstMockText := "This episode was absolutely insane! The animation quality is top tier."
  const SecondMockText := "Wait until the next arc, it gets even better."

  /** The two sample comments shown while an anime has none, aged one and two hours. */
  function MockComments(now: int): (cs: seq<Comment>)
    ensures |cs| == 2
  {
    [ Comment("1", "user-1", "AnimeFan99", FelixAvatar, FirstMockText, now - 3600000, 45),
      Comment("2", "user-2", "MangaReader", AnekaAvatar, SecondMockText, now - 7200000, 12) ]
  }

  /** `getAnimeEpisodes`: episodes 1 to 24, episode n having id `episode-n`. */
  function Episodes(): (eps: seq<StreamEpisode>)
    ensures |eps| == EpisodeCount
    ensures forall i :: 0 <= i < |eps| ==>
      eps[i].number == i + 1 && eps[i].id == "episode-" + NatToString(i + 1)
  {
    seq(EpisodeCount, i requires 0 <= i < EpisodeCount =>
      StreamEpisode("episode-" + NatToString(i + 1), i + 1, "Episode " + NatToString(i + 1)))
  }

  /** No two mock episodes share an id. */
  lemma EpisodeIdsDistinct()
    ensures forall i, j :: 0 <= i < j < |Episodes()| ==> Episodes()[i].id != Episodes()[j].id
  {
    var eps := Episodes();
    forall i, j | 0 <= i < j < |eps| ensures eps[i].id != eps[j].id {
      var p := "episode-";
      if eps[i].id == eps[j].id {
        assert NatToString(i + 1) == eps[i].id[|p|..];
        assert NatToString(j + 1) == eps[j].id[|p|..];
        NatToStringInjective(i + 1, j + 1);
      }
    }
  }

  /** The histories after `saveWatchProgress`: as they were when the user's stored history does not
      parse, otherwise with the user's history bumped by the episode now watched. */
  function ProgressSaved(histories: map<string, Slot<seq<WatchHistoryItem>>>, anime: Anime,
                         episodeNumber: int, userId: Option<string>, now: int): map<string, Slot<seq<WatchHistoryItem>>>
  {
    var key := HistoryKey(userId);
    var item := WatchHistoryItem(anime.id, anime.title, anime.imageUrl, episodeNumber, now);
    if Lookup(histories, key).Garbage? then histories
    else histories[key := Holds(BumpHistory(LoadOr(Lookup(histories, key), []), item))]
  }

  /** `history.filter` keeps the entries for other anime in their order: it distributes over
      concatenation. */
  lemma {:induction false} WithoutAnimeDistributes(a: seq<WatchHistoryItem>, b: seq<WatchHistoryItem>, id: string)
    ensures WithoutAnime(a + b, id) == WithoutAnime(a, id) + WithoutAnime(b, id)
  {
    if a == [] {
      assert a + b == b;
    } else {
      var ab := a + b;
      assert ab != [] && ab[0] == a[0] && ab[1..] == a[1..] + b;
      WithoutAnimeDistributes(a[1..], b, id);
      var head := if a[0].animeId != id then [a[0]] else [];
      calc {
        WithoutAnime(ab, id);
        head + WithoutAnime(a[1..] + b, id);
        head + (WithoutAnime(a[1..], id) + WithoutAnime(b, id));
        (head + WithoutAnime(a[1..], id)) + WithoutAnime(b, id);
      }
    }
  }

  /** The part of `localStorage` this service uses: one history per key and the comments table. */
  class Store {
    var histories: map<string, Slot<seq<WatchHistoryItem>>>
    var comments: Slot<map<string, seq<Comment>>>

    constructor (histories0: map<string, Slot<seq<WatchHistoryItem>>>, comments0: Slot<map<string, seq<Comment>>>)
      ensures histories == histories0 && comments == comments0
    {
      histories, comments := histories0, comments0;
    }

    /** `getWatchHistory`: the stored list, or [] when it is missing or does not parse. */
    function WatchHistory(userId: Option<string>): (h: seq<WatchHistoryItem>)
      reads this
      ensures Lookup(histories, HistoryKey(userId)).Holds? ==> h == histories[HistoryKey(userId)].value
      ensures !Lookup(histories, HistoryKey(userId)).Holds? ==> h == []
    {
      LoadOr(Lookup(histories, HistoryKey(userId)), [])
    }

    /** `saveWatchProgress`: moves the anime to the front of the user's history with the episode now
        watched; a stored history that does not parse makes the save fail and leaves it as it was. */
    method SaveWatchProgress(anime: Anime, episodeNumber: int, userId: Option<string>, now: int)
      modifies this
      ensures comments == old(comments)
      ensures histories == ProgressSaved(old(histories), anime, episodeNumber, userId, now)
      ensures !Lookup(old(histories), HistoryKey(userId)).Garbage? ==>
        && 1 <= |WatchHistory(userId)| <= MaxHistory
        && WatchHistory(userId)[0].animeId == anime.id
        && WatchHistory(userId)[0].episodeNumber == episodeNumber
        && (forall i :: 0 < i < |WatchHistory(userId)| ==> WatchHistory(userId)[i].animeId != anime.id)
    {
      var key := HistoryKey(userId);
      var slot := Lookup(histories, key);
      if slot.Garbage? {
        return;
      }
      var history := LoadOr(slot, []);
      var item := WatchHistoryItem(anime.id, anime.title, anime.imageUrl, episodeNumber, now);
      BumpHistoryFacts(history, item);
      histories := histories[key := Holds(BumpHistory(history, item))];
    }

    /** `getComments`: the anime's stored comments, or the two samples when it has none or the table
        does not parse. */
    function Comments(animeId: string, now: int): (cs: seq<Comment>)
      reads this
      ensures |cs| >= 1
      ensures comments.Holds? && animeId in comments.value && comments.value[animeId] != [] ==>
        cs == comments.value[animeId]
      ensures !(comments.Holds? && animeId in comments.value && comments.value[animeId] != []) ==>
        cs == MockComments(now)
    {
      if comments.Garbage? then MockComments(now)
      else
        var all := LoadOr(comments, map[]);
        var stored := if animeId in all then all[animeId] else [];
        if |stored| == 0 then MockComments(now) else stored
    }

    /** `saveComment`: puts a new comment with no likes in front of the anime's list, signed by the
        user or, field by field, by the guest; a table that does not parse makes it fail. */
    method SaveComment(animeId: string, content: string, user: Option<CommentAuthor>, now: nat)
      returns (saved: Option<Comment>)
      modifies this`comments
      ensures old(comments).Garbage? ==> saved.None? && comments == old(comments)
      ensures !old(comments).Garbage? ==> saved.Some? && comments.Holds?
      ensures saved.Some? ==>
        var all := LoadOr(old(comments), map[]);
        && saved.value.content == content && saved.value.likes == 0 && saved.value.timestamp == now
        && saved.value.id == NatToString(now)
        && saved.value.userId == (if user.Some? then OrElse(user.value.id, "guest") else "guest")
        && saved.value.username == (if user.Some? then OrElse(user.value.name, "Guest") else "Guest")
        && saved.value.avatar == (if user.Some? then OrElse(user.value.avatar, GuestAvatar) else GuestAvatar)
        && comments.value == all[animeId := [saved.value] + (if animeId in all then all[animeId] else [])]
    {
      if comments.Garbage? {
        return None;
      }
      var all := LoadOr(comments, map[]);
      var list := if animeId in all then all[animeId] else [];
      var author := user.GetOr(CommentAuthor(None, None, None));
      var c := Comment(
        NatToString(now),
        OrElse(author.id, "guest"),
        OrElse(author.name, "Guest"),
        OrElse(author.avatar, GuestAvatar),
        content, now, 0);
      comments := Holds(all[animeId := [c] + list]);
      saved := Some(c);
    }
  }

  /** After a save, the anime's comments start with the saved one and every other anime's are kept. */
  lemma SaveCommentEffect(all: map<string, seq<Comment>>, animeId: string, c: Comment, other: string)
    requires other != animeId
    ensures var list := if animeId in all then all[animeId] else [];
      var after := all[animeId := [c] + list];
      && after[animeId][0] == c && after[animeId][1..] == list
      && (other in after <==> other in all)
      && (other in all ==> after[other] == all[other])
  {
    var list := if animeId in all then all[animeId] else [];
    assert ([c] + list)[1..] == list;
  }
}
