/** The watchlist of context/WatchlistContext.tsx: a list of anime with no repeated id, newest first,
    kept in React state and mirrored to `localStorage` under a per-user key. */
module WatchlistContext {
  import opened Wrappers
  import opened Storage
  import opened Types

  const WatchlistPrefix := "aniverse_watchlist_"
  const GuestWatchlistKey := "aniverse_watchlist_guest"

  /** `STORAGE_KEY`: `userId` is the id of the signed-in user, `None` for a guest. */
  function StorageKey(userId: Option<string>): (k: string)
    ensures userId.Some? ==> k == WatchlistPrefix + userId.value
    ensures userId.None? ==> k == GuestWatchlistKey
  {
    if userId.Some? then WatchlistPrefix + userId.value else GuestWatchlistKey
  }

  /** Signed-in users get pairwise distinct keys. */
  lemma StorageKeySeparatesUsers(u: string, v: string)
    ensures StorageKey(Some(u)) == StorageKey(Some(v)) <==> u == v
  {
    var p := WatchlistPrefix;
    if StorageKey(Some(u)) == StorageKey(Some(v)) {
      assert u == (p + u)[|p|..] && v == (p + v)[|p|..];
    }
  }

  /** `addToWatchlist`'s updater: an anime already listed (by id) leaves the list alone, any other
      goes in front. */
  function Add(list: seq<Anime>, anime: Anime): seq<Anime>
  {
    if HasId(list, anime.id) then list else [anime] + list
  }

  /** `removeFromWatchlist`'s updater: `list.filter(a => a.id !== id)`. */
  function Remove(list: seq<Anime>, id: string): (r: seq<Anime>)
    ensures |r| <= |list|
  {
    if list == [] then []
    else (if list[0].id != id then [list[0]] else []) + Remove(list[1..], id)
  }

  /** `isInWatchlist` */
  function IsIn(list: seq<Anime>, id: string): (b: bool)
    ensures b <==> exists i :: 0 <= i < |list| && list[i].id == id
  {
    HasId(list, id)
  }

  lemma AddFacts(list: seq<Anime>, anime: Anime)
    ensures Add(Add(list, anime), anime) == Add(list, anime)
    ensures HasId(list, anime.id) ==> Add(list, anime) == list
    ensures !HasId(list, anime.id) ==>
      Add(list, anime) == [anime] + list && |Add(list, anime)| == |list| + 1
    ensures forall id :: IsIn(Add(list, anime), id) <==> IsIn(list, id) || id == anime.id
  {
    if !HasId(list, anime.id) {
      var r := [anime] + list;
      assert r[0].id == anime.id;
      forall id | IsIn(list, id) ensures IsIn(r, id) {
        var i :| 0 <= i < |list| && list[i].id == id;
        assert r[i + 1] == list[i];
      }
    }
  }

  lemma {:induction false} RemoveAbsent(list: seq<Anime>, id: string)
    requires !HasId(list, id)
    ensures Remove(list, id) == list
  {
    if list != [] {
      assert forall i :: 0 <= i < |list[1..]| ==> list[1..][i] == list[i + 1];
      RemoveAbsent(list[1..], id);
      assert list == [list[0]] + list[1..];
    }
  }

  /** Exactly the entries with another id survive a remove. */
  lemma {:induction false} RemoveMembers(list: seq<Anime>, id: string)
    ensures forall x :: x in Remove(list, id) <==> x in list && x.id != id
  {
    if list != [] {
      RemoveMembers(list[1..], id);
      assert list == [list[0]] + list[1..];
    }
  }

  /** Removing from a concatenation removes from each part: the entries kept stay in their order. */
  lemma {:induction false} RemoveDistributes(a: seq<Anime>, b: seq<Anime>, id: string)
    ensures Remove(a + b, id) == Remove(a, id) + Remove(b, id)
  {
    if a == [] {
      assert a + b == b;
    } else {
      var ab := a + b;
      assert ab != [] && ab[0] == a[0] && ab[1..] == a[1..] + b;
      RemoveDistributes(a[1..], b, id);
      var rest := Remove(a[1..], id);
      if a[0].id != id {
        calc {
          Remove(ab, id);
          [a[0]] + Remove(a[1..] + b, id);
          [a[0]] + (rest + Remove(b, id));
          ([a[0]] + rest) + Remove(b, id);
        }
      } else {
        calc {
          Remove(ab, id);
          [] + Remove(a[1..] + b, id);
          rest + Remove(b, id);
        }
      }
    }
  }

  lemma RemoveFacts(list: seq<Anime>, id: string)
    ensures !IsIn(Remove(list, id), id)
    ensures !HasId(list, id) ==> Remove(list, id) == list
    ensures forall other :: IsIn(Remove(list, id), other) <==> IsIn(list, other) && other != id
  {
    var r := Remove(list, id);
    RemoveMembers(list, id);
    if !HasId(list, id) {
      RemoveAbsent(list, id);
    }
    forall other | IsIn(list, other) && other != id ensures IsIn(r, other) {
      var i :| 0 <= i < |list| && list[i].id == other;
      assert list[i] in r;
    }
    forall other | IsIn(r, other) ensures IsIn(list, other) && other != id {
      var i :| 0 <= i < |r| && r[i].id == other;
      assert r[i] in list;
    }
  }

  lemma AddKeepsDistinct(list: seq<Anime>, anime: Anime)
    requires DistinctIds(list)
    ensures DistinctIds(Add(list, anime))
  {
    if !HasId(list, anime.id) {
      var r := [anime] + list;
      forall i, j | 0 <= i < j < |r| ensures r[i].id != r[j].id {
        if i == 0 {
          assert r[j] == list[j - 1];
        } else {
          assert r[i] == list[i - 1] && r[j] == list[j - 1];
        }
      }
    }
  }

  lemma {:induction false} RemoveKeepsDistinct(list: seq<Anime>, id: string)
    requires DistinctIds(list)
    ensures DistinctIds(Remove(list, id))
  {
    if list != [] {
      RemoveKeepsDistinct(list[1..], id);
      RemoveMembers(list[1..], id);
      HeadIdNotInTail(list);
      if list[0].id != id {
        ConsDistinctIds(list[0], Remove(list[1..], id));
      } else {
        assert Remove(list, id) == [] + Remove(list[1..], id);
      }
    }
  }

  datatype Edit = AddAnime(anime: Anime) | RemoveId(id: string)

  function ApplyEdit(list: seq<Anime>, e: Edit): seq<Anime>
  {
    match e
    case AddAnime(a) => Add(list, a)
    case RemoveId(id) => Remove(list, id)
  }

  function ApplyEdits(list: seq<Anime>, edits: seq<Edit>): seq<Anime>
    decreases |edits|
  {
    if edits == [] then list else ApplyEdits(ApplyEdit(list, edits[0]), edits[1..])
  }

  /** Any sequence of adds and removes keeps a watchlist free of repeated ids. */
  lemma {:induction false} EditsKeepDistinct(list: seq<Anime>, edits: seq<Edit>)
    requires DistinctIds(list)
    ensures DistinctIds(ApplyEdits(list, edits))
    decreases |edits|
  {
    if edits != [] {
      if edits[0].AddAnime? {
        AddKeepsDistinct(list, edits[0].anime);
      } else {
        RemoveKeepsDistinct(list, edits[0].id);
      }
      EditsKeepDistinct(ApplyEdit(list, edits[0]), edits[1..]);
    }
  }

  /** `WatchlistProvider`: the state cell, the signed-in user and the watchlist keys of `localStorage`.
      Each method ends after both effects have run: the list is loaded when the key changes and
      written back under the current key after every change. */
  class Provider {
    var watchlist: seq<Anime>
    var userId: Option<string>
    var storage: map<string, Slot<seq<Anime>>>

    /** Mounting loads the list stored for the user (a missing or unparsable one is empty). */
    constructor (userId0: Option<string>, storage0: map<string, Slot<seq<Anime>>>)
      ensures userId == userId0
      ensures watchlist == LoadOr(Lookup(storage0, StorageKey(userId0)), [])
      ensures storage == storage0[StorageKey(userId0) := Holds(watchlist)]
    {
      var loaded := LoadOr(Lookup(storage0, StorageKey(userId0)), []);
      userId, watchlist := userId0, loaded;
      storage := storage0[StorageKey(userId0) := Holds(loaded)];
    }

    /** A login or logout changes the key, which reloads the list for the new key. */
    method SwitchUser(newUserId: Option<string>)
      modifies this
      ensures userId == newUserId
      ensures StorageKey(newUserId) != StorageKey(old(userId)) ==>
        watchlist == LoadOr(Lookup(old(storage), StorageKey(newUserId)), [])
      ensures StorageKey(newUserId) == StorageKey(old(userId)) ==> watchlist == old(watchlist)
      ensures storage == old(storage)[StorageKey(newUserId) := Holds(watchlist)]
    {
      var key := StorageKey(newUserId);
      if key != StorageKey(userId) {
        watchlist := LoadOr(Lookup(storage, key), []);
      }
      userId := newUserId;
      storage := storage[key := Holds(watchlist)];
    }

    method AddToWatchlist(anime: Anime)
      modifies this
      ensures userId == old(userId)
      ensures watchlist == Add(old(watchlist), anime)
      ensures storage == old(storage)[StorageKey(userId) := Holds(watchlist)]
    {
      watchlist := Add(watchlist, anime);
      storage := storage[StorageKey(userId) := Holds(watchlist)];
    }

    method RemoveFromWatchlist(id: string)
      modifies this
      ensures userId == old(userId)
      ensures watchlist == Remove(old(watchlist), id)
      ensures storage == old(storage)[StorageKey(userId) := Holds(watchlist)]
    {
      watchlist := Remove(watchlist, id);
      storage := storage[StorageKey(userId) := Holds(watchlist)];
    }

    function IsInWatchlist(id: string): (b: bool)
      reads this
      ensures b <==> exists i :: 0 <= i < |watchlist| && watchlist[i].id == id
    {
      IsIn(watchlist, id)
    }
  }
}
