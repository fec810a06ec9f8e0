/** The `Anime` record shared by every component, and JavaScript truthiness for optional strings. */
module Types {
  import opened Wrappers

  /** `rating: number | string`: a catalog score or a placeholder label such as "N/A". */
  datatype Rating = Score(value: real) | Label(text: string)

  datatype Anime = Anime(
    id: string,
    malId: Option<nat>,
    title: string,
    rating: Rating,
    genres: seq<string>,
    description: string,
    imageUrl: Option<string>,
    year: Option<int>,
    episodes: Option<int>,
    rank: Option<int>,
    status: Option<string>,
    members: Option<int>,
    broadcastTime: Option<string>,
    airedString: Option<string>,
    airedFrom: Option<string>)

  /** An optional string is truthy when present and non-empty. */
  predicate Truthy(s: Option<string>) {
    s.Some? && s.value != ""
  }

  /** `s || fallback` */
  function OrElse(s: Option<string>, fallback: string): (r: string)
    ensures Truthy(s) ==> r == s.value
    ensures !Truthy(s) ==> r == fallback
  {
    if Truthy(s) then s.value else fallback
  }

  /** `s || null` */
  function OrNull(s: Option<string>): (r: Option<string>)
    ensures r.Some? <==> Truthy(s)
    ensures r.Some? ==> r == s
  {
    if Truthy(s) then s else None
  }

  /** `list.some(a => a.id === id)` */
  predicate HasId(list: seq<Anime>, id: string) {
    exists i :: 0 <= i < |list| && list[i].id == id
  }

  predicate DistinctIds(list: seq<Anime>) {
    forall i, j :: 0 <= i < j < |list| ==> list[i].id != list[j].id
  }

  /** An anime whose id no entry of a duplicate-free list has can go in front of it. */
  lemma ConsDistinctIds(a: Anime, t: seq<Anime>)
    requires DistinctIds(t)
    requires forall x :: x in t ==> x.id != a.id
    ensures DistinctIds([a] + t)
  {
    var r := [a] + t;
    forall i, j | 0 <= i < j < |r| ensures r[i].id != r[j].id {
      assert r[j] == t[j - 1] && r[j] in t;
      if i > 0 {
        assert r[i] == t[i - 1];
      }
    }
  }

  /** In a duplicate-free list no later entry shares the first one's id. */
  lemma HeadIdNotInTail(list: seq<Anime>)
    requires list != [] && DistinctIds(list)
    ensures forall x :: x in list[1..] ==> x.id != list[0].id
  {
    forall x | x in list[1..] ensures x.id != list[0].id {
      var k :| 0 <= k < |list[1..]| && list[1..][k] == x;
      assert list[k + 1] == x;
    }
  }
}
