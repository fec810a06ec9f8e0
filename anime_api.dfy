/** The catalog endpoints, the genre filter and the mapping of catalog records to `Anime`
    (services/animeApi.ts). The request queue they go through is module RequestQueue. */
module AnimeApi {
  import opened Wrappers
  import opened Text
  import opened Types

  /** One record of the catalog's `data` array, with the fields the mapping reads.
      `genres` holds the `name` of each genre object; the two image URLs are
      `images.jpg.large_image_url` and `images.jpg.image_url`. */
  datatype JikanItem = JikanItem(
    malId: nat,
    title: string,
    titleEnglish: Option<string>,
    score: Option<real>,
    genres: Option<seq<string>>,
    synopsis: Option<string>,
    largeImageUrl: Option<string>,
    imageUrl: Option<string>,
    year: Option<int>,
    episodes: Option<int>,
    rank: Option<int>,
    status: Option<string>,
    members: Option<int>,
    broadcastTime: Option<string>,
    airedString: Option<string>,
    airedFrom: Option<string>)

  /** The `entry` of one recommendation record. */
  datatype RecommendationEntry = RecommendationEntry(
    malId: nat, title: string, largeImageUrl: Option<string>, imageUrl: Option<string>)

  const NoDescription := "No description available."
  const RecommendedDescription := "Recommended based on your selection."
  const MaxRecommendations := 10

  predicate Falsy(score: Option<real>) {
    score.None? || score.value == 0.0
  }

  function MapJikanToAnime(item: JikanItem): (a: Anime)
    ensures a.malId == Some(item.malId) && ParseNat(a.id) == Some(item.malId)
    ensures Truthy(item.titleEnglish) ==> a.title == item.titleEnglish.value
    ensures !Truthy(item.titleEnglish) ==> a.title == item.title
    ensures a.rating == Label("N/A") <==> Falsy(item.score)
    ensures !Falsy(item.score) ==> a.rating == Score(item.score.value)
    ensures a.genres == (if item.genres.Some? then item.genres.value else [])
    ensures a.description != ""
    ensures Truthy(item.synopsis) ==> a.description == item.synopsis.value
    ensures !Truthy(item.synopsis) ==> a.description == NoDescription
    ensures a.imageUrl == (if Truthy(item.largeImageUrl) then item.largeImageUrl else item.imageUrl)
    ensures a.broadcastTime.Some? <==> Truthy(item.broadcastTime)
    ensures a.broadcastTime == OrNull(item.broadcastTime)
    ensures a.airedString == OrNull(item.airedString) && a.airedFrom == OrNull(item.airedFrom)
    ensures a.episodes == item.episodes && a.rank == item.rank && a.members == item.members
    ensures a.status == item.status && a.year == item.year
  {
    ParseNatToString(item.malId);
    Anime(
      id := NatToString(item.malId),
      malId := Some(item.malId),
      title := OrElse(item.titleEnglish, item.title),
      rating := if Falsy(item.score) then Label("N/A") else Score(item.score.value),
      genres := item.genres.GetOr([]),
      description := OrElse(item.synopsis, NoDescription),
      imageUrl := if Truthy(item.largeImageUrl) then item.largeImageUrl else item.imageUrl,
      year := item.year,
      episodes := item.episodes,
      rank := item.rank,
      status := item.status,
      members := item.members,
      broadcastTime := OrNull(item.broadcastTime),
      airedString := OrNull(item.airedString),
      airedFrom := OrNull(item.airedFrom))
  }

  /** `data.data.map(mapJikanToAnime)` */
  function MapPage(items: seq<JikanItem>): (r: seq<Anime>)
    ensures |r| == |items|
    ensures forall i :: 0 <= i < |items| ==> r[i] == MapJikanToAnime(items[i])
  {
    seq(|items|, i requires 0 <= i < |items| => MapJikanToAnime(items[i]))
  }

  /** `&genres=1,2,...` for a non-empty selection, nothing otherwise. */
  function GenreQuery(genres: seq<nat>): string
  {
    if |genres| > 0 then "&genres=" + JoinNats(genres) else ""
  }

  /** The query is empty exactly for no genres, and otherwise carries the selection in order. */
  lemma GenreQueryRoundTrip(genres: seq<nat>)
    ensures GenreQuery(genres) == "" <==> genres == []
    ensures genres != [] ==>
      StartsWith(GenreQuery(genres), "&genres=") && ParseNatList(GenreQuery(genres)[8..]) == Some(genres)
  {
    if genres != [] {
      var q := GenreQuery(genres);
      assert q[8..] == JoinNats(genres);
      ParseJoinNats(genres);
    }
  }

  /** The six list fetchers of the front page and the upcoming list. */
  datatype Category = TopRated | Popular | Trending | TopAiring | LatestCompleted | Upcoming | Movies

  /** The parameters of a genre-filtered search request, before the page. */
  function SearchParams(c: Category): string
  {
    match c
    case TopRated => "order_by=score&sort=desc"
    case Popular => "order_by=members&sort=desc"
    case Trending => "status=airing&order_by=members&sort=desc"
    case TopAiring => "status=airing&order_by=score&sort=desc"
    case LatestCompleted => "status=complete&order_by=end_date&sort=desc&min_score=6.5"
    case Upcoming => "status=upcoming&order_by=members&sort=desc"
    case Movies => "type=movie&order_by=score&sort=desc"
  }

  /** The parameters of an unfiltered ranking request, before the page. */
  function RankingParams(c: Category): string
  {
    match c
    case TopRated => ""
    case Popular => "filter=bypopularity&"
    case Trending => "filter=airing&type=tv&order_by=popularity&sort=asc&"
    case TopAiring => "filter=airing&order_by=score&sort=desc&"
    case LatestCompleted => ""
    case Upcoming => "filter=upcoming&"
    case Movies => "type=movie&"
  }

  /** The relative endpoint each list fetcher requests for a page and a genre selection: the
      completed list always searches (with a page size of 24), the others search only when a
      genre is selected and otherwise read the ranking. */
  function ListEndpoint(c: Category, page: nat, genres: seq<nat>): string
  {
    var p := NatToString(page);
    if c == LatestCompleted then
      "/anime?" + (SearchParams(c) + "&page=" + p + "&limit=24" + GenreQuery(genres))
    else if genres != [] then
      "/anime?" + (SearchParams(c) + "&page=" + p + GenreQuery(genres))
    else
      "/top/anime?" + (RankingParams(c) + "page=" + p)
  }

  /** Whether a list request goes through the filtered search path. */
  predicate UsesSearch(c: Category, genres: seq<nat>) {
    genres != [] || c == LatestCompleted
  }

  lemma StartsWithConcat(a: string, b: string)
    ensures StartsWith(a + b, a)
  {
    assert (a + b)[..|a|] == a;
  }

  lemma EndsWithConcat(a: string, b: string)
    ensures EndsWith(a + b, b)
  {
    assert (a + b)[|a + b| - |b|..] == b;
  }

  lemma NotStartsWith(s: string, prefix: string, i: nat)
    requires i < |prefix| && i < |s| && s[i] != prefix[i]
    ensures !StartsWith(s, prefix)
  {
    assert |prefix| <= |s| ==> s[..|prefix|][i] == s[i];
  }

  /** A selection of genres switches every fetcher to the search path `/anime?...` and appends the
      genre query; without one, all but the completed list use the ranking path `/top/anime?...`. */
  lemma ListEndpointRoute(c: Category, page: nat, genres: seq<nat>)
    ensures StartsWith(ListEndpoint(c, page, genres), "/anime?") <==> UsesSearch(c, genres)
    ensures StartsWith(ListEndpoint(c, page, genres), "/top/anime?") <==> !UsesSearch(c, genres)
    ensures genres != [] ==> EndsWith(ListEndpoint(c, page, genres), GenreQuery(genres))
  {
    if UsesSearch(c, genres) {
      SearchRoute(c, page, genres);
    } else {
      RankingRoute(c, page);
    }
  }

  lemma SearchRoute(c: Category, page: nat, genres: seq<nat>)
    requires UsesSearch(c, genres)
    ensures StartsWith(ListEndpoint(c, page, genres), "/anime?")
    ensures !StartsWith(ListEndpoint(c, page, genres), "/top/anime?")
    ensures EndsWith(ListEndpoint(c, page, genres), GenreQuery(genres))
  {
    var g := GenreQuery(genres);
    var front := SearchParams(c) + "&page=" + NatToString(page);
    if c == LatestCompleted {
      front := front + "&limit=24";
    }
    assert ListEndpoint(c, page, genres) == "/anime?" + (front + g);
    SearchPathFacts(front, g);
  }

  /** The shape of every search request: the search path, some parameters, the genre query last. */
  lemma SearchPathFacts(front: string, g: string)
    ensures StartsWith("/anime?" + (front + g), "/anime?")
    ensures !StartsWith("/anime?" + (front + g), "/top/anime?")
    ensures EndsWith("/anime?" + (front + g), g)
  {
    var e := "/anime?" + (front + g);
    StartsWithConcat("/anime?", front + g);
    NotStartsWith(e, "/top/anime?", 1);
    assert e == ("/anime?" + front) + g;
    EndsWithConcat("/anime?" + front, g);
  }

  lemma RankingRoute(c: Category, page: nat)
    requires c != LatestCompleted
    ensures StartsWith(ListEndpoint(c, page, []), "/top/anime?")
    ensures !StartsWith(ListEndpoint(c, page, []), "/anime?")
  {
    var e := ListEndpoint(c, page, []);
    var rest := RankingParams(c) + "page=" + NatToString(page);
    assert e == "/top/anime?" + rest;
    StartsWithConcat("/top/anime?", rest);
    NotStartsWith(e, "/anime?", 1);
  }

  /** `/schedules?filter=<day>&page=<page>` */
  function ScheduleEndpoint(day: string, page: nat): string
  {
    "/schedules?filter=" + day + "&page=" + NatToString(page)
  }

  /** The single-result search; `encodedQuery` is `encodeURIComponent(query)`. */
  function SearchEndpoint(encodedQuery: string): string
  {
    "/anime?q=" + encodedQuery + "&limit=1"
  }

  /** The twelve-per-page list search. */
  function SearchListEndpoint(encodedQuery: string, page: nat): string
  {
    "/anime?q=" + encodedQuery + "&limit=12&page=" + NatToString(page)
  }

  /** Both search endpoints carry the encoded query verbatim, so different queries ask for
      different things. */
  lemma SearchEndpointQuery(q: string, r: string, page: nat)
    ensures SearchEndpoint(q)[9..|SearchEndpoint(q)| - 8] == q
    ensures SearchEndpoint(q) == SearchEndpoint(r) <==> q == r
    ensures SearchListEndpoint(q, page)[..9 + |q|] == "/anime?q=" + q
    ensures SearchListEndpoint(q, page) == SearchListEndpoint(r, page) <==> q == r
  {
    var a, b := SearchListEndpoint(q, page), SearchListEndpoint(r, page);
    var tail := "&limit=12&page=" + NatToString(page);
    assert a == "/anime?q=" + q + tail && b == "/anime?q=" + r + tail;
    assert a[..9 + |q|] == "/anime?q=" + q;
    if a == b {
      assert |q| == |r|;
      assert q == a[9..9 + |q|] && r == b[9..9 + |r|];
    }
    if SearchEndpoint(q) == SearchEndpoint(r) {
      assert q == SearchEndpoint(q)[9..|SearchEndpoint(q)| - 8];
      assert r == SearchEndpoint(r)[9..|SearchEndpoint(r)| - 8];
    }
  }

  function RecommendationsEndpoint(id: string): string
  {
    "/anime/" + id + "/recommendations"
  }

  /** `data.data?.[0] ? mapJikanToAnime(data.data[0]) : null`; `data` is `None` when the payload has no `data` array. */
  function SearchAnime(data: Option<seq<JikanItem>>): (r: Option<Anime>)
    ensures r.Some? <==> data.Some? && |data.value| > 0
    ensures r.Some? ==> r.value == MapJikanToAnime(data.value[0])
  {
    if data.Some? && |data.value| > 0 then Some(MapJikanToAnime(data.value[0])) else None
  }

  function RecommendationToAnime(e: RecommendationEntry): (a: Anime)
    ensures a.malId == Some(e.malId) && ParseNat(a.id) == Some(e.malId)
    ensures a.title == e.title && a.rating == Label("?") && a.genres == []
    ensures a.description == RecommendedDescription
    ensures a.episodes.None? && a.status == Some("Unknown")
    ensures a.imageUrl == (if Truthy(e.largeImageUrl) then e.largeImageUrl else e.imageUrl)
  {
    ParseNatToString(e.malId);
    Anime(
      id := NatToString(e.malId),
      malId := Some(e.malId),
      title := e.title,
      rating := Label("?"),
      genres := [],
      description := RecommendedDescription,
      imageUrl := if Truthy(e.largeImageUrl) then e.largeImageUrl else e.imageUrl,
      year := None,
      episodes := None,
      rank := None,
      status := Some("Unknown"),
      members := None,
      broadcastTime := None,
      airedString := None,
      airedFrom := None)
  }

  /** The first ten recommendations, in the catalog's order. */
  function Recommendations(entries: seq<RecommendationEntry>): (r: seq<Anime>)
    ensures |r| <= MaxRecommendations
    ensures |r| == if |entries| < MaxRecommendations then |entries| else MaxRecommendations
    ensures forall i :: 0 <= i < |r| ==> r[i] == RecommendationToAnime(entries[i])
  {
    var all := seq(|entries|, i requires 0 <= i < |entries| => RecommendationToAnime(entries[i]));
    if |all| <= MaxRecommendations then all else all[..MaxRecommendations]
  }
}
