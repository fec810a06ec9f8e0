# Aniverse front-end logic in Dafny

Aniverse is a React front-end for browsing anime from the Jikan catalog. It has ranking lists,
a daily schedule, a Top 100 overlay, a mock video player with a watch history, per-anime
comments, a watchlist and mock accounts kept in `localStorage`. This project models the parts of
it that compute something:

- **The request queue** (`RequestQueue`). Requests to the catalog are rate-limited. Calls
  are queued FIFO and drained one at a time, with a 400 ms pause after each job. An HTTP 429 is
  retried once after 1500 ms, and every failure goes to the caller's own promise. The queue is a
  class holding the backlog, the `processing` flag, a logical clock, the log of requests issued
  and the list of promise settlements.
- **The catalog helpers** (`AnimeApi`): the genre query, the choice between the search endpoint
  and the ranking endpoint, the mapping of catalog records to `Anime` with its defaults, the
  single-result search, and the recommendations truncated to ten.
- **The `localStorage` stores**:
  - the watch history, most recent first, one entry per anime, at most twenty (`StreamingService`);
  - the comments table (`StreamingService`);
  - the per-user watchlist (`WatchlistContext`);
  - the mock users table and session (`AuthService`).
- **The logic embedded in components**:
  - the Top 100 page merge that skips ids already listed (`Top100Overlay`);
  - the genre toggle and the reset/append paging rule of the ranking lists (`TopLists`);
  - episode navigation (`VideoPlayerOverlay`);
  - the week-count estimate of the episode now airing (`AnimeCard`);
  - relative-time labels and the comment submit rule (`CommentsSection`);
  - the weekday mapping and the schedule sorts (`DailyReleaseSection`).

Things outside the program become inputs:

- The network is an oracle. `Transport(endpoint, k)` is the reply to the k-th request the queue
  issues. At component level, `fetch`/`load` give the mapped list a request yields, with `None`
  for a rejected promise.
- `Date.now()` is a parameter `now`.
- `new Date(s).getTime()` is a parameter `parseDate`.
- Each `localStorage` key is a `Slot`: absent, holding text that does not parse (`Garbage`), or
  holding a value.

Components are classes whose fields are their React state. Each method ends after the state
updates and effects that the handler triggers have run. Helper modules: `Wrappers` (Option,
Result), `Text` (decimal numbers, `join(',')`, `split(',')`), `Storage` (slots) and `Types` (the
`Anime` record and JavaScript truthiness of optional strings).

A response body that does not parse makes `.json()` throw, and the caller is rejected with that
error (`Thrown`) like any other thrown error; there is no separate error kind
(`RequestQueue.FetchError`).

## Model

| member | source | states |
|---|---|---|
| RequestQueue.Settle | services/animeApi.ts:24-44 | A job resolves exactly when the reply is ok with a parsed body, or when a 429 is followed by such a retry. It is rejected with 'API Rate Limit' exactly when the retry after a 429 is not ok. It is rejected with `API Error: <status>` (that status) exactly when the first reply is not ok and not 429. It is rejected with a thrown error exactly when fetch or `.json()` throws, and that error is the one the failing fetch or parse raised. |
| RequestQueue.StepFacts | services/animeApi.ts:11-17 | One turn of the drain issues one request, or two after a 429. It settles exactly its own job's ticket after the earlier settlements. It keeps the log, advances the clock by at least 400 ms and keeps requests spaced. |
| RequestQueue.DrainSettlesInOrder | services/animeApi.ts:11-17 | Draining a backlog settles its tickets in backlog order, each once, after the earlier settlements, which it leaves unchanged (FIFO: push at the back, shift from the front). |
| RequestQueue.DrainKeepsSpacing | services/animeApi.ts:11-17 | Consecutive requests are at least 400 ms apart. The log only grows, by one or two requests per job, and at least 400 ms pass per job whatever its outcome. |
| RequestQueue.DrainKeepsSpacingLength | services/animeApi.ts:11-17 | Every job of the backlog adds exactly one settlement, and the log keeps its old requests as a prefix. |
| RequestQueue.DrainOutcomeOwnReplies | services/animeApi.ts:40-44 | The i-th job is settled from the replies to its own request and retry alone, and that request is the first logged after those of the i jobs ahead of it, whatever their endpoints. A failing job neither stops the drain nor affects the outcome of another job. |
| RequestQueue.DrainHeadOutcome | services/animeApi.ts:11-17 | The first job of the backlog makes the first new request and is settled from the replies to it. |
| RequestQueue.StepKeepsValid | services/animeApi.ts:11-17 | One turn keeps "settled tickets followed by waiting tickets are 0..n-1" and the spacing, and leaves the rest of the drain to do. |
| RequestQueue.StepKeepsTickets | services/animeApi.ts:11-17 | One turn moves the oldest waiting ticket to the end of the settled tickets and keeps the 400 ms spacing of the requests. |
| RequestQueue.Queue.constructor | services/animeApi.ts:5-6 | The queue starts empty and idle, with nothing issued or settled. |
| RequestQueue.Queue.Submit | services/animeApi.ts:23 | `queue.push` appends the job at the back with the next ticket and changes nothing else. |
| RequestQueue.Queue.RunJob | services/animeApi.ts:24-44 | The job body issues the request, waits 1500 ms and retries once after a 429, and records its settlement. The new state is `Execute` of the old one. |
| RequestQueue.Queue.ProcessQueue | services/animeApi.ts:8-19 | While a drain is running it returns with nothing changed. Otherwise it drains the whole backlog oldest first, with the new history equal to `Drain` of the old one, and clears the flag only once the backlog is empty. |
| RequestQueue.Queue.FetchJikan | services/animeApi.ts:21-48 | Queues the job and calls `processQueue`. An idle queue drains everything, and the caller's ticket is the last one settled, so a later call starts a new drain. A busy queue only gains the job. |
| AnimeApi.MapJikanToAnime | services/animeApi.ts:50-66 | The defaults of the mapped record: the id is `mal_id` in decimal and reads back as it; English title else title; 'N/A' exactly for a falsy score; no genres gives []; no synopsis gives 'No description available.'; large image else small; an empty or missing broadcast time, aired string or start date becomes null and any other is copied. |
| AnimeApi.MapPage | services/animeApi.ts:109 | `data.data.map(mapJikanToAnime)` keeps the length and maps each record in place. |
| AnimeApi.GenreQueryRoundTrip | services/animeApi.ts:99 | The query is empty exactly when no genre is selected. Otherwise it starts with `&genres=`, and the rest splits on ',' back into the selection, in order. |
| AnimeApi.ListEndpointRoute | services/animeApi.ts:102-166 | A list fetcher uses the search path `/anime?` exactly when genres are selected or it is the completed list, and `/top/anime?` otherwise. With genres the endpoint ends with the genre query. |
| AnimeApi.SearchRoute | services/animeApi.ts:102-166 | A filtered request starts with `/anime?`, not with `/top/anime?`, and ends with the genre query. |
| AnimeApi.RankingRoute | services/animeApi.ts:102-166 | An unfiltered request of any fetcher but the completed list starts with `/top/anime?` and not with `/anime?`. |
| AnimeApi.SearchEndpointQuery | services/animeApi.ts:175-184 | Both search endpoints carry the encoded query verbatim and recoverably, so equal endpoints mean equal queries. |
| AnimeApi.SearchAnime | services/animeApi.ts:177 | The result is present exactly when the payload has a non-empty `data` array, and it is then the mapping of the first record. |
| AnimeApi.RecommendationToAnime | services/animeApi.ts:190-199 | A recommendation becomes an anime with the entry's id (decimal, reads back), its title, rating '?', no genres, the fixed description, the large image else the small one, no episode count and status 'Unknown'. |
| AnimeApi.Recommendations | services/animeApi.ts:187-201 | At most ten results: the first min(10, n) entries, mapped in order. |
| Text.ParseNatToString | services/animeApi.ts:51 | `toString` of a natural number reads back as the same number. |
| Text.ParseJoinNats | services/animeApi.ts:99 | `join(',')` of a non-empty list of numbers splits and parses back into the list. |
| StreamingService.HistoryKeySeparates | services/streamingService.ts:40 | Distinct signed-in users get distinct history keys. The only user id that shares the guests' key is "guest". |
| StreamingService.WithoutAnime | services/streamingService.ts:51 | The filter keeps no entry for the anime and never grows the history. |
| StreamingService.WithoutAnimeMembers | services/streamingService.ts:51 | Exactly the entries for other anime survive the filter. |
| StreamingService.WithoutAnimeDistributes | services/streamingService.ts:51 | The filter distributes over concatenation, so the entries kept stay in their order. |
| StreamingService.BumpHistoryFacts | services/streamingService.ts:51-62 | After a save the history has 1 to 20 entries. The first is the new one, no later entry names that anime, and the rest are the older entries for other anime in their order, cut to fit. |
| StreamingService.WithoutAnimeKeepsDistinct | services/streamingService.ts:51 | Filtering keeps a history with one entry per anime that way. |
| StreamingService.BumpHistoryKeepsDistinct | services/streamingService.ts:51-62 | A save keeps a history with one entry per anime that way. |
| StreamingService.MockComments | services/streamingService.ts:116-137 | There are two sample comments. |
| StreamingService.Episodes | services/streamingService.ts:151-155 | There are 24 episodes, and episode i+1 has number i+1 and id `episode-<i+1>`. |
| StreamingService.EpisodeIdsDistinct | services/streamingService.ts:151-155 | No two mock episodes share an id. |
| StreamingService.Store.WatchHistory | services/streamingService.ts:71-79 | The stored history, or [] when the key is missing or does not parse. |
| StreamingService.Store.SaveWatchProgress | services/streamingService.ts:44-68 | A history that does not parse stays as it was (the catch). Otherwise the key holds the bumped history, headed by this anime with this episode number, with no second entry for it and at most 20 entries. |
| StreamingService.Store.Comments | services/streamingService.ts:81-90 | The anime's stored comments when it has some. The two samples when it has none or the table does not parse. |
| StreamingService.Store.SaveComment | services/streamingService.ts:92-114 | A table that does not parse gives null and stays unchanged. Otherwise a comment with likes 0, id and timestamp from now, and the user's fields (the guest's where missing) is put in front of that anime's list. |
| StreamingService.SaveCommentEffect | services/streamingService.ts:107 | After a save the anime's list is the new comment followed by the old list, and every other anime's list is unchanged. |
| AuthService.Public | services/authService.ts:27 | The session record copies id, email, name and avatar, and has no password field. |
| AuthService.FirstMatch | services/authService.ts:21 | `find` succeeds exactly when some row matches both email and password, and it gives the first such row. |
| AuthService.FirstMatchIsFirst | services/authService.ts:21 | A matching row with no match before it is the one `find` returns. |
| AuthService.AppendKeepsUniqueEmails | services/authService.ts:37-50 | Appending an account whose email is not taken keeps emails unique. |
| AuthService.LoginFindsTheAccount | services/authService.ts:21 | With unique emails, login with a registered email succeeds exactly when the password is that account's, and finds that account. |
| AuthService.Store.LoginUser | services/authService.ts:15-30 | Success exactly when a row matches. The session then holds that user without the password. A failure is 'Invalid email or password', with the session unchanged. A users table that does not parse throws. |
| AuthService.Store.RegisterUser | services/authService.ts:32-55 | A taken email fails with 'User already exists' and leaves table and session unchanged. Otherwise exactly one account is appended (id from now, avatar from the name) and the session holds it without the password. |
| AuthService.Store.LogoutUser | services/authService.ts:57-59 | The session is removed, and `getSession` then gives null. |
| AuthService.Store.Session | services/authService.ts:61-68 | The stored user, or null when it is missing or does not parse. |
| WatchlistContext.StorageKey | context/WatchlistContext.tsx:22 | The key is `aniverse_watchlist_<id>` for a signed-in user, else `aniverse_watchlist_guest`. |
| WatchlistContext.StorageKeySeparatesUsers | context/WatchlistContext.tsx:22 | Distinct users have distinct watchlist keys. |
| WatchlistContext.IsIn | context/WatchlistContext.tsx:55-57 | Holds exactly when some entry has the id. |
| WatchlistContext.AddFacts | context/WatchlistContext.tsx:44-49 | Adding is idempotent. A listed id leaves the list unchanged. An unlisted anime goes in front, adding one entry. Afterwards exactly the old ids and the new one are in the list. |
| WatchlistContext.RemoveAbsent | context/WatchlistContext.tsx:52 | Removing an id that is not listed changes nothing. |
| WatchlistContext.RemoveMembers | context/WatchlistContext.tsx:52 | Exactly the entries with another id survive. |
| WatchlistContext.RemoveDistributes | context/WatchlistContext.tsx:52 | The filter distributes over concatenation, so the kept entries keep their order. |
| WatchlistContext.RemoveFacts | context/WatchlistContext.tsx:52 | After a remove the id is not listed, every other id is listed exactly when it was before, and an absent id changes nothing. |
| WatchlistContext.AddKeepsDistinct | context/WatchlistContext.tsx:44-49 | Adding keeps ids unique. |
| WatchlistContext.RemoveKeepsDistinct | context/WatchlistContext.tsx:51-53 | Removing keeps ids unique. |
| WatchlistContext.EditsKeepDistinct | context/WatchlistContext.tsx:44-53 | Any sequence of adds and removes keeps a duplicate-free watchlist duplicate-free. |
| WatchlistContext.Provider.constructor | context/WatchlistContext.tsx:25-42 | On mount the list stored under the user's key is loaded ([] when missing or unparsable) and written back. |
| WatchlistContext.Provider.SwitchUser | context/WatchlistContext.tsx:25-42 | A new key reloads the list stored under it, and the list is then saved under the new key. The same key keeps the list. |
| WatchlistContext.Provider.AddToWatchlist | context/WatchlistContext.tsx:44-49 | The list becomes `Add` of the old one and is saved under the current key. |
| WatchlistContext.Provider.RemoveFromWatchlist | context/WatchlistContext.tsx:51-53 | The list becomes `Remove` of the old one and is saved under the current key. |
| WatchlistContext.Provider.IsInWatchlist | context/WatchlistContext.tsx:55-57 | Holds exactly when some entry of the current list has the id. |
| Top100Overlay.NotListedMembers | components/Top100Overlay.tsx:38 | A later page contributes exactly its anime whose id is not yet listed. |
| Top100Overlay.NotListedDistributes | components/Top100Overlay.tsx:38 | The filter distributes over concatenation, so the anime a page adds keep their page order. |
| Top100Overlay.MergePageFacts | components/Top100Overlay.tsx:38-42 | A merge keeps the old list as a prefix. What follows it is the page filtered to the anime with an unlisted id, in page order: exactly those anime. |
| Top100Overlay.MergeKeepsDistinct | components/Top100Overlay.tsx:38-42 | Merging a duplicate-free page into a duplicate-free list adds no id twice. |
| Top100Overlay.NotListedKeepsDistinct | components/Top100Overlay.tsx:38 | Filtering a duplicate-free page keeps it duplicate-free. |
| Top100Overlay.RepeatWithinPageSurvives | components/Top100Overlay.tsx:38 | The filter looks only at the previous list, so an id repeated within one page stays repeated. |
| Top100Overlay.Merged | components/Top100Overlay.tsx:35-42 | The update after any page keeps the old list as a prefix. |
| Top100Overlay.LoadFromGrows | components/Top100Overlay.tsx:31-49 | The whole load never removes or reorders listed anime: the starting list is a prefix of the list it ends with (`ListFrom`, the first half of `LoadFrom`). |
| Top100Overlay.LoadFromAsks | components/Top100Overlay.tsx:34-45 | The pages requested (`Asked`, the second half of `LoadFrom`) are consecutive from the first, at most up to page 4. Every page but the last one requested was answered, so the first failure ends the load. |
| Top100Overlay.LoadFromDistinct | components/Top100Overlay.tsx:35-42 | Started empty, with pages that each repeat no id, the list the load ends with repeats no id. |
| Top100Overlay.DisplayRank | components/Top100Overlay.tsx:97 | The shown rank is the anime's rank when it is truthy, else index + 1, and it is at least 1 for a non-negative rank. |
| Top100Overlay.Overlay.constructor | components/Top100Overlay.tsx:15-16 | The overlay starts with an empty list, loading. |
| Top100Overlay.Overlay.OnOpenChange | components/Top100Overlay.tsx:19-22 | An open overlay with an empty list loads the Top 100. Otherwise nothing changes. |
| Top100Overlay.Overlay.FetchTop100 | components/Top100Overlay.tsx:31-49 | The four awaits and list updates produce `LoadFrom` of the old list, request the pages that `LoadFrom` requests, and end not loading. |
| Top100Overlay.Overlay.FetchPage | components/Top100Overlay.tsx:37-38 | One page is requested. On an answer, page 1 is appended and a later page merged. On a failure the list is unchanged. |
| TopLists.WithoutMembers | components/TopLists.tsx:36 | Dropping a genre keeps exactly the other selected genres. |
| TopLists.WithoutDistributes | components/TopLists.tsx:36 | The filter distributes over concatenation, so the other genres keep their order. |
| TopLists.WithoutAbsent | components/TopLists.tsx:36 | Dropping a genre that is not selected changes nothing. |
| TopLists.ToggleGenreFacts | components/TopLists.tsx:34-40 | An unselected genre is appended at the end. A selected one is removed, every copy of it. No other genre changes. |
| TopLists.ToggleGenreTwice | components/TopLists.tsx:34-40 | Toggling an unselected genre twice restores the selection. |
| TopLists.ToggleSelectedTwiceMoves | components/TopLists.tsx:34-40 | Toggling a selected genre twice moves it to the end: the other selected genres in their order, then the genre. |
| TopLists.Fetcher | components/TopLists.tsx:130-149 | No tab uses the upcoming fetcher, and Most Favorite uses the top-rated one. |
| TopLists.FetcherInjective | components/TopLists.tsx:130-149 | Each tab maps to its own fetcher. |
| TopLists.TabEndpointRoute | components/TopLists.tsx:130-149 | With no genre selected only the Completed tab uses the search path. With a selection every tab does. |
| TopLists.View.constructor | components/TopLists.tsx:106-111 | The initial state: the Trending tab, no genres, an empty list, page 1, loading. |
| TopLists.View.Reset | components/TopLists.tsx:115-122 | A tab or genre change goes back to page 1, requests page 1, and replaces the list with what it yields (empty on a failure). |
| TopLists.View.SelectTab | components/TopLists.tsx:211 | Picking another tab resets to page 1 of that tab: one request for its page 1, whose result (or [] on failure) is the list. Clicking the active tab changes nothing. |
| TopLists.View.ToggleGenreAndReset | components/TopLists.tsx:195 | A genre click toggles it and resets to page 1 of the new selection; both loading flags end false. |
| TopLists.View.ClearAll | components/TopLists.tsx:71 | Clear All empties the selection and resets to page 1; both loading flags end false. |
| TopLists.View.LoadMore | components/TopLists.tsx:160-164 | Requests page + 1 and appends what it yields after the existing list, which stays a prefix; both loading flags end false. |
| TopLists.View.FetchData | components/TopLists.tsx:124-158 | A reset replaces the list and a later page extends it. A failure keeps the list. Both loading flags end false. |
| VideoPlayerOverlay.FindFrom | components/VideoPlayerOverlay.tsx:71 | The first index at or after `from` with the id, or -1 when there is none. |
| VideoPlayerOverlay.CurrentIndex | components/VideoPlayerOverlay.tsx:71 | The first index whose id equals the current episode's. It is -1 exactly when there is no current episode or none matches. |
| VideoPlayerOverlay.NavigationBounds | components/VideoPlayerOverlay.tsx:72-73 | Next is offered exactly when 0 <= index < length - 1, and previous exactly when index >= 1. Neither is offered without a current episode. |
| VideoPlayerOverlay.IndexOfListed | components/VideoPlayerOverlay.tsx:71 | With distinct ids, the index of the k-th episode is k. |
| VideoPlayerOverlay.MockEpisodesStep | components/VideoPlayerOverlay.tsx:71-73 | In the 24 mock episodes, next is offered except at the last and previous except at the first. |
| VideoPlayerOverlay.Player.constructor | components/VideoPlayerOverlay.tsx:18-21 | The player starts loading, with no episodes, no episode and no URL. |
| VideoPlayerOverlay.Player.InitPlayer | components/VideoPlayerOverlay.tsx:32-54 | With an anime, the state is cleared. The episodes found are shown; when the list is non-empty the first is loaded and the histories become exactly what saving its progress gives, comments untouched; otherwise the store is unchanged. Without an anime nothing happens. |
| VideoPlayerOverlay.Player.LoadEpisode | components/VideoPlayerOverlay.tsx:56-68 | The episode becomes current, with no URL and not loading. With an anime, the histories become exactly what saving its progress gives (the history headed by it with that episode's number, unless the stored history does not parse) and the comments are untouched; without one the store is unchanged. |
| VideoPlayerOverlay.Player.PlayNext | components/VideoPlayerOverlay.tsx:75-79 | When next is offered, the episode at index + 1 is loaded: it becomes current, with no URL and not loading, and its progress is saved as by LoadEpisode. Otherwise nothing changes. |
| VideoPlayerOverlay.Player.PlayPrev | components/VideoPlayerOverlay.tsx:81-85 | When previous is offered, the episode at index - 1 is loaded: it becomes current, with no URL and not loading, and its progress is saved as by LoadEpisode. Otherwise nothing changes. |
| AnimeCard.EstimatedEpisode | components/AnimeCard.tsx:63-81 | An estimate exists exactly when the start date is present and valid and the status is 'Currently Airing', and it is then the week count from that start date (`EpisodeAt`), whose values the EpisodeAt lemmas give. |
| AnimeCard.EpisodeAtWeeks | components/AnimeCard.tsx:72-80 | Throughout the k-th week after the start the estimate is k + 1, or the truthy episode count when that is lower. |
| AnimeCard.DivInRange | components/AnimeCard.tsx:76 | The floor of the elapsed time over a week is k within the k-th week. |
| AnimeCard.EpisodeAtBounds | components/AnimeCard.tsx:72-80 | A future start gives 1. The estimate is at least 1 and never above a positive cap. |
| AnimeCard.EpisodeAtMonotonic | components/AnimeCard.tsx:72-80 | For a fixed start the estimate never decreases as time passes. |
| AnimeCard.DivMonotonic | components/AnimeCard.tsx:76 | Whole weeks elapsed never decrease. |
| AnimeCard.ToggledFlips | components/AnimeCard.tsx:22-26 | The toggle flips this anime's bookmark and no other one. |
| AnimeCard.ToggledTwice | components/AnimeCard.tsx:22-26 | Bookmarking an unbookmarked anime and then toggling again restores the list. |
| AnimeCard.ToggleWatchlist | components/AnimeCard.tsx:19-27 | The click removes a bookmarked anime and adds any other, through the provider, which saves the result. |
| CommentsSection.FormatTimeBuckets | components/CommentsSection.tsx:30-38 | The labels cover elapsed time without overlap: 'Just now' under a minute (a future time included), `<floor(ms/60000)>m ago` under an hour, `<floor(ms/3600000)>h ago` under a day, and the date beyond. |
| CommentsSection.RenderInjective | components/CommentsSection.tsx:32-36 | Different relative labels read differently. |
| CommentsSection.AgoIsNotJustNow | components/CommentsSection.tsx:32-36 | A minutes or hours label never reads 'Just now'. |
| CommentsSection.Section.constructor | components/CommentsSection.tsx:15-17 | On mount the panel shows the anime's comments (or the samples) with an empty input. |
| CommentsSection.Section.Type | components/CommentsSection.tsx:58 | Typing sets the input text. |
| CommentsSection.Section.HandleSubmit | components/CommentsSection.tsx:19-28 | A blank draft does nothing. Otherwise the comment is saved as the guest's, with the guest avatar and the time as id. On success it is shown first, the input is cleared, and the stored table is the old one with the comment put in front of this anime's list. On a failed save nothing changes. |
| DailyReleaseSection.MapWeekday | components/DailyReleaseSection.tsx:29 | The mapped index is in 0..6 and names the same weekday as `getDay`. |
| DailyReleaseSection.TabWeekday | components/DailyReleaseSection.tsx:9 | The `getDay` value of the weekday each tab names. |
| DailyReleaseSection.MapWeekdayRoundTrip | components/DailyReleaseSection.tsx:24-30 | The mapping is a bijection between `getDay` values and tabs. |
| DailyReleaseSection.OnActiveDay | components/DailyReleaseSection.tsx:34-53 | No request while the day is empty. Otherwise page 1 of that day's schedule is requested, and the answer replaces the list. A failure keeps the list. |
| DailyReleaseSection.StrCompare | components/DailyReleaseSection.tsx:68 | The string comparison gives -1, 0 or 1. |
| DailyReleaseSection.StrCompareAntisymmetric | components/DailyReleaseSection.tsx:68 | Swapping the strings flips the sign, and 0 means equal. |
| DailyReleaseSection.StrCompareTransitive | components/DailyReleaseSection.tsx:68 | The string order is transitive. |
| DailyReleaseSection.TimeCompareAsWrittenInconsistent | components/DailyReleaseSection.tsx:66-68 | Two entries without a time each compare after the other, and such an entry compares after itself. |
| DailyReleaseSection.TimeCompare | components/DailyReleaseSection.tsx:63-68 | An entry with a time precedes one without. Two entries without a time tie. |
| DailyReleaseSection.TimeCompareConsistent | components/DailyReleaseSection.tsx:63-68 | The corrected comparator is antisymmetric and 0 on equal arguments. It agrees with the code whenever at least one entry has a time. |
| DailyReleaseSection.PrecedesTotal | components/DailyReleaseSection.tsx:56-71 | Both orders are total. |
| DailyReleaseSection.PrecedesTransitive | components/DailyReleaseSection.tsx:56-71 | Both orders are transitive. |
| DailyReleaseSection.InsertPermutes | components/DailyReleaseSection.tsx:56 | Inserting adds exactly the one entry. |
| DailyReleaseSection.ConsSorted | components/DailyReleaseSection.tsx:56 | An entry that may precede every entry of a sorted list may head it. |
| DailyReleaseSection.InsertSorted | components/DailyReleaseSection.tsx:56 | Inserting into a sorted list keeps it sorted. |
| DailyReleaseSection.SortSorted | components/DailyReleaseSection.tsx:56-71 | The sorted copy is ordered by the key and is a permutation of the fetched list. |
| DailyReleaseSection.PopularitySort | components/DailyReleaseSection.tsx:58 | By popularity: a permutation whose members (missing as 0) never increase. |
| DailyReleaseSection.TimeSort | components/DailyReleaseSection.tsx:63-68 | By time: a permutation with every timed entry before every untimed one, and the times in string order. |

## Left out

- Real HTTP, `setTimeout` and Promise scheduling. The network is an oracle and the waits of 400 ms and 1500 ms advance a logical clock. A component handler is modelled as running to completion, so stale responses arriving out of order are not modelled.
- `localStorage` and JSON mechanics. A key is absent, unparsable or holding a value. A value of the wrong shape counts as unparsable, and an empty stored string counts as absent.
- `Date.now()` is a parameter. `new Date(s).getTime()` is the parameter `parseDate`, so ISO date parsing is not modelled.
- `formatBroadcastTime` (components/AnimeCard.tsx:37-60), `getCurrentJSTDay` (services/animeApi.ts:69-76) and `toLocaleDateString` depend on the timezone and locale. They are not modelled; the date label is `LocaleDate(timestamp)`.
- The score sort of the schedule (components/DailyReleaseSection.tsx:59-62) uses floating-point `parseFloat` and is not modelled.
- `encodeURIComponent` is not modelled: the encoded query or name is an input.
- The artificial 800 ms delay of the account functions, and the 500 ms delays of the mock streaming functions.
- `searchRemoteAnime` and `getStreamUrl` are not modelled as functions. The player takes the episode list found directly, and the stream URL is always null, as the mock returns.
- `genreOptions` (services/animeApi.ts:78-96), the genre list shown in the dropdown, is not modelled.
- JSX, styling, scrolling and animation, and the components without logic of their own: App, Hero, the overlays for the watchlist and auth, the upcoming, recommended, recently-watched and 3D background sections, the auth context, and the AI service mock.
- Console logging.
- DailyReleaseSection.StrCompare: `localeCompare` is modelled as code-unit order; locale collation is not modelled.
- DailyReleaseSection.SortSorted: `Array.prototype.sort` is modelled as a stable insertion sort. With the comparator as written the engine's order is not determined, so the corrected comparator is used. Stability is not stated as a property.
- VideoPlayerOverlay.Player.InitPlayer: the effect re-runs when the provider changes; only one run is modelled.
- StreamingService.Store.SaveComment: the source reads `Date.now()` twice, once for the id and once for the timestamp; the model takes both reads as the one instant `now`, so the id it promises is the decimal timestamp, which the two reads need not give.
- StreamingService.MockComments: the contract states only the count. The fields are the two literal samples in the body.
- RequestQueue.Queue.FetchJikan: the promise a busy queue returns is settled by the drain already running, which this call does not model.

## Findings

| source | as written | input that shows it | evidently intended | confidence | as-written member | corrected member |
|---|---|---|---|---|---|---|
| components/DailyReleaseSection.tsx:66-68 | The time comparator returns 1 whenever the first entry has no broadcast time, even when the second has none either or is the same entry | Two schedule entries a, b without `broadcastTime`: compare(a, b) = 1 and compare(b, a) = 1, and compare(a, a) = 1, so the comparator is not consistent and the order `sort` produces is implementation-defined | Untimed entries tie among themselves and go after every timed entry | not executed | DailyReleaseSection.TimeCompareAsWrittenInconsistent | DailyReleaseSection.TimeCompareConsistent |
