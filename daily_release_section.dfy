/** The weekly schedule strip of components/DailyReleaseSection.tsx: today's weekday, the schedule
    request and the ordering of the day's list. */
module DailyReleaseSection {
  import opened Wrappers
  import opened Types
  import opened AnimeApi

  /** The strip's tabs, Monday first. */
  const Days: seq<string> := ["monday", "tuesday", "wednesday", "thursday", "friday", "saturday", "sunday"]

  /** The weekday `Date.prototype.getDay` stands for: 0 is Sunday. */
  const GetDayNames: seq<string> := ["sunday", "monday", "tuesday", "wednesday", "thursday", "friday", "saturday"]

  /** `todayIndex === 0 ? 6 : todayIndex - 1` */
  function MapWeekday(todayIndex: nat): (i: nat)
    requires todayIndex < 7
    ensures i < |Days|
    ensures Days[i] == GetDayNames[todayIndex]
  {
    if todayIndex == 0 then 6 else todayIndex - 1
  }

  /** The `getDay` value of the weekday a tab stands for. */
  function TabWeekday(i: nat): (d: nat)
    requires i < 7
    ensures d < 7 && GetDayNames[d] == Days[i]
  {
    if i == 6 then 0 else i + 1
  }

  /** The mapping is a bijection between `getDay` values and tabs: TabWeekday undoes it both ways. */
  lemma MapWeekdayRoundTrip(d: nat, i: nat)
    requires d < 7 && i < 7
    ensures TabWeekday(MapWeekday(d)) == d
    ensures MapWeekday(TabWeekday(i)) == i
  {
  }

  /** The fetch effect on `activeDay`: no request while it is empty, otherwise page 1 of that day's
      schedule, which replaces the list when it arrives (`load` answers a request). */
  function OnActiveDay(activeDay: string, shown: seq<Anime>, load: string -> Option<seq<Anime>>)
    : (r: (Option<string>, seq<Anime>))
    ensures r.0.None? <==> activeDay == ""
    ensures r.0.None? ==> r.1 == shown
    ensures r.0.Some? ==> r.0.value == ScheduleEndpoint(activeDay, 1) && r.1 == load(r.0.value).GetOr(shown)
  {
    if activeDay == "" then (None, shown)
    else
      var endpoint := ScheduleEndpoint(activeDay, 1);
      (Some(endpoint), load(endpoint).GetOr(shown))
  }

  /** `a.members || 0` */
  function Members(a: Anime): int {
    a.members.GetOr(0)
  }

  /** The popularity comparator: negative when a goes first. */
  function PopularityCompare(a: Anime, b: Anime): int {
    Members(b) - Members(a)
  }

  /** `String.prototype.localeCompare`, modelled as code-unit order: negative, zero or positive. */
  function StrCompare(x: string, y: string): (c: int)
    ensures -1 <= c <= 1
  {
    if x == [] && y == [] then 0
    else if x == [] then -1
    else if y == [] then 1
    else if x[0] < y[0] then -1
    else if x[0] > y[0] then 1
    else StrCompare(x[1..], y[1..])
  }

  lemma {:induction false} StrCompareAntisymmetric(x: string, y: string)
    ensures StrCompare(x, y) == -StrCompare(y, x)
    ensures StrCompare(x, y) == 0 <==> x == y
  {
    if x != [] && y != [] && x[0] == y[0] {
      StrCompareAntisymmetric(x[1..], y[1..]);
      assert x == [x[0]] + x[1..] && y == [y[0]] + y[1..];
    }
  }

  lemma {:induction false} StrCompareTransitive(x: string, y: string, z: string)
    requires StrCompare(x, y) <= 0 && StrCompare(y, z) <= 0
    ensures StrCompare(x, z) <= 0
  {
    if x != [] && y != [] && z != [] && x[0] == y[0] && y[0] == z[0] {
      StrCompareTransitive(x[1..], y[1..], z[1..]);
    }
  }

  /** The time comparator as the code writes it: an entry without a time always compares after,
      even against another entry without one. */
  function TimeCompareAsWritten(a: Anime, b: Anime): int {
    if !Truthy(a.broadcastTime) then 1
    else if !Truthy(b.broadcastTime) then -1
    else StrCompare(a.broadcastTime.value, b.broadcastTime.value)
  }

  /** Two entries without a time each compare after the other, and one compares after itself: the
      comparator is not consistent, so the order `sort` produces is not determined by it. */
  lemma TimeCompareAsWrittenInconsistent(a: Anime, b: Anime)
    requires !Truthy(a.broadcastTime) && !Truthy(b.broadcastTime)
    ensures TimeCompareAsWritten(a, b) > 0 && TimeCompareAsWritten(b, a) > 0
    ensures TimeCompareAsWritten(a, a) > 0
  {
  }

  /** The time comparator the sort needs: entries without a time tie among themselves and follow
      every entry with one; two times compare as strings. */
  function TimeCompare(a: Anime, b: Anime): (c: int)
    ensures Truthy(a.broadcastTime) && !Truthy(b.broadcastTime) ==> c < 0
    ensures !Truthy(a.broadcastTime) && Truthy(b.broadcastTime) ==> c > 0
    ensures !Truthy(a.broadcastTime) && !Truthy(b.broadcastTime) ==> c == 0
  {
    var ta, tb := Truthy(a.broadcastTime), Truthy(b.broadcastTime);
    if !ta && !tb then 0
    else if !ta then 1
    else if !tb then -1
    else StrCompare(a.broadcastTime.value, b.broadcastTime.value)
  }

  /** The corrected comparator is consistent: swapping the arguments flips the sign, and it agrees
      with the code wherever at most one entry lacks a time. */
  lemma TimeCompareConsistent(a: Anime, b: Anime)
    ensures TimeCompare(a, b) == -TimeCompare(b, a)
    ensures TimeCompare(a, a) == 0
    ensures Truthy(a.broadcastTime) || Truthy(b.broadcastTime) ==> TimeCompare(a, b) == TimeCompareAsWritten(a, b)
  {
    if Truthy(a.broadcastTime) && Truthy(b.broadcastTime) {
      StrCompareAntisymmetric(a.broadcastTime.value, b.broadcastTime.value);
    }
    if Truthy(a.broadcastTime) {
      StrCompareAntisymmetric(a.broadcastTime.value, a.broadcastTime.value);
    }
  }

  datatype SortKey = ByPopularity | ByTime

  /** May `a` come before `b` in the sorted list? */
  predicate Precedes(key: SortKey, a: Anime, b: Anime) {
    match key
    case ByPopularity => PopularityCompare(a, b) <= 0
    case ByTime => TimeCompare(a, b) <= 0
  }

  lemma PrecedesTotal(key: SortKey, a: Anime, b: Anime)
    ensures Precedes(key, a, b) || Precedes(key, b, a)
  {
    TimeCompareConsistent(a, b);
  }

  lemma PrecedesTransitive(key: SortKey, a: Anime, b: Anime, c: Anime)
    requires Precedes(key, a, b) && Precedes(key, b, c)
    ensures Precedes(key, a, c)
  {
    if key == ByTime && Truthy(a.broadcastTime) && Truthy(b.broadcastTime) && Truthy(c.broadcastTime) {
      StrCompareTransitive(a.broadcastTime.value, b.broadcastTime.value, c.broadcastTime.value);
    }
  }

  predicate SortedBy(key: SortKey, s: seq<Anime>) {
    forall i, j :: 0 <= i < j < |s| ==> Precedes(key, s[i], s[j])
  }

  /** Puts `x` after every entry it does not have to precede, keeping equal entries in arrival order. */
  function Insert(key: SortKey, x: Anime, s: seq<Anime>): seq<Anime>
  {
    if s == [] then [x]
    else if Precedes(key, s[0], x) then [s[0]] + Insert(key, x, s[1..])
    else [x] + s
  }

  /** `[...animeList].sort(...)`: a stable sort of a copy. */
  function Sort(key: SortKey, s: seq<Anime>): seq<Anime>
  {
    if s == [] then [] else Insert(key, s[|s| - 1], Sort(key, s[..|s| - 1]))
  }

  lemma {:induction false} InsertPermutes(key: SortKey, x: Anime, s: seq<Anime>)
    ensures multiset(Insert(key, x, s)) == multiset(s) + multiset{x}
  {
    if s != [] {
      assert s == [s[0]] + s[1..];
      if Precedes(key, s[0], x) {
        InsertPermutes(key, x, s[1..]);
      }
    }
  }

  /** An entry that may precede everything in a sorted list may head it. */
  lemma ConsSorted(key: SortKey, a: Anime, t: seq<Anime>)
    requires SortedBy(key, t)
    requires forall j :: 0 <= j < |t| ==> Precedes(key, a, t[j])
    ensures SortedBy(key, [a] + t)
  {
    var r := [a] + t;
    forall i, j | 0 <= i < j < |r| ensures Precedes(key, r[i], r[j]) {
      assert r[j] == t[j - 1];
      if i > 0 {
        assert r[i] == t[i - 1];
      }
    }
  }

  lemma {:induction false} InsertSorted(key: SortKey, x: Anime, s: seq<Anime>)
    requires SortedBy(key, s)
    ensures SortedBy(key, Insert(key, x, s))
  {
    if s == [] {
    } else if Precedes(key, s[0], x) {
      var tail := Insert(key, x, s[1..]);
      InsertSorted(key, x, s[1..]);
      InsertPermutes(key, x, s[1..]);
      forall j | 0 <= j < |tail| ensures Precedes(key, s[0], tail[j]) {
        assert tail[j] in multiset(tail);
        if tail[j] != x {
          assert tail[j] in multiset(s[1..]);
          var k :| 0 <= k < |s[1..]| && s[1..][k] == tail[j];
          assert s[k + 1] == tail[j];
        }
      }
      ConsSorted(key, s[0], tail);
    } else {
      PrecedesTotal(key, s[0], x);
      forall j | 0 <= j < |s| ensures Precedes(key, x, s[j]) {
        if j > 0 {
          PrecedesTransitive(key, x, s[0], s[j]);
        }
      }
      ConsSorted(key, x, s);
    }
  }

  /** The shown list is ordered by the key and holds exactly the fetched entries. */
  lemma {:induction false} SortSorted(key: SortKey, s: seq<Anime>)
    ensures SortedBy(key, Sort(key, s))
    ensures multiset(Sort(key, s)) == multiset(s)
  {
    if s != [] {
      var init := s[..|s| - 1];
      SortSorted(key, init);
      InsertSorted(key, s[|s| - 1], Sort(key, init));
      InsertPermutes(key, s[|s| - 1], Sort(key, init));
      assert s == init + [s[|s| - 1]];
    }
  }

  /** By popularity: members (missing counts as 0) never increase along the shown list. */
  lemma PopularitySort(s: seq<Anime>)
    ensures var r := Sort(ByPopularity, s);
      && multiset(r) == multiset(s)
      && forall i, j :: 0 <= i < j < |r| ==> Members(r[i]) >= Members(r[j])
  {
    SortSorted(ByPopularity, s);
  }

  /** By time: every entry with a time comes before every entry without one, and the times shown are
      in string order. */
  lemma TimeSort(s: seq<Anime>)
    ensures var r := Sort(ByTime, s);
      && multiset(r) == multiset(s)
      && (forall i, j :: 0 <= i < j < |r| && Truthy(r[j].broadcastTime) ==> Truthy(r[i].broadcastTime))
      && (forall i, j :: 0 <= i < j < |r| && Truthy(r[i].broadcastTime) && Truthy(r[j].broadcastTime) ==>
            StrCompare(r[i].broadcastTime.value, r[j].broadcastTime.value) <= 0)
  {
    SortSorted(ByTime, s);
  }
}
