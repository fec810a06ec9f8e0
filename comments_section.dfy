/** The comment panel of components/CommentsSection.tsx: relative-time labels and the submit rule. */
module CommentsSection {
  import opened Wrappers
  import opened Text
  import opened Storage
  import opened StreamingService

  const MinuteMs: int := 60000
  const HourMs: int := 3600000
  const DayMs: int := 86400000

  /** What `formatTime` shows; a `LocaleDate` is rendered by `toLocaleDateString`. */
  datatype TimeLabel = JustNow | MinutesAgo(minutes: nat) | HoursAgo(hours: nat) | LocaleDate(timestamp: int)

  /** `formatTime`. `Math.floor` of a quotient by a positive divisor is Dafny's `/`. */
  function FormatTime(timestamp: int, now: int): TimeLabel
  {
    var seconds := (now - timestamp) / 1000;
    if seconds < 60 then JustNow
    else
      var minutes := seconds / 60;
      if minutes < 60 then MinutesAgo(minutes)
      else
        var hours := minutes / 60;
        if hours < 24 then HoursAgo(hours) else LocaleDate(timestamp)
  }

  /** The buckets by elapsed milliseconds: under a minute (a future timestamp included), under an
      hour, under a day and beyond; they cover every case and never overlap. */
  lemma FormatTimeBuckets(timestamp: int, now: int)
    ensures var e, l := now - timestamp, FormatTime(timestamp, now);
      && (l == JustNow <==> e < MinuteMs)
      && (l.MinutesAgo? <==> MinuteMs <= e < HourMs)
      && (l.HoursAgo? <==> HourMs <= e < DayMs)
      && (l.LocaleDate? <==> DayMs <= e)
      && (l.MinutesAgo? ==> l.minutes == e / MinuteMs)
      && (l.HoursAgo? ==> l.hours == e / HourMs)
      && (l.LocaleDate? ==> l.timestamp == timestamp)
  {
    var e := now - timestamp;
    if e >= 0 {
      var s := e / 1000;
      var m := s / 60;
      var h := m / 60;
      assert e == 1000 * s + e % 1000;
      assert s == 60 * m + s % 60;
      assert m == 60 * h + m % 60;
      assert e == MinuteMs * m + (1000 * (s % 60) + e % 1000);
      assert e / MinuteMs == m;
      assert e == HourMs * h + (MinuteMs * (m % 60) + 1000 * (s % 60) + e % 1000);
      assert e / HourMs == h;
    }
  }

  /** The text of a relative label; `None` for the locale date. */
  function Render(l: TimeLabel): Option<string>
  {
    match l
    case JustNow => Some("Just now")
    case MinutesAgo(m) => Some(NatToString(m) + "m ago")
    case HoursAgo(h) => Some(NatToString(h) + "h ago")
    case LocaleDate(_) => None
  }

  /** Different relative labels read differently. */
  lemma RenderInjective(x: TimeLabel, y: TimeLabel)
    requires !x.LocaleDate? && !y.LocaleDate?
    ensures Render(x) == Render(y) <==> x == y
  {
    if x.MinutesAgo? || x.HoursAgo? {
      AgoIsNotJustNow(x);
    }
    if y.MinutesAgo? || y.HoursAgo? {
      AgoIsNotJustNow(y);
    }
    if Render(x) == Render(y) {
      var s := Render(x).value;
      if !x.JustNow? && !y.JustNow? {
        var a := if x.MinutesAgo? then x.minutes else x.hours;
        var b := if y.MinutesAgo? then y.minutes else y.hours;
        var sa, sb := NatToString(a), NatToString(b);
        var ta := if x.MinutesAgo? then "m ago" else "h ago";
        var tb := if y.MinutesAgo? then "m ago" else "h ago";
        assert s == sa + ta && s == sb + tb;
        assert s[|s| - 5] == ta[0] && s[|s| - 5] == tb[0];
        assert ta == tb;
        assert sa == s[..|sa|] && sb == s[..|sb|];
        NatToStringInjective(a, b);
      }
    }
  }

  lemma AgoIsNotJustNow(l: TimeLabel)
    requires l.MinutesAgo? || l.HoursAgo?
    ensures Render(l) != Some("Just now")
  {
    var s := Render(l).value;
    assert s[|s| - 1] == 'o';
  }

  /** The characters `String.prototype.trim` strips: the white space and line terminators of
      ECMAScript, that is tab, vertical tab, form feed, the byte-order mark, the space separators of
      Unicode category Zs, line feed, carriage return, and the line and paragraph separators. */
  predicate IsSpace(c: char) {
    || c in {'\t', '\U{000B}', '\U{000C}', '\U{FEFF}', '\n', '\r', '\U{2028}', '\U{2029}'}
    || c in {' ', '\U{00A0}', '\U{1680}', '\U{202F}', '\U{205F}', '\U{3000}'}
    || '\U{2000}' <= c <= '\U{200A}'
  }

  /** `!text.trim()`: nothing but white space. */
  predicate IsBlank(text: string) {
    forall i :: 0 <= i < |text| ==> IsSpace(text[i])
  }

  /** The panel for one anime: the comments shown, the draft in the input box, and the store the
      comments are saved to. */
  class Section {
    const animeId: string
    const store: Store
    var comments: seq<Comment>
    var draft: string

    /** Mounting runs the effect on `animeId`: the stored comments, or the mock ones. */
    constructor (animeId: string, store: Store, now: int)
      ensures this.animeId == animeId && this.store == store
      ensures comments == store.Comments(animeId, now) && draft == ""
    {
      this.animeId, this.store := animeId, store;
      comments := store.Comments(animeId, now);
      draft := "";
    }

    method Type(text: string)
      modifies this`draft
      ensures draft == text
    {
      draft := text;
    }

    /** `handleSubmit`: a blank draft does nothing; otherwise the comment is saved as the guest's
        (no user is passed) and, when the save works, shown first and the input cleared. */
    method HandleSubmit(now: nat)
      modifies this`comments, this`draft, store`comments
      ensures IsBlank(old(draft)) ==> comments == old(comments) && draft == old(draft) && unchanged(store)
      ensures !IsBlank(old(draft)) && old(store.comments).Garbage? ==>
        comments == old(comments) && draft == old(draft) && store.comments == old(store.comments)
      ensures !IsBlank(old(draft)) && !old(store.comments).Garbage? ==>
        && |comments| == |old(comments)| + 1 && comments[1..] == old(comments)
        && comments[0].content == old(draft) && comments[0].userId == "guest"
        && comments[0].username == "Guest" && comments[0].timestamp == now && comments[0].likes == 0
        && comments[0].id == NatToString(now) && comments[0].avatar == GuestAvatar
        && draft == ""
        && store.comments.Holds?
        && var all := LoadOr(old(store.comments), map[]);
           store.comments.value == all[animeId := [comments[0]] + (if animeId in all then all[animeId] else [])]
    {
      if IsBlank(draft) {
        return;
      }
      var saved := store.SaveComment(animeId, draft, None, now);
      if saved.Some? {
        comments := [saved.value] + comments;
        draft := "";
      }
    }
  }
}
