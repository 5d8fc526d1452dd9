/** src/components/markets/news/NewsCard.tsx: the relative age printed on a news card. */
module NewsCard {
  import opened Prelude
  import MarketsMockData

  const MinuteMs: int := 60000
  const HourMs: int := 3600000
  const DayMs: int := 86400000

  /** What `formatTimestamp` prints: "<n>m ago", "<n>h ago", "<n>d ago", the calendar
      date (`toLocaleDateString`, not modelled), or the text of an invalid date. */
  datatype Age = MinutesAgo(minutes: int) | HoursAgo(hours: int) | DaysAgo(days: int) | CalendarDate(ms: int) | InvalidDate

  /** `formatTimestamp`, with the clock `nowMs` as a parameter and `published` what
      `new Date(timestamp)` made of the text (`None` for an invalid date, whose NaN
      fails every comparison). The divisions are `Math.floor`, which on integers by a
      positive divisor is Dafny's `/`. */
  function FormatTimestamp(nowMs: int, published: Option<int>): (a: Age)
    ensures published.None? ==> a == InvalidDate
    ensures published.Some? && nowMs - published.value < HourMs ==>
      a == MinutesAgo((nowMs - published.value) / MinuteMs)
    ensures published.Some? && HourMs <= nowMs - published.value < DayMs ==>
      a == HoursAgo((nowMs - published.value) / HourMs)
    ensures published.Some? && DayMs <= nowMs - published.value < 7 * DayMs ==>
      a == DaysAgo((nowMs - published.value) / DayMs)
    ensures published.Some? && nowMs - published.value >= 7 * DayMs ==> a == CalendarDate(published.value)
  {
    match published
    case None => InvalidDate
    case Some(ms) =>
      var diffMs := nowMs - ms;
      var diffHours := diffMs / HourMs;
      var diffDays := diffMs / DayMs;
      if diffHours < 1 then MinutesAgo(diffMs / MinuteMs)
      else if diffHours < 24 then HoursAgo(diffHours)
      else if diffDays < 7 then DaysAgo(diffDays)
      else CalendarDate(ms)
  }

  /** Each bucket's count stays in its range: 0-59 minutes, 1-23 hours, 1-6 days; a
      timestamp in the future gives a negative number of minutes. */
  lemma AgeRanges(nowMs: int, ms: int)
    ensures var a := FormatTimestamp(nowMs, Some(ms));
      (a.MinutesAgo? && nowMs >= ms ==> 0 <= a.minutes < 60) &&
      (a.MinutesAgo? && nowMs < ms ==> a.minutes < 0) &&
      (nowMs < ms ==> a.MinutesAgo?) &&
      (a.HoursAgo? ==> 1 <= a.hours < 24) &&
      (a.DaysAgo? ==> 1 <= a.days < 7)
  {
  }

  /** The buckets follow each other in time: an older item never gets a younger
      bucket. */
  function Rank(a: Age): nat
  {
    match a
    case MinutesAgo(_) => 0
    case HoursAgo(_) => 1
    case DaysAgo(_) => 2
    case CalendarDate(_) => 3
    case InvalidDate => 4
  }

  lemma AgeBucketsAreOrdered(nowMs: int, ms1: int, ms2: int)
    requires ms2 <= ms1
    ensures Rank(FormatTimestamp(nowMs, Some(ms1))) <= Rank(FormatTimestamp(nowMs, Some(ms2)))
  {
  }

  /** A relative phrase as the feed writes its timestamps: a count, a unit, " ago". */
  predicate IsRelativePhrase(s: string)
  {
    |s| > 4 && '0' <= s[0] <= '9' && s[|s| - 4..] == " ago"
  }

  /** The feed's timestamps are relative phrases such as "2 hours ago". `parse` stands
      for what `new Date(text)` makes of a text; as it makes an invalid date of every
      relative phrase, every card of the feed prints the invalid-date text, which a
      date that parses never does. */
  lemma RelativePhraseIsInvalid(nowMs: int, parse: string -> Option<int>)
    requires forall s :: IsRelativePhrase(s) ==> parse(s).None?
    ensures forall t :: t in MarketsMockData.FeedTimestamps ==> FormatTimestamp(nowMs, parse(t)) == InvalidDate
    ensures forall t :: t in MarketsMockData.FeedTimestamps ==> parse(t).None?
    ensures forall ms :: FormatTimestamp(nowMs, Some(ms)) != InvalidDate
  {
    FeedIsRelative();
  }

  /** Every timestamp of the feed is a relative phrase. */
  lemma FeedIsRelative()
    ensures forall t :: t in MarketsMockData.FeedTimestamps ==> IsRelativePhrase(t)
  {
    var feed := MarketsMockData.FeedTimestamps;
    forall k | 0 <= k < |feed|
      ensures IsRelativePhrase(feed[k])
    {
      var t := feed[k];
      assert t[|t| - 4..] == " ago";
    }
  }
}
