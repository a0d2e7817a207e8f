/**
 * `formatTime` (identical in internal/feed/service.go and
 * internal/chat/service.go): the time elapsed since a millisecond timestamp,
 * in bands from "Just now" to "N months ago". The clock is a parameter; the
 * elapsed time is in nanoseconds, like Go's `time.Duration`, and saturates at
 * that type's bounds.
 */
module RelativeTime {
  import Text

  const Minute: int := 60_000_000_000
  const Hour: int := 60 * Minute
  const Day: int := 24 * Hour

  /** The band an elapsed duration falls into, with its count where the text shows one. */
  datatype Ago =
    | JustNow
    | MinutesAgo(minutes: int)
    | HoursAgo(hours: int)
    | Yesterday
    | DaysAgo(days: int)
    | OneWeekAgo
    | WeeksAgo(weeks: int)
    | MonthsAgo(months: int)

  /** The largest and the smallest `time.Duration`, a signed 64-bit count of nanoseconds. */
  const MaxDuration: int := 0x7FFF_FFFF_FFFF_FFFF
  const MinDuration: int := -0x8000_0000_0000_0000

  /**
   * `now.Sub(time.UnixMilli(timestamp))`: the difference in nanoseconds, or
   * the nearest bound of `time.Duration` when the difference lies beyond it.
   */
  function Elapsed(timestamp: int, nowNanos: int): (d: int)
    ensures MinDuration <= d <= MaxDuration
    ensures var exact := nowNanos - timestamp * 1_000_000;
      && (MinDuration <= exact <= MaxDuration ==> d == exact)
      && (exact > MaxDuration ==> d == MaxDuration)
      && (exact < MinDuration ==> d == MinDuration)
  {
    var exact := nowNanos - timestamp * 1_000_000;
    if exact > MaxDuration then MaxDuration
    else if exact < MinDuration then MinDuration
    else exact
  }

  /**
   * The switch of `formatTime`. Counts are whole units, rounded down; any
   * duration under a minute, negative ones included, is "just now".
   */
  function Bucket(diff: int): (a: Ago)
    ensures a.JustNow? <==> diff < Minute
    ensures a.MinutesAgo? <==> Minute <= diff < Hour
    ensures a.MinutesAgo? ==> 1 <= a.minutes < 60 && a.minutes * Minute <= diff < (a.minutes + 1) * Minute
    ensures a.HoursAgo? <==> Hour <= diff < 24 * Hour
    ensures a.HoursAgo? ==> 1 <= a.hours < 24 && a.hours * Hour <= diff < (a.hours + 1) * Hour
    ensures a.Yesterday? <==> 24 * Hour <= diff < 48 * Hour
    ensures a.DaysAgo? <==> 2 * Day <= diff < 7 * Day
    ensures a.DaysAgo? ==> 2 <= a.days < 7 && a.days * Day <= diff < (a.days + 1) * Day
    ensures a.OneWeekAgo? <==> 7 * Day <= diff < 14 * Day
    ensures a.WeeksAgo? <==> 14 * Day <= diff < 30 * Day
    ensures a.WeeksAgo? ==> 2 <= a.weeks <= 4 && a.weeks * 7 * Day <= diff < (a.weeks + 1) * 7 * Day
    ensures a.MonthsAgo? <==> diff >= 30 * Day
    ensures a.MonthsAgo? ==> a.months >= 1 && a.months * 30 * Day <= diff < (a.months + 1) * 30 * Day
  {
    if diff < Minute then JustNow
    else if diff < Hour then MinutesAgo(diff / Minute)
    else if diff < 24 * Hour then HoursAgo(diff / Hour)
    else if diff < 48 * Hour then Yesterday
    else if diff < 7 * Day then DaysAgo(diff / Day)
    else if diff < 14 * Day then OneWeekAgo
    else if diff < 30 * Day then WeeksAgo(diff / (7 * Day))
    else MonthsAgo(diff / (30 * Day))
  }

  /** The text of a band. */
  function Render(a: Ago): string
  {
    match a
    case JustNow => "Just now"
    case MinutesAgo(n) => if n == 1 then "1 minute ago" else Text.Decimal(n) + " minutes ago"
    case HoursAgo(n) => if n == 1 then "1 hour ago" else Text.Decimal(n) + " hours ago"
    case Yesterday => "Yesterday"
    case DaysAgo(n) => Text.Decimal(n) + " days ago"
    case OneWeekAgo => "1 week ago"
    case WeeksAgo(n) => Text.Decimal(n) + " weeks ago"
    case MonthsAgo(n) => if n <= 1 then "1 month ago" else Text.Decimal(n) + " months ago"
  }

  /** `formatTime(timestamp)` at clock reading `nowNanos`. */
  function FormatTime(timestamp: int, nowNanos: int): (r: string)
    ensures var d := Elapsed(timestamp, nowNanos);
      && (d < Minute ==> r == "Just now")
      && (Minute <= d < 2 * Minute ==> r == "1 minute ago")
      && (2 * Minute <= d < Hour ==> r == Text.Decimal(d / Minute) + " minutes ago")
      && (Hour <= d < 2 * Hour ==> r == "1 hour ago")
      && (2 * Hour <= d < 24 * Hour ==> r == Text.Decimal(d / Hour) + " hours ago")
      && (24 * Hour <= d < 48 * Hour ==> r == "Yesterday")
      && (2 * Day <= d < 7 * Day ==> r == Text.Decimal(d / Day) + " days ago")
      && (7 * Day <= d < 14 * Day ==> r == "1 week ago")
      && (14 * Day <= d < 30 * Day ==> r == Text.Decimal(d / (7 * Day)) + " weeks ago")
      && (30 * Day <= d < 60 * Day ==> r == "1 month ago")
      && (60 * Day <= d ==> r == Text.Decimal(d / (30 * Day)) + " months ago")
  {
    Render(Bucket(Elapsed(timestamp, nowNanos)))
  }

  /**
   * Any time more than about 292 years back shows the same text, because the
   * elapsed duration stops at its largest value.
   */
  lemma FormatTimeSaturates(timestamp: int, nowNanos: int)
    requires nowNanos - timestamp * 1_000_000 >= MaxDuration
    ensures FormatTime(timestamp, nowNanos) == "3558 months ago"
  {
    assert Elapsed(timestamp, nowNanos) == MaxDuration;
    assert MaxDuration / (30 * Day) == 3558;
    assert Text.NatDigits(3558) == "3558";
  }

  /** The order of the bands, from the most recent. */
  function Rank(a: Ago): nat
  {
    match a
    case JustNow => 0
    case MinutesAgo(_) => 1
    case HoursAgo(_) => 2
    case Yesterday => 3
    case DaysAgo(_) => 4
    case OneWeekAgo => 5
    case WeeksAgo(_) => 6
    case MonthsAgo(_) => 7
  }

  /** Something older never falls into a more recent band, nor shows a smaller count in the same band. */
  lemma BucketMonotone(d1: int, d2: int)
    requires d1 <= d2
    ensures Rank(Bucket(d1)) <= Rank(Bucket(d2))
    ensures Rank(Bucket(d1)) == Rank(Bucket(d2)) ==> match (Bucket(d1), Bucket(d2))
      case (MinutesAgo(m1), MinutesAgo(m2)) => m1 <= m2
      case (HoursAgo(h1), HoursAgo(h2)) => h1 <= h2
      case (DaysAgo(x1), DaysAgo(x2)) => x1 <= x2
      case (WeeksAgo(w1), WeeksAgo(w2)) => w1 <= w2
      case (MonthsAgo(m1), MonthsAgo(m2)) => m1 <= m2
      case _ => true
  {
    var a1, a2 := Bucket(d1), Bucket(d2);
    if a1.MinutesAgo? && a2.MinutesAgo? {
      DivMonotone(d1, d2, Minute);
    } else if a1.HoursAgo? && a2.HoursAgo? {
      DivMonotone(d1, d2, Hour);
    } else if a1.DaysAgo? && a2.DaysAgo? {
      DivMonotone(d1, d2, Day);
    } else if a1.WeeksAgo? && a2.WeeksAgo? {
      DivMonotone(d1, d2, 7 * Day);
    } else if a1.MonthsAgo? && a2.MonthsAgo? {
      DivMonotone(d1, d2, 30 * Day);
    }
  }

  lemma DivMonotone(a: int, b: int, d: int)
    requires 0 <= a <= b && d > 0
    ensures a / d <= b / d
  {
    var q1, q2 := a / d, b / d;
    assert q1 * d <= a;
    assert b < (q2 + 1) * d;
    MulCancel(q1, q2 + 1, d);
  }

  lemma MulCancel(x: int, y: int, d: int)
    requires d > 0 && x * d < y * d
    ensures x < y
  {
    if x >= y {
      MulMonotone(y, x, d);
    }
  }

  lemma MulMonotone(x: int, y: int, d: int)
    requires d > 0 && x <= y
    ensures x * d <= y * d
  {
  }
}
