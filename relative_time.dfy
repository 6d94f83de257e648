/**
 * `formatTime` of the plain script: the age of a history item as
 * "Just now", "{n}m ago", "{n}h ago" or "{n}d ago". Times are integer
 * milliseconds; the current time is a parameter.
 */
module RelativeTime {
  import opened Strings

  const MinuteMs: nat := 60000
  const HourMs: nat := 3600000
  const DayMs: nat := 86400000

  /** The four shapes `formatTime` can produce, with the count it prints. */
  datatype Age = JustNow | MinutesAgo(minutes: nat) | HoursAgo(hours: nat) | DaysAgo(days: nat)

  /**
   * The bucket for an elapsed time of `diffMs` milliseconds. The source
   * takes `Math.floor(diffMs / unit)`; Dafny's `/` on `int` is Euclidean,
   * which is the floor whenever the divisor is positive, as all three are.
   * A negative difference (a timestamp in the future) is "Just now".
   */
  function Classify(diffMs: int): (a: Age)
    ensures a.JustNow? <==> diffMs < MinuteMs
    ensures a.MinutesAgo? <==> MinuteMs <= diffMs < HourMs
    ensures a.HoursAgo? <==> HourMs <= diffMs < DayMs
    ensures a.DaysAgo? <==> DayMs <= diffMs
    ensures a.MinutesAgo? ==>
      1 <= a.minutes < 60 && a.minutes * MinuteMs <= diffMs < (a.minutes + 1) * MinuteMs
    ensures a.HoursAgo? ==>
      1 <= a.hours < 24 && a.hours * HourMs <= diffMs < (a.hours + 1) * HourMs
    ensures a.DaysAgo? ==>
      1 <= a.days && a.days * DayMs <= diffMs < (a.days + 1) * DayMs
  {
    var diffMins := diffMs / MinuteMs;
    var diffHours := diffMs / HourMs;
    var diffDays := diffMs / DayMs;
    if diffMins < 1 then JustNow
    else if diffMins < 60 then MinutesAgo(diffMins)
    else if diffHours < 24 then HoursAgo(diffHours)
    else DaysAgo(diffDays)
  }

  /** The letter that tells the buckets apart, five characters from the end of the text. */
  function UnitMark(a: Age): char {
    match a
    case JustNow => 't'
    case MinutesAgo(_) => 'm'
    case HoursAgo(_) => 'h'
    case DaysAgo(_) => 'd'
  }

  /** The count a bucket prints (none for "Just now"). */
  function Count(a: Age): nat {
    match a
    case JustNow => 0
    case MinutesAgo(n) => n
    case HoursAgo(n) => n
    case DaysAgo(n) => n
  }

  /** The display text of a bucket. */
  function Render(a: Age): (s: string)
    ensures |s| > 5 && s[|s| - 5] == UnitMark(a)
    ensures !a.JustNow? ==> s[..|s| - 5] == NatToString(Count(a))
  {
    match a
    case JustNow => "Just now"
    case MinutesAgo(n) => NatToString(n) + "m ago"
    case HoursAgo(n) => NatToString(n) + "h ago"
    case DaysAgo(n) => NatToString(n) + "d ago"
  }

  /** `formatTime(timestamp)` evaluated at time `now`. */
  function FormatTime(now: int, timestamp: int): string {
    Render(Classify(now - timestamp))
  }

  /** Different buckets, or different counts, never render to the same text. */
  lemma RenderInjective(a: Age, b: Age)
    requires Render(a) == Render(b)
    ensures a == b
  {
    var s := Render(a);
    assert UnitMark(a) == UnitMark(b);
    if !a.JustNow? {
      NatToStringInjective(Count(a), Count(b));
    }
  }

  /** Two items of different ages in different buckets are told apart on screen. */
  lemma FormatTimeSeparatesBuckets(now: int, t1: int, t2: int)
    requires Classify(now - t1) != Classify(now - t2)
    ensures FormatTime(now, t1) != FormatTime(now, t2)
  {
    if FormatTime(now, t1) == FormatTime(now, t2) {
      RenderInjective(Classify(now - t1), Classify(now - t2));
    }
  }

  /** 59 seconds is still "Just now"; 61 minutes is already "1h ago". */
  lemma FormatTimeExamples(now: int)
    ensures FormatTime(now, now - 59000) == "Just now"
    ensures FormatTime(now, now - 61 * MinuteMs) == "1h ago"
  {
    assert Classify(61 * MinuteMs) == HoursAgo(1);
  }
}
