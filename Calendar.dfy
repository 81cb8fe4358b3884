/** Day-boundary arithmetic on instants given as integer epoch milliseconds.
    Every day has the same length and there are no time zones, so
    `dayjs(t).startOf("day")` is `t` rounded down to a multiple of the day
    length and `endOf("day")` is the last millisecond of that day. */
module Calendar {

  const DayLength: int := 86_400_000

  /** `dayjs(t).startOf("day")`: the first millisecond of `t`'s day. */
  function StartOfDay(t: int): (start: int)
    ensures start <= t < start + DayLength
    ensures start % DayLength == 0
  {
    t - t % DayLength
  }

  /** `dayjs(t).endOf("day")`: the last millisecond of `t`'s day. */
  function EndOfDay(t: int): (end: int)
    ensures end == StartOfDay(t) + 86_399_999
    ensures t <= end && StartOfDay(end) == StartOfDay(t)
  {
    var start := StartOfDay(t);
    DayNumberUnique(start + 86_399_999, start);
    start + 86_399_999
  }

  /** `dayjs(a).isSame(b, "day")`. */
  predicate IsSameDay(a: int, b: int) {
    StartOfDay(a) == StartOfDay(b)
  }

  /** `dayjs(date).endOf("day").isBefore(now)`: the date's day is over. */
  predicate IsDateInPast(date: int, now: int) {
    EndOfDay(date) < now
  }

  /** Any multiple of the day length at or before `t` is at or before `t`'s
      day start. */
  lemma StartOfDayGreatest(t: int, m: int)
    requires m % DayLength == 0 && m <= t
    ensures m <= StartOfDay(t)
  {
    var s := StartOfDay(t);
    var a, b := m / DayLength, s / DayLength;
    assert m == DayLength * a && s == DayLength * b;
  }

  /** A multiple of the day length whose day contains `t` is `t`'s day start. */
  lemma DayNumberUnique(t: int, m: int)
    requires m % DayLength == 0 && m <= t < m + DayLength
    ensures StartOfDay(t) == m
  {
    StartOfDayGreatest(t, m);
    StartOfDayGreatest(m + DayLength - 1, StartOfDay(t));
  }

  /** A date is in the past exactly when its calendar day is strictly before
      the calendar day of `now`. */
  lemma PastIffEarlierDay(date: int, now: int)
    ensures IsDateInPast(date, now) <==> StartOfDay(date) < StartOfDay(now)
  {
    var d, n := StartOfDay(date), StartOfDay(now);
    if IsDateInPast(date, now) {
      assert (d + DayLength) % DayLength == 0;
      StartOfDayGreatest(now, d + DayLength);
    } else if d < n {
      StartOfDayGreatest(n - 1, d);
    }
  }

  /** Today is never in the past, whatever the time of day. */
  lemma TodayIsNotPast(date: int, now: int)
    requires IsSameDay(date, now)
    ensures !IsDateInPast(date, now)
  {
    PastIffEarlierDay(date, now);
  }

  /** Every instant of an earlier calendar day is in the past. */
  lemma EarlierDayIsPast(date: int, now: int)
    requires date < StartOfDay(now)
    ensures IsDateInPast(date, now)
  {
    PastIffEarlierDay(date, now);
  }

  /** Once a date is in the past it stays in the past. */
  lemma PastIsPermanent(date: int, now: int, later: int)
    requires IsDateInPast(date, now) && now <= later
    ensures IsDateInPast(date, later)
  {
  }

  /** The start of `t`'s day lies on `t`'s day. */
  lemma StartOfDaySameDay(t: int)
    ensures IsSameDay(StartOfDay(t), t)
  {
    DayNumberUnique(StartOfDay(t), StartOfDay(t));
  }
}
