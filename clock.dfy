/** Wall-clock time as the tick sees it: a calendar day index and the second
    within that day. Every day has 86400 seconds (no time zones, no DST). */
module Clock {
  import opened Wrappers

  const SecondsPerDay: int := 86400
  const SecondsPerHour: int := 3600

  datatype Moment = Moment(day: int, second: int)

  /** A moment whose second lies inside its day. */
  type Instant = m: Moment | 0 <= m.second < SecondsPerDay witness Moment(0, 0)

  /** Seconds since the start of day 0. */
  function Epoch(t: Instant): int {
    t.day * SecondsPerDay + t.second
  }

  /** The instant `seconds` after `t` (the inverse of subtracting two epochs). */
  function After(t: Instant, seconds: int): (r: Instant)
    ensures Epoch(r) == Epoch(t) + seconds
  {
    var e := Epoch(t) + seconds;
    Moment(e / SecondsPerDay, e % SecondsPerDay)
  }

  /** `Calendar.current.component(.hour, from:)`. */
  function HourOf(t: Instant): (h: int)
    ensures 0 <= h < 24
    ensures h * SecondsPerHour <= t.second < (h + 1) * SecondsPerHour
  {
    t.second / SecondsPerHour
  }

  /** `Calendar.isDate(_:inSameDayAs:)`. */
  predicate SameDay(a: Instant, b: Instant) {
    a.day == b.day
  }

  /** Which of the calendar's date constructions succeed: `date(byAdding: .day, ...)`
      and `date(bySettingHour:minute:second:of:)` return an optional date in the
      source; a failure sends the caller to its fixed fallback interval. */
  datatype Calendar = Calendar(addDayWorks: bool, setHourWorks: bool)

  const WorkingCalendar := Calendar(true, true)

  /** `calendar.date(byAdding: .day, value: 1, to: t)`: the same time one day later. */
  function AddDay(cal: Calendar, t: Instant): (r: Option<Instant>)
    ensures r.Some? ==> Epoch(r.value) == Epoch(t) + SecondsPerDay
  {
    if cal.addDayWorks then Some(Moment(t.day + 1, t.second)) else None
  }

  /** `calendar.date(bySettingHour: hour, minute: minute, second: 0, of: t)`: that
      clock time on `t`'s day; an hour or minute outside the clock's range fails. */
  function SetTime(cal: Calendar, t: Instant, hour: int, minute: int): (r: Option<Instant>)
    ensures r.Some? ==> r.value.day == t.day && r.value.second == hour * SecondsPerHour + minute * 60
    ensures r.Some? <==> cal.setHourWorks && 0 <= hour < 24 && 0 <= minute < 60
  {
    if cal.setHourWorks && 0 <= hour < 24 && 0 <= minute < 60 then
      Some(Moment(t.day, hour * SecondsPerHour + minute * 60))
    else None
  }
}
