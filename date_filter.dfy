/** The period picker (src/components/DateFilter.tsx): the month, year and custom ranges it
    reports to the screens that filter by date, on local calendar dates and clock times. */
module DateFilter {
  import opened Wrappers
  import opened Types

  /** A local date and time of day, as the fields of a `Date` read back. */
  datatype Moment = Moment(year: int, month: Month, day: int, hour: int, minute: int, second: int, ms: int)

  predicate Leap(y: int)
  {
    y % 4 == 0 && (y % 100 != 0 || y % 400 == 0)
  }

  function DaysIn(y: int, m: Month): (r: int)
    ensures 28 <= r <= 31
  {
    if m == 1 then (if Leap(y) then 29 else 28)
    else if m == 3 || m == 5 || m == 8 || m == 10 then 30
    else 31
  }

  /** The milliseconds since local midnight. */
  function Clock(t: Moment): int
  {
    ((t.hour * 60 + t.minute) * 60 + t.second) * 1000 + t.ms
  }

  const LastMs := 86399999

  /** A moment that exists: a day of its month and a time on the clock. */
  predicate Valid(t: Moment)
  {
    1 <= t.day <= DaysIn(t.year, t.month)
    && 0 <= t.hour < 24 && 0 <= t.minute < 60 && 0 <= t.second < 60 && 0 <= t.ms < 1000
  }

  lemma ClockBounds(t: Moment)
    requires Valid(t)
    ensures 0 <= Clock(t) <= LastMs
  {
    var m := t.hour * 60 + t.minute;
    assert 0 <= m <= 1439;
    var s := m * 60 + t.second;
    assert 0 <= s <= 86399;
  }

  /** Chronological order of local moments: date first, then clock. */
  predicate NotAfter(a: Moment, b: Moment)
  {
    a.year < b.year
    || (a.year == b.year
        && (a.month < b.month
            || (a.month == b.month && (a.day < b.day || (a.day == b.day && Clock(a) <= Clock(b))))))
  }

  function Midnight(y: int, m: Month, d: int): Moment
  {
    Moment(y, m, d, 0, 0, 0, 0)
  }

  /** Midnight of the following day, rolling over into the next month and year. */
  function NextDay(t: Moment): Moment
  {
    if t.day < DaysIn(t.year, t.month) then Midnight(t.year, t.month, t.day + 1)
    else if t.month < 11 then Midnight(t.year, t.month + 1, 1)
    else Midnight(t.year + 1, 0, 1)
  }

  /** `new Date(y, m, d)` for the days the picker passes: a month index past 11 runs into
      the next year, and day 0 is the day before the first of the month. */
  function Construct(y: int, m: int, d: int): (r: Moment)
    requires 0 <= d <= DaysIn(y + m / 12, m % 12)
    ensures Valid(r) && Clock(r) == 0
    ensures d >= 1 ==> r == Midnight(y + m / 12, m % 12, d)
    ensures d == 0 ==> NextDay(r) == Midnight(y + m / 12, m % 12, 1)
  {
    var year := y + m / 12;
    var month: Month := m % 12;
    if d >= 1 then Midnight(year, month, d)
    else if month == 0 then Midnight(year - 1, 11, 31)
    else Midnight(year, month - 1, DaysIn(year, month - 1))
  }

  datatype Range = Range(start: Moment, end: Moment)

  predicate Within(t: Moment, r: Range)
  {
    NotAfter(r.start, t) && NotAfter(t, r.end)
  }

  // ------------------------------------------------------------ month and year

  /** The month range as written: from midnight of the first day to midnight of the last. */
  function MonthRange(at: Moment): (r: Range)
    ensures r.start == Midnight(at.year, at.month, 1)
    ensures r.end == Midnight(at.year, at.month, DaysIn(at.year, at.month))
  {
    Range(Construct(at.year, at.month, 1), Construct(at.year, at.month + 1, 0))
  }

  /** The year range as written: midnight of January 1 to midnight of December 31. */
  function YearRange(at: Moment): (r: Range)
    ensures r.start == Midnight(at.year, 0, 1) && r.end == Midnight(at.year, 11, 31)
  {
    Range(Construct(at.year, 0, 1), Construct(at.year, 11, 31))
  }

  /** As written, a month range holds the moments of that month except those after
      midnight on its last day. */
  lemma MonthRangeSpan(at: Moment, t: Moment)
    requires Valid(t)
    ensures Within(t, MonthRange(at)) <==>
      t.year == at.year && t.month == at.month
      && (t.day < DaysIn(at.year, at.month) || Clock(t) == 0)
  {
    ClockBounds(t);
  }

  /** As written, a year range loses December 31 after midnight. */
  lemma YearRangeSpan(at: Moment, t: Moment)
    requires Valid(t)
    ensures Within(t, YearRange(at)) <==>
      t.year == at.year && !(t.month == 11 && t.day == 31 && Clock(t) > 0)
  {
    ClockBounds(t);
  }

  /** Noon on the last day of the month lies outside the month's range. */
  lemma LastDayNoonLost(at: Moment)
    ensures var noon := Moment(at.year, at.month, DaysIn(at.year, at.month), 12, 0, 0, 0);
      Valid(noon) && !Within(noon, MonthRange(at))
  {
  }

  function EndOfDay(t: Moment): Moment
  {
    t.(hour := 23, minute := 59, second := 59, ms := 999)
  }

  function StartOfDay(t: Moment): Moment
  {
    t.(hour := 0, minute := 0, second := 0, ms := 0)
  }

  /** The month range as intended: up to the last millisecond of the last day, as the
      custom range already is. */
  function MonthRangeIntended(at: Moment): (r: Range)
    ensures r.start == MonthRange(at).start && r.end == EndOfDay(MonthRange(at).end)
  {
    var r := MonthRange(at);
    Range(r.start, EndOfDay(r.end))
  }

  function YearRangeIntended(at: Moment): (r: Range)
    ensures r.start == YearRange(at).start && r.end == EndOfDay(YearRange(at).end)
  {
    var r := YearRange(at);
    Range(r.start, EndOfDay(r.end))
  }

  /** The intended month range holds exactly the moments of the month. */
  lemma MonthRangeIntendedSpan(at: Moment, t: Moment)
    requires Valid(t)
    ensures Within(t, MonthRangeIntended(at)) <==> t.year == at.year && t.month == at.month
  {
    ClockBounds(t);
  }

  /** The intended year range holds exactly the moments of the year. */
  lemma YearRangeIntendedSpan(at: Moment, t: Moment)
    requires Valid(t)
    ensures Within(t, YearRangeIntended(at)) <==> t.year == at.year
  {
    ClockBounds(t);
  }

  // ------------------------------------------------------------ the picker

  datatype Kind = MonthKind | YearKind | CustomKind

  /** The picker's state: the kind of period, the date the month or year was taken from,
      and the two ends of the custom range as last picked. */
  datatype Picker = Picker(kind: Kind, selected: Moment, customStart: Option<Moment>, customEnd: Option<Moment>)

  /** What `onChange` receives. */
  datatype Emitted = Emitted(kind: Kind, range: Range)

  /** A handler's effect: the new state and the call to `onChange`, if one is made. */
  datatype Step = Step(picker: Picker, emitted: Option<Emitted>)

  /** The state the picker mounts with: the month kind, and both custom ends at `now`. */
  function Mounted(now: Moment): Picker
  {
    Picker(MonthKind, now, Some(now), Some(now))
  }

  /** `handleCustomDateChange`: the picked ends are stored as they are; when both are set,
      the range from the start of the first day to the end of the second is reported. */
  function CustomChange(p: Picker, first: Option<Moment>, second: Option<Moment>): (r: Step)
    ensures r.picker == p.(customStart := first, customEnd := second)
    ensures r.emitted.Some? <==> first.Some? && second.Some?
    ensures r.emitted.Some? ==>
      r.emitted.value == Emitted(CustomKind, Range(StartOfDay(first.value), EndOfDay(second.value)))
  {
    var q := p.(customStart := first, customEnd := second);
    if first.Some? && second.Some? then
      Step(q, Some(Emitted(CustomKind, Range(StartOfDay(first.value), EndOfDay(second.value)))))
    else Step(q, None)
  }

  /** `handleMonthChange`. */
  function MonthChange(p: Picker, date: Moment): (r: Step)
    ensures r.picker == p.(selected := date)
    ensures r.emitted == Some(Emitted(MonthKind, MonthRange(date)))
  {
    Step(p.(selected := date), Some(Emitted(MonthKind, MonthRange(date))))
  }

  /** `handleYearChange`. */
  function YearChange(p: Picker, date: Moment): (r: Step)
    ensures r.picker == p.(selected := date)
    ensures r.emitted == Some(Emitted(YearKind, YearRange(date)))
  {
    Step(p.(selected := date), Some(Emitted(YearKind, YearRange(date))))
  }

  /** `handleFilterTypeChange` as written: month and year report the current period and
      select `now`; custom reports the stored ends as they are, and only when both are set. */
  function SwitchTo(p: Picker, k: Kind, now: Moment): (r: Step)
    ensures r.picker.kind == k
    ensures k != CustomKind ==> r.picker == p.(kind := k, selected := now)
    ensures k == CustomKind ==> r.picker == p.(kind := k)
    ensures k == MonthKind ==> r.emitted == Some(Emitted(MonthKind, MonthRange(now)))
    ensures k == YearKind ==> r.emitted == Some(Emitted(YearKind, YearRange(now)))
    ensures k == CustomKind ==> (r.emitted.Some? <==> p.customStart.Some? && p.customEnd.Some?)
    ensures k == CustomKind && r.emitted.Some? ==>
      r.emitted.value == Emitted(CustomKind, Range(p.customStart.value, p.customEnd.value))
  {
    match k
    case MonthKind => Step(p.(kind := k, selected := now), Some(Emitted(MonthKind, MonthRange(now))))
    case YearKind => Step(p.(kind := k, selected := now), Some(Emitted(YearKind, YearRange(now))))
    case CustomKind =>
      var q := p.(kind := k);
      if p.customStart.Some? && p.customEnd.Some? then
        Step(q, Some(Emitted(CustomKind, Range(p.customStart.value, p.customEnd.value))))
      else Step(q, None)
  }

  /** Switching to custom right after mounting reports a range that starts and ends at the
      current instant, not the whole day the custom handler would report for it. */
  lemma ReportedCustomIsRaw(now: Moment)
    requires Clock(now) != 0
    ensures SwitchTo(Mounted(now), CustomKind, now).emitted == Some(Emitted(CustomKind, Range(now, now)))
    ensures SwitchTo(Mounted(now), CustomKind, now).emitted
            != CustomChange(Mounted(now), Some(now), Some(now)).emitted
  {
  }

  /** `handleFilterTypeChange` as its comment intends: switching back to custom keeps the
      current custom range, so it reports what the custom handler reported for it. */
  function SwitchToIntended(p: Picker, k: Kind, now: Moment): (r: Step)
    ensures k != CustomKind ==> r == SwitchTo(p, k, now)
    ensures k == CustomKind ==> r.picker == p.(kind := k)
    ensures k == CustomKind ==> r.emitted == CustomChange(p, p.customStart, p.customEnd).emitted
  {
    if k != CustomKind then SwitchTo(p, k, now)
    else Step(p.(kind := k), CustomChange(p, p.customStart, p.customEnd).emitted)
  }

  /** Every range reported after a custom pick keeps its ends in order when the picked days
      are in order, whatever their clock times. */
  lemma CustomRangeOrdered(p: Picker, first: Moment, second: Moment)
    requires Valid(first) && Valid(second) && NotAfter(first, second)
    ensures var e := CustomChange(p, Some(first), Some(second)).emitted.value;
      NotAfter(e.range.start, e.range.end)
  {
  }
}
