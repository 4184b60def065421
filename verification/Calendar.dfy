/** Gregorian dates and the schedules the command line builds from them (gateway/cli.py
    _parse_one_shot_interval, _run_schedule_create, _advance_by_one_year, _parse_starting). Instants
    are microseconds since the first of January of year 1; zones have a fixed offset. */
module Calendar {
  import opened Values

  const MINUTE := 60_000_000
  const MINUTES_A_DAY := 1440
  const DAY := 86_400_000_000
  const MAX_YEAR := 9999
  const MAX_ONE_SHOT_MINUTES := 525_600

  datatype Date = Date(year: int, month: int, day: int)

  predicate Leap(y: int) {
    y % 4 == 0 && (y % 100 != 0 || y % 400 == 0)
  }

  function DaysBeforeYear(y: int): int
    requires y >= 1
  {
    (y - 1) * 365 + (y - 1) / 4 - (y - 1) / 100 + (y - 1) / 400
  }

  function MonthLength(y: int, m: int): int {
    if m == 2 then (if Leap(y) then 29 else 28)
    else if m in {4, 6, 9, 11} then 30 else 31
  }

  function DaysBeforeMonth(y: int, m: int): int
    requires 1 <= m <= 13
  {
    if m == 1 then 0 else DaysBeforeMonth(y, m - 1) + MonthLength(y, m - 1)
  }

  /** Does the calendar have this date? */
  predicate Exists(d: Date) {
    d.year >= 1 && 1 <= d.month <= 12 && 1 <= d.day <= MonthLength(d.year, d.month)
  }

  /** Days since the first day of year 1. */
  function DayNumber(d: Date): int
    requires d.year >= 1 && 1 <= d.month <= 12
  {
    DaysBeforeYear(d.year) + DaysBeforeMonth(d.year, d.month) + d.day - 1
  }

  lemma Step4(y: int)
    ensures y / 4 - (y - 1) / 4 == if y % 4 == 0 then 1 else 0
  {
  }

  lemma Step100(y: int)
    ensures y / 100 - (y - 1) / 100 == if y % 100 == 0 then 1 else 0
  {
  }

  lemma Step400(y: int)
    ensures y / 400 - (y - 1) / 400 == if y % 400 == 0 then 1 else 0
  {
  }

  lemma Multiples(k: int)
    ensures 100 * k % 100 == 0 && 4 * k % 4 == 0
  {
  }

  lemma Centuries(y: int)
    ensures y % 400 == 0 ==> y % 100 == 0
    ensures y % 100 == 0 ==> y % 4 == 0
  {
    if y % 400 == 0 {
      assert y == 100 * (4 * (y / 400));
      Multiples(4 * (y / 400));
    }
    if y % 100 == 0 {
      assert y == 4 * (25 * (y / 100));
      Multiples(25 * (y / 100));
    }
  }

  lemma YearLength(y: int)
    requires y >= 1
    ensures DaysBeforeYear(y + 1) - DaysBeforeYear(y) == 365 + (if Leap(y) then 1 else 0)
  {
    Centuries(y);
    Step4(y);
    Step100(y);
    Step400(y);
  }

  lemma MonthsTable(y: int)
    ensures var l := if Leap(y) then 1 else 0;
      && DaysBeforeMonth(y, 1) == 0 && DaysBeforeMonth(y, 2) == 31 && DaysBeforeMonth(y, 3) == 59 + l
      && DaysBeforeMonth(y, 4) == 90 + l && DaysBeforeMonth(y, 5) == 120 + l && DaysBeforeMonth(y, 6) == 151 + l
      && DaysBeforeMonth(y, 7) == 181 + l && DaysBeforeMonth(y, 8) == 212 + l && DaysBeforeMonth(y, 9) == 243 + l
      && DaysBeforeMonth(y, 10) == 273 + l && DaysBeforeMonth(y, 11) == 304 + l && DaysBeforeMonth(y, 12) == 334 + l
      && DaysBeforeMonth(y, 13) == 365 + l
  {
    assert DaysBeforeMonth(y, 2) == 31;
    assert DaysBeforeMonth(y, 4) == DaysBeforeMonth(y, 3) + 31;
    assert DaysBeforeMonth(y, 6) == DaysBeforeMonth(y, 5) + 31;
    assert DaysBeforeMonth(y, 8) == DaysBeforeMonth(y, 7) + 31;
    assert DaysBeforeMonth(y, 10) == DaysBeforeMonth(y, 9) + 30;
    assert DaysBeforeMonth(y, 12) == DaysBeforeMonth(y, 11) + 30;
  }

  // ---- From day numbers back to dates ----

  function YearFrom(day: int, y: int): (r: int)
    requires y >= 1 && DaysBeforeYear(y) <= day
    ensures r >= y && DaysBeforeYear(r) <= day < DaysBeforeYear(r + 1)
    decreases day - DaysBeforeYear(y)
  {
    YearLength(y);
    if day < DaysBeforeYear(y + 1) then y else YearFrom(day, y + 1)
  }

  function MonthFrom(y: int, left: int, m: int): (r: int)
    requires 1 <= m <= 12 && DaysBeforeMonth(y, m) <= left < DaysBeforeMonth(y, 13)
    ensures m <= r <= 12 && DaysBeforeMonth(y, r) <= left < DaysBeforeMonth(y, r + 1)
    decreases 13 - m
  {
    if m == 12 || left < DaysBeforeMonth(y, m + 1) then m else MonthFrom(y, left, m + 1)
  }

  /** The date of a day number. */
  function DateOf(day: int): (d: Date)
    requires day >= 0
    ensures Exists(d) && DayNumber(d) == day
  {
    var y := YearFrom(day, 1);
    YearLength(y);
    MonthsTable(y);
    var left := day - DaysBeforeYear(y);
    var m := MonthFrom(y, left, 1);
    Date(y, m, left - DaysBeforeMonth(y, m) + 1)
  }

  lemma {:induction false} MonthsGrow(y: int, m: int, n: int)
    requires 1 <= m <= n <= 13
    ensures DaysBeforeMonth(y, m) <= DaysBeforeMonth(y, n)
    decreases n - m
  {
    if m < n { MonthsGrow(y, m, n - 1); }
  }

  lemma {:induction false} YearsGrow(y: int, z: int)
    requires 1 <= y <= z
    ensures DaysBeforeYear(z) >= DaysBeforeYear(y) + 365 * (z - y)
    decreases z - y
  {
    if y < z {
      YearsGrow(y, z - 1);
      YearLength(z - 1);
    }
  }

  lemma DayInYear(d: Date)
    requires Exists(d)
    ensures DaysBeforeYear(d.year) <= DayNumber(d) < DaysBeforeYear(d.year + 1)
  {
    YearLength(d.year);
    MonthsTable(d.year);
    MonthsGrow(d.year, 1, d.month);
    MonthsGrow(d.year, d.month + 1, 13);
  }

  /** No two dates share a day number, so `DateOf` is the inverse of `DayNumber`. */
  lemma DayNumberInjective(d: Date, e: Date)
    requires Exists(d) && Exists(e) && DayNumber(d) == DayNumber(e)
    ensures d == e
  {
    DayInYear(d);
    DayInYear(e);
    if d.year < e.year { YearsGrow(d.year + 1, e.year); }
    if e.year < d.year { YearsGrow(e.year + 1, d.year); }
    SameYear(d, e);
  }

  lemma SameYear(d: Date, e: Date)
    requires Exists(d) && Exists(e) && d.year == e.year && DayNumber(d) == DayNumber(e)
    ensures d == e
  {
    if d.month < e.month { MonthsGrow(d.year, d.month + 1, e.month); }
    if e.month < d.month { MonthsGrow(d.year, e.month + 1, d.month); }
  }

  lemma DateOfNumber(d: Date)
    requires Exists(d)
    ensures DayNumber(d) >= 0 && DateOf(DayNumber(d)) == d
  {
    DayInYear(d);
    YearsGrow(1, d.year);
    DayNumberInjective(DateOf(DayNumber(d)), d);
  }

  /** The same month and day in a later year is at least 365 days on. */
  lemma {:induction false} YearApart(d: Date, z: int)
    requires d.year >= 1 && 1 <= d.month <= 12 && d.year < z
    ensures DayNumber(Date(z, d.month, d.day)) >= DayNumber(d) + 365 * (z - d.year)
    decreases z - d.year
  {
    var y := z - 1;
    MonthsTable(y);
    MonthsTable(z);
    YearLength(y);
    NextYearApart(y, d.month, d.day);
    if d.year < y { YearApart(d, y); }
  }

  lemma NextYearApart(y: int, m: int, d: int)
    requires y >= 1 && 1 <= m <= 12
    ensures DayNumber(Date(y + 1, m, d)) >= DayNumber(Date(y, m, d)) + 365
  {
    MonthsTable(y);
    MonthsTable(y + 1);
    YearLength(y);
    assert m == 1 || m == 2 || m == 3 || m == 4 || m == 5 || m == 6 || m == 7 || m == 8 || m == 9 || m == 10 ||
      m == 11 || m == 12;
  }

  // ---- One-shot reminders ----

  // Five cron fields without a year; the day of the week is always `*`.
  datatype Cron = Cron(minute: int, hour: int, day: int, month: int)

  function Floor(t: int): int { t / MINUTE * MINUTE }

  function MinuteOfDay(t: int): int { t % DAY / MINUTE }

  /** The fields of the minute an instant lies in. */
  function CronAt(t: int): Cron
    requires t >= 0
  {
    var d := DateOf(t / DAY);
    Cron(MinuteOfDay(t) % 60, MinuteOfDay(t) / 60, d.day, d.month)
  }

  /** A cron fires on the minute, whatever the year. */
  predicate Fires(c: Cron, t: int)
    requires t >= 0
  {
    t % MINUTE == 0 && CronAt(t) == c
  }

  ghost predicate FirstAfter(c: Cron, now: int, t: int)
    requires now >= 0
  {
    t > now && Fires(c, t) && forall u :: now < u < t ==> !Fires(c, u)
  }

  // The relative one-shot: the cron of the minute `now + N` lies in. A target past the calendar raises.
  method ScheduleOneShot(now: int, value: int, unit: Unit) returns (raised: bool, cron: Option<Cron>)
    requires now >= 0
    ensures raised || cron.Some? <==> 1 <= OneShotMinutes(value, unit) <= MAX_ONE_SHOT_MINUTES
    ensures raised ==> !TargetFits(now, OneShotMinutes(value, unit)) && cron.None?
    ensures cron.Some? ==> TargetFits(now, OneShotMinutes(value, unit))
    ensures cron.Some? ==> cron.value == CronAt(now + OneShotMinutes(value, unit) * MINUTE)
    ensures cron.Some? ==> forall later :: now <= later ==> ExactFrom(now, OneShotMinutes(value, unit), later)
  {
    IntervalAccepted(value, unit);
    raised, cron := false, None;
    var n := OneShotInterval(value, unit);
    if n.Some? {
      raised := !TargetFits(now, n.value);
      if !raised {
        var fields := CronAfter(now, n.value);
        cron := Some(fields);
      }
    }
  }

  method CronAfter(now: int, n: int) returns (cron: Cron)
    requires now >= 0 && 1 <= n <= MAX_ONE_SHOT_MINUTES
    ensures cron == CronAt(now + n * MINUTE)
    ensures forall later :: now <= later ==> ExactFrom(now, n, later)
  {
    ExactWithinCap(now, n);
    cron := CronAt(now + n * MINUTE);
  }

  datatype Unit = Minutes | Hours

  function OneShotMinutes(value: int, unit: Unit): (n: int)
    ensures unit == Minutes ==> n * MINUTE == value * 60_000_000
    ensures unit == Hours ==> n * MINUTE == value * 3_600_000_000
  {
    match unit case Minutes => value case Hours => value * 60
  }

  // `Nm` or `Nh`; zero and anything beyond the cap is left to the recurring forms.
  function OneShotInterval(value: int, unit: Unit): Option<int> {
    if value <= 0 || OneShotMinutes(value, unit) > MAX_ONE_SHOT_MINUTES then None else Some(OneShotMinutes(value, unit))
  }

  lemma IntervalAccepted(value: int, unit: Unit)
    ensures OneShotInterval(value, unit).Some? <==> 1 <= OneShotMinutes(value, unit) <= MAX_ONE_SHOT_MINUTES
  {
  }

  lemma FloorFacts(t: int)
    requires t >= 0
    ensures 0 <= Floor(t) <= t < Floor(t) + MINUTE
    ensures Floor(t) % MINUTE == 0 && Floor(t) / DAY == t / DAY && MinuteOfDay(Floor(t)) == MinuteOfDay(t)
  {
  }

  lemma HourAndMinute(a: int, b: int)
    requires a % 60 == b % 60 && a / 60 == b / 60
    ensures a == b
  {
    assert a == 60 * (a / 60) + a % 60 && b == 60 * (b / 60) + b % 60;
  }

  lemma OnTheMinute(t: int)
    requires t >= 0 && t % MINUTE == 0
    ensures t % DAY == MinuteOfDay(t) * MINUTE
  {
    var k, q, r := t / MINUTE, t / DAY, t % DAY;
    assert t == k * MINUTE && t == q * DAY + r;
    assert r == (k - q * MINUTES_A_DAY) * MINUTE;
  }

  lemma SameTimeOfDay(t: int, u: int)
    requires t >= 0 && u >= 0 && t % MINUTE == 0 && u % MINUTE == 0 && CronAt(t) == CronAt(u)
    ensures t - u == (t / DAY - u / DAY) * DAY
  {
    HourAndMinute(MinuteOfDay(t), MinuteOfDay(u));
    OnTheMinute(t);
    OnTheMinute(u);
    DayParts(t);
    DayParts(u);
  }

  lemma DayParts(t: int)
    ensures t == t / DAY * DAY + t % DAY
  {
  }

  lemma FiringsApart(c: Cron, u: int, t: int)
    requires 0 <= u < t && Fires(c, u) && Fires(c, t)
    ensures t - u >= 365 * DAY
  {
    SameTimeOfDay(t, u);
    var d, e := DateOf(u / DAY), DateOf(t / DAY);
    if d.year > e.year { YearApart(e, d.year); }
    if d.year < e.year { YearApart(d, e.year); }
  }

  /** One-shot cron is exact: for every interval the cap accepts, the first instant after any moment
      between the request and the target that matches the year-less cron is the target's minute. */
  lemma OneShotIsExact(now: int, n: int, later: int)
    requires 0 <= now <= later < Floor(now + n * MINUTE)
    requires 1 <= n <= MAX_ONE_SHOT_MINUTES
    ensures FirstAfter(CronAt(now + n * MINUTE), later, Floor(now + n * MINUTE))
  {
    var target := now + n * MINUTE;
    FloorFacts(target);
    var c, t := CronAt(target), Floor(target);
    assert Fires(c, t);
    forall u | later < u < t ensures !Fires(c, u) {
      if Fires(c, u) { FiringsApart(c, u, t); }
    }
  }

  ghost predicate ExactFrom(now: int, n: int, later: int)
    requires 0 <= now <= later && n >= 1
  {
    later < Floor(now + n * MINUTE) ==> FirstAfter(CronAt(now + n * MINUTE), later, Floor(now + n * MINUTE))
  }

  lemma ExactWithinCap(now: int, n: int)
    requires now >= 0 && 1 <= n <= MAX_ONE_SHOT_MINUTES
    ensures forall later :: now <= later ==> ExactFrom(now, n, later)
  {
    forall later | now <= later ensures ExactFrom(now, n, later) {
      if later < Floor(now + n * MINUTE) { OneShotIsExact(now, n, later); }
    }
  }

  // The last day of the last year, and its last minute.
  const LAST_DAY := 3_652_058
  const LAST_MINUTE := LAST_DAY * MINUTES_A_DAY + 1439

  /** The target is an instant of the calendar. */
  predicate TargetFits(now: int, n: int)
    requires now >= 0 && n >= 1
  {
    DateOf((now + n * MINUTE) / DAY).year <= MAX_YEAR
  }

  /** Every request for this interval whose target the calendar has gets an exact cron. */
  ghost predicate AlwaysExact(n: int)
    requires n >= 1
  {
    forall now, later :: 0 <= now <= later ==> ExactIfFits(now, n, later)
  }

  ghost predicate ExactIfFits(now: int, n: int, later: int)
    requires 0 <= now <= later && n >= 1
  {
    TargetFits(now, n) ==> ExactFrom(now, n, later)
  }

  /** The cap is what makes it so: for any longer interval the calendar has room for, some request would
      fire a year early. */
  lemma CapIsTight(n: int)
    requires n >= 1
    ensures AlwaysExact(n) <==> n <= MAX_ONE_SHOT_MINUTES || n > LAST_MINUTE
  {
    if n <= MAX_ONE_SHOT_MINUTES {
      forall now, later | 0 <= now <= later ensures ExactIfFits(now, n, later) { ExactWithinCap(now, n); }
    } else if n <= LAST_MINUTE {
      var now := YearEarly(n);
      assert !ExactIfFits(now, n, now);
    } else {
      forall now, later | 0 <= now <= later ensures ExactIfFits(now, n, later) { NoRoom(now, n); }
    }
  }

  lemma WholeMinutes(k: int)
    ensures k * MINUTE / MINUTE == k && k * MINUTE % MINUTE == 0
  {
  }

  lemma NoRoom(now: int, n: int)
    requires now >= 0 && n > LAST_MINUTE
    ensures !TargetFits(now, n)
  {
    CalendarEnds(now + n * MINUTE);
    WholeMinutes(n);
  }

  lemma LastDays()
    ensures Exists(Date(MAX_YEAR, 12, 31)) && DayNumber(Date(MAX_YEAR, 12, 31)) == LAST_DAY
    ensures Exists(Date(MAX_YEAR - 1, 12, 31)) && DayNumber(Date(MAX_YEAR - 1, 12, 31)) == LAST_DAY - 365
    ensures DaysBeforeYear(MAX_YEAR + 1) == LAST_DAY + 1
  {
    MonthsTable(MAX_YEAR);
    MonthsTable(MAX_YEAR - 1);
  }

  lemma MinutesOfDays(t: int)
    ensures t / DAY <= LAST_DAY <==> t / MINUTE <= LAST_MINUTE
  {
  }

  lemma CalendarEnds(t: int)
    requires t >= 0
    ensures DateOf(t / DAY).year <= MAX_YEAR <==> t / MINUTE <= LAST_MINUTE
  {
    LastDays();
    MinutesOfDays(t);
    var d := DateOf(t / DAY);
    if t / DAY <= LAST_DAY {
      YearsInOrder(d, Date(MAX_YEAR, 12, 31));
    } else if d.year <= MAX_YEAR {
      DayInYear(d);
      YearsGrow(d.year + 1, MAX_YEAR + 1);
    }
  }

  lemma YearEarly(n: int) returns (now: int)
    requires MAX_ONE_SHOT_MINUTES < n <= LAST_MINUTE
    ensures now >= 0 && TargetFits(now, n) && !ExactFrom(now, n, now)
  {
    var t := LAST_MINUTE * MINUTE;
    now := t - n * MINUTE;
    LastMinuteRecurs(t);
    CalendarEnds(t);
    AYearBefore(n, t, t - 365 * DAY, now);
  }

  lemma LastMinuteRecurs(t: int)
    requires t == LAST_MINUTE * MINUTE
    ensures t >= 365 * DAY && t / MINUTE == LAST_MINUTE && Floor(t) == t && Fires(CronAt(t), t - 365 * DAY)
  {
    LastDays();
    WholeMinutes(LAST_MINUTE);
    WholeMinutes(LAST_MINUTE - 365 * MINUTES_A_DAY);
    SameMinute(Date(MAX_YEAR, 12, 31), 1439 * MINUTE, t);
    SameMinute(Date(MAX_YEAR - 1, 12, 31), 1439 * MINUTE, t - 365 * DAY);
  }

  lemma SameMinute(d: Date, tod: int, t: int)
    requires Exists(d) && 0 <= tod < DAY && t == DayNumber(d) * DAY + tod
    ensures t >= 0 && CronAt(t) == Cron(tod / MINUTE % 60, tod / MINUTE / 60, d.day, d.month)
  {
    DateOfNumber(d);
    SplitDay(t, DayNumber(d), tod);
  }

  lemma AYearBefore(n: int, t: int, u: int, now: int)
    requires n > MAX_ONE_SHOT_MINUTES && now >= 0 && u >= 0
    requires now + n * MINUTE == t && Floor(t) == t && u == t - 365 * DAY
    requires Fires(CronAt(t), u)
    ensures now < Floor(t) && !FirstAfter(CronAt(t), now, Floor(t))
  {
    LongerThanAYear(n);
    NotFirst(CronAt(t), now, t, u);
  }

  lemma LongerThanAYear(n: int)
    requires n > MAX_ONE_SHOT_MINUTES
    ensures n * MINUTE > 365 * DAY > 0
  {
  }

  lemma NotFirst(c: Cron, now: int, t: int, u: int)
    requires 0 <= now < u < t && Fires(c, u)
    ensures !FirstAfter(c, now, t)
  {
  }

  // ---- A year on ----

  method AdvanceByOneYear(c: Date) returns (r: Option<Date>)
    requires Exists(c) && c.year <= MAX_YEAR
    ensures r.Some? ==> NextYearOf(c, r.value) && r.value.year <= MAX_YEAR
    ensures r.None? <==> c.year == MAX_YEAR || (c.month == 2 && c.day == 29 && c.year == 9996)
  {
    var targetYear := c.year + 1;
    for offset := 0 to 8
      invariant forall y :: c.year < y < targetYear + offset && y <= MAX_YEAR ==> !Exists(Date(y, c.month, c.day))
    {
      var next := Date(targetYear + offset, c.month, c.day);
      if next.year <= MAX_YEAR && Exists(next) {
        NotAtTheEnd(c, next);
        return Some(next);
      }
    }
    SomeYearOn(c);
    r := None;
  }

  /** The same month and day in the least later year that has it. */
  ghost predicate NextYearOf(c: Date, d: Date) {
    && Exists(d) && d.month == c.month && d.day == c.day && d.year > c.year
    && forall y :: c.year < y < d.year ==> !Exists(Date(y, c.month, c.day))
  }

  /** Eight tries always suffice, unless the calendar itself runs out. */
  lemma SomeYearOn(c: Date)
    requires Exists(c)
    ensures exists y :: c.year < y <= c.year + 8 && Exists(Date(y, c.month, c.day))
    ensures !(c.month == 2 && c.day == 29) ==> Exists(Date(c.year + 1, c.month, c.day))
    ensures c.month == 2 && c.day == 29 && c.year < 9996 ==>
      exists y :: c.year < y <= c.year + 8 && y <= MAX_YEAR && Exists(Date(y, c.month, c.day))
  {
    if c.month == 2 && c.day == 29 {
      LeapWithinEight(c.year);
      var y := if Leap(c.year + 4) then c.year + 4 else c.year + 8;
      assert Exists(Date(y, 2, 29));
    } else {
      assert Exists(Date(c.year + 1, c.month, c.day));
    }
  }

  lemma LeapWithinEight(y: int)
    requires Leap(y)
    ensures Leap(y + 4) || Leap(y + 8)
    ensures 9988 <= y < 9996 ==> Leap(y + 4)
  {
  }

  lemma NotAtTheEnd(c: Date, next: Date)
    requires Exists(c) && Exists(next) && next.month == c.month && next.day == c.day && c.year < next.year <= MAX_YEAR
    ensures !(c.year == MAX_YEAR || (c.month == 2 && c.day == 29 && c.year == 9996))
  {
  }

  /** And eight are needed: from 29 February 2096 the next is in 2104. */
  lemma EightTriesAreNeeded()
    ensures NextYearOf(Date(2096, 2, 29), Date(2104, 2, 29))
  {
  }

  // ---- The next occurrence, in a zone of fixed offset ----

  function TimeOfDay(hour: int, minute: int): int { (hour * 60 + minute) * MINUTE }

  /** The instant reads this time of day there. */
  predicate AtTime(t: int, offset: int, timeOfDay: int) {
    (t + offset) % DAY == timeOfDay
  }

  // Monday is 0; the first of January of year 1 was a Monday.
  predicate OnWeekday(t: int, offset: int, weekday: int) {
    (t + offset) / DAY % 7 == weekday
  }

  // The cron digit counts from Sunday.
  function WeekdayOfCron(dow: int): int { (dow + 6) % 7 }

  /** Against the calendar itself: the seventh of January 2024 was a Sunday, and the days from it on
      are those the digits 0 to 6 stand for, in this week and every other. */
  lemma CronWeekdays(weeks: int, dow: int)
    requires 0 <= dow <= 6
    ensures OnWeekday((DayNumber(Date(2024, 1, 7)) + weeks * 7 + dow) * DAY, 0, WeekdayOfCron(dow))
  {
    var sunday := DayNumber(Date(2024, 1, 7));
    assert sunday % 7 == 6;
    SplitDay((sunday + weeks * 7 + dow) * DAY, sunday + weeks * 7 + dow, 0);
    assert (sunday + weeks * 7 + dow) % 7 == (6 + dow) % 7;
  }

  lemma SplitDay(x: int, day: int, timeOfDay: int)
    requires 0 <= timeOfDay < DAY && x == day * DAY + timeOfDay
    ensures x / DAY == day && x % DAY == timeOfDay
  {
  }

  lemma SameTimeDaysApart(x: int, y: int)
    requires x % DAY == y % DAY
    ensures y - x == (y / DAY - x / DAY) * DAY
  {
    DayParts(x);
    DayParts(y);
  }

  // "09:00": today at that time, or tomorrow once it has passed.
  method NextTime(now: int, offset: int, hour: int, minute: int) returns (first: int, wasPast: bool)
    requires 0 <= hour <= 23 && 0 <= minute <= 59
    ensures first > now && AtTime(first, offset, TimeOfDay(hour, minute))
    ensures forall u :: now < u < first ==> !AtTime(u, offset, TimeOfDay(hour, minute))
    ensures wasPast <==> (now + offset) / DAY * DAY + TimeOfDay(hour, minute) <= now + offset
  {
    var local, tod := now + offset, TimeOfDay(hour, minute);
    var today := local / DAY;
    var candidate := today * DAY + tod;
    wasPast := candidate <= local;
    if wasPast { candidate := candidate + DAY; }
    first := candidate - offset;
    SplitDay(candidate, if wasPast then today + 1 else today, tod);
    forall u | now < u < first ensures !AtTime(u, offset, tod) {
      if AtTime(u, offset, tod) { SameTimeDaysApart(u + offset, candidate); }
    }
  }

  // "Mon 09:00": the coming weekday at that time, a week on if that is today and has passed.
  method NextWeekday(now: int, offset: int, dow: int, hour: int, minute: int) returns (first: int, wasPast: bool)
    requires 0 <= dow <= 6 && 0 <= hour <= 23 && 0 <= minute <= 59
    ensures first > now && AtTime(first, offset, TimeOfDay(hour, minute)) &&
      OnWeekday(first, offset, WeekdayOfCron(dow))
    ensures forall u :: now < u < first ==>
      !(AtTime(u, offset, TimeOfDay(hour, minute)) && OnWeekday(u, offset, WeekdayOfCron(dow)))
  {
    var local, tod, weekday := now + offset, TimeOfDay(hour, minute), WeekdayOfCron(dow);
    var today := local / DAY;
    var ahead := (weekday - today % 7) % 7;
    var candidate := today * DAY + tod;
    candidate := candidate + ahead * DAY;
    wasPast := candidate <= local;
    if wasPast { candidate := candidate + 7 * DAY; }
    first := candidate - offset;
    ghost var day := if wasPast then today + ahead + 7 else today + ahead;
    SplitDay(candidate, day, tod);
    SplitDay(local, today, local % DAY);
    WeekdayAhead(today, weekday, ahead);
    forall u | now < u < first ensures !(AtTime(u, offset, tod) && OnWeekday(u, offset, weekday)) {
      if AtTime(u, offset, tod) && OnWeekday(u, offset, weekday) {
        SameTimeDaysApart(u + offset, candidate);
        NoWeekdayBetween(today, weekday, ahead, day, (u + offset) / DAY, wasPast, u + offset, local, tod);
      }
    }
  }

  lemma WeekdayAhead(today: int, weekday: int, ahead: int)
    requires 0 <= weekday < 7 && ahead == (weekday - today % 7) % 7
    ensures 0 <= ahead < 7 && (today + ahead) % 7 == weekday && (today + ahead + 7) % 7 == weekday
  {
  }

  lemma NoWeekdayBetween(today: int, weekday: int, ahead: int, day: int, other: int, wasPast: bool, x: int, local: int,
                         tod: int)
    requires 0 <= ahead < 7 && (today + ahead) % 7 == weekday && other % 7 == weekday
    requires 0 <= tod < DAY && x == other * DAY + tod && today * DAY <= local < (today + 1) * DAY
    requires day == if wasPast then today + ahead + 7 else today + ahead
    requires wasPast <==> (today + ahead) * DAY + tod <= local
    ensures !(local < x && other < day)
  {
    SevenApart(other, today + ahead);
    SevenApart(other, today + ahead + 7);
  }

  lemma SevenApart(a: int, b: int)
    requires a % 7 == b % 7
    ensures a == b || a <= b - 7 || a >= b + 7
  {
  }

  /** A local instant in the range that reads the time of day on the month and day of `date`. */
  predicate Between(x: int, local: int, candidate: int, date: Date, tod: int) {
    && local < x < candidate && x >= 0 && x % DAY == tod
    && DateOf(x / DAY).month == date.month && DateOf(x / DAY).day == date.day
  }

  /** The first such instant. */
  ghost predicate NextOn(local: int, candidate: int, date: Date, tod: int) {
    && candidate > local && candidate >= 0 && candidate % DAY == tod
    && DateOf(candidate / DAY).month == date.month && DateOf(candidate / DAY).day == date.day
    && forall x :: !Between(x, local, candidate, date, tod)
  }

  /** This year's date has passed, and the calendar has no year left that has it. */
  predicate RunsOut(local: int, date: Date, tod: int)
    requires Exists(date)
  {
    && (date.year == MAX_YEAR || (date.month == 2 && date.day == 29 && date.year == 9996))
    && DayNumber(date) * DAY + tod <= local
  }

  lemma TimeFits(hour: int, minute: int)
    requires 0 <= hour <= 23 && 0 <= minute <= 59
    ensures 0 <= TimeOfDay(hour, minute) < DAY
  {
  }

  /** The first moment after `local` on that date and time; none exactly when this year lacks the date
      or no later year of the calendar has it. */
  ghost predicate FirstOnDate(local: int, month: int, day: int, tod: int, next: Option<int>)
    requires local >= 0
  {
    var thisYear := Date(DateOf(local / DAY).year, month, day);
    && (next.None? <==> !Exists(thisYear) || RunsOut(local, thisYear, tod))
    && (next.Some? ==> NextOn(local, next.value, thisYear, tod))
  }

  // "Apr 15 09:00": this year, or the next year that has the date. A date this year does not have
  // is refused, although a later year may have it.
  method NextDate(now: int, offset: int, month: int, day: int, hour: int, minute: int) returns (first: Option<int>)
    requires now + offset >= 0 && DateOf((now + offset) / DAY).year <= MAX_YEAR
    requires 1 <= month <= 12 && 0 <= hour <= 23 && 0 <= minute <= 59
    ensures FirstOnDate(now + offset, month, day, TimeOfDay(hour, minute),
      if first.None? then None else Some(first.value + offset))
  {
    TimeFits(hour, minute);
    var local := now + offset;
    var candidate := NextLocal(local, month, day, TimeOfDay(hour, minute));
    if candidate.None? { return None; }
    first := Some(candidate.value - offset);
    assert first.value + offset == candidate.value;
  }

  method NextLocal(local: int, month: int, day: int, tod: int) returns (next: Option<int>)
    requires local >= 0 && DateOf(local / DAY).year <= MAX_YEAR && 1 <= month <= 12 && 0 <= tod < DAY
    ensures FirstOnDate(local, month, day, tod, next)
  {
    var date := Date(DateOf(local / DAY).year, month, day);
    if !Exists(date) { return None; }
    var candidate := DayNumber(date) * DAY + tod;
    if candidate <= local {
      next := NextYears(local, date, tod);
    } else {
      ThisYearIsNext(local, date, tod, candidate);
      next := Some(candidate);
    }
  }

  method NextYears(local: int, date: Date, tod: int) returns (next: Option<int>)
    requires local >= 0 && Exists(date) && date.year == DateOf(local / DAY).year <= MAX_YEAR && 0 <= tod < DAY
    requires DayNumber(date) * DAY + tod <= local
    ensures next.None? <==> RunsOut(local, date, tod)
    ensures next.Some? ==> NextOn(local, next.value, date, tod)
  {
    var later := AdvanceByOneYear(date);
    if later.None? { return None; }
    var candidate := DayNumber(later.value) * DAY + tod;
    NextYearIsNext(local, date, later.value, tod, candidate);
    next := Some(candidate);
  }

  lemma OccurrenceAt(date: Date, tod: int, c: int)
    requires Exists(date) && 0 <= tod < DAY && c == DayNumber(date) * DAY + tod
    ensures c >= 0 && c / DAY == DayNumber(date) && c % DAY == tod && DateOf(c / DAY) == date
  {
    DateOfNumber(date);
    SplitDay(c, DayNumber(date), tod);
  }

  lemma DaysInOrder(x: int, y: int)
    requires x < y && x % DAY == y % DAY
    ensures x / DAY < y / DAY
  {
    SameTimeDaysApart(x, y);
  }

  lemma YearsInOrder(d: Date, e: Date)
    requires Exists(d) && Exists(e) && DayNumber(d) <= DayNumber(e)
    ensures d.year <= e.year
  {
    DayInYear(d);
    DayInYear(e);
    if d.year > e.year { YearsGrow(e.year + 1, d.year); }
  }

  // Where an instant before the candidate would have to lie.
  lemma BetweenYears(x: int, local: int, candidate: int, date: Date, tod: int, end: Date)
    requires local >= 0 && Between(x, local, candidate, date, tod)
    requires Exists(end) && end.month == date.month && end.day == date.day && 0 <= tod < DAY
    requires candidate == DayNumber(end) * DAY + tod
    ensures DateOf(local / DAY).year <= DateOf(x / DAY).year < end.year
  {
    var d := DateOf(x / DAY);
    OccurrenceAt(end, tod, candidate);
    DaysInOrder(x, candidate);
    YearsInOrder(d, end);
    DaysWithin(local, x);
    YearsInOrder(DateOf(local / DAY), d);
  }

  lemma DaysWithin(x: int, y: int)
    requires x <= y
    ensures x / DAY <= y / DAY
  {
    DayParts(x);
    DayParts(y);
  }

  lemma ThisYearIsNext(local: int, date: Date, tod: int, candidate: int)
    requires local >= 0 && Exists(date) && date.year == DateOf(local / DAY).year && 0 <= tod < DAY
    requires candidate == DayNumber(date) * DAY + tod && candidate > local
    ensures NextOn(local, candidate, date, tod)
  {
    OccurrenceAt(date, tod, candidate);
    forall x ensures !Between(x, local, candidate, date, tod) {
      if Between(x, local, candidate, date, tod) { BetweenYears(x, local, candidate, date, tod, date); }
    }
  }

  lemma PastThisYear(local: int, date: Date, next: Date, tod: int, candidate: int)
    requires local >= 0 && Exists(date) && date.year == DateOf(local / DAY).year && 0 <= tod < DAY
    requires Exists(next) && next.year > date.year && candidate == DayNumber(next) * DAY + tod
    ensures candidate > local
  {
    OccurrenceAt(next, tod, candidate);
    if candidate <= local {
      DaysWithin(candidate, local);
      YearsInOrder(next, DateOf(local / DAY));
    }
  }

  lemma NotThisYear(x: int, local: int, candidate: int, date: Date, tod: int)
    requires Exists(date) && 0 <= tod < DAY && DayNumber(date) * DAY + tod <= local
    requires Between(x, local, candidate, date, tod)
    ensures DateOf(x / DAY) != date
  {
    DayParts(x);
  }

  lemma NextYearIsNext(local: int, date: Date, next: Date, tod: int, candidate: int)
    requires local >= 0 && Exists(date) && date.year == DateOf(local / DAY).year && 0 <= tod < DAY
    requires DayNumber(date) * DAY + tod <= local && NextYearOf(date, next) && candidate == DayNumber(next) * DAY + tod
    ensures NextOn(local, candidate, date, tod)
  {
    OccurrenceAt(next, tod, candidate);
    PastThisYear(local, date, next, tod, candidate);
    forall x ensures !Between(x, local, candidate, date, tod) {
      if Between(x, local, candidate, date, tod) {
        BetweenYears(x, local, candidate, date, tod, next);
        NotThisYear(x, local, candidate, date, tod);
      }
    }
  }
}
