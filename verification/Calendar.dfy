/** Quota cycles on the proleptic Gregorian calendar. Instants are milliseconds since 1970-01-01 UTC; a zone is a
    fixed offset in milliseconds; months are counted from January 1970, so "month + 1" is what a normalised date is. */
module Calendar {
  import opened Domain

  const DAY: int := 86_400_000

  predicate IsLeap(year: int) { year % 4 == 0 && (year % 100 != 0 || year % 400 == 0) }

  function MonthLength(month: int): (days: int)
    ensures 28 <= days <= 31
  {
    var m := month % 12;
    if m == 1 then if IsLeap(1970 + month / 12) then 29 else 28
    else if m == 3 || m == 5 || m == 8 || m == 10 then 30
    else 31
  }

  /** The day number of the first of a month. */
  function MonthStart(month: int): int
    decreases if month < 0 then -month else month
  {
    if month == 0 then 0
    else if month > 0 then MonthStart(month - 1) + MonthLength(month - 1)
    else MonthStart(month + 1) - MonthLength(month)
  }

  lemma MonthStartStep(month: int)
    ensures MonthStart(month + 1) == MonthStart(month) + MonthLength(month)
  {
  }

  lemma {:induction false} MonthStartGrows(a: int, b: int)
    requires a <= b
    ensures MonthStart(a) + 28 * (b - a) <= MonthStart(b)
    decreases b - a
  {
    if a < b {
      MonthStartStep(a);
      MonthStartGrows(a + 1, b);
    }
  }

  // ---- the calendar in closed form ----

  /** Leap years up to and including a year: every fourth, not every hundredth, but every four hundredth. */
  function Leaps(year: int): int { year / 4 - year / 100 + year / 400 }

  lemma OneLeapAtATime(year: int)
    ensures Leaps(year) == Leaps(year - 1) + if IsLeap(year) then 1 else 0
  {
    Quotients(year, 4);
    Quotients(year, 100);
    Quotients(year, 400);
    Multiples(year);
  }

  lemma Multiples(year: int)
    ensures year % 400 == 0 ==> year % 100 == 0
    ensures year % 100 == 0 ==> year % 4 == 0
  {
    Divides(year, 400, 100, 4);
    Divides(year, 100, 4, 25);
  }

  lemma Divides(year: int, n: int, m: int, times: int)
    requires m > 0 && n == m * times && times > 0
    ensures year % n == 0 ==> year % m == 0
  {
    if year % n == 0 {
      var q := year / n;
      assert year == n * q == m * (times * q);
      Unique(year, m, times * q, 0);
    }
  }

  lemma Quotients(year: int, n: int)
    requires n in {4, 100, 400}
    ensures year / n == (year - 1) / n + if year % n == 0 then 1 else 0
  {
  }

  /** Days before a month of a year that is not a leap year, and of one that is. */
  const BEFORE_MONTH: seq<int> := [0, 31, 59, 90, 120, 151, 181, 212, 243, 273, 304, 334, 365]

  lemma {:induction false} WithinYear(years: int, month: nat)
    requires month <= 12
    ensures MonthStart(12 * years + month) ==
            MonthStart(12 * years) + BEFORE_MONTH[month] + if month >= 2 && IsLeap(1970 + years) then 1 else 0
  {
    if month > 0 {
      hide MonthStart, IsLeap, MonthLength;
      WithinYear(years, month - 1);
      MonthStartStep(12 * years + month - 1);
      Unique(12 * years + (month - 1), 12, years, month - 1);
      LengthOf(12 * years + (month - 1), years, month - 1);
    }
  }

  lemma LengthOf(month: int, years: int, m: nat)
    requires month % 12 == m && month / 12 == years
    ensures MonthLength(month) == BEFORE_MONTH[m + 1] - BEFORE_MONTH[m] + if m == 1 && IsLeap(1970 + years) then 1 else 0
  {
  }

  lemma {:induction false} YearStart(years: int)
    ensures MonthStart(12 * years) == 365 * years + Leaps(1969 + years) - 477
    decreases if years < 0 then -years else years
  {
    hide IsLeap;
    if years > 0 {
      YearStart(years - 1);
      WithinYear(years - 1, 12);
      OneLeapAtATime(1969 + years);
      assert 12 * (years - 1) + 12 == 12 * years;
    } else if years < 0 {
      YearStart(years + 1);
      WithinYear(years, 12);
      OneLeapAtATime(1970 + years);
      assert 12 * years + 12 == 12 * (years + 1);
    }
  }

  /** The first of every month, of every year, as a formula of the year and the month. */
  lemma MonthStartIs(years: int, month: nat)
    requires month < 12
    ensures MonthStart(12 * years + month) ==
            365 * years + Leaps(1969 + years) - 477 + BEFORE_MONTH[month] + if month >= 2 && IsLeap(1970 + years) then 1 else 0
  {
    YearStart(years);
    WithinYear(years, month);
  }

  /** The calendar repeats after 400 years, which have 146097 days. */
  lemma FourCenturies(years: int, month: nat)
    requires month < 12
    ensures MonthStart(12 * (years + 400) + month) == MonthStart(12 * years + month) + 146097
  {
    hide MonthStart, Leaps, IsLeap;
    MonthStartIs(years, month);
    MonthStartIs(years + 400, month);
    LeapsRepeat(1969 + years);
    LeapsRepeat(1970 + years);
  }

  lemma LeapsRepeat(year: int)
    ensures Leaps(year + 400) == Leaps(year) + 97 && IsLeap(year + 400) == IsLeap(year)
  {
    Later(year, 4, 100);
    Later(year, 100, 4);
    Later(year, 400, 1);
  }

  lemma Later(year: int, n: int, times: int)
    requires n > 0
    ensures (year + n * times) / n == year / n + times && (year + n * times) % n == year % n
  {
    var q, m := year / n, year % n;
    assert year + n * times == n * (q + times) + m;
    Unique(year + n * times, n, q + times, m);
  }

  lemma Unique(a: int, n: int, q: int, m: int)
    requires n > 0 && 0 <= m < n && a == n * q + m
    ensures a / n == q && a % n == m
  {
    Scaled(n, a / n - q);
    assert n * (a / n - q) == m - a % n;
  }

  lemma Scaled(n: int, d: int)
    requires n > 0
    ensures d >= 1 ==> n * d >= n
    ensures d <= -1 ==> n * d <= -n
  {
  }

  /** Some dates: 1970-01-01, 1969-12-01, 2000-03-01, 1900-03-01, 2024-03-01, 2100-03-01. */
  lemma KnownDates()
    ensures MonthStart(0) == 0 && MonthStart(-1) == -31 && MonthStart(12 * 30 + 2) == 11017
    ensures MonthStart(12 * -70 + 2) == -25508 && MonthStart(12 * 54 + 2) == 19783 && MonthStart(12 * 130 + 2) == 47541
  {
    hide MonthStart;
    MonthStartIs(0, 0);
    MonthStartIs(-1, 11);
    MonthStartIs(30, 2);
    MonthStartIs(-70, 2);
    MonthStartIs(54, 2);
    MonthStartIs(130, 2);
    assert Leaps(1969) == 477;
  }

  /** The month a day falls in, reached by stepping from a month whose first day is `MonthStart(month)`. */
  function MonthFrom(month: int, day: int): (r: int)
    requires day >= MonthStart(month)
    ensures MonthStart(r) <= day < MonthStart(r + 1)
    decreases day - MonthStart(month)
  {
    MonthStartStep(month);
    if day < MonthStart(month + 1) then month else MonthFrom(month + 1, day)
  }

  function MonthBefore(month: int, day: int): (r: int)
    ensures r <= month && MonthStart(r) <= day
    decreases MonthStart(month) - day
  {
    if MonthStart(month) <= day then month
    else
      MonthStartStep(month - 1);
      MonthBefore(month - 1, day)
  }

  function MonthOf(day: int): (r: int)
    ensures MonthStart(r) <= day < MonthStart(r + 1)
  {
    MonthFrom(MonthBefore(0, day), day)
  }

  lemma MonthIsUnique(month: int, day: int)
    requires MonthStart(month) <= day < MonthStart(month + 1)
    ensures MonthOf(day) == month
  {
    var r := MonthOf(day);
    if r < month {
      MonthStartGrows(r + 1, month);
    } else if r > month {
      MonthStartGrows(month + 1, r);
    }
  }

  // ---- dates in a zone ----

  function LocalDay(at: int, offset: int): int { (at + offset) / DAY }

  /** Midnight, local time, of the given day of a month; a day beyond the month's end spills over. */
  function Midnight(month: int, dayOfMonth: int, offset: int): int {
    (MonthStart(month) + dayOfMonth - 1) * DAY - offset
  }

  lemma MidnightIsLocal(month: int, dayOfMonth: int, offset: int)
    requires 1 <= dayOfMonth <= 28
    ensures LocalDay(Midnight(month, dayOfMonth, offset), offset) == MonthStart(month) + dayOfMonth - 1
    ensures MonthOf(LocalDay(Midnight(month, dayOfMonth, offset), offset)) == month
  {
    MonthStartStep(month);
    MonthIsUnique(month, MonthStart(month) + dayOfMonth - 1);
  }

  /** The boundary of the month after the one `start` falls in. */
  function NextCycleStart(start: int, offset: int, resetDay: int): int {
    Midnight(MonthOf(LocalDay(start, offset)) + 1, resetDay, offset)
  }

  /** The cycle [start, end) around an instant; None for an impossible reset day. */
  function CycleBounds(now: int, offset: int, resetDay: int): Option<(int, int)> {
    if resetDay < 1 || resetDay > 28 then None
    else
      var month := MonthOf(LocalDay(now, offset));
      var candidate := Midnight(month, resetDay, offset);
      var start := if now < candidate then Midnight(month - 1, resetDay, offset) else candidate;
      var end := NextCycleStart(start, offset, resetDay);
      if end <= start then None else Some((start, end))
  }

  /** The month whose boundary opens the cycle around an instant. */
  function CycleMonth(now: int, offset: int, resetDay: int): int {
    var month := MonthOf(LocalDay(now, offset));
    if now < Midnight(month, resetDay, offset) then month - 1 else month
  }

  predicate IsResetDay(day: int) { 1 <= day <= 28 }

  lemma BoundariesGrow(a: int, b: int, offset: int, resetDay: int)
    requires a < b
    ensures Midnight(a, resetDay, offset) + 28 * DAY <= Midnight(b, resetDay, offset)
  {
    MonthStartGrows(a, b);
    var x, y := MonthStart(a) + resetDay - 1, MonthStart(b) + resetDay - 1;
    assert x + 28 <= y;
    assert x * DAY + 28 * DAY <= y * DAY;
  }

  lemma BoundsAreMidnights(now: int, offset: int, resetDay: int)
    requires IsResetDay(resetDay)
    ensures var m := CycleMonth(now, offset, resetDay);
            CycleBounds(now, offset, resetDay) == Some((Midnight(m, resetDay, offset), Midnight(m + 1, resetDay, offset)))
  {
    hide Midnight, LocalDay;
    var m := CycleMonth(now, offset, resetDay);
    MidnightIsLocal(m, resetDay, offset);
    BoundariesGrow(m, m + 1, offset, resetDay);
    assert DAY > 0;
  }

  lemma InstantInItsMonth(now: int, offset: int)
    ensures var m := MonthOf(LocalDay(now, offset)); Midnight(m, 1, offset) <= now < Midnight(m + 1, 1, offset)
  {
    var day := LocalDay(now, offset);
    var m := MonthOf(day);
    assert day * DAY <= now + offset < (day + 1) * DAY;
    assert MonthStart(m) * DAY <= day * DAY;
    assert (day + 1) * DAY <= MonthStart(m + 1) * DAY;
  }

  lemma CycleMonthContains(now: int, offset: int, resetDay: int)
    requires IsResetDay(resetDay)
    ensures var m := CycleMonth(now, offset, resetDay);
            Midnight(m, resetDay, offset) <= now < Midnight(m + 1, resetDay, offset)
  {
    var m := MonthOf(LocalDay(now, offset));
    InstantInItsMonth(now, offset);
    assert Midnight(m + 1, 1, offset) <= Midnight(m + 1, resetDay, offset);
    MonthStartStep(m - 1);
    var before := Midnight(m - 1, resetDay, offset);
    assert MonthStart(m - 1) + resetDay - 1 <= MonthStart(m);
    assert before <= Midnight(m, 1, offset);
  }

  lemma CycleMonthIsUnique(now: int, m: int, offset: int, resetDay: int)
    requires IsResetDay(resetDay) && Midnight(m, resetDay, offset) <= now < Midnight(m + 1, resetDay, offset)
    ensures CycleMonth(now, offset, resetDay) == m
  {
    var r := CycleMonth(now, offset, resetDay);
    CycleMonthContains(now, offset, resetDay);
    if r < m {
      if r + 1 < m { BoundariesGrow(r + 1, m, offset, resetDay); }
    } else if r > m {
      if m + 1 < r { BoundariesGrow(m + 1, r, offset, resetDay); }
    }
  }

  /** A cycle contains the instants it is computed for, and no others: every instant gets the same pair if and only
      if it lies inside. */
  lemma CyclesPartitionTime(now: int, other: int, offset: int, resetDay: int)
    requires IsResetDay(resetDay)
    ensures var bounds := CycleBounds(now, offset, resetDay);
            && bounds.Some?
            && bounds.value.0 <= now < bounds.value.1
            && (CycleBounds(other, offset, resetDay) == bounds <==> bounds.value.0 <= other < bounds.value.1)
  {
    hide CycleBounds, CycleMonth, Midnight;
    BoundsAreMidnights(now, offset, resetDay);
    BoundsAreMidnights(other, offset, resetDay);
    CycleMonthContains(now, offset, resetDay);
    CycleMonthContains(other, offset, resetDay);
    var m := CycleMonth(now, offset, resetDay);
    if Midnight(m, resetDay, offset) <= other < Midnight(m + 1, resetDay, offset) {
      CycleMonthIsUnique(other, m, offset, resetDay);
    }
  }

  /** Consecutive cycles abut, across month and year ends alike: the end of one opens the next, and the last
      instant before a cycle belongs to the cycle that ends where it starts. */
  lemma CyclesAbut(now: int, offset: int, resetDay: int)
    requires IsResetDay(resetDay)
    ensures var bounds := CycleBounds(now, offset, resetDay);
            && bounds.Some?
            && CycleBounds(bounds.value.1, offset, resetDay) == Some((bounds.value.1, NextCycleStart(bounds.value.1, offset, resetDay)))
            && CycleBounds(bounds.value.0 - 1, offset, resetDay).Some?
            && CycleBounds(bounds.value.0 - 1, offset, resetDay).value.1 == bounds.value.0
  {
    hide CycleBounds, CycleMonth, Midnight;
    var m := CycleMonth(now, offset, resetDay);
    BoundsAreMidnights(now, offset, resetDay);
    NeighboursOf(m, offset, resetDay);
  }

  lemma NeighboursOf(m: int, offset: int, resetDay: int)
    requires IsResetDay(resetDay)
    ensures var start, end := Midnight(m, resetDay, offset), Midnight(m + 1, resetDay, offset);
            && CycleBounds(end, offset, resetDay) == Some((end, NextCycleStart(end, offset, resetDay)))
            && CycleBounds(start - 1, offset, resetDay) == Some((Midnight(m - 1, resetDay, offset), start))
  {
    hide CycleBounds, CycleMonth, Midnight, LocalDay, MonthStart;
    var start, end := Midnight(m, resetDay, offset), Midnight(m + 1, resetDay, offset);
    BoundariesGrow(m - 1, m, offset, resetDay);
    BoundariesGrow(m + 1, m + 2, offset, resetDay);
    assert DAY > 0;
    CycleMonthIsUnique(end, m + 1, offset, resetDay);
    BoundsAreMidnights(end, offset, resetDay);
    MidnightIsLocal(m + 1, resetDay, offset);
    CycleMonthIsUnique(start - 1, m - 1, offset, resetDay);
    BoundsAreMidnights(start - 1, offset, resetDay);
  }

  // ---- the bounds computed when a user is created ----

  /** Adds months to a date, keeping the day of the month and the time of day; an overlong day spills over. */
  function AddMonths(at: int, offset: int, months: int): int {
    var day := LocalDay(at, offset);
    var month := MonthOf(day);
    var timeOfDay := at + offset - day * DAY;
    (MonthStart(month + months) + (day - MonthStart(month))) * DAY + timeOfDay - offset
  }

  function InitialCycleBounds(now: int, offset: int, resetDay: int): Option<(int, int)> {
    var candidate := Midnight(MonthOf(LocalDay(now, offset)), resetDay, offset);
    var start := if now < candidate then AddMonths(candidate, offset, -1) else candidate;
    var end := AddMonths(start, offset, 1);
    if end <= start then None else Some((start, end))
  }

  lemma AddMonthsToBoundary(month: int, offset: int, resetDay: int, months: int)
    requires IsResetDay(resetDay)
    ensures AddMonths(Midnight(month, resetDay, offset), offset, months) == Midnight(month + months, resetDay, offset)
  {
    MidnightIsLocal(month, resetDay, offset);
  }

  /** A user's first cycle is the one the rollover would compute. */
  lemma FirstCycleAgrees(now: int, offset: int, resetDay: int)
    requires IsResetDay(resetDay)
    ensures InitialCycleBounds(now, offset, resetDay) == CycleBounds(now, offset, resetDay)
  {
    hide Midnight, AddMonths, LocalDay;
    var m := MonthOf(LocalDay(now, offset));
    AddMonthsToBoundary(m, offset, resetDay, -1);
    AddMonthsToBoundary(CycleMonth(now, offset, resetDay), offset, resetDay, 1);
    BoundsAreMidnights(now, offset, resetDay);
    BoundariesGrow(CycleMonth(now, offset, resetDay), CycleMonth(now, offset, resetDay) + 1, offset, resetDay);
  }

  /** The start of the local day an instant falls in. */
  function DayStart(at: int, offset: int): int { LocalDay(at, offset) * DAY - offset }
}
