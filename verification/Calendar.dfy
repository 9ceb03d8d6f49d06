/** Calendar arithmetic of `src/server/quota.ts`: JavaScript UTC dates, the conversion from local time, and the
    accounting windows. Instants are milliseconds; a zone maps an instant to its offset in milliseconds. */
module Calendar {
  import opened IpCidr

  type Instant = int
  type Zone = Instant -> int

  const DAY_MS := 86_400_000

  // ---------------------------------------------------------------------------------------------
  // Days and civil dates, as ECMAScript defines them

  /** The day number of 1 January. */
  function DayFromYear(y: int): int {
    365 * (y - 1970) + (y - 1969) / 4 - (y - 1901) / 100 + (y - 1601) / 400
  }

  predicate Leap(y: int) {
    y % 4 == 0 && (y % 100 != 0 || y % 400 == 0)
  }

  /** Days of the year before month `m`, counted from zero; `m == 12` is the whole year. */
  function DaysBefore(m: int, leap: bool): int
    requires 0 <= m <= 12
  {
    [0, 31, 59, 90, 120, 151, 181, 212, 243, 273, 304, 334, 365][m] + if leap && m >= 2 then 1 else 0
  }

  /** `MakeDay`: months outside 1 to 12 carry into the year, days outside the month into the month. */
  function MakeDay(year: int, month: int, day: int): int {
    var y, m := year + (month - 1) / 12, (month - 1) % 12;
    DayFromYear(y) + DaysBefore(m, Leap(y)) + day - 1
  }

  lemma FourthYears(y: int)
    ensures (y - 1968) / 4 - (y - 1969) / 4 == if y % 4 == 0 then 1 else 0
  {
  }

  lemma Centuries(y: int)
    ensures (y - 1900) / 100 - (y - 1901) / 100 == if y % 100 == 0 then 1 else 0
  {
  }

  lemma FourthCenturies(y: int)
    ensures (y - 1600) / 400 - (y - 1601) / 400 == if y % 400 == 0 then 1 else 0
  {
  }

  lemma LeapCases(y: int)
    ensures y % 100 == 0 ==> y % 4 == 0
    ensures y % 400 == 0 ==> y % 100 == 0
  {
  }

  lemma LeapCount(y: int)
    ensures (if y % 4 == 0 then 1 else 0) - (if y % 100 == 0 then 1 else 0) + (if y % 400 == 0 then 1 else 0)
              == if Leap(y) then 1 else 0
  {
    LeapCases(y);
  }

  lemma YearLength(y: int)
    ensures DayFromYear(y + 1) == DayFromYear(y) + if Leap(y) then 366 else 365
  {
    FourthYears(y);
    Centuries(y);
    FourthCenturies(y);
    LeapCases(y);
    hide Leap;
    LeapCount(y);
  }

  lemma MonthTable(month: int, leap: bool)
    requires 1 <= month <= 12
    ensures DaysBefore(0, leap) == 0
    ensures DaysBefore(month, leap) - DaysBefore(month - 1, leap)
            == if month in {4, 6, 9, 11} then 30 else if month != 2 then 31 else if leap then 29 else 28
  {
  }

  lemma YearStartsAtZero(leap: bool)
    ensures DaysBefore(0, leap) == 0 && DaysBefore(12, leap) == if leap then 366 else 365
  {
  }

  lemma Anchors(year: int)
    ensures MakeDay(1970, 1, 1) == 0
    ensures Leap(year) <==> year % 400 == 0 || (year % 4 == 0 && year % 100 != 0)
  {
    LeapCases(year);
  }

  /** The first day of month number `k`, counting twelve to a year from January of year 0. */
  function MonthStart(k: int): int {
    DayFromYear(k / 12) + DaysBefore(k % 12, Leap(k / 12))
  }

  function MonthIndex(year: int, month: int): int {
    12 * year + month - 1
  }

  lemma MakeDayIsMonthStart(year: int, month: int, day: int)
    ensures MakeDay(year, month, day) == MonthStart(MonthIndex(year, month)) + day - 1
  {
    var k := MonthIndex(year, month);
    assert k / 12 == year + (month - 1) / 12 && k % 12 == (month - 1) % 12;
  }

  lemma MonthLengthInYear(year: int, month: int)
    requires 1 <= month <= 12
    ensures var k := MonthIndex(year, month);
            MonthStart(k + 1) == MonthStart(k) + DaysBefore(month, Leap(year)) - DaysBefore(month - 1, Leap(year))
  {
    hide DayFromYear, DaysBefore, Leap;
    var k := MonthIndex(year, month);
    YearLength(year);
    YearStartsAtZero(Leap(year));
    YearStartsAtZero(Leap(year + 1));
    assert k / 12 == year && k % 12 == month - 1;
    if month == 12 { assert (k + 1) / 12 == year + 1 && (k + 1) % 12 == 0; }
    else { assert (k + 1) / 12 == year && (k + 1) % 12 == month; }
  }

  /** Days are counted from 1 January 1970; months have their Gregorian lengths, and every fourth year but three in four
      hundred has 29 days in February. */
  lemma GregorianMonths(year: int, month: int)
    requires 1 <= month <= 12
    ensures MakeDay(1970, 1, 1) == 0
    ensures var length := MakeDay(year, month + 1, 1) - MakeDay(year, month, 1);
            length == if month in {4, 6, 9, 11} then 30 else if month != 2 then 31
                      else if year % 400 == 0 || (year % 4 == 0 && year % 100 != 0) then 29 else 28
  {
    hide MonthStart, DaysBefore, Leap, MakeDay;
    MonthTable(month, Leap(year));
    MakeDayIsMonthStart(year, month, 1);
    MakeDayIsMonthStart(year, month + 1, 1);
    MonthLengthInYear(year, month);
    Anchors(year);
  }

  function YearDistance(n: int, y: int): nat {
    if n >= DayFromYear(y) then n - DayFromYear(y) else DayFromYear(y) - n + 1000
  }

  /** The year of day `n`, found by walking from `y`. */
  function SeekYear(n: int, y: int): (r: int)
    ensures DayFromYear(r) <= n < DayFromYear(r + 1)
    decreases YearDistance(n, y)
  {
    hide DayFromYear, Leap;
    YearLength(y);
    YearLength(y - 1);
    if n < DayFromYear(y) then SeekYear(n, y - 1)
    else if n >= DayFromYear(y + 1) then SeekYear(n, y + 1)
    else y
  }

  function SeekMonth(d: int, m: int, leap: bool): (r: int)
    requires 0 <= m <= 11 && DaysBefore(m, leap) <= d < DaysBefore(12, leap)
    ensures 0 <= r <= 11 && DaysBefore(r, leap) <= d < DaysBefore(r + 1, leap)
    decreases 12 - m
  {
    if d < DaysBefore(m + 1, leap) then m else SeekMonth(d, m + 1, leap)
  }

  datatype Parts = Parts(year: int, month: int, day: int, hour: int, minute: int, second: int)

  predicate ValidDate(year: int, month: int, day: int) {
    1 <= month <= 12 && 1 <= day <= DaysBefore(month, Leap(year)) - DaysBefore(month - 1, Leap(year))
  }

  lemma MakeDayInYear(year: int, month: int, day: int)
    requires 1 <= month <= 12
    ensures MakeDay(year, month, day) == DayFromYear(year) + DaysBefore(month - 1, Leap(year)) + day - 1
  {
    assert (month - 1) / 12 == 0 && (month - 1) % 12 == month - 1;
  }

  /** Day `d` of year `y` lies in month `m`. */
  lemma DayInMonth(y: int, m: int, d: int)
    requires 0 <= m <= 11 && DaysBefore(m, Leap(y)) <= d < DaysBefore(m + 1, Leap(y))
    ensures var day := d - DaysBefore(m, Leap(y)) + 1;
            ValidDate(y, m + 1, day) && MakeDay(y, m + 1, day) == DayFromYear(y) + d
  {
    hide DayFromYear, DaysBefore, Leap;
    MakeDayInYear(y, m + 1, d - DaysBefore(m, Leap(y)) + 1);
  }

  /** Midnight of day `n`. */
  function CivilDate(n: int): (p: Parts)
    ensures ValidDate(p.year, p.month, p.day) && p == Parts(p.year, p.month, p.day, 0, 0, 0)
    ensures MakeDay(p.year, p.month, p.day) == n
  {
    hide DayFromYear, DaysBefore, Leap, MakeDay, ValidDate;
    var y := SeekYear(n, 1970);
    YearLength(y);
    YearStartsAtZero(Leap(y));
    var d := n - DayFromYear(y);
    var m := SeekMonth(d, 0, Leap(y));
    DayInMonth(y, m, d);
    Parts(y, m + 1, d - DaysBefore(m, Leap(y)) + 1, 0, 0, 0)
  }

  lemma {:induction false} YearsIncrease(a: int, b: int)
    requires a <= b
    ensures DayFromYear(a) + 365 * (b - a) <= DayFromYear(b)
    decreases b - a
  {
    if a < b {
      YearLength(b - 1);
      YearsIncrease(a, b - 1);
    }
  }

  lemma MonthsIncrease(a: int, b: int, leap: bool)
    requires 0 <= a < b <= 12
    ensures DaysBefore(a, leap) + 28 <= DaysBefore(b, leap)
  {
  }

  lemma YearOfDay(n: int, year: int, y: int)
    requires DayFromYear(year) <= n < DayFromYear(year + 1) && DayFromYear(y) <= n < DayFromYear(y + 1)
    ensures y == year
  {
    if y < year { YearsIncrease(y + 1, year); }
    if year < y { YearsIncrease(year + 1, y); }
  }

  lemma MonthOfDay(d: int, a: int, b: int, leap: bool)
    requires 0 <= a <= 11 && 0 <= b <= 11
    requires DaysBefore(a, leap) <= d < DaysBefore(a + 1, leap) && DaysBefore(b, leap) <= d < DaysBefore(b + 1, leap)
    ensures a == b
  {
    if a + 1 < b { MonthsIncrease(a + 1, b, leap); }
    if b + 1 < a { MonthsIncrease(b + 1, a, leap); }
  }

  lemma DaysWithinYear(month: int, leap: bool)
    requires 1 <= month <= 12
    ensures 0 == DaysBefore(0, leap) <= DaysBefore(month - 1, leap)
            && DaysBefore(month, leap) <= DaysBefore(12, leap) == if leap then 366 else 365
  {
  }

  /** Dates and day numbers determine each other. */
  lemma CivilRoundTrip(year: int, month: int, day: int)
    requires ValidDate(year, month, day)
    ensures CivilDate(MakeDay(year, month, day)) == Parts(year, month, day, 0, 0, 0)
  {
    hide DayFromYear, DaysBefore, Leap, MakeDay;
    var n := MakeDay(year, month, day);
    MakeDayInYear(year, month, day);
    DaysWithinYear(month, Leap(year));
    YearLength(year);
    YearOfDay(n, year, SeekYear(n, 1970));
    var d := n - DayFromYear(year);
    MonthOfDay(d, SeekMonth(d, 0, Leap(year)), month - 1, Leap(year));
  }

  // ---------------------------------------------------------------------------------------------
  // Months as one line of indices

  lemma MonthLengths(month: int, leap: bool)
    requires 0 <= month <= 11
    ensures DaysBefore(month, leap) + 28 <= DaysBefore(month + 1, leap) <= DaysBefore(month, leap) + 31
  {
  }

  lemma MonthLength(k: int)
    ensures MonthStart(k) + 28 <= MonthStart(k + 1) <= MonthStart(k) + 31
  {
    hide DayFromYear, DaysBefore, Leap;
    var year, month := k / 12, k % 12;
    YearLength(year);
    MonthLengths(month, Leap(year));
    YearStartsAtZero(Leap(year));
    YearStartsAtZero(Leap(year + 1));
    if month == 11 {
      assert (k + 1) / 12 == year + 1 && (k + 1) % 12 == 0;
    } else {
      assert (k + 1) / 12 == year && (k + 1) % 12 == month + 1;
    }
  }

  lemma {:induction false} MonthsAscend(a: int, b: int)
    requires a <= b
    ensures MonthStart(a) + 28 * (b - a) <= MonthStart(b)
    decreases b - a
  {
    hide MonthStart;
    if a < b {
      MonthLength(b - 1);
      MonthsAscend(a, b - 1);
    }
  }

  /** The civil month of a day is the month that contains it. */
  lemma CivilMonth(n: int)
    ensures var p := CivilDate(n); var k := MonthIndex(p.year, p.month);
            MonthStart(k) <= n < MonthStart(k + 1) && n == MonthStart(k) + p.day - 1
  {
    hide CivilDate, MonthStart, MakeDay;
    var p := CivilDate(n);
    MakeDayIsMonthStart(p.year, p.month, p.day);
    MonthLengthInYear(p.year, p.month);
  }

  // ---------------------------------------------------------------------------------------------
  // Windows, in days

  datatype Period = OneTime | Daily | Weekly | Monthly

  /** Validated settings: the week starts on a weekday; the reset day is clamped by the code itself. */
  datatype Policy = Policy(weekStartsOn: int, monthlyResetDay: int)

  predicate ValidPolicy(policy: Policy) {
    0 <= policy.weekStartsOn <= 6
  }

  function ResetDay(policy: Policy): int {
    if policy.monthlyResetDay < 1 then 1 else if policy.monthlyResetDay > 28 then 28 else policy.monthlyResetDay
  }

  /** 1 January 1970 was a Thursday. */
  function Weekday(day: int): int {
    (day + 4) % 7
  }

  /** `startParts`, as the number of the day they denote; `local` is the local date of now. */
  function StartDay(local: Parts, period: Period, policy: Policy): int {
    match period
    case Weekly =>
      var weekday := Weekday(MakeDay(local.year, local.month, local.day));
      MakeDay(local.year, local.month, local.day - (weekday - policy.weekStartsOn + 7) % 7)
    case Monthly => MakeDay(local.year, local.month + (if local.day >= ResetDay(policy) then 0 else -1),
                            ResetDay(policy))
    case _ => MakeDay(local.year, local.month, local.day)
  }

  /** `endParts`, from the civil date of the start. */
  function EndDay(start: Parts, period: Period, policy: Policy): int {
    match period
    case Weekly => MakeDay(start.year, start.month, start.day + 7)
    case Monthly => MakeDay(start.year, start.month + 1, ResetDay(policy))
    case _ => MakeDay(start.year, start.month, start.day + 1)
  }

  /** Weekdays follow each other from a Thursday, counted from Sunday as zero, and the reset day is the nearest one that
      every month has. */
  lemma WeekdaysAndResetDays(day: int, policy: Policy)
    ensures Weekday(0) == 4 && 0 <= Weekday(day) <= 6
    ensures Weekday(day + 1) == if Weekday(day) == 6 then 0 else Weekday(day) + 1
    ensures 1 <= ResetDay(policy) <= 28
    ensures 1 <= policy.monthlyResetDay <= 28 ==> ResetDay(policy) == policy.monthlyResetDay
    ensures policy.monthlyResetDay < 1 ==> ResetDay(policy) == 1
    ensures policy.monthlyResetDay > 28 ==> ResetDay(policy) == 28
  {
  }

  function WindowStart(n: int, period: Period, policy: Policy): int {
    StartDay(CivilDate(n), period, policy)
  }

  function WindowEnd(n: int, period: Period, policy: Policy): int {
    EndDay(CivilDate(WindowStart(n, period, policy)), period, policy)
  }

  /** The monthly boundary in month `k`. */
  function Boundary(k: int, policy: Policy): int {
    MonthStart(k) + ResetDay(policy) - 1
  }

  lemma BoundaryMonth(k: int, policy: Policy)
    ensures var p := CivilDate(Boundary(k, policy)); MonthIndex(p.year, p.month) == k
  {
    var n := Boundary(k, policy);
    MonthLength(k);
    CivilMonth(n);
    var j := MonthIndex(CivilDate(n).year, CivilDate(n).month);
    hide MonthStart, CivilDate;
    if j < k { MonthsAscend(j + 1, k); }
    if k < j { MonthsAscend(k + 1, j); }
  }

  lemma MonthlyWindow(n: int, policy: Policy) returns (k: int)
    ensures WindowStart(n, Monthly, policy) == Boundary(k, policy)
            && WindowEnd(n, Monthly, policy) == Boundary(k + 1, policy)
    ensures Boundary(k, policy) <= n < Boundary(k + 1, policy)
  {
    hide CivilDate, MonthStart, MakeDay;
    var p := CivilDate(n);
    var j := MonthIndex(p.year, p.month);
    var r := ResetDay(policy);
    CivilMonth(n);
    k := if p.day >= r then j else j - 1;
    MakeDayIsMonthStart(p.year, p.month + (if p.day >= r then 0 else -1), r);
    assert MonthIndex(p.year, p.month + (if p.day >= r then 0 else -1)) == k;
    assert WindowStart(n, Monthly, policy) == Boundary(k, policy);
    var q := CivilDate(Boundary(k, policy));
    BoundaryMonth(k, policy);
    MakeDayIsMonthStart(q.year, q.month + 1, r);
    MonthLength(j - 1);
    MonthLength(j);
  }

  lemma BoundariesUnique(n: int, a: int, b: int, policy: Policy)
    requires Boundary(a, policy) <= n < Boundary(a + 1, policy) && Boundary(b, policy) <= n < Boundary(b + 1, policy)
    ensures a == b
  {
    hide MonthStart;
    if a < b { MonthsAscend(a + 1, b); }
    if b < a { MonthsAscend(b + 1, a); }
  }

  lemma BoundaryAscends(k: int, policy: Policy)
    ensures Boundary(k, policy) < Boundary(k + 1, policy)
  {
    MonthLength(k);
  }

  /** What it means that windows tile the days: a window contains its day, every day in it has the same window, and
      the next window starts where it ends. */
  ghost predicate Tiles(n: int, m: int, period: Period, policy: Policy) {
    && WindowStart(n, period, policy) <= n < WindowEnd(n, period, policy)
    && WindowStart(m, period, policy) == WindowStart(n, period, policy)
    && WindowEnd(m, period, policy) == WindowEnd(n, period, policy)
    && WindowStart(WindowEnd(n, period, policy), period, policy) == WindowEnd(n, period, policy)
  }

  lemma MonthsTile(n: int, m: int, policy: Policy)
    requires WindowStart(n, Monthly, policy) <= m < WindowEnd(n, Monthly, policy)
    ensures Tiles(n, m, Monthly, policy)
  {
    hide WindowStart, WindowEnd, MonthStart, Boundary;
    var a := MonthlyWindow(n, policy);
    var b := MonthlyWindow(m, policy);
    BoundariesUnique(m, a, b, policy);
    var c := MonthlyWindow(WindowEnd(n, Monthly, policy), policy);
    BoundaryAscends(a + 1, policy);
    BoundariesUnique(WindowEnd(n, Monthly, policy), a + 1, c, policy);
  }

  /** Going back to the first day of the week is rounding down to a multiple of seven. */
  lemma WeekStart(n: int, first: int)
    requires 0 <= first <= 6
    ensures n - (Weekday(n) - first + 7) % 7 == 7 * ((n + 4 - first) / 7) + first - 4
  {
    var q, r := (n + 4) / 7, (n + 4) % 7;
    assert n + 4 == 7 * q + r;
    if r >= first {
      assert (r - first + 7) % 7 == r - first;
      assert (7 * q + (r - first)) / 7 == q;
    } else {
      assert (r - first + 7) % 7 == r - first + 7;
      assert (7 * (q - 1) + (r - first + 7)) / 7 == q - 1;
    }
  }

  lemma MakeDayShifts(year: int, month: int, day: int, more: int)
    ensures MakeDay(year, month, day + more) == MakeDay(year, month, day) + more
  {
  }

  lemma WeekAndDay(n: int, period: Period, policy: Policy)
    requires period == Daily || period == Weekly
    ensures WindowStart(n, period, policy) == if period == Daily then n
                                              else n - (Weekday(n) - policy.weekStartsOn + 7) % 7
    ensures WindowEnd(n, period, policy) == WindowStart(n, period, policy) + if period == Daily then 1 else 7
  {
    hide CivilDate, MakeDay;
    var p := CivilDate(n);
    MakeDayShifts(p.year, p.month, p.day, -((Weekday(n) - policy.weekStartsOn + 7) % 7));
    var q := CivilDate(WindowStart(n, period, policy));
    MakeDayShifts(q.year, q.month, q.day, if period == Daily then 1 else 7);
  }

  lemma WeeksAndDaysTile(n: int, m: int, period: Period, policy: Policy)
    requires (period == Daily || period == Weekly) && ValidPolicy(policy)
    requires WindowStart(n, period, policy) <= m < WindowEnd(n, period, policy)
    ensures Tiles(n, m, period, policy)
  {
    hide WindowStart, WindowEnd, Weekday;
    var end := WindowEnd(n, period, policy);
    WeekAndDay(n, period, policy);
    WeekAndDay(m, period, policy);
    WeekAndDay(end, period, policy);
    WeekStart(n, policy.weekStartsOn);
    WeekStart(m, policy.weekStartsOn);
    WeekStart(end, policy.weekStartsOn);
  }

  lemma WindowsTileDays(n: int, m: int, period: Period, policy: Policy)
    requires period != OneTime && ValidPolicy(policy)
    requires WindowStart(n, period, policy) <= m < WindowEnd(n, period, policy)
    ensures Tiles(n, m, period, policy)
  {
    if period == Monthly { MonthsTile(n, m, policy); } else { WeeksAndDaysTile(n, m, period, policy); }
  }

  lemma WeekdayOfStart(week: int, first: int)
    requires 0 <= first <= 6
    ensures Weekday(7 * week + first - 4) == first
  {
    assert (7 * week + first) % 7 == first;
  }

  lemma BoundaryDay(k: int, policy: Policy)
    ensures CivilDate(Boundary(k, policy)).day == ResetDay(policy)
  {
    hide CivilDate, MonthStart, ResetDay;
    CivilMonth(Boundary(k, policy));
    BoundaryMonth(k, policy);
  }

  /** Windows start where the settings say: on the chosen weekday for seven days, or on the reset day of a month. */
  lemma WindowStartsAsConfigured(n: int, policy: Policy)
    requires ValidPolicy(policy)
    ensures WindowStart(n, Daily, policy) == n && WindowEnd(n, Daily, policy) == n + 1
    ensures Weekday(WindowStart(n, Weekly, policy)) == policy.weekStartsOn
            && WindowEnd(n, Weekly, policy) == WindowStart(n, Weekly, policy) + 7
    ensures CivilDate(WindowStart(n, Monthly, policy)).day == ResetDay(policy)
            && CivilDate(WindowEnd(n, Monthly, policy)).day == ResetDay(policy)
  {
    hide WindowStart, WindowEnd, CivilDate, Boundary, Weekday, ResetDay;
    WeekAndDay(n, Daily, policy);
    WeekAndDay(n, Weekly, policy);
    WeekStart(n, policy.weekStartsOn);
    WeekdayOfStart((n + 4 - policy.weekStartsOn) / 7, policy.weekStartsOn);
    var k := MonthlyWindow(n, policy);
    BoundaryDay(k, policy);
    BoundaryDay(k + 1, policy);
  }

  // ---------------------------------------------------------------------------------------------
  // Local time

  /** Whole local seconds since the epoch; the formatter drops milliseconds. */
  function LocalSecond(t: Instant, zone: Zone): int {
    (t + zone(t)) / 1000
  }

  function ZonedParts(t: Instant, zone: Zone): Parts {
    var s := LocalSecond(t, zone);
    CivilDate(s / 86400).(hour := s % 86400 / 3600, minute := s % 3600 / 60, second := s % 60)
  }

  /** `Date.UTC`. */
  function DateUtc(p: Parts): int {
    (MakeDay(p.year, p.month, p.day) * 86400 + p.hour * 3600 + p.minute * 60 + p.second) * 1000
  }

  lemma RemainderIs(s: int, b: int, q: int, u: int)
    requires b > 0 && s == b * q + u && 0 <= u < b
    ensures s % b == u
  {
    var k := s / b - q;
    assert b * k == u - s % b;
    if k > 0 { MulMonotone(1, k, b); }
    if k < 0 { MulMonotone(k, -1, b); }
  }

  lemma NestedRemainder(s: int, a: int, b: int)
    requires a > 0 && b > 0
    ensures s % (a * b) % b == s % b
  {
    var q, r := s / (a * b), s % (a * b);
    assert s == a * b * q + r;
    var t, u := r / b, r % b;
    assert r == b * t + u;
    RemainderIs(s, b, a * q + t, u) by { assert s == b * (a * q + t) + u; }
  }

  lemma TimeOfDay(s: int)
    ensures s / 86400 * 86400 + s % 86400 / 3600 * 3600 + s % 3600 / 60 * 60 + s % 60 == s
  {
    var d, r := s / 86400, s % 86400;
    assert s == 86400 * d + r;
    NestedRemainder(s, 24, 3600);
    NestedRemainder(s, 60, 60);
  }

  lemma ObservedIsLocalTime(t: Instant, zone: Zone)
    ensures DateUtc(ZonedParts(t, zone)) == LocalSecond(t, zone) * 1000
  {
    hide CivilDate, MakeDay;
    TimeOfDay(LocalSecond(t, zone));
  }

  /** The correction loop of `localToUtc`, `attempts` rounds at most. */
  function Corrected(desired: int, value: Instant, zone: Zone, attempts: nat): Instant
    decreases attempts
  {
    if attempts == 0 then value
    else
      var correction := desired - LocalSecond(value, zone) * 1000;
      if correction == 0 then value else Corrected(desired, value + correction, zone, attempts - 1)
  }

  /** `localToUtc`. A zero correction ends the loop with an exact preimage; otherwise all three rounds corrected. */
  method LocalToUtc(parts: Parts, zone: Zone) returns (value: Instant)
    ensures value == Corrected(DateUtc(parts), DateUtc(parts), zone, 3)
  {
    hide CivilDate, MakeDay, LocalSecond, ZonedParts, DateUtc;
    var desired := DateUtc(parts);
    value := desired;
    var attempt := 0;
    while attempt < 3
      invariant 0 <= attempt <= 3
      invariant Corrected(desired, value, zone, 3 - attempt) == Corrected(desired, desired, zone, 3)
      decreases 3 - attempt
    {
      var observed := ZonedParts(value, zone);
      ObservedIsLocalTime(value, zone);
      var correction := desired - DateUtc(observed);
      if correction == 0 { break; }
      value := value + correction;
      attempt := attempt + 1;
    }
  }

  predicate WholeSeconds(x: int) {
    x % 1000 == 0
  }

  /** A zone with the offsets `a` and `b`, say winter and summer time, that changes on whole seconds. */
  ghost predicate TwoOffsets(zone: Zone, a: int, b: int) {
    && WholeSeconds(a) && WholeSeconds(b)
    && (forall t: Instant :: zone(t) == a || zone(t) == b)
    && (forall t: Instant :: zone(t) == zone(t / 1000 * 1000))
  }

  ghost predicate Shows(zone: Zone, t: Instant, desired: int) {
    LocalSecond(t, zone) * 1000 == desired
  }

  /** Whether one of the rounds finds nothing to correct. */
  predicate Settles(desired: int, value: Instant, zone: Zone, attempts: nat)
    decreases attempts
  {
    attempts > 0 && (LocalSecond(value, zone) * 1000 == desired ||
      Settles(desired, value + desired - LocalSecond(value, zone) * 1000, zone, attempts - 1))
  }

  /** Whatever the zone does, a round without correction ends on an instant that shows the desired time. */
  lemma {:induction false} ZeroCorrectionIsExact(desired: int, value: Instant, zone: Zone, attempts: nat)
    requires Settles(desired, value, zone, attempts)
    ensures Shows(zone, Corrected(desired, value, zone, attempts), desired)
    decreases attempts
  {
    var next := value + (desired - LocalSecond(value, zone) * 1000);
    if LocalSecond(value, zone) * 1000 != desired {
      assert Settles(desired, next, zone, attempts - 1);
      ZeroCorrectionIsExact(desired, next, zone, attempts - 1);
    }
  }

  lemma PreimageIsDesiredMinusOffset(desired: int, zone: Zone, t: Instant)
    requires WholeSeconds(desired) && WholeSeconds(zone(t)) && zone(t) == zone(t / 1000 * 1000)
    ensures Shows(zone, t, desired) <==> t / 1000 * 1000 == desired - zone(t)
  {
    var o := zone(t);
    assert o == o / 1000 * 1000;
    assert (t + o) / 1000 == t / 1000 + o / 1000;
  }

  lemma CandidateShows(desired: int, zone: Zone, offset: int)
    requires WholeSeconds(desired) && WholeSeconds(offset) && zone(desired - offset) == offset
    ensures Shows(zone, desired - offset, desired)
  {
  }

  lemma OffsetAt(zone: Zone, a: int, b: int, t: Instant)
    requires TwoOffsets(zone, a, b)
    ensures (zone(t) == a || zone(t) == b) && WholeSeconds(zone(t)) && zone(t) == zone(t / 1000 * 1000)
  {
  }

  lemma NoRounds(desired: int, zone: Zone, value: Instant)
    ensures Corrected(desired, value, zone, 0) == value
  {
  }

  lemma OneRound(desired: int, zone: Zone, value: Instant, attempts: nat)
    requires WholeSeconds(desired) && WholeSeconds(value) && WholeSeconds(zone(value)) && attempts > 0
    ensures Corrected(desired, value, zone, attempts) ==
            if value == desired - zone(value) then value
            else Corrected(desired, desired - zone(value), zone, attempts - 1)
    ensures WholeSeconds(desired - zone(value))
  {
    var x := value + zone(value);
    assert x % 1000 == 0;
    assert x / 1000 * 1000 == x;
  }

  /** The rounds end on the second offset tried when it repeats the first or is confirmed, else on the third. */
  lemma ThreeRounds(desired: int, zone: Zone, a: int, b: int)
    requires WholeSeconds(desired) && TwoOffsets(zone, a, b)
    ensures var o0 := zone(desired); var o1 := zone(desired - o0); var o2 := zone(desired - o1);
            Corrected(desired, desired, zone, 3) == desired - if o1 == o0 then o0 else if o2 == o1 then o1 else o2
  {
    hide Corrected, TwoOffsets, WholeSeconds;
    var o0 := zone(desired);
    var o1 := zone(desired - o0);
    OffsetAt(zone, a, b, desired);
    OffsetAt(zone, a, b, desired - o0);
    OffsetAt(zone, a, b, desired - o1);
    OneRound(desired, zone, desired, 3);
    OneRound(desired, zone, desired - o0, 2);
    OneRound(desired, zone, desired - o1, 1);
    NoRounds(desired, zone, desired - zone(desired - o1));
    NoRounds(desired, zone, desired - o1);
    OneRound(desired, zone, desired, 2);
  }

  /** For a two-offset zone the three rounds are enough: the result shows the desired local time exactly when some
      instant does, that is, unless the desired time falls into the gap of a forward change. */
  lemma LocalToUtcIsExactUnlessGap(desired: int, zone: Zone, a: int, b: int)
    requires WholeSeconds(desired) && TwoOffsets(zone, a, b)
    ensures Shows(zone, Corrected(desired, desired, zone, 3), desired) <==> exists t: Instant :: Shows(zone, t, desired)
  {
    hide Corrected, TwoOffsets, WholeSeconds, Shows;
    ThreeRounds(desired, zone, a, b);
    var o0 := zone(desired);
    var o1 := zone(desired - o0);
    OffsetAt(zone, a, b, desired);
    OffsetAt(zone, a, b, desired - o0);
    OffsetAt(zone, a, b, desired - o1);
    if o1 == o0 {
      CandidateShows(desired, zone, o0);
    } else if zone(desired - o1) == o1 {
      CandidateShows(desired, zone, o1);
    } else if t: Instant :| Shows(zone, t, desired) {
      OffsetAt(zone, a, b, t);
      PreimageIsDesiredMinusOffset(desired, zone, t);
      assert false;
    }
  }

  /** Clocks go forward an hour at instant zero. */
  function SpringForward(t: Instant): int {
    if t < 0 then 0 else 3_600_000
  }

  /** Half past midnight local time does not exist there, and the three rounds end on another time. */
  lemma GapHasNoPreimage()
    ensures TwoOffsets(SpringForward, 0, 3_600_000)
    ensures !exists t: Instant :: Shows(SpringForward, t, 1_800_000)
    ensures !Shows(SpringForward, Corrected(1_800_000, 1_800_000, SpringForward, 3), 1_800_000)
  {
    forall t: Instant ensures !Shows(SpringForward, t, 1_800_000) {
      if t < 0 { assert LocalSecond(t, SpringForward) < 0; } else { assert LocalSecond(t, SpringForward) >= 3600; }
    }
  }

  // ---------------------------------------------------------------------------------------------
  // The accounting windows

  datatype Window = Window(start: Instant, end: Instant)

  /** `quotaPeriodWindow` for the repeating periods; a one-time period starts now and has no end. */
  function QuotaWindow(now: Instant, period: Period, policy: Policy, zone: Zone): Window {
    var day := LocalSecond(now, zone) / 86400;
    var start, end := WindowStart(day, period, policy) * DAY_MS, WindowEnd(day, period, policy) * DAY_MS;
    Window(Corrected(start, start, zone, 3), Corrected(end, end, zone, 3))
  }

  lemma MidnightOf(n: int)
    ensures DateUtc(CivilDate(n)) == n * DAY_MS
  {
    hide CivilDate, MakeDay;
  }

  /** Only the date of now matters, not its time of day. */
  lemma TimeOfDayIsIrrelevant(now: Instant, period: Period, policy: Policy, zone: Zone)
    ensures StartDay(ZonedParts(now, zone), period, policy)
              == WindowStart(LocalSecond(now, zone) / 86400, period, policy)
  {
    hide CivilDate, MakeDay, Weekday;
  }

  method QuotaPeriodWindow(now: Instant, period: Period, policy: Policy, zone: Zone) returns (w: Window)
    requires period != OneTime
    ensures w == QuotaWindow(now, period, policy, zone)
  {
    hide CivilDate, MakeDay, LocalSecond, ZonedParts, DateUtc, StartDay, EndDay, Corrected;
    ghost var day := LocalSecond(now, zone) / 86400;
    TimeOfDayIsIrrelevant(now, period, policy, zone);
    MidnightOf(WindowStart(day, period, policy));
    MidnightOf(WindowEnd(day, period, policy));
    var local := ZonedParts(now, zone);
    var startDay := StartDay(local, period, policy);
    var startParts := CivilDate(startDay);
    var endParts := CivilDate(EndDay(startParts, period, policy));
    var start := LocalToUtc(startParts, zone);
    var end := LocalToUtc(endParts, zone);
    w := Window(start, end);
  }

  lemma FixedOffsetCorrected(day: int, zone: Zone, offset: int)
    requires WholeSeconds(offset) && forall t :: zone(t) == offset
    ensures Corrected(day * DAY_MS, day * DAY_MS, zone, 3) == day * DAY_MS - offset
  {
    var desired := day * DAY_MS;
    assert desired == day * 86_400 * 1000;
    OneRound(desired, zone, desired, 3);
    OneRound(desired, zone, desired - offset, 2);
  }

  lemma DayOfInstant(t: Instant, zone: Zone, offset: int, day: int)
    requires WholeSeconds(offset) && zone(t) == offset
    ensures LocalSecond(t, zone) / 86400 == day <==> day * DAY_MS <= t + offset < (day + 1) * DAY_MS
  {
    var x := t + offset;
    assert x / 1000 / 86400 == x / DAY_MS;
  }

  /** The daily window runs from local midnight to local midnight. */
  lemma DailyWindow(now: Instant, policy: Policy, zone: Zone, offset: int)
    requires WholeSeconds(offset) && forall u :: zone(u) == offset
    ensures var day := LocalSecond(now, zone) / 86400;
            QuotaWindow(now, Daily, policy, zone) == Window(day * DAY_MS - offset, (day + 1) * DAY_MS - offset)
  {
    hide Corrected, WindowStart, WindowEnd;
    var day := LocalSecond(now, zone) / 86400;
    WeekAndDay(day, Daily, policy);
    FixedOffsetCorrected(day, zone, offset);
    FixedOffsetCorrected(day + 1, zone, offset);
  }

  lemma WindowContainsDay(n: int, period: Period, policy: Policy)
    requires period != OneTime && ValidPolicy(policy)
    ensures WindowStart(n, period, policy) <= n < WindowEnd(n, period, policy)
  {
    if period == Monthly {
      hide WindowStart, WindowEnd, Boundary;
      var k := MonthlyWindow(n, policy);
    } else {
      hide WindowStart, WindowEnd;
      WeekAndDay(n, period, policy);
    }
  }

  /** In a zone with a fixed offset the window contains now, every instant in it has the same window, and the window
      at its end starts there. */
  lemma WindowsTileTime(now: Instant, t: Instant, period: Period, policy: Policy, zone: Zone, offset: int)
    requires period != OneTime && ValidPolicy(policy) && WholeSeconds(offset) && forall u :: zone(u) == offset
    ensures var w := QuotaWindow(now, period, policy, zone);
            && w.start <= now < w.end
            && (w.start <= t < w.end ==> QuotaWindow(t, period, policy, zone) == w)
            && QuotaWindow(w.end, period, policy, zone).start == w.end
  {
    hide WindowStart, WindowEnd, Corrected;
    var n, m := LocalSecond(now, zone) / 86400, LocalSecond(t, zone) / 86400;
    var first, last := WindowStart(n, period, policy), WindowEnd(n, period, policy);
    FixedOffsetCorrected(first, zone, offset);
    FixedOffsetCorrected(last, zone, offset);
    DayOfInstant(now, zone, offset, n);
    DayOfInstant(t, zone, offset, m);
    WindowContainsDay(n, period, policy);
    if first * DAY_MS <= t + offset < last * DAY_MS {
      assert first <= m < last;
      WindowsTileDays(n, m, period, policy);
    }
    WindowsTileDays(n, n, period, policy);
    DayOfInstant(last * DAY_MS - offset, zone, offset, last);
    FixedOffsetCorrected(last, zone, offset);
  }
}
