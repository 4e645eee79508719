/** Proleptic Gregorian calendar dates and the day arithmetic that the
    JavaScript `Date` setters perform. A `Date` here is a calendar day; the
    time of day and the time zone are not modelled. */
module Calendar {

  datatype Date = Date(year: int, month: int, day: int)

  predicate IsLeapYear(y: int)
  {
    y % 4 == 0 && (y % 100 != 0 || y % 400 == 0)
  }

  function DaysInMonth(y: int, m: int): (n: int)
    requires 1 <= m <= 12
    ensures 28 <= n <= 31
    ensures n == 29 <==> m == 2 && IsLeapYear(y)
    ensures n == 28 <==> m == 2 && !IsLeapYear(y)
  {
    if m == 2 then (if IsLeapYear(y) then 29 else 28)
    else if m == 4 || m == 6 || m == 9 || m == 11 then 30
    else 31
  }

  predicate ValidDate(d: Date)
  {
    1 <= d.month <= 12 && 1 <= d.day <= DaysInMonth(d.year, d.month)
  }

  function YearLength(y: int): int
  {
    if IsLeapYear(y) then 366 else 365
  }

  /** Days from 1 January of year 1 to 1 January of year `y`. */
  function DaysBeforeYear(y: int): int
    decreases if y >= 1 then y - 1 else 1 - y
  {
    if y == 1 then 0
    else if y > 1 then DaysBeforeYear(y - 1) + YearLength(y - 1)
    else DaysBeforeYear(y + 1) - YearLength(y)
  }

  /** Days from 1 January of year `y` to the first of month `m` (13 stands for
      the next 1 January). */
  function DaysBeforeMonth(y: int, m: int): int
    requires 1 <= m <= 13
  {
    var table := [0, 31, 59, 90, 120, 151, 181, 212, 243, 273, 304, 334, 365];
    table[m - 1] + (if m > 2 && IsLeapYear(y) then 1 else 0)
  }

  /** Consecutive days have consecutive numbers; 1 January 1 is day 0. */
  function DayNumber(d: Date): int
    requires ValidDate(d)
  {
    DaysBeforeYear(d.year) + DaysBeforeMonth(d.year, d.month) + d.day - 1
  }

  lemma MonthStep(y: int, m: int)
    requires 1 <= m <= 12
    ensures DaysBeforeMonth(y, m + 1) == DaysBeforeMonth(y, m) + DaysInMonth(y, m)
  {
  }

  lemma YearStep(y: int)
    ensures DaysBeforeYear(y + 1) == DaysBeforeYear(y) + YearLength(y)
    ensures DaysBeforeMonth(y, 13) == YearLength(y)
  {
  }

  lemma {:induction false} DaysBeforeYearMonotone(y1: int, y2: int)
    requires y1 <= y2
    ensures DaysBeforeYear(y1) <= DaysBeforeYear(y2)
    decreases y2 - y1
  {
    if y1 < y2 {
      YearStep(y2 - 1);
      DaysBeforeYearMonotone(y1, y2 - 1);
    }
  }

  /** Every valid date of year `y` is numbered within that year's range. */
  lemma DayNumberWithinYear(d: Date)
    requires ValidDate(d)
    ensures DaysBeforeYear(d.year) <= DayNumber(d) < DaysBeforeYear(d.year + 1)
  {
    YearStep(d.year);
    MonthStep(d.year, d.month);
    assert DaysBeforeMonth(d.year, d.month + 1) <= DaysBeforeMonth(d.year, 13);
  }

  /** Chronological order: year, then month, then day. */
  predicate Before(a: Date, b: Date)
  {
    a.year < b.year || (a.year == b.year && (a.month < b.month || (a.month == b.month && a.day < b.day)))
  }

  /** Day numbers order dates chronologically, and so number each day once. */
  lemma {:induction false} DayNumberOrder(a: Date, b: Date)
    requires ValidDate(a) && ValidDate(b)
    ensures Before(a, b) <==> DayNumber(a) < DayNumber(b)
    ensures a == b <==> DayNumber(a) == DayNumber(b)
  {
    DayNumberWithinYear(a);
    DayNumberWithinYear(b);
    if a.year < b.year {
      DaysBeforeYearMonotone(a.year + 1, b.year);
    } else if b.year < a.year {
      DaysBeforeYearMonotone(b.year + 1, a.year);
    } else if a.month < b.month {
      MonthStep(a.year, a.month);
      assert DaysBeforeMonth(a.year, a.month + 1) <= DaysBeforeMonth(a.year, b.month);
    } else if b.month < a.month {
      MonthStep(b.year, b.month);
      assert DaysBeforeMonth(b.year, b.month + 1) <= DaysBeforeMonth(b.year, a.month);
    }
  }

  /** The day after `d`. */
  function NextDay(d: Date): (r: Date)
    requires ValidDate(d)
    ensures ValidDate(r) && DayNumber(r) == DayNumber(d) + 1
  {
    if d.day < DaysInMonth(d.year, d.month) then Date(d.year, d.month, d.day + 1)
    else if d.month < 12 then
      MonthStep(d.year, d.month);
      Date(d.year, d.month + 1, 1)
    else
      YearStep(d.year);
      Date(d.year + 1, 1, 1)
  }

  /** The day before `d`. */
  function PrevDay(d: Date): (r: Date)
    requires ValidDate(d)
    ensures ValidDate(r) && DayNumber(r) == DayNumber(d) - 1
  {
    if d.day > 1 then Date(d.year, d.month, d.day - 1)
    else if d.month > 1 then
      MonthStep(d.year, d.month - 1);
      Date(d.year, d.month - 1, DaysInMonth(d.year, d.month - 1))
    else
      YearStep(d.year - 1);
      Date(d.year - 1, 12, 31)
  }

  /** `n` days after `d` (before it when `n` is negative), one day at a time. */
  function AddDays(d: Date, n: int): (r: Date)
    requires ValidDate(d)
    ensures ValidDate(r) && DayNumber(r) == DayNumber(d) + n
    decreases if n < 0 then -n else n
  {
    if n == 0 then d
    else if n > 0 then AddDays(NextDay(d), n - 1)
    else AddDays(PrevDay(d), n + 1)
  }

  /** Two valid dates with the same day number are the same date. */
  lemma SameDay(a: Date, b: Date)
    requires ValidDate(a) && ValidDate(b) && DayNumber(a) == DayNumber(b)
    ensures a == b
  {
    DayNumberOrder(a, b);
  }

  function LastDayOfMonth(y: int, m: int): (r: Date)
    requires 1 <= m <= 12
    ensures ValidDate(r) && r.year == y && r.month == m
  {
    Date(y, m, DaysInMonth(y, m))
  }

  /** The month `k` months after month `m` of year `y`, as (year, month). */
  function ShiftMonth(y: int, m: int, k: int): (r: (int, int))
    requires 1 <= m <= 12
    ensures 1 <= r.1 <= 12
  {
    var total := (m - 1) + k;
    (y + total / 12, total % 12 + 1)
  }

  /** The first day of the month after (y, m) is that many days after the first of (y, m). */
  lemma FirstOfNextMonth(y: int, m: int)
    requires 1 <= m <= 12
    ensures DayNumber(Date(ShiftMonth(y, m, 1).0, ShiftMonth(y, m, 1).1, 1))
         == DayNumber(Date(y, m, 1)) + DaysInMonth(y, m)
  {
    if m < 12 {
      assert ShiftMonth(y, m, 1) == (y, m + 1);
      MonthStep(y, m);
    } else {
      assert ShiftMonth(y, m, 1) == (y + 1, 1);
      YearStep(y);
    }
  }

  /** JavaScript's `MakeDay(year, monthIndex, date)` as used by the `Date`
      setters: the 0-based month index is normalised into the year, and
      `date` counts from the first of that month, overflowing into later or
      earlier months as needed (date 0 is the last day of the previous month). */
  function MakeDay(y: int, monthIndex: int, date: int): (r: Date)
    ensures ValidDate(r)
    ensures DayNumber(r) == DayNumber(Date(y + monthIndex / 12, monthIndex % 12 + 1, 1)) + date - 1
  {
    AddDays(Date(y + monthIndex / 12, monthIndex % 12 + 1, 1), date - 1)
  }

  /** `d.setDate(k)`. */
  function SetDate(d: Date, k: int): (r: Date)
    requires ValidDate(d)
    ensures ValidDate(r)
  {
    MakeDay(d.year, d.month - 1, k)
  }

  /** `d.setMonth(monthIndex)` with a 0-based month index. */
  function SetMonth(d: Date, monthIndex: int): (r: Date)
    requires ValidDate(d)
    ensures ValidDate(r)
  {
    MakeDay(d.year, monthIndex, d.day)
  }

  /** `d.setFullYear(y)`. */
  function SetFullYear(d: Date, y: int): (r: Date)
    requires ValidDate(d)
    ensures ValidDate(r)
  {
    MakeDay(y, d.month - 1, d.day)
  }

  /** Setting a day that exists in the month gives exactly that day. */
  lemma MakeDayInMonth(y: int, m: int, k: int)
    requires 1 <= m <= 12 && 1 <= k <= DaysInMonth(y, m)
    ensures MakeDay(y, m - 1, k) == Date(y, m, k)
  {
    assert (m - 1) / 12 == 0 && (m - 1) % 12 + 1 == m;
    var r := MakeDay(y, m - 1, k);
    assert DayNumber(r) == DayNumber(Date(y, m, 1)) + k - 1;
    assert DayNumber(Date(y, m, k)) == DayNumber(Date(y, m, 1)) + k - 1;
    SameDay(r, Date(y, m, k));
  }

  /** Setting a day past the end of the month overflows into the next month. */
  lemma MakeDayOverflow(y: int, m: int, k: int)
    requires 1 <= m <= 12 && DaysInMonth(y, m) < k
    requires k - DaysInMonth(y, m) <= DaysInMonth(ShiftMonth(y, m, 1).0, ShiftMonth(y, m, 1).1)
    ensures MakeDay(y, m - 1, k) == Date(ShiftMonth(y, m, 1).0, ShiftMonth(y, m, 1).1, k - DaysInMonth(y, m))
  {
    var n := ShiftMonth(y, m, 1);
    var target := Date(n.0, n.1, k - DaysInMonth(y, m));
    var r := MakeDay(y, m - 1, k);
    assert (m - 1) / 12 == 0 && (m - 1) % 12 + 1 == m;
    assert DayNumber(r) == DayNumber(Date(y, m, 1)) + k - 1;
    assert DayNumber(target) == DayNumber(Date(n.0, n.1, 1)) + k - DaysInMonth(y, m) - 1;
    assert DayNumber(Date(n.0, n.1, 1)) == DayNumber(Date(y, m, 1)) + DaysInMonth(y, m) by {
      FirstOfNextMonth(y, m);
    }
    SameDay(r, target);
  }

  /** Setting day 0 gives the last day of the previous month. */
  lemma MakeDayZero(y: int, m: int)
    requires 1 <= m <= 12
    ensures MakeDay(y, m - 1, 0) == LastDayOfMonth(ShiftMonth(y, m, -1).0, ShiftMonth(y, m, -1).1)
  {
    var p := ShiftMonth(y, m, -1);
    var r := MakeDay(y, m - 1, 0);
    assert DayNumber(r) == DayNumber(Date(y, m, 1)) - 1 by {
      assert (m - 1) / 12 == 0 && (m - 1) % 12 + 1 == m;
    }
    LastOfPreviousMonth(y, m);
    SameDay(r, LastDayOfMonth(p.0, p.1));
  }

  /** The last day of the month before (y, m) is the day before its first. */
  lemma LastOfPreviousMonth(y: int, m: int)
    requires 1 <= m <= 12
    ensures DayNumber(LastDayOfMonth(ShiftMonth(y, m, -1).0, ShiftMonth(y, m, -1).1))
         == DayNumber(Date(y, m, 1)) - 1
  {
    if m == 1 {
      assert ShiftMonth(y, m, -1) == (y - 1, 12);
      YearStep(y - 1);
    } else {
      assert ShiftMonth(y, m, -1) == (y, m - 1);
      MonthStep(y, m - 1);
    }
  }

  /** A month index past 11 (or below 0) is carried into the year. */
  lemma MakeDayMonthCarry(y: int, m: int, k: int, date: int)
    requires 1 <= m <= 12
    ensures MakeDay(y, m - 1 + k, date) == MakeDay(ShiftMonth(y, m, k).0, ShiftMonth(y, m, k).1 - 1, date)
  {
    var s := ShiftMonth(y, m, k);
    assert (s.1 - 1) / 12 == 0 && (s.1 - 1) % 12 == s.1 - 1;
    SameDay(MakeDay(y, m - 1 + k, date), MakeDay(s.0, s.1 - 1, date));
  }

  /** `d.setDate(d.getDate() + n)` moves `n` days. */
  lemma SetDateRelative(d: Date, n: int)
    requires ValidDate(d)
    ensures SetDate(d, d.day + n) == AddDays(d, n)
  {
    assert (d.month - 1) / 12 == 0 && (d.month - 1) % 12 == d.month - 1;
    SameDay(SetDate(d, d.day + n), AddDays(d, n));
  }

  /** `d.setDate(d.getDate() - n)` moves `n` days back. */
  lemma SetDateBack(d: Date, n: int)
    requires ValidDate(d)
    ensures SetDate(d, d.day - n) == AddDays(d, -n)
  {
    assert (d.month - 1) / 12 == 0 && (d.month - 1) % 12 == d.month - 1;
    SameDay(SetDate(d, d.day - n), AddDays(d, -n));
  }

  lemma ShiftMonthCompose(y: int, m: int, a: int, b: int)
    requires 1 <= m <= 12
    ensures ShiftMonth(ShiftMonth(y, m, a).0, ShiftMonth(y, m, a).1, b) == ShiftMonth(y, m, a + b)
  {
    var t := m - 1 + a;
    assert (t + b) / 12 == t / 12 + (t % 12 + b) / 12;
    assert (t + b) % 12 == (t % 12 + b) % 12;
  }

  /** The date that `d.setMonth(d.getMonth() + k)` followed by `setDate(0)`
      produces. When the day of `d` exists in the month `k` months later, the
      result is the last day of the month `k - 1` months later; otherwise the
      setMonth overflows and the result is the last day of the month `k`
      months later. */
  function MonthEndAfterShift(d: Date, k: int): (r: Date)
    requires ValidDate(d)
    ensures ValidDate(r)
  {
    var target := ShiftMonth(d.year, d.month, k);
    if d.day <= DaysInMonth(target.0, target.1) then
      LastDayOfMonth(ShiftMonth(d.year, d.month, k - 1).0, ShiftMonth(d.year, d.month, k - 1).1)
    else LastDayOfMonth(target.0, target.1)
  }

  lemma SetMonthThenDayZero(d: Date, k: int)
    requires ValidDate(d)
    ensures SetDate(SetMonth(d, d.month - 1 + k), 0) == MonthEndAfterShift(d, k)
  {
    var s := ShiftMonth(d.year, d.month, k);
    if d.day <= DaysInMonth(s.0, s.1) {
      SetMonthInMonth(d, k);
    } else {
      SetMonthOverflow(d, k);
    }
  }

  /** `d.setMonth(i)` is MakeDay on the carried (year, month). */
  lemma SetMonthCarry(d: Date, k: int)
    requires ValidDate(d)
    ensures SetMonth(d, d.month - 1 + k)
         == MakeDay(ShiftMonth(d.year, d.month, k).0, ShiftMonth(d.year, d.month, k).1 - 1, d.day)
  {
    MakeDayMonthCarry(d.year, d.month, k, d.day);
  }

  lemma SetMonthInMonth(d: Date, k: int)
    requires ValidDate(d)
    requires d.day <= DaysInMonth(ShiftMonth(d.year, d.month, k).0, ShiftMonth(d.year, d.month, k).1)
    ensures SetDate(SetMonth(d, d.month - 1 + k), 0)
         == LastDayOfMonth(ShiftMonth(d.year, d.month, k - 1).0, ShiftMonth(d.year, d.month, k - 1).1)
  {
    var s := ShiftMonth(d.year, d.month, k);
    SetMonthCarry(d, k);
    var z := MakeDay(s.0, s.1 - 1, d.day);
    assert SetMonth(d, d.month - 1 + k) == z;
    InMonthThenDayZero(s.0, s.1, d.day);
    ShiftMonthCompose(d.year, d.month, k, -1);
    assert SetDate(z, 0) == LastDayOfMonth(ShiftMonth(s.0, s.1, -1).0, ShiftMonth(s.0, s.1, -1).1);
  }

  lemma SetMonthOverflow(d: Date, k: int)
    requires ValidDate(d)
    requires d.day > DaysInMonth(ShiftMonth(d.year, d.month, k).0, ShiftMonth(d.year, d.month, k).1)
    ensures SetDate(SetMonth(d, d.month - 1 + k), 0)
         == LastDayOfMonth(ShiftMonth(d.year, d.month, k).0, ShiftMonth(d.year, d.month, k).1)
  {
    var s := ShiftMonth(d.year, d.month, k);
    SetMonthCarry(d, k);
    var z := MakeDay(s.0, s.1 - 1, d.day);
    assert SetMonth(d, d.month - 1 + k) == z;
    OverflowThenDayZero(s.0, s.1, d.day);
    assert SetDate(z, 0) == LastDayOfMonth(s.0, s.1);
  }

  lemma InMonthThenDayZero(y: int, m: int, day: int)
    requires 1 <= m <= 12 && 1 <= day <= DaysInMonth(y, m)
    ensures SetDate(MakeDay(y, m - 1, day), 0) == LastDayOfMonth(ShiftMonth(y, m, -1).0, ShiftMonth(y, m, -1).1)
  {
    MakeDayInMonth(y, m, day);
    assert SetDate(Date(y, m, day), 0) == MakeDay(y, m - 1, 0);
    MakeDayZero(y, m);
  }

  lemma OverflowThenDayZero(y: int, m: int, day: int)
    requires 1 <= m <= 12 && DaysInMonth(y, m) < day <= 31
    ensures SetDate(MakeDay(y, m - 1, day), 0) == LastDayOfMonth(y, m)
  {
    var n := ShiftMonth(y, m, 1);
    assert n == if m == 12 then (y + 1, 1) else (y, m + 1);
    assert DaysInMonth(n.0, n.1) >= 28;
    MakeDayOverflow(y, m, day);
    var x := Date(n.0, n.1, day - DaysInMonth(y, m));
    assert MakeDay(y, m - 1, day) == x;
    assert SetDate(x, 0) == MakeDay(n.0, n.1 - 1, 0);
    MakeDayZero(n.0, n.1);
    assert ShiftMonth(n.0, n.1, -1) == (y, m);
  }

  /** `d.setFullYear(d.getFullYear() + 1)` followed by `setDate(getDate() - 1)`:
      the same day a year later, then one day back; 29 February moves to
      1 March of a common year before stepping back. */
  function YearEndAfter(d: Date): (r: Date)
    requires ValidDate(d)
    ensures ValidDate(r)
  {
    if d.day <= DaysInMonth(d.year + 1, d.month) then PrevDay(Date(d.year + 1, d.month, d.day))
    else PrevDay(Date(d.year + 1, 3, 1))
  }

  lemma SetFullYearThenDayBack(d: Date)
    requires ValidDate(d)
    ensures ValidDate(SetFullYear(d, d.year + 1))
    ensures SetDate(SetFullYear(d, d.year + 1), SetFullYear(d, d.year + 1).day - 1) == YearEndAfter(d)
  {
    SetFullYearValue(d, d.year + 1);
    if d.day <= DaysInMonth(d.year + 1, d.month) {
      DayBack(Date(d.year + 1, d.month, d.day));
    } else {
      DayBack(Date(d.year + 1, 3, 1));
    }
  }

  /** `setFullYear(y)` keeps the day and month, except 29 February, which
      overflows to 1 March when `y` is a common year. */
  lemma SetFullYearValue(d: Date, y: int)
    requires ValidDate(d)
    ensures SetFullYear(d, y)
         == if d.day <= DaysInMonth(y, d.month) then Date(y, d.month, d.day) else Date(y, 3, 1)
  {
    if d.day <= DaysInMonth(y, d.month) {
      MakeDayInMonth(y, d.month, d.day);
    } else {
      assert d.month == 2 && d.day == 29;
      MakeDayOverflow(y, 2, 29);
    }
  }

  /** `d.setDate(d.getDate() + 1)` is the next day. */
  lemma DayForward(x: Date)
    requires ValidDate(x)
    ensures SetDate(x, x.day + 1) == NextDay(x)
  {
    SetDateRelative(x, 1);
    SameDay(AddDays(x, 1), NextDay(x));
  }

  /** `x.setDate(x.getDate() - 1)` is the previous day. */
  lemma DayBack(x: Date)
    requires ValidDate(x)
    ensures SetDate(x, x.day - 1) == PrevDay(x)
  {
    SetDateRelative(x, -1);
    SameDay(AddDays(x, -1), PrevDay(x));
  }
}
