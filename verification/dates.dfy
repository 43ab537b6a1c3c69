/** Proleptic Gregorian calendar dates with the semantics of Python's
    `datetime.date`: day stepping, `relativedelta(months=k)` with day
    clamping, chronological comparison and ISO rendering. */
module Dates {
  import Strings
  import opened Wrappers

  datatype Date = Date(year: int, month: int, day: int)

  predicate IsLeapYear(y: int) {
    y % 4 == 0 && (y % 100 != 0 || y % 400 == 0)
  }

  function DaysInMonth(y: int, m: int): (n: int)
    requires 1 <= m <= 12
    ensures 28 <= n <= 31
  {
    if m == 2 then (if IsLeapYear(y) then 29 else 28)
    else if m == 4 || m == 6 || m == 9 || m == 11 then 30
    else 31
  }

  predicate Valid(d: Date) {
    1 <= d.year && 1 <= d.month <= 12 && 1 <= d.day <= DaysInMonth(d.year, d.month)
  }

  /** Days of year `y` that come before the first of month `m` (m = 13 gives the year's length). */
  function DaysBeforeMonth(y: int, m: int): int
    requires 1 <= m <= 13
  {
    [0, 31, 59, 90, 120, 151, 181, 212, 243, 273, 304, 334, 365][m - 1]
      + (if m > 2 && IsLeapYear(y) then 1 else 0)
  }

  function DaysBeforeYear(y: int): int
    requires y >= 1
  {
    var x := y - 1;
    365 * x + x / 4 - x / 100 + x / 400
  }

  /** The proleptic ordinal of a date: 0001-01-01 is day 1, as `date.toordinal()`. */
  function DayNumber(d: Date): int
    requires Valid(d)
  {
    DaysBeforeYear(d.year) + DaysBeforeMonth(d.year, d.month) + d.day
  }

  /** Chronological order, as Python's `<` on dates. */
  predicate Before(a: Date, b: Date)
    requires Valid(a) && Valid(b)
  {
    DayNumber(a) < DayNumber(b)
  }

  function NextDay(d: Date): (r: Date)
    requires Valid(d)
    ensures Valid(r)
  {
    if d.day < DaysInMonth(d.year, d.month) then Date(d.year, d.month, d.day + 1)
    else if d.month < 12 then Date(d.year, d.month + 1, 1)
    else Date(d.year + 1, 1, 1)
  }

  function PrevDay(d: Date): (r: Date)
    requires Valid(d) && d != Date(1, 1, 1)
    ensures Valid(r)
  {
    if d.day > 1 then Date(d.year, d.month, d.day - 1)
    else if d.month > 1 then Date(d.year, d.month - 1, DaysInMonth(d.year, d.month - 1))
    else Date(d.year - 1, 12, 31)
  }

  lemma MonthStep(y: int, m: int)
    requires 1 <= m <= 12
    ensures DaysBeforeMonth(y, m + 1) == DaysBeforeMonth(y, m) + DaysInMonth(y, m)
  {
  }

  lemma YearStep(y: int)
    requires y >= 1
    ensures DaysBeforeYear(y + 1) == DaysBeforeYear(y) + DaysBeforeMonth(y, 13)
  {
    var x := y - 1;
    assert (x + 1) / 4 == x / 4 + (if y % 4 == 0 then 1 else 0);
    assert (x + 1) / 100 == x / 100 + (if y % 100 == 0 then 1 else 0);
    assert (x + 1) / 400 == x / 400 + (if y % 400 == 0 then 1 else 0);
  }

  lemma NextDayNumber(d: Date)
    requires Valid(d)
    ensures DayNumber(NextDay(d)) == DayNumber(d) + 1
  {
    if d.day == DaysInMonth(d.year, d.month) {
      MonthStep(d.year, d.month);
      if d.month == 12 {
        YearStep(d.year);
      }
    }
  }

  lemma PrevDayNext(d: Date)
    requires Valid(d)
    ensures NextDay(d) != Date(1, 1, 1) && PrevDay(NextDay(d)) == d
  {
  }

  lemma NextDayPrev(d: Date)
    requires Valid(d) && d != Date(1, 1, 1)
    ensures NextDay(PrevDay(d)) == d
  {
  }

  lemma PrevDayNumber(d: Date)
    requires Valid(d) && d != Date(1, 1, 1)
    ensures DayNumber(PrevDay(d)) == DayNumber(d) - 1
  {
    NextDayPrev(d);
    NextDayNumber(PrevDay(d));
  }

  /** Day numbers start at 1, on 0001-01-01. */
  lemma DayNumberPositive(d: Date)
    requires Valid(d)
    ensures DayNumber(d) >= 1
  {
    var x := d.year - 1;
    assert 365 * x + x / 4 - x / 100 + x / 400 >= 0;
  }

  lemma {:induction false} DaysBeforeMonthGrows(y: int, m1: int, m2: int)
    requires 1 <= m1 <= m2 <= 13
    ensures DaysBeforeMonth(y, m1) + (m2 - m1) * 28 <= DaysBeforeMonth(y, m2)
    decreases m2 - m1
  {
    if m1 < m2 {
      MonthStep(y, m1);
      DaysBeforeMonthGrows(y, m1 + 1, m2);
    }
  }

  lemma {:induction false} DaysBeforeYearGrows(y1: int, y2: int)
    requires 1 <= y1 <= y2
    ensures DaysBeforeYear(y1) + (y2 - y1) * 365 <= DaysBeforeYear(y2)
    decreases y2 - y1
  {
    if y1 < y2 {
      YearStep(y1);
      DaysBeforeYearGrows(y1 + 1, y2);
    }
  }

  /** A date's day number lies within its year's span of day numbers. */
  lemma WithinYear(d: Date)
    requires Valid(d)
    ensures DaysBeforeYear(d.year) < DayNumber(d) <= DaysBeforeYear(d.year + 1)
  {
    YearStep(d.year);
    MonthStep(d.year, d.month);
    DaysBeforeMonthGrows(d.year, d.month + 1, 13);
  }

  /** Distinct dates have distinct day numbers. */
  lemma DayNumberInjective(a: Date, b: Date)
    requires Valid(a) && Valid(b)
    requires DayNumber(a) == DayNumber(b)
    ensures a == b
  {
    WithinYear(a);
    WithinYear(b);
    if a.year < b.year {
      DaysBeforeYearGrows(a.year + 1, b.year);
      assert false;
    } else if b.year < a.year {
      DaysBeforeYearGrows(b.year + 1, a.year);
      assert false;
    }
    if a.month < b.month {
      MonthStep(a.year, a.month);
      DaysBeforeMonthGrows(a.year, a.month + 1, b.month);
      assert false;
    } else if b.month < a.month {
      MonthStep(b.year, b.month);
      DaysBeforeMonthGrows(b.year, b.month + 1, a.month);
      assert false;
    }
  }

  /** `d + timedelta(days=n)` for n >= 0. */
  function AddDays(d: Date, n: nat): (r: Date)
    requires Valid(d)
    ensures Valid(r)
    decreases n
  {
    if n == 0 then d else AddDays(NextDay(d), n - 1)
  }

  lemma {:induction false} AddDaysNumber(d: Date, n: nat)
    requires Valid(d)
    ensures DayNumber(AddDays(d, n)) == DayNumber(d) + n
    decreases n
  {
    if n > 0 {
      NextDayNumber(d);
      AddDaysNumber(NextDay(d), n - 1);
    }
  }

  lemma {:induction false} AddDaysLast(d: Date, n: nat)
    requires Valid(d)
    ensures AddDays(d, n + 1) == NextDay(AddDays(d, n))
    decreases n
  {
    if n > 0 {
      AddDaysLast(NextDay(d), n - 1);
    }
  }

  /** `d - timedelta(days=n)`; None when that would pass 0001-01-01, where
      Python raises an OverflowError. */
  function SubDays(d: Date, n: nat): (r: Option<Date>)
    requires Valid(d)
    ensures r.Some? ==> Valid(r.value)
    decreases n
  {
    if n == 0 then Some(d)
    else if d == Date(1, 1, 1) then None
    else SubDays(PrevDay(d), n - 1)
  }

  /** Going back n days and then forward n days returns to the start. */
  lemma {:induction false} SubDaysThenAdd(d: Date, n: nat)
    requires Valid(d)
    ensures SubDays(d, n).Some? ==> AddDays(SubDays(d, n).value, n) == d
    decreases n
  {
    if n > 0 && SubDays(d, n).Some? {
      var r := SubDays(d, n).value;
      SubDaysThenAdd(PrevDay(d), n - 1);
      AddDaysLast(r, n - 1);
      NextDayPrev(d);
    }
  }

  /** Going back stays defined as long as the target day number is at least 1. */
  lemma {:induction false} SubDaysDefined(d: Date, n: nat)
    requires Valid(d) && DayNumber(d) - n >= 1
    ensures SubDays(d, n).Some?
    decreases n
  {
    if n > 0 {
      assert d != Date(1, 1, 1);
      PrevDayNumber(d);
      SubDaysDefined(PrevDay(d), n - 1);
    }
  }

  /** `d + timedelta(days=k)` for any k; None for an OverflowError before
      0001-01-01 (Python's upper limit, year 9999, is not modelled). */
  function ShiftDays(d: Date, k: int): (r: Option<Date>)
    requires Valid(d)
    ensures r.Some? ==> Valid(r.value)
    ensures k >= 0 ==> r == Some(AddDays(d, k))
    ensures k < 0 && r.Some? ==> AddDays(r.value, -k) == d
  {
    if k >= 0 then Some(AddDays(d, k))
    else
      SubDaysThenAdd(d, -k);
      SubDays(d, -k)
  }

  /** A shift that succeeds moves the day number by exactly k. */
  lemma ShiftDaysNumber(d: Date, k: int)
    requires Valid(d)
    ensures ShiftDays(d, k).Some? ==> DayNumber(ShiftDays(d, k).value) == DayNumber(d) + k
    ensures DayNumber(d) + k >= 1 ==> ShiftDays(d, k).Some?
  {
    if k < 0 && DayNumber(d) + k >= 1 {
      SubDaysDefined(d, -k);
    }
    if k >= 0 {
      AddDaysNumber(d, k);
    } else if ShiftDays(d, k).Some? {
      AddDaysNumber(ShiftDays(d, k).value, -k);
    }
  }

  /** `d + relativedelta(months=k)`: shift the month, keep the day, clamp it to
      the length of the target month. */
  function AddMonths(d: Date, k: int): (r: Date)
    requires Valid(d)
    requires d.year * 12 + d.month - 1 + k >= 12
    ensures Valid(r)
    ensures r.year * 12 + r.month - 1 == d.year * 12 + d.month - 1 + k
    ensures r.day == if d.day <= DaysInMonth(r.year, r.month) then d.day else DaysInMonth(r.year, r.month)
  {
    var total := d.year * 12 + d.month - 1 + k;
    var y := total / 12;
    var m := total % 12 + 1;
    var dim := DaysInMonth(y, m);
    Date(y, m, if d.day <= dim then d.day else dim)
  }

  /** ISO rendering `YYYY-MM-DD`, as `str(date)` and `strftime("%Y-%m-%d")`. */
  function Format(d: Date): (s: string)
    requires Valid(d)
    ensures |s| >= 10
  {
    Strings.ZeroPad(d.year as nat, 4) + "-" + Strings.ZeroPad(d.month as nat, 2) + "-" + Strings.ZeroPad(d.day as nat, 2)
  }

  /** The pieces of `y-m-d` when the last two are two characters long. */
  lemma DashedParts(y: string, m: string, dd: string)
    requires |m| == 2 && |dd| == 2
    ensures var s := y + "-" + m + "-" + dd;
      && |s| == |y| + 6
      && s[..|s| - 6] == y && s[|s| - 5..|s| - 3] == m && s[|s| - 2..] == dd
  {
    var s := y + "-" + m + "-" + dd;
    assert s[..|y|] == y;
    assert s[|y| + 1..|y| + 3] == m;
    assert s[|y| + 4..] == dd;
  }

  /** A rendering split back into its year, month and day texts. */
  function Pieces(s: string): (string, string, string)
    requires |s| >= 6
  {
    (s[..|s| - 6], s[|s| - 5..|s| - 3], s[|s| - 2..])
  }

  /** The rendering ends with the two-digit month and day, each after a
      dash, and the year fills what comes before. */
  lemma FormatParts(d: Date)
    requires Valid(d)
    ensures Pieces(Format(d)) == (Strings.ZeroPad(d.year as nat, 4), Strings.ZeroPad(d.month as nat, 2), Strings.ZeroPad(d.day as nat, 2))
  {
    Strings.Pow10Values();
    Strings.ZeroPadValue(d.month as nat, 2);
    Strings.ZeroPadValue(d.day as nat, 2);
    var y, m, dd := Strings.ZeroPad(d.year as nat, 4), Strings.ZeroPad(d.month as nat, 2), Strings.ZeroPad(d.day as nat, 2);
    assert |m| == 2 && |dd| == 2;
    assert Format(d) == y + "-" + m + "-" + dd;
    DashedParts(y, m, dd);
  }

  /** Distinct dates render differently. */
  lemma FormatInjective(a: Date, b: Date)
    requires Valid(a) && Valid(b)
    requires Format(a) == Format(b)
    ensures a == b
  {
    FormatParts(a);
    FormatParts(b);
    var p := Pieces(Format(a));
    SameDigits(a.year as nat, b.year as nat, 4, p.0);
    SameDigits(a.month as nat, b.month as nat, 2, p.1);
    SameDigits(a.day as nat, b.day as nat, 2, p.2);
  }

  /** Two numbers padded to the same text are equal. */
  lemma SameDigits(x: nat, y: nat, w: nat, t: string)
    requires Strings.ZeroPad(x, w) == t && Strings.ZeroPad(y, w) == t
    ensures x == y
  {
    Strings.ZeroPadValue(x, w);
    Strings.ZeroPadValue(y, w);
  }

}
