/** Month boundary helpers of the date utilities. Each works on the date
    part; a time of day, when the caller passes a datetime, is carried
    through unchanged and is not modelled. */
module DateHelper {
  import opened Dates

  /** `date.replace(day=1)`. */
  function FirstDayOfMonth(d: Date): (r: Date)
    requires Valid(d)
    ensures Valid(r) && r.year == d.year && r.month == d.month && r.day == 1
  {
    d.(day := 1)
  }

  /** `date.replace(day=1) + relativedelta(months=1)`. */
  function FirstDayOfNextMonth(d: Date): (r: Date)
    requires Valid(d)
    ensures Valid(r) && r.day == 1
    ensures d.month < 12 ==> r.year == d.year && r.month == d.month + 1
    ensures d.month == 12 ==> r.year == d.year + 1 && r.month == 1
  {
    AddMonths(FirstDayOfMonth(d), 1)
  }

  /** `(date.replace(day=1) + relativedelta(months=1)) - timedelta(days=1)`. */
  function LastDayOfMonth(d: Date): (r: Date)
    requires Valid(d)
    ensures Valid(r) && r.year == d.year && r.month == d.month
    ensures r.day == DaysInMonth(d.year, d.month) && 28 <= r.day <= 31
  {
    PrevDay(FirstDayOfNextMonth(d))
  }

  /** The day after the last day of a month is the first day of the next month. */
  lemma LastDayThenFirstOfNext(d: Date)
    requires Valid(d)
    ensures NextDay(LastDayOfMonth(d)) == FirstDayOfNextMonth(d)
  {
    NextDayPrev(FirstDayOfNextMonth(d));
  }

  /** All three helpers look only at the year and the month of their input. */
  lemma OnlyYearAndMonthMatter(a: Date, b: Date)
    requires Valid(a) && Valid(b) && a.year == b.year && a.month == b.month
    ensures FirstDayOfMonth(a) == FirstDayOfMonth(b)
    ensures LastDayOfMonth(a) == LastDayOfMonth(b)
    ensures FirstDayOfNextMonth(a) == FirstDayOfNextMonth(b)
  {
  }
}
