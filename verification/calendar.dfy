/** Gregorian calendar arithmetic as JavaScript's `Date` performs it: the
    adapters use it to find the last day of the current billing month. */
module Calendar {

  /** Zero-based month index, as `Date.prototype.getMonth` returns it. */
  type Month = m: int | 0 <= m < 12

  datatype Date = Date(year: int, month: Month, day: int)

  predicate IsLeapYear(y: int) {
    y % 4 == 0 && (y % 100 != 0 || y % 400 == 0)
  }

  /** Length of month `m` of year `y` under the Gregorian leap rule. */
  function DaysInMonth(y: int, m: Month): int {
    if m == 1 then (if IsLeapYear(y) then 29 else 28)
    else if m == 3 || m == 5 || m == 8 || m == 10 then 30
    else 31
  }

  predicate ValidDate(d: Date) {
    1 <= d.day <= DaysInMonth(d.year, d.month)
  }

  /** The following calendar day, carrying into the next month and year. */
  function NextDay(d: Date): (r: Date)
    requires ValidDate(d)
    ensures ValidDate(r)
    ensures r.day == 1 <==> d.day == DaysInMonth(d.year, d.month)
  {
    if d.day < DaysInMonth(d.year, d.month) then d.(day := d.day + 1)
    else if d.month < 11 then Date(d.year, d.month + 1, 1)
    else Date(d.year + 1, 0, 1)
  }

  /** The preceding calendar day, borrowing from the previous month and year. */
  function PreviousDay(d: Date): (r: Date)
    requires ValidDate(d)
    ensures ValidDate(r)
  {
    if d.day > 1 then d.(day := d.day - 1)
    else if d.month > 0 then Date(d.year, d.month - 1, DaysInMonth(d.year, d.month - 1))
    else Date(d.year - 1, 11, 31)
  }

  /** Stepping a day forward and back again (in either order) is the identity. */
  lemma NextPreviousRoundTrip(d: Date)
    requires ValidDate(d)
    ensures PreviousDay(NextDay(d)) == d
    ensures NextDay(PreviousDay(d)) == d
  {
  }

  /** The JavaScript expression `new Date(y, m + 1, 0)` for a full year
      `y` of 100 or later (JavaScript reads 0 to 99 as 1900 to 1999): a
      month index of 12 carries into the next year, and day 0 denotes the
      day before the 1st. */
  function DayZeroOfNextMonth(y: int, m: Month): (r: Date)
    ensures ValidDate(r)
    ensures r == Date(y, m, DaysInMonth(y, m))
    ensures NextDay(r).day == 1
  {
    var first := if m < 11 then Date(y, m + 1, 1) else Date(y + 1, 0, 1);
    PreviousDay(first)
  }

  /** Days in the months before month `m` of year `y`. */
  function DaysBeforeMonth(y: int, m: int): int
    requires 0 <= m <= 12
    decreases m
  {
    if m == 0 then 0 else DaysBeforeMonth(y, m - 1) + DaysInMonth(y, m - 1)
  }

  /** The twelve month lengths add up to a Gregorian year. */
  lemma {:induction false} YearLength(y: int)
    ensures DaysBeforeMonth(y, 12) == if IsLeapYear(y) then 366 else 365
  {
    assert DaysBeforeMonth(y, 2) == 31 + DaysInMonth(y, 1);
    assert DaysBeforeMonth(y, 6) == DaysBeforeMonth(y, 2) + 31 + 30 + 31 + 30;
    assert DaysBeforeMonth(y, 12) == DaysBeforeMonth(y, 6) + 31 + 31 + 30 + 31 + 30 + 31;
  }

  /** The billing period the adapters report: the whole current month. */
  datatype BillingCycle = BillingCycle(year: int, month: Month, firstDay: int, lastDay: int)

  /** Billing cycle for the month containing `today`: from the 1st to the day
      obtained from `new Date(year, month + 1, 0).getDate()`. */
  function BillingCycleFor(today: Date): (c: BillingCycle)
    ensures c.year == today.year && c.month == today.month
    ensures c.firstDay == 1
    ensures c.lastDay == DaysInMonth(today.year, today.month)
    ensures ValidDate(today) ==> c.firstDay <= today.day <= c.lastDay
    ensures ValidDate(Date(c.year, c.month, c.lastDay))
    ensures NextDay(Date(c.year, c.month, c.lastDay)).day == 1
  {
    var last := DayZeroOfNextMonth(today.year, today.month);
    BillingCycle(today.year, today.month, 1, last.day)
  }
}
