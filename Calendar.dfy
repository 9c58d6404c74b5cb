/** Civil dates as Python's datetime.date holds them (proleptic Gregorian
    year, month, day), with the day arithmetic the analytics code does by
    adding and subtracting timedelta(days=n) and by date.replace(day=1).
    Days are counted month by month, so only month lengths are needed. */
module Calendar {

  datatype Date = Date(year: int, month: int, day: int)

  predicate IsLeapYear(y: int) {
    y % 4 == 0 && (y % 100 != 0 || y % 400 == 0)
  }

  function DaysInMonth(y: int, m: int): (n: int)
    requires 1 <= m <= 12
    ensures 28 <= n <= 31
  {
    if m == 2 then (if IsLeapYear(y) then 29 else 28)
    else if m == 4 || m == 6 || m == 9 || m == 11 then 30
    else 31
  }

  predicate ValidDate(d: Date) {
    1 <= d.month <= 12 && 1 <= d.day <= DaysInMonth(d.year, d.month)
  }

  /** Strict chronological order (date comparison in Python and SQL). */
  predicate Before(a: Date, b: Date) {
    a.year < b.year
    || (a.year == b.year && a.month < b.month)
    || (a.year == b.year && a.month == b.month && a.day < b.day)
  }

  predicate AtOrBefore(a: Date, b: Date) {
    Before(a, b) || a == b
  }

  /** d.replace(day=1). */
  function FirstOfMonth(d: Date): Date {
    Date(d.year, d.month, 1)
  }

  /** d.replace(month=1, day=1). */
  function FirstOfYear(d: Date): Date {
    Date(d.year, 1, 1)
  }

  function LastOfPreviousMonth(d: Date): (r: Date)
    requires ValidDate(d)
    ensures ValidDate(r) && Before(r, FirstOfMonth(d))
  {
    if d.month == 1 then Date(d.year - 1, 12, 31)
    else Date(d.year, d.month - 1, DaysInMonth(d.year, d.month - 1))
  }

  function FirstOfNextMonth(d: Date): (r: Date)
    requires ValidDate(d)
    ensures ValidDate(r) && r.day == 1 && Before(d, r)
  {
    if d.month == 12 then Date(d.year + 1, 1, 1) else Date(d.year, d.month + 1, 1)
  }

  /** d - timedelta(days=n). */
  function SubDays(d: Date, n: nat): (r: Date)
    requires ValidDate(d)
    ensures ValidDate(r)
    decreases n
  {
    if n < d.day then Date(d.year, d.month, d.day - n)
    else SubDays(LastOfPreviousMonth(d), n - d.day)
  }

  /** d + timedelta(days=n). */
  function AddDays(d: Date, n: nat): (r: Date)
    requires ValidDate(d)
    ensures ValidDate(r)
    decreases n
  {
    if d.day + n <= DaysInMonth(d.year, d.month) then Date(d.year, d.month, d.day + n)
    else AddDays(FirstOfNextMonth(d), n - (DaysInMonth(d.year, d.month) - d.day + 1))
  }

  // ---------------------------------------------------------------------
  // Months as consecutive indices
  // ---------------------------------------------------------------------

  function MonthIndex(d: Date): int {
    12 * d.year + d.month - 1
  }

  /** The first day of the month with index i. */
  function MonthStart(i: int): (r: Date)
    ensures ValidDate(r) && r.day == 1 && MonthIndex(r) == i
  {
    Date(i / 12, i % 12 + 1, 1)
  }

  lemma MonthStartOf(d: Date)
    requires ValidDate(d)
    ensures MonthStart(MonthIndex(d)) == FirstOfMonth(d)
  {
  }

  /** A date lies in month k exactly when it falls on or after that month's
      first day and before the next month's first day. */
  lemma MonthStartBounds(k: int, d: Date)
    requires ValidDate(d)
    ensures (AtOrBefore(MonthStart(k), d) && Before(d, MonthStart(k + 1))) <==> MonthIndex(d) == k
  {
  }

  // ---------------------------------------------------------------------
  // Order facts
  // ---------------------------------------------------------------------

  lemma BeforeTransitive(a: Date, b: Date, c: Date)
    requires Before(a, b) && Before(b, c)
    ensures Before(a, c)
  {
  }

  lemma BeforeIrreflexive(a: Date, b: Date)
    requires Before(a, b)
    ensures a != b && !Before(b, a)
  {
  }

  /** Of two different dates one comes first. */
  lemma BeforeTotal(a: Date, b: Date)
    ensures Before(a, b) || a == b || Before(b, a)
  {
  }

  // ---------------------------------------------------------------------
  // Day arithmetic
  // ---------------------------------------------------------------------

  lemma {:induction false} SubDaysZero(d: Date)
    requires ValidDate(d)
    ensures SubDays(d, 0) == d
  {
  }

  lemma {:induction false} AddDaysZero(d: Date)
    requires ValidDate(d)
    ensures AddDays(d, 0) == d
  {
  }

  /** Subtracting a days and then b days is subtracting a + b days. */
  lemma {:induction false} SubDaysAdditive(d: Date, a: nat, b: nat)
    requires ValidDate(d)
    ensures SubDays(SubDays(d, a), b) == SubDays(d, a + b)
    decreases a
  {
    if a < d.day {
    } else {
      SubDaysAdditive(LastOfPreviousMonth(d), a - d.day, b);
    }
  }

  lemma NextOfLastOfPrevious(d: Date)
    requires ValidDate(d)
    ensures FirstOfNextMonth(LastOfPreviousMonth(d)) == FirstOfMonth(d)
  {
  }

  /** The day after d - (n + 1) days is d - n days. */
  lemma {:induction false} NextAfterSub(d: Date, n: nat)
    requires ValidDate(d)
    ensures AddDays(SubDays(d, n + 1), 1) == SubDays(d, n)
    decreases n
  {
    if n + 1 < d.day {
    } else if n + 1 == d.day {
      var p := LastOfPreviousMonth(d);
      SubDaysZero(p);
      NextOfLastOfPrevious(d);
      AddDaysZero(FirstOfNextMonth(p));
      assert AddDays(p, 1) == AddDays(FirstOfNextMonth(p), 0);
    } else {
      NextAfterSub(LastOfPreviousMonth(d), n - d.day);
    }
  }

  /** The next day is later. */
  lemma NextIsLater(d: Date)
    requires ValidDate(d)
    ensures Before(d, AddDays(d, 1))
  {
    if d.day + 1 > DaysInMonth(d.year, d.month) {
      AddDaysZero(FirstOfNextMonth(d));
    }
  }

  /** Going back n days never moves forward, and moves back when n > 0. */
  lemma {:induction false} SubDaysNotLater(d: Date, n: nat)
    requires ValidDate(d)
    ensures AtOrBefore(SubDays(d, n), d)
    ensures n > 0 ==> Before(SubDays(d, n), d)
    decreases n
  {
    if n < d.day {
    } else {
      var p := LastOfPreviousMonth(d);
      SubDaysNotLater(p, n - d.day);
      assert Before(p, d);
    }
  }

  /** Going back by more days lands strictly earlier. */
  lemma SubDaysMonotone(d: Date, a: nat, b: nat)
    requires ValidDate(d) && a < b
    ensures Before(SubDays(d, b), SubDays(d, a))
  {
    SubDaysAdditive(d, a, b - a);
    SubDaysNotLater(SubDays(d, a), b - a);
  }

  // ---------------------------------------------------------------------
  // Which month d - n days falls in
  // ---------------------------------------------------------------------

  /** Days from d back to the start of the k-th month before d's month:
      d.day for d's own month, then whole months. */
  function DaysBack(d: Date, k: nat): (r: nat)
    requires ValidDate(d)
    ensures k > 0 ==> d.day + 28 * (k - 1) <= r <= d.day + 31 * (k - 1)
    decreases k
  {
    if k == 0 then 0 else d.day + DaysBack(LastOfPreviousMonth(d), k - 1)
  }

  lemma MonthIndexOfPrevious(d: Date)
    requires ValidDate(d)
    ensures MonthIndex(LastOfPreviousMonth(d)) == MonthIndex(d) - 1
  {
  }

  /** If the days to go back reach past k whole-or-partial months but not
      past k + 1, the result lies k months before. */
  lemma {:induction false} SubDaysMonth(d: Date, n: nat, k: nat)
    requires ValidDate(d)
    requires DaysBack(d, k) <= n < DaysBack(d, k + 1)
    ensures MonthIndex(SubDays(d, n)) == MonthIndex(d) - k
    decreases k
  {
    if k > 0 {
      var p := LastOfPreviousMonth(d);
      MonthIndexOfPrevious(d);
      SubDaysMonth(p, n - d.day, k - 1);
    }
  }

  /** From the first of a month, 32 * i days back (1 <= i <= 7) lands
      i + 1 months back. */
  lemma ThirtyTwoDayStepsBack(d: Date, i: nat)
    requires ValidDate(d) && d.day == 1 && 1 <= i <= 7
    ensures MonthIndex(SubDays(d, 32 * i)) == MonthIndex(d) - (i + 1)
  {
    SubDaysMonth(d, 32 * i, i + 1);
  }

  /** From the first of a month, 32 days on lands in the next month. */
  lemma ThirtyTwoDaysOn(d: Date)
    requires ValidDate(d) && d.day == 1
    ensures MonthIndex(AddDays(d, 32)) == MonthIndex(d) + 1
  {
    var len := DaysInMonth(d.year, d.month);
    var nx := FirstOfNextMonth(d);
    assert AddDays(d, 32) == AddDays(nx, 32 - len);
    assert AddDays(nx, 32 - len) == Date(nx.year, nx.month, 1 + 32 - len);
  }
}
