/** Billing dates: one period on from a date, and any number of periods in closed form. */
module BillingCalendar {
  import opened Prelude

  datatype Date = Date(year: int, month: int, day: int)

  datatype Interval = Month | Year

  const MAX_YEAR: int := 9999

  predicate IsLeap(y: int) { y % 4 == 0 && (y % 100 != 0 || y % 400 == 0) }

  /** Days in month m of year y. */
  function DaysIn(y: int, m: int): int {
    if m == 2 then (if IsLeap(y) then 29 else 28)
    else if m == 4 || m == 6 || m == 9 || m == 11 then 30
    else 31
  }

  /** Every fourth year is a leap year, but of the centuries only every fourth. */
  lemma LeapRule(y: int)
    ensures y % 4 != 0 ==> !IsLeap(y)
    ensures y % 4 == 0 && y % 100 != 0 ==> IsLeap(y)
    ensures y % 100 == 0 && y % 400 != 0 ==> !IsLeap(y)
    ensures y % 4 == 0 && y % 400 == 0 ==> IsLeap(y)
    ensures IsLeap(2000) && IsLeap(2024) && !IsLeap(1900) && !IsLeap(2023)
  {
  }

  /** Thirty days have four months; February has 28, or 29 in leap years; all the rest have thirty-one. */
  lemma MonthLengths(y: int)
    ensures DaysIn(y, 4) == DaysIn(y, 6) == DaysIn(y, 9) == DaysIn(y, 11) == 30
    ensures DaysIn(y, 1) == DaysIn(y, 3) == DaysIn(y, 5) == DaysIn(y, 7) == DaysIn(y, 8) == DaysIn(y, 10) == DaysIn(y, 12) == 31
    ensures DaysIn(y, 2) == if IsLeap(y) then 29 else 28
  {
  }

  predicate IsDate(d: Date) { 1 <= d.year <= MAX_YEAR && 1 <= d.month <= 12 && 1 <= d.day <= DaysIn(d.year, d.month) }

  predicate Earlier(a: Date, b: Date) {
    a.year < b.year || (a.year == b.year && (a.month < b.month || (a.month == b.month && a.day < b.day)))
  }

  /** The next billing date; none beyond the last year a date can have. */
  function AddBillingPeriod(d: Date, interval: Interval): Option<Date> {
    match interval
    case Year =>
      if d.year + 1 > MAX_YEAR then None
      else if d.day <= DaysIn(d.year + 1, d.month) then Some(Date(d.year + 1, d.month, d.day))
      else Some(Date(d.year + 1, d.month, 28))
    case Month =>
      var year := d.year + d.month / 12;
      var month := d.month % 12 + 1;
      if year > MAX_YEAR then None else Some(Date(year, month, Min(d.day, DaysIn(year, month))))
  }

  /** n periods on, one after the other. */
  function Renew(d: Date, interval: Interval, n: nat): Option<Date> {
    if n == 0 then Some(d)
    else
      var before := Renew(d, interval, n - 1);
      if before.None? then None else AddBillingPeriod(before.value, interval)
  }

  /** Months counted from January of year 0. */
  function MonthIndex(d: Date): int { d.year * 12 + d.month - 1 }

  function DaysInIndex(index: int): int { DaysIn(index / 12, index % 12 + 1) }

  /** The length of the shortest of the n months after the given one. */
  function Shortest(index: int, n: nat): int {
    if n == 0 then 31 else Min(Shortest(index, n - 1), DaysInIndex(index + n))
  }

  lemma MonthStep(d: Date)
    requires IsDate(d)
    ensures AddBillingPeriod(d, Month).Some? <==> MonthIndex(d) + 1 <= MAX_YEAR * 12 + 11
    ensures AddBillingPeriod(d, Month).Some? ==>
              var e := AddBillingPeriod(d, Month).value;
              && IsDate(e) && Earlier(d, e) && MonthIndex(e) == MonthIndex(d) + 1
              && e.day == Min(d.day, DaysInIndex(MonthIndex(d) + 1))
  {
    if d.month == 12 {
      assert MonthIndex(d) + 1 == (d.year + 1) * 12;
    } else {
      assert (MonthIndex(d) + 1) / 12 == d.year && (MonthIndex(d) + 1) % 12 == d.month;
    }
  }

  lemma YearStep(d: Date)
    requires IsDate(d)
    ensures AddBillingPeriod(d, Year).Some? <==> d.year < MAX_YEAR
    ensures AddBillingPeriod(d, Year).Some? ==>
              var e := AddBillingPeriod(d, Year).value;
              && IsDate(e) && Earlier(d, e) && e.year == d.year + 1 && e.month == d.month
              && e.day == if d.month == 2 && d.day == 29 then 28 else d.day
  {
  }

  /** n monthly renewals: the month advances by exactly n, and the day is the smallest of the start day and the lengths
      of all months reached, so a day once lost to a short month never comes back. */
  lemma {:induction false} MonthlyClosedForm(d: Date, n: nat)
    requires IsDate(d)
    ensures Renew(d, Month, n).Some? <==> MonthIndex(d) + n <= MAX_YEAR * 12 + 11
    ensures Renew(d, Month, n).Some? ==>
              var e := Renew(d, Month, n).value;
              && IsDate(e) && MonthIndex(e) == MonthIndex(d) + n && e.day == Min(d.day, Shortest(MonthIndex(d), n))
              && (n > 0 ==> Earlier(Renew(d, Month, n - 1).value, e))
  {
    if n > 0 {
      MonthlyClosedForm(d, n - 1);
      if Renew(d, Month, n - 1).Some? {
        MonthStep(Renew(d, Month, n - 1).value);
      }
    }
  }

  /** n yearly renewals keep month and day, except that 29 February becomes the 28th for good. */
  lemma {:induction false} YearlyClosedForm(d: Date, n: nat)
    requires IsDate(d)
    ensures Renew(d, Year, n).Some? <==> d.year + n <= MAX_YEAR
    ensures Renew(d, Year, n).Some? ==>
              var e := Renew(d, Year, n).value;
              && IsDate(e) && e.year == d.year + n && e.month == d.month
              && e.day == (if n > 0 && d.month == 2 && d.day == 29 then 28 else d.day)
              && (n > 0 ==> Earlier(Renew(d, Year, n - 1).value, e))
  {
    if n > 0 {
      YearlyClosedForm(d, n - 1);
      if Renew(d, Year, n - 1).Some? {
        YearStep(Renew(d, Year, n - 1).value);
      }
    }
  }

  /** After a year or more of monthly renewals: a day up to the 28th is kept for good, a later one has been cut by
      some February to at most the 29th, unlike with yearly renewals. */
  lemma MonthsMeetFebruary(d: Date, n: nat)
    requires IsDate(d) && n >= 12 && Renew(d, Month, n).Some?
    ensures var e := Renew(d, Month, n).value;
            && e.day <= 29 && (d.day <= 28 ==> e.day == d.day)
  {
    MonthlyClosedForm(d, n);
    var i := MonthIndex(d);
    ShortestAtLeast(i, n);
    var k := if d.month == 1 then 1 else 14 - d.month;
    assert (i + k) % 12 == 1;
    ShortestAtMost(i, n, k);
  }

  lemma {:induction false} ShortestAtLeast(index: int, n: nat)
    ensures Shortest(index, n) >= 28
  {
    if n > 0 {
      ShortestAtLeast(index, n - 1);
    }
  }

  lemma {:induction false} ShortestAtMost(index: int, n: nat, k: nat)
    requires 1 <= k <= n
    ensures Shortest(index, n) <= DaysInIndex(index + k)
  {
    if k < n {
      ShortestAtMost(index, n - 1, k);
    }
  }
}
