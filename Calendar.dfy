/** Calendar dates as (year, month, day) triples in the proleptic Gregorian
    calendar, and the normalisation JavaScript's `new Date(year, monthIndex,
    day)` performs: a month index outside 0..11 carries into the year, day 0
    is the last day of the previous month and days past the end of the month
    run into the next one. */
module Calendar {

  /** A date; `month` runs from 1 (January) to 12. */
  datatype Date = Date(year: int, month: int, day: int)

  predicate IsLeapYear(y: int) {
    (y % 4 == 0 && y % 100 != 0) || y % 400 == 0
  }

  function DaysInMonth(year: int, month: int): (n: int)
    requires 1 <= month <= 12
    ensures 28 <= n <= 31
    ensures month == 2 ==> (n == 29 <==> IsLeapYear(year))
  {
    if month == 2 then (if IsLeapYear(year) then 29 else 28)
    else if month == 4 || month == 6 || month == 9 || month == 11 then 30
    else 31
  }

  predicate Valid(d: Date) {
    1 <= d.month <= 12 && 1 <= d.day <= DaysInMonth(d.year, d.month)
  }

  /** Chronological order, as `>=` and `<=` compare two Date objects. */
  predicate NotAfter(a: Date, b: Date) {
    a.year < b.year || (a.year == b.year && (a.month < b.month || (a.month == b.month && a.day <= b.day)))
  }

  /** The last day of a month. */
  function LastDay(year: int, month: int): (d: Date)
    requires 1 <= month <= 12
    ensures Valid(d)
  {
    Date(year, month, DaysInMonth(year, month))
  }

  /** `new Date(year, monthIndex, day)`, with the month index counted from 0.
      JavaScript reads a year 0..99 as 1900 + year; that mapping is not
      modelled, because every year passed in comes from `getFullYear()`. */
  function MakeDate(year: int, monthIndex: int, day: int): (r: Date)
    ensures Valid(r)
    decreases if day < 1 then 1 else 0, if day < 1 then -day else day
  {
    var y := year + monthIndex / 12;
    var m := monthIndex % 12 + 1;
    if day < 1 then
      // Count back from the first of the previous month.
      var before := if m == 1 then DaysInMonth(y - 1, 12) else DaysInMonth(y, m - 1);
      MakeDate(y, m - 2, day + before)
    else if day > DaysInMonth(y, m) then
      MakeDate(y, m, day - DaysInMonth(y, m))
    else
      Date(y, m, day)
  }

  /** A date already in range is taken as it is. */
  lemma MakeDateInRange(year: int, monthIndex: int, day: int)
    requires 0 <= monthIndex <= 11 && 1 <= day <= DaysInMonth(year, monthIndex + 1)
    ensures MakeDate(year, monthIndex, day) == Date(year, monthIndex + 1, day)
  {
  }

  /** Day 0 of the month after month `monthIndex` is the last day of that
      month; the index -1 stands for December of the previous year. */
  lemma MakeDateDayZero(year: int, monthIndex: int)
    requires -1 <= monthIndex <= 11
    ensures MakeDate(year, monthIndex + 1, 0) ==
            if monthIndex == -1 then LastDay(year - 1, 12) else LastDay(year, monthIndex + 1)
  {
    var y := year + (monthIndex + 1) / 12;
    var m := (monthIndex + 1) % 12 + 1;
    if monthIndex == 11 {
      assert y == year + 1 && m == 1;
      assert MakeDate(year, 12, 0) == MakeDate(year + 1, -1, 31);
      assert (-1) / 12 == -1 && (-1) % 12 == 11;
    } else if monthIndex == -1 {
      assert y == year && m == 1;
      assert MakeDate(year, 0, 0) == MakeDate(year, -1, 31);
      assert (-1) / 12 == -1 && (-1) % 12 == 11;
    } else {
      assert y == year && m == monthIndex + 2;
    }
  }

  /** The first day of month `monthIndex`; the index -1 stands for December
      of the previous year. */
  lemma MakeDateFirst(year: int, monthIndex: int)
    requires -1 <= monthIndex <= 11
    ensures MakeDate(year, monthIndex, 1) ==
            if monthIndex == -1 then Date(year - 1, 12, 1) else Date(year, monthIndex + 1, 1)
  {
    if monthIndex == -1 {
      assert (-1) / 12 == -1 && (-1) % 12 == 11;
    }
  }
}
