/** Calendar values the services use: parsed dates (pandas Timestamps, taken
    as already parsed), their day numbers for daily gap filling, and monthly
    periods (pandas Period with freq 'M') with their ranges. */
module Calendar {

  /** A parsed calendar date. */
  datatype Date = Date(year: int, month: int, day: int)

  predicate IsLeapYear(y: int) {
    y % 4 == 0 && (y % 100 != 0 || y % 400 == 0)
  }

  function DaysInMonth(y: int, m: int): int {
    if m == 2 then (if IsLeapYear(y) then 29 else 28)
    else if m == 4 || m == 6 || m == 9 || m == 11 then 30
    else 31
  }

  /** A date pandas can represent (Timestamps span the years 1677 to 2262). */
  predicate ValidDate(d: Date) {
    1677 <= d.year <= 2262 && 1 <= d.month <= 12 && 1 <= d.day <= DaysInMonth(d.year, d.month)
  }

  /** Days since 1970-01-01 in the proleptic Gregorian calendar: the
      position of a date on pandas' daily frequency. */
  function DayNumber(d: Date): int {
    var y := if d.month <= 2 then d.year - 1 else d.year;
    var era := y / 400;
    var yoe := y - era * 400;
    var mp := (d.month + 9) % 12;
    var doy := (153 * mp + 2) / 5 + d.day - 1;
    var doe := yoe * 365 + yoe / 4 - yoe / 100 + doy;
    era * 146097 + doe - 719468
  }

  /** A monthly period. */
  datatype YearMonth = YearMonth(year: int, month: int)

  predicate ValidMonth(ym: YearMonth) {
    1 <= ym.month <= 12
  }

  /** dt.to_period('M'). */
  function MonthOf(d: Date): YearMonth {
    YearMonth(d.year, d.month)
  }

  /** The position of a period on the monthly axis. */
  function MonthIndex(ym: YearMonth): int {
    ym.year * 12 + ym.month - 1
  }

  /** The period at a position of the monthly axis. */
  function MonthAt(k: int): (ym: YearMonth)
    ensures ValidMonth(ym) && MonthIndex(ym) == k
  {
    YearMonth(k / 12, k % 12 + 1)
  }

  /** A valid period is determined by its position. */
  lemma MonthIndexInjective(a: YearMonth, b: YearMonth)
    requires ValidMonth(a) && ValidMonth(b)
    requires MonthIndex(a) == MonthIndex(b)
    ensures a == b
  {
    assert a.year == MonthIndex(a) / 12;
    assert b.year == MonthIndex(b) / 12;
  }

  /** period + 1. */
  function Next(ym: YearMonth): (r: YearMonth)
    requires ValidMonth(ym)
    ensures ValidMonth(r) && MonthIndex(r) == MonthIndex(ym) + 1
  {
    if ym.month == 12 then YearMonth(ym.year + 1, 1) else YearMonth(ym.year, ym.month + 1)
  }

  /** pd.period_range(start=lo, end=hi, freq='M'): every month from lo to hi. */
  function PeriodRange(lo: YearMonth, hi: YearMonth): (r: seq<YearMonth>)
    ensures MonthIndex(lo) <= MonthIndex(hi) ==> |r| == MonthIndex(hi) - MonthIndex(lo) + 1
    ensures MonthIndex(hi) < MonthIndex(lo) ==> r == []
    ensures forall i :: 0 <= i < |r| ==> ValidMonth(r[i]) && MonthIndex(r[i]) == MonthIndex(lo) + i
  {
    var n := MonthIndex(hi) - MonthIndex(lo) + 1;
    if n <= 0 then []
    else
      var r := seq(n, i => MonthAt(MonthIndex(lo) + i));
      assert forall i :: 0 <= i < n ==> r[i] == MonthAt(MonthIndex(lo) + i);
      r
  }

  /** pd.period_range(start=start, periods=n, freq='M'). */
  function PeriodsFrom(start: YearMonth, n: nat): (r: seq<YearMonth>)
    ensures |r| == n
    ensures forall i :: 0 <= i < n ==> ValidMonth(r[i]) && MonthIndex(r[i]) == MonthIndex(start) + i
  {
    var r := seq(n, i => MonthAt(MonthIndex(start) + i));
    assert forall i :: 0 <= i < n ==> r[i] == MonthAt(MonthIndex(start) + i);
    r
  }

  /** A valid period range starts at lo, ends at hi, and steps one month at a time. */
  lemma PeriodRangeConsecutive(lo: YearMonth, hi: YearMonth)
    requires ValidMonth(lo) && ValidMonth(hi) && MonthIndex(lo) <= MonthIndex(hi)
    ensures var r := PeriodRange(lo, hi);
      && r[0] == lo && r[|r| - 1] == hi
      && forall i :: 0 <= i < |r| - 1 ==> r[i + 1] == Next(r[i])
  {
    var r := PeriodRange(lo, hi);
    MonthIndexInjective(r[0], lo);
    MonthIndexInjective(r[|r| - 1], hi);
    forall i | 0 <= i < |r| - 1
      ensures r[i + 1] == Next(r[i])
    {
      MonthIndexInjective(r[i + 1], Next(r[i]));
    }
  }

  /** PeriodsFrom starts at `start` and steps one month at a time. */
  lemma PeriodsFromConsecutive(start: YearMonth, n: nat)
    requires ValidMonth(start) && n > 0
    ensures var r := PeriodsFrom(start, n);
      && r[0] == start
      && forall i :: 0 <= i < n - 1 ==> r[i + 1] == Next(r[i])
  {
    var r := PeriodsFrom(start, n);
    MonthIndexInjective(r[0], start);
    forall i | 0 <= i < n - 1
      ensures r[i + 1] == Next(r[i])
    {
      MonthIndexInjective(r[i + 1], Next(r[i]));
    }
  }

  /** The periods of a range are pairwise distinct. */
  lemma PeriodsFromDistinct(start: YearMonth, n: nat)
    ensures var r := PeriodsFrom(start, n);
      forall i, j :: 0 <= i < n && 0 <= j < n && i != j ==> r[i] != r[j]
  {
  }
}
