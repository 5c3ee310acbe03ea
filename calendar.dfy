/** Calendar arithmetic and the two date keys of the application: the month
    cursor moved by `new Date(y, m + delta, 1)` (which reads a year from 0
    to 99 as 1900 + year), the `YYYY-MM-DD` day key
    taken from `toISOString()`, and the `YYYY-MM` key of the report series. */
module Calendar {
  import opened Types
  import opened Format

  /** A month: its year and 0-based JS month. The month cursor of the
      application and the months of the report series are values of this type. */
  datatype YearMonth = YearMonth(year: int, month: MonthIndex)

  /** The number of months since January of year 0. */
  function MonthOrdinal(ym: YearMonth): int {
    ym.year * 12 + ym.month
  }

  lemma MonthOrdinalInjective(a: YearMonth, b: YearMonth)
    requires MonthOrdinal(a) == MonthOrdinal(b)
    ensures a == b
  {
  }

  /** The month `delta` months after `ym` (before it when `delta` is
      negative), an out-of-range month carrying into the year. */
  function ShiftMonth(ym: YearMonth, delta: int): (r: YearMonth)
    ensures MonthOrdinal(r) == MonthOrdinal(ym) + delta
  {
    var t := MonthOrdinal(ym) + delta;
    YearMonth(t / 12, t % 12)
  }

  /** The year `new Date(year, month, day)` counts from: a year argument
      from 0 to 99 stands for 1900 + year. */
  function DateYear(year: int): int {
    if 0 <= year <= 99 then 1900 + year else year
  }

  /** `new Date(year, month, 1)` for any integer `month`: the year argument
      is read as `DateYear` reads it, then the month carries into the year. */
  function NewDate(year: int, month: int): (r: YearMonth)
    ensures MonthOrdinal(r) == DateYear(year) * 12 + month
    ensures !(0 <= year <= 99) ==> MonthOrdinal(r) == year * 12 + month
    ensures 0 <= year <= 99 ==> MonthOrdinal(r) == (1900 + year) * 12 + month
  {
    ShiftMonth(YearMonth(DateYear(year), 0), month)
  }

  /** Shifting twice is shifting by the sum. */
  lemma ShiftMonthAdd(ym: YearMonth, a: int, b: int)
    ensures ShiftMonth(ShiftMonth(ym, a), b) == ShiftMonth(ym, a + b)
  {
    MonthOrdinalInjective(ShiftMonth(ShiftMonth(ym, a), b), ShiftMonth(ym, a + b));
  }

  /** The month a date falls in (`getFullYear()`, `getMonth()`). */
  function MonthOf(d: CalendarDate): YearMonth {
    YearMonth(d.year, d.month)
  }

  /** `String(n).padStart(2, '0')` */
  function TwoDigits(n: nat): string {
    PadStart(NatToString(n), 2, '0')
  }

  /** The year field of `toISOString()`: four digits for years 0 to 9999,
      otherwise a sign and at least six digits. */
  function IsoYear(y: int): string {
    if 0 <= y <= 9999 then PadStart(NatToString(y), 4, '0')
    else (if y < 0 then "-" else "+") + PadStart(NatToString(if y < 0 then -y else y), 6, '0')
  }

  /** `d.toISOString().split('T')[0]`, the `YYYY-MM-DD` key of a day. */
  function DayKey(d: CalendarDate): string {
    IsoYear(d.year) + "-" + TwoDigits(d.month + 1) + "-" + TwoDigits(d.day)
  }

  /** `${y}-${String(m + 1).padStart(2, '0')}`, the `YYYY-MM` key of a month. */
  function MonthKey(ym: YearMonth): string {
    IntToString(ym.year) + "-" + TwoDigits(ym.month + 1)
  }

  /** `a` is an earlier calendar day than `b`. */
  predicate DateBefore(a: CalendarDate, b: CalendarDate) {
    a.year < b.year
    || (a.year == b.year && a.month < b.month)
    || (a.year == b.year && a.month == b.month && a.day < b.day)
  }

  /** For a number below 100, the two-digit key field is its fixed-width rendering. */
  lemma TwoDigitsFixed(n: nat)
    requires n < 100
    ensures TwoDigits(n) == FixedDigits(n, 2)
  {
    assert Pow10(2) == 100;
    PaddedIsFixed(n, 2);
  }

  /** A day key with a four-digit year is three fixed-width fields joined by dashes. */
  lemma DayKeyFields(d: CalendarDate)
    requires 0 <= d.year <= 9999
    ensures DayKey(d) == FixedDigits(d.year, 4) + ("-" + (FixedDigits(d.month + 1, 2) + ("-" + FixedDigits(d.day, 2))))
  {
    assert Pow10(4) == 10000;
    PaddedIsFixed(d.year, 4);
    TwoDigitsFixed(d.month + 1);
    TwoDigitsFixed(d.day);
  }

  /** For years 0 to 9999 the code-point order of day keys is the
      chronological order of the days, so sorting the keys sorts the days. */
  lemma DayKeyChronological(a: CalendarDate, b: CalendarDate)
    requires 0 <= a.year <= 9999 && 0 <= b.year <= 9999
    ensures LexLess(DayKey(a), DayKey(b)) <==> DateBefore(a, b)
  {
    DayKeyFields(a);
    DayKeyFields(b);
    assert Pow10(4) == 10000 && Pow10(2) == 100;
    LexFixedDigits(a.year, b.year, 4);
    LexFixedDigits(a.month + 1, b.month + 1, 2);
    LexFixedDigits(a.day, b.day, 2);
    LexThreeFields(FixedDigits(a.year, 4), FixedDigits(a.month + 1, 2), FixedDigits(a.day, 2),
                   FixedDigits(b.year, 4), FixedDigits(b.month + 1, 2), FixedDigits(b.day, 2));
  }

  /** Keys made of three dash-separated fields, the first two of matching
      widths, compare field by field. */
  lemma LexThreeFields(ya: string, ma: string, da: string, yb: string, mb: string, db: string)
    requires |ya| == |yb| && |ma| == |mb|
    ensures LexLess(ya + ("-" + (ma + ("-" + da))), yb + ("-" + (mb + ("-" + db)))) <==>
            LexLess(ya, yb) || (ya == yb && (LexLess(ma, mb) || (ma == mb && LexLess(da, db))))
  {
    LexIrreflexive("-");
    LexConcat(ya, "-" + (ma + ("-" + da)), yb, "-" + (mb + ("-" + db)));
    LexConcat("-", ma + ("-" + da), "-", mb + ("-" + db));
    LexConcat(ma, "-" + da, mb, "-" + db);
    LexConcat("-", da, "-", db);
  }

  /** Days with four-digit years have distinct keys. */
  lemma DayKeyInjective(a: CalendarDate, b: CalendarDate)
    requires 0 <= a.year <= 9999 && 0 <= b.year <= 9999
    requires DayKey(a) == DayKey(b)
    ensures a == b
  {
    LexIrreflexive(DayKey(a));
    DayKeyChronological(a, b);
    DayKeyChronological(b, a);
  }

  /** Distinct months have distinct month keys, whatever the year. */
  lemma MonthKeyInjective(a: YearMonth, b: YearMonth)
    requires MonthKey(a) == MonthKey(b)
    ensures a == b
  {
    assert Pow10(2) == 100;
    TwoDigitsFixed(a.month + 1);
    TwoDigitsFixed(b.month + 1);
    var k := MonthKey(a);
    var ia, ib := IntToString(a.year), IntToString(b.year);
    assert |ia| == |ib|;
    assert ia == k[..|ia|] == ib;
    IntToStringInjective(a.year, b.year);
    assert FixedDigits(a.month + 1, 2) == k[|k| - 2..] == FixedDigits(b.month + 1, 2);
    LexFixedDigits(a.month + 1, b.month + 1, 2);
  }
}
