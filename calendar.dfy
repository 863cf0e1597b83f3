/** Calendar days as the pages use them through date-fns: the first and last
    day of a month or year, every day of a month or year in order
    (`eachDayOfInterval`), the twelve months of a year (`eachMonthOfInterval`)
    and the `YYYY-MM-DD` text of a day (`toISOString().split('T')[0]`).
    A day is a (year, month, day) triple; times of day and time zones are not
    modelled. */
module Calendar {
  import opened Common
  import opened Folds

  datatype Date = Date(year: int, month: int, day: int)

  /** A year's twelfth part: `format(date, 'yyyy-MM')`. */
  datatype Month = Month(year: int, month: int)

  predicate IsLeapYear(y: int)
  {
    y % 4 == 0 && (y % 100 != 0 || y % 400 == 0)
  }

  function DaysInMonth(y: int, m: int): (n: int)
    requires 1 <= m <= 12
    ensures 28 <= n <= 31
    ensures m == 2 ==> (n == 29 <==> IsLeapYear(y))
  {
    if m == 2 then (if IsLeapYear(y) then 29 else 28)
    else if m == 4 || m == 6 || m == 9 || m == 11 then 30
    else 31
  }

  /** A day that exists in the Gregorian calendar. */
  predicate Valid(d: Date)
  {
    1 <= d.month <= 12 && 1 <= d.day <= DaysInMonth(d.year, d.month)
  }

  /** `a` is an earlier day than `b`. */
  predicate Before(a: Date, b: Date)
  {
    a.year < b.year || (a.year == b.year && (a.month < b.month || (a.month == b.month && a.day < b.day)))
  }

  /** `start <= d <= end`, as `isWithinInterval` and the `gte`/`lte` filters test it. */
  predicate Within(d: Date, start: Date, end: Date)
  {
    !Before(d, start) && !Before(end, d)
  }

  function MonthOf(d: Date): Month
  {
    Month(d.year, d.month)
  }

  function StartOfMonth(d: Date): Date
  {
    Date(d.year, d.month, 1)
  }

  function EndOfMonth(d: Date): Date
    requires Valid(d)
  {
    Date(d.year, d.month, DaysInMonth(d.year, d.month))
  }

  function StartOfYear(d: Date): Date
  {
    Date(d.year, 1, 1)
  }

  function EndOfYear(d: Date): Date
  {
    Date(d.year, 12, 31)
  }

  /** A valid day lies in the month of `today` exactly when it has the same year and month. */
  lemma WithinMonth(d: Date, today: Date)
    requires Valid(d) && Valid(today)
    ensures Within(d, StartOfMonth(today), EndOfMonth(today)) <==> MonthOf(d) == MonthOf(today)
  {
  }

  /** A valid day lies in the year of `today` exactly when it has the same year. */
  lemma WithinYear(d: Date, today: Date)
    requires Valid(d)
    ensures Within(d, StartOfYear(today), EndOfYear(today)) <==> d.year == today.year
  {
  }

  /** The days of month `m` of year `y`, in order. */
  function MonthDays(y: int, m: int): (r: seq<Date>)
    requires 1 <= m <= 12
    ensures |r| == DaysInMonth(y, m)
    ensures forall i :: 0 <= i < |r| ==> r[i] == Date(y, m, i + 1)
  {
    seq(DaysInMonth(y, m), i => Date(y, m, i + 1))
  }

  /** The days of the first `k` months of year `y`, in order. */
  function YearDays(y: int, k: int): (r: seq<Date>)
    requires 0 <= k <= 12
    ensures forall i :: 0 <= i < |r| ==> Valid(r[i]) && r[i].year == y && r[i].month <= k
    ensures forall i, j :: 0 <= i < j < |r| ==> Before(r[i], r[j])
    ensures forall d :: Valid(d) && d.year == y && d.month <= k ==> d in r
  {
    if k == 0 then []
    else
      var prev := YearDays(y, k - 1);
      var days := MonthDays(y, k);
      assert forall d :: Valid(d) && d.year == y && d.month == k ==> d == days[d.day - 1];
      prev + days
  }

  lemma YearLength(y: int)
    ensures |YearDays(y, 12)| == if IsLeapYear(y) then 366 else 365
  {
    assert |YearDays(y, 1)| == 31;
    assert |YearDays(y, 2)| == 31 + DaysInMonth(y, 2);
    assert |YearDays(y, 3)| == 62 + DaysInMonth(y, 2);
    assert |YearDays(y, 4)| == 92 + DaysInMonth(y, 2);
    assert |YearDays(y, 5)| == 123 + DaysInMonth(y, 2);
    assert |YearDays(y, 6)| == 153 + DaysInMonth(y, 2);
    assert |YearDays(y, 7)| == 184 + DaysInMonth(y, 2);
    assert |YearDays(y, 8)| == 215 + DaysInMonth(y, 2);
    assert |YearDays(y, 9)| == 245 + DaysInMonth(y, 2);
    assert |YearDays(y, 10)| == 276 + DaysInMonth(y, 2);
    assert |YearDays(y, 11)| == 306 + DaysInMonth(y, 2);
  }

  /** Days in strictly increasing order are all different. */
  lemma IncreasingDistinct(days: seq<Date>)
    requires forall i, j :: 0 <= i < j < |days| ==> Before(days[i], days[j])
    ensures Distinct(days)
  {
  }

  /** The twelve months of year `y`, January first (`eachMonthOfInterval`). */
  function YearMonths(y: int): (r: seq<Month>)
    ensures |r| == 12
    ensures forall i :: 0 <= i < 12 ==> r[i] == Month(y, i + 1)
    ensures Distinct(r)
  {
    seq(12, i => Month(y, i + 1))
  }

  // ---------------------------------------------------------------------
  // The `YYYY-MM-DD` text of a day

  function Digit(n: int): char
    requires 0 <= n < 10
  {
    ('0' as int + n) as char
  }

  predicate IsDigit(c: char)
  {
    '0' <= c <= '9'
  }

  function DigitValue(c: char): int
  {
    c as int - '0' as int
  }

  /** The decimal value of a run of digits. */
  function Number(s: string): int
  {
    if s == [] then 0 else 10 * Number(s[..|s| - 1]) + DigitValue(s[|s| - 1])
  }

  function Pad2(n: int): string
    requires 0 <= n < 100
  {
    [Digit(n / 10), Digit(n % 10)]
  }

  function Pad4(n: int): string
    requires 0 <= n < 10000
  {
    [Digit(n / 10 / 10 / 10), Digit(n / 10 / 10 % 10), Digit(n / 10 % 10), Digit(n % 10)]
  }

  /** A day whose `YYYY-MM-DD` text has exactly ten characters. */
  predicate Printable(d: Date)
  {
    0 <= d.year < 10000 && 1 <= d.month <= 12 && 1 <= d.day <= 31
  }

  /** `date.toISOString().split('T')[0]`. */
  function DateKey(d: Date): (s: string)
    requires Printable(d)
    ensures |s| == 10 && s[4] == '-' && s[7] == '-'
  {
    Pad4(d.year) + "-" + Pad2(d.month) + "-" + Pad2(d.day)
  }

  /** Reads back a `YYYY-MM-DD` text; `None` for anything else. */
  function ParseDateKey(s: string): Option<Date>
  {
    if |s| == 10 && s[4] == '-' && s[7] == '-'
       && (forall i :: 0 <= i < 10 && i != 4 && i != 7 ==> IsDigit(s[i]))
    then Some(Date(Number(s[..4]), Number(s[5..7]), Number(s[8..])))
    else None
  }

  /** One more digit at the end: ten times the value so far, plus the digit. */
  lemma NumberPush(s: string, c: char)
    ensures Number(s + [c]) == 10 * Number(s) + DigitValue(c)
  {
    assert (s + [c])[..|s|] == s;
  }

  lemma Pad2Value(n: int)
    requires 0 <= n < 100
    ensures Number(Pad2(n)) == n
  {
    var d1, d2 := Digit(n / 10), Digit(n % 10);
    NumberPush([], d1);
    NumberPush([d1], d2);
    assert [] + [d1] == [d1];
    assert [d1] + [d2] == Pad2(n);
  }

  lemma Pad4Value(n: int)
    requires 0 <= n < 10000
    ensures Number(Pad4(n)) == n
  {
    var d1, d2, d3, d4 := Digit(n / 10 / 10 / 10), Digit(n / 10 / 10 % 10), Digit(n / 10 % 10), Digit(n % 10);
    NumberPush([], d1);
    NumberPush([d1], d2);
    NumberPush([d1, d2], d3);
    NumberPush([d1, d2, d3], d4);
    assert [] + [d1] == [d1];
    assert [d1] + [d2] == [d1, d2];
    assert [d1, d2] + [d3] == [d1, d2, d3];
    assert [d1, d2, d3] + [d4] == Pad4(n);
  }

  /** Reading back the text of a day gives the day again. */
  lemma DateKeyRoundTrip(d: Date)
    requires Printable(d)
    ensures ParseDateKey(DateKey(d)) == Some(d)
  {
    var s := DateKey(d);
    assert s[..4] == Pad4(d.year);
    assert s[5..7] == Pad2(d.month);
    assert s[8..] == Pad2(d.day);
    Pad4Value(d.year);
    Pad2Value(d.month);
    Pad2Value(d.day);
  }

  /** Different days have different texts. */
  lemma DateKeyInjective(a: Date, b: Date)
    requires Printable(a) && Printable(b) && DateKey(a) == DateKey(b)
    ensures a == b
  {
    DateKeyRoundTrip(a);
    DateKeyRoundTrip(b);
  }
}
