/** The reports page: income totals over the selected month or year, the
    break-down by payment method, the daily and monthly income series, and
    the lesson-status counts. */
module Reports {
  import opened Common
  import opened Calendar
  import opened Folds
  import opened Records
  import Dashboard

  /** The range selector: this month or this year. */
  datatype DateRange = MonthRange | YearRange

  function RangeStart(r: DateRange, today: Date): Date
  {
    if r == MonthRange then StartOfMonth(today) else StartOfYear(today)
  }

  function RangeEnd(r: DateRange, today: Date): Date
    requires Valid(today)
  {
    if r == MonthRange then EndOfMonth(today) else EndOfYear(today)
  }

  /** `eachDayOfInterval({ start, end })` over the selected range: as many
      valid days as the month or the year has. */
  function RangeDays(r: DateRange, today: Date): (days: seq<Date>)
    requires Valid(today)
    ensures |days| == if r == MonthRange then DaysInMonth(today.year, today.month)
                      else if IsLeapYear(today.year) then 366 else 365
    ensures forall i :: 0 <= i < |days| ==> Valid(days[i])
  {
    YearLength(today.year);
    if r == MonthRange then MonthDays(today.year, today.month) else YearDays(today.year, 12)
  }

  /** The days of the range are in increasing order, so all different. */
  lemma RangeDaysIncreasing(r: DateRange, today: Date)
    requires Valid(today)
    ensures var days := RangeDays(r, today);
            forall i, j :: 0 <= i < j < |days| ==> Before(days[i], days[j])
  {
  }

  /** A day is listed exactly when it is a valid day inside the range. */
  lemma RangeDaysExact(r: DateRange, today: Date, d: Date)
    requires Valid(today)
    ensures d in RangeDays(r, today) <==> Valid(d) && Within(d, RangeStart(r, today), RangeEnd(r, today))
  {
    var days := RangeDays(r, today);
    if r == MonthRange {
      if Valid(d) {
        WithinMonth(d, today);
        if Within(d, RangeStart(r, today), RangeEnd(r, today)) {
          assert days[d.day - 1] == d;
        }
      }
      if d in days {
        var i :| 0 <= i < |days| && days[i] == d;
        WithinMonth(d, today);
      }
    } else if Valid(d) {
      WithinYear(d, today);
    }
  }

  /** The payments the page fetches: of one of the teacher's students and
      dated inside the range. */
  function InRange(ids: seq<Id>, start: Date, end: Date): Payment -> bool
  {
    (p: Payment) => p.studentId in ids && Within(p.date, start, end)
  }

  function FetchedPayments(payments: seq<Payment>, ids: seq<Id>, r: DateRange, today: Date): seq<Payment>
    requires Valid(today)
  {
    Filter(payments, InRange(ids, RangeStart(r, today), RangeEnd(r, today)))
  }

  function CompletedWithin(start: Date, end: Date): Payment -> bool
  {
    (p: Payment) => p.status == PaymentCompleted && Within(p.date, start, end)
  }

  /** `totalIncome`: the completed payments among the fetched ones. */
  function TotalIncome(fetched: seq<Payment>): real
  {
    Sum(Filter(fetched, IsCompletedPayment), Amount)
  }

  /** `monthlyIncome` and `yearlyIncome`: the completed fetched payments inside an interval. */
  function IncomeWithin(fetched: seq<Payment>, start: Date, end: Date): real
  {
    Sum(Filter(fetched, CompletedWithin(start, end)), Amount)
  }

  function DateOf(p: Payment): Date
  {
    p.date
  }

  function PaymentMonth(p: Payment): Month
  {
    MonthOf(p.date)
  }

  datatype DayPoint = DayPoint(date: Date, amount: real)

  datatype MonthPoint = MonthPoint(month: Month, amount: real)

  /** `dailyIncomeData`: one point per day, in order, holding the completed
      payments of that day added up. */
  function DailyIncome(fetched: seq<Payment>, days: seq<Date>): (points: seq<DayPoint>)
    ensures |points| == |days|
    ensures forall i :: 0 <= i < |days| ==>
              points[i] == DayPoint(days[i], SumKey(Filter(fetched, IsCompletedPayment), DateOf, days[i], Amount))
  {
    var completed := Filter(fetched, IsCompletedPayment);
    seq(|days|, i requires 0 <= i < |days| => DayPoint(days[i], SumKey(completed, DateOf, days[i], Amount)))
  }

  /** `monthlyIncomeData`: one point per month, holding the completed
      payments of that month added up. */
  function MonthlyIncome(fetched: seq<Payment>, months: seq<Month>): (points: seq<MonthPoint>)
    ensures |points| == |months|
    ensures forall i :: 0 <= i < |months| ==>
              points[i] == MonthPoint(months[i], SumKey(Filter(fetched, IsCompletedPayment), PaymentMonth, months[i], Amount))
  {
    var completed := Filter(fetched, IsCompletedPayment);
    seq(|months|, i requires 0 <= i < |months| => MonthPoint(months[i], SumKey(completed, PaymentMonth, months[i], Amount)))
  }

  function DayAmounts(points: seq<DayPoint>): seq<real>
  {
    seq(|points|, i requires 0 <= i < |points| => points[i].amount)
  }

  function MonthAmounts(points: seq<MonthPoint>): seq<real>
  {
    seq(|points|, i requires 0 <= i < |points| => points[i].amount)
  }

  datatype StatusCount = StatusCount(status: string, count: nat)

  function IsUnsetLesson(l: Lesson): bool
  {
    Unset(l.status)
  }

  /** A status outside the three the chart shows (`'cancelled'`, say). */
  function IsOtherLesson(l: Lesson): bool
  {
    l.status.Other? && l.status.name != ""
  }

  function IsCancelledLesson(l: Lesson): bool
  {
    l.status == Other("cancelled")
  }

  /** `lessonStatusData`: completed, postponed and planned (falsy status), in that order. */
  function StatusCounts(lessons: seq<Lesson>): (r: seq<StatusCount>)
    ensures |r| == 3
    ensures r[0].status == "Tamamlandı" && r[1].status == "Ertelendi" && r[2].status == "Planlandı"
  {
    [StatusCount("Tamamlandı", Count(lessons, IsCompletedLesson)),
     StatusCount("Ertelendi", Count(lessons, IsPostponedLesson)),
     StatusCount("Planlandı", Count(lessons, IsUnsetLesson))]
  }

  /** One entry of `paymentMethods`. */
  datatype MethodShare = MethodShare(paymentMethod: string, count: nat, total: real)

  /** `shares` is the break-down of `payments`: one entry per method in the
      order the methods first occur, with the number and the sum of the
      payments of that method, whatever their status. */
  predicate IsBreakdown(payments: seq<Payment>, shares: seq<MethodShare>)
  {
    var keys := FirstKeys(payments, MethodOf);
    && |shares| == |keys|
    && forall i :: 0 <= i < |shares| ==>
         shares[i] == MethodShare(keys[i], CountKey(payments, MethodOf, keys[i]), SumKey(payments, MethodOf, keys[i], Amount))
  }

  /** One value of the `reduce` accumulator: how many payments of a method and their sum. */
  datatype Tally = Tally(count: nat, total: real)

  /** The accumulator after `s`: `keys` lists the methods in the order they
      were first inserted and `acc` holds each one's count and sum. */
  predicate Tallied(s: seq<Payment>, keys: seq<string>, acc: map<string, Tally>)
  {
    && keys == FirstKeys(s, MethodOf)
    && acc.Keys == set k | k in keys
    && forall k :: k in acc ==> acc[k] == Tally(CountKey(s, MethodOf, k), SumKey(s, MethodOf, k, Amount))
  }

  /** One step of the `reduce`: payment `x` creates its method's entry if
      missing and adds itself to it. */
  lemma TallyStep(s: seq<Payment>, x: Payment, keys: seq<string>, acc: map<string, Tally>,
                  keys': seq<string>, acc': map<string, Tally>)
    requires Tallied(s, keys, acc)
    requires keys' == if x.paymentMethod in acc then keys else keys + [x.paymentMethod]
    requires acc' == var prev := if x.paymentMethod in acc then acc[x.paymentMethod] else Tally(0, 0.0);
                     acc[x.paymentMethod := Tally(prev.count + 1, prev.total + x.amount)]
    ensures Tallied(s + [x], keys', acc')
  {
    var m := x.paymentMethod;
    KeyStep(s, x, MethodOf, Amount);
    assert m in acc <==> m in FirstKeys(s, MethodOf);
    if m !in acc {
      AbsentKey(s, MethodOf, m, Amount);
    }
    forall k | k in acc'
      ensures acc'[k] == Tally(CountKey(s + [x], MethodOf, k), SumKey(s + [x], MethodOf, k, Amount))
    {
      if k != m {
        assert acc'[k] == acc[k];
      }
    }
  }

  /** The `reduce` into an accumulator object keyed by payment method, then
      `Object.entries(...).map(...)`. */
  method PaymentMethodBreakdown(payments: seq<Payment>) returns (shares: seq<MethodShare>)
    ensures IsBreakdown(payments, shares)
  {
    var keys: seq<string> := [];
    var acc: map<string, Tally> := map[];
    var i := 0;
    while i < |payments|
      invariant 0 <= i <= |payments|
      invariant Tallied(payments[..i], keys, acc)
    {
      var p := payments[i];
      var m := p.paymentMethod;
      ghost var keys0, acc0 := keys, acc;
      var prev := if m in acc then acc[m] else Tally(0, 0.0);
      if m !in acc {
        keys := keys + [m];
      }
      acc := acc[m := Tally(prev.count + 1, prev.total + p.amount)];
      TallyStep(payments[..i], p, keys0, acc0, keys, acc);
      assert payments[..i + 1] == payments[..i] + [p];
      i := i + 1;
    }
    assert payments[..i] == payments;
    shares := seq(|keys|, j requires 0 <= j < |keys| => MethodShare(keys[j], acc[keys[j]].count, acc[keys[j]].total));
  }

  function ShareCounts(shares: seq<MethodShare>): seq<nat>
  {
    seq(|shares|, i requires 0 <= i < |shares| => shares[i].count)
  }

  function ShareTotals(shares: seq<MethodShare>): seq<real>
  {
    seq(|shares|, i requires 0 <= i < |shares| => shares[i].total)
  }

  /** The entry counts add up to the number of fetched payments and the entry
      totals to their amounts, every status included. */
  lemma BreakdownAddsUp(payments: seq<Payment>, shares: seq<MethodShare>)
    requires IsBreakdown(payments, shares)
    ensures TotalCount(ShareCounts(shares)) == |payments|
    ensures Total(ShareTotals(shares)) == Sum(payments, Amount)
  {
    var keys := FirstKeys(payments, MethodOf);
    BucketsCountTotal(payments, MethodOf, keys, ShareCounts(shares));
    BucketsTotal(payments, MethodOf, keys, Amount, ShareTotals(shares));
    BucketsCoverAll(payments, MethodOf, keys, Amount);
  }

  /** The report the page shows. */
  datatype Report = Report(
    totalIncome: real,
    monthlyIncome: real,
    yearlyIncome: real,
    totalLessons: nat,
    completedLessons: nat,
    cancelledLessons: nat,
    totalStudents: nat,
    activeStudents: nat,
    paymentMethods: seq<MethodShare>,
    dailyIncomeData: seq<DayPoint>,
    monthlyIncomeData: seq<MonthPoint>,
    lessonStatusData: seq<StatusCount>)

  /** `fetchReportData` for the selected range and `today`, from the report
      `shown` before it. `teacher` is the teacher's profile id (`None` when
      there is no user or profile: the error is only logged); a failed
      student query ends the fetch; a failed payment or lesson query reads as
      no rows. In those first two cases the report stays as it was. */
  method FetchReport(shown: Report, students: seq<Student>, lessons: seq<Lesson>, payments: seq<Payment>,
                     teacher: Option<Id>, range: DateRange, today: Date,
                     studentsFail: bool, paymentsFail: bool, lessonsFail: bool) returns (report: Report)
    requires Valid(today)
    ensures teacher.None? || studentsFail ==> report == shown
    ensures teacher.Some? && !studentsFail ==>
            var ids := Dashboard.TeacherStudentIds(students, teacher.value);
            var fetched := if paymentsFail then [] else FetchedPayments(payments, ids, range, today);
            var mine := if lessonsFail then [] else Filter(lessons, Dashboard.OwnedLesson(ids));
            && report.totalIncome == TotalIncome(fetched)
            && report.monthlyIncome == IncomeWithin(fetched, StartOfMonth(today), EndOfMonth(today))
            && report.yearlyIncome == IncomeWithin(fetched, StartOfYear(today), EndOfYear(today))
            && report.totalLessons == |mine|
            && report.completedLessons == Count(mine, IsCompletedLesson)
            && report.cancelledLessons == Count(mine, IsCancelledLesson)
            && report.totalStudents == report.activeStudents == |ids|
            && IsBreakdown(fetched, report.paymentMethods)
            && report.dailyIncomeData == DailyIncome(fetched, RangeDays(range, today))
            && report.monthlyIncomeData == MonthlyIncome(fetched, YearMonths(today.year))
            && report.lessonStatusData == StatusCounts(mine)
  {
    if teacher.None? || studentsFail {
      return shown;
    }
    var ids := Dashboard.TeacherStudentIds(students, teacher.value);
    var fetched := if paymentsFail then [] else FetchedPayments(payments, ids, range, today);
    var mine := if lessonsFail then [] else Filter(lessons, Dashboard.OwnedLesson(ids));
    var methods := PaymentMethodBreakdown(fetched);
    report := Report(
      TotalIncome(fetched),
      IncomeWithin(fetched, StartOfMonth(today), EndOfMonth(today)),
      IncomeWithin(fetched, StartOfYear(today), EndOfYear(today)),
      |mine|,
      Count(mine, IsCompletedLesson),
      Count(mine, IsCancelledLesson),
      |ids|,
      |ids|,
      methods,
      DailyIncome(fetched, RangeDays(range, today)),
      MonthlyIncome(fetched, YearMonths(today.year)),
      StatusCounts(mine));
  }

  // ---------------------------------------------------------------------
  // What the figures add up to

  predicate ValidDates(payments: seq<Payment>)
  {
    forall i :: 0 <= i < |payments| ==> HasValidDate(payments[i])
  }

  /** Every fetched payment lies inside the selected range. */
  lemma FetchedWithinRange(payments: seq<Payment>, ids: seq<Id>, r: DateRange, today: Date)
    requires Valid(today)
    ensures var fetched := FetchedPayments(payments, ids, r, today);
            forall i :: 0 <= i < |fetched| ==> Within(fetched[i].date, RangeStart(r, today), RangeEnd(r, today))
  {
  }

  /** The income card shows `monthlyIncome` for a month and `yearlyIncome`
      for a year; either way it is the total income of the range. In the
      month range all three figures coincide. */
  lemma CardShowsRangeTotal(payments: seq<Payment>, ids: seq<Id>, r: DateRange, today: Date)
    requires Valid(today) && ValidDates(payments)
    ensures var fetched := FetchedPayments(payments, ids, r, today);
            && IncomeWithin(fetched, StartOfYear(today), EndOfYear(today)) == TotalIncome(fetched)
            && (r == MonthRange ==> IncomeWithin(fetched, StartOfMonth(today), EndOfMonth(today)) == TotalIncome(fetched))
  {
    var fetched := FetchedPayments(payments, ids, r, today);
    FetchedWithinRange(payments, ids, r, today);
    forall i | 0 <= i < |fetched|
      ensures CompletedWithin(StartOfYear(today), EndOfYear(today))(fetched[i]) == IsCompletedPayment(fetched[i])
    {
      assert fetched[i] in multiset(payments);
      var p := fetched[i];
      if r == MonthRange {
        WithinMonth(p.date, today);
      }
      WithinYear(p.date, today);
    }
    FilterSame(fetched, CompletedWithin(StartOfYear(today), EndOfYear(today)), IsCompletedPayment);
    if r == MonthRange {
      FilterSame(fetched, CompletedWithin(StartOfMonth(today), EndOfMonth(today)), IsCompletedPayment);
    }
  }

  /** The daily series has one point per day of the range and its amounts add
      up to the total income of the range. */
  lemma DailySeriesAddsUp(payments: seq<Payment>, ids: seq<Id>, r: DateRange, today: Date)
    requires Valid(today) && ValidDates(payments)
    ensures var fetched := FetchedPayments(payments, ids, r, today);
            Total(DayAmounts(DailyIncome(fetched, RangeDays(r, today)))) == TotalIncome(fetched)
  {
    var fetched := FetchedPayments(payments, ids, r, today);
    var days := RangeDays(r, today);
    var completed := Filter(fetched, IsCompletedPayment);
    var xs := DayAmounts(DailyIncome(fetched, days));
    assert forall i :: 0 <= i < |completed| ==> DateOf(completed[i]) in days by {
      CompletedDatesInRange(payments, ids, r, today, completed);
    }
    assert Distinct(days) by {
      RangeDaysIncreasing(r, today);
      IncreasingDistinct(days);
    }
    assert forall i :: 0 <= i < |days| ==> xs[i] == SumKey(completed, DateOf, days[i], Amount);
    SeriesTotal(completed, DateOf, days, Amount, xs);
  }

  /** Every completed fetched payment falls on one of the days of the range. */
  lemma CompletedDatesInRange(payments: seq<Payment>, ids: seq<Id>, r: DateRange, today: Date, completed: seq<Payment>)
    requires Valid(today) && ValidDates(payments)
    requires completed == Filter(FetchedPayments(payments, ids, r, today), IsCompletedPayment)
    ensures forall i :: 0 <= i < |completed| ==> DateOf(completed[i]) in RangeDays(r, today)
  {
    var fetched := FetchedPayments(payments, ids, r, today);
    var good := InRangeDay(RangeStart(r, today), RangeEnd(r, today));
    FilterKeepsAll(payments, InRange(ids, RangeStart(r, today), RangeEnd(r, today)), HasValidDate);
    assert forall i :: 0 <= i < |fetched| ==> good(fetched[i]);
    FilterKeepsAll(fetched, IsCompletedPayment, good);
    forall i | 0 <= i < |completed|
      ensures DateOf(completed[i]) in RangeDays(r, today)
    {
      RangeDaysExact(r, today, completed[i].date);
    }
  }

  function HasValidDate(p: Payment): bool
  {
    Valid(p.date)
  }

  function InRangeDay(start: Date, end: Date): Payment -> bool
  {
    (p: Payment) => Valid(p.date) && Within(p.date, start, end)
  }

  /** The monthly series has twelve points, January to December of this
      year, and its amounts add up to the yearly income. */
  lemma MonthlySeriesAddsUp(payments: seq<Payment>, ids: seq<Id>, r: DateRange, today: Date)
    requires Valid(today) && ValidDates(payments)
    ensures var fetched := FetchedPayments(payments, ids, r, today);
            var points := MonthlyIncome(fetched, YearMonths(today.year));
            && |points| == 12
            && (forall i :: 0 <= i < 12 ==> points[i].month == Month(today.year, i + 1))
            && Total(MonthAmounts(points)) == IncomeWithin(fetched, StartOfYear(today), EndOfYear(today))
  {
    var fetched := FetchedPayments(payments, ids, r, today);
    var months := YearMonths(today.year);
    var completed := Filter(fetched, IsCompletedPayment);
    FetchedWithinRange(payments, ids, r, today);
    forall i | 0 <= i < |completed|
      ensures PaymentMonth(completed[i]) in months
    {
      assert completed[i] in multiset(fetched);
      var p := completed[i];
      assert p in multiset(payments);
      if r == MonthRange {
        WithinMonth(p.date, today);
      }
      WithinYear(p.date, today);
      assert months[p.date.month - 1] == PaymentMonth(p);
    }
    BucketsTotal(completed, PaymentMonth, months, Amount, MonthAmounts(MonthlyIncome(fetched, months)));
    BucketsCoverAll(completed, PaymentMonth, months, Amount);
    CardShowsRangeTotal(payments, ids, r, today);
  }

  /** The three status counts and the lessons with any other status make up
      all lessons; when no lesson has another status the counts add up to
      totalLessons. Cancelled lessons are in none of the three. */
  lemma {:induction false} StatusCountsAddUp(lessons: seq<Lesson>)
    ensures var c := StatusCounts(lessons);
            c[0].count + c[1].count + c[2].count + Count(lessons, IsOtherLesson) == |lessons|
    ensures Count(lessons, IsCancelledLesson) <= Count(lessons, IsOtherLesson)
  {
    if lessons != [] {
      StatusCountsAddUp(lessons[..|lessons| - 1]);
    }
  }
}
