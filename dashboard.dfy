/** The teacher's dashboard: the four statistics cards, the week view of the
    lessons grouped by day, and the complete / postpone / delete actions on a
    lesson together with the guards that decide which actions a lesson
    offers. */
module Dashboard {
  import opened Common
  import opened Calendar
  import opened Folds
  import opened Records
  import opened Store

  datatype Stats = Stats(
    totalStudents: nat,
    activeClasses: nat,
    monthlyIncome: real,
    estimatedIncome: real,
    successRate: nat)

  // ---------------------------------------------------------------------
  // Statistics

  function OfTeacher(teacher: Id): Student -> bool
  {
    (s: Student) => s.teacherId == teacher
  }

  /** `students.map(s => s.id)` over the teacher's students. */
  function TeacherStudentIds(students: seq<Student>, teacher: Id): (ids: seq<Id>)
    ensures |ids| == Count(students, OfTeacher(teacher))
    ensures forall id :: id in ids <==> exists s :: s in students && s.teacherId == teacher && s.id == id
  {
    var mine := Filter(students, OfTeacher(teacher));
    var ids := seq(|mine|, i requires 0 <= i < |mine| => mine[i].id);
    forall id | id in ids
      ensures exists s :: s in students && s.teacherId == teacher && s.id == id
    {
      var i :| 0 <= i < |ids| && ids[i] == id;
      assert mine[i] in multiset(students);
    }
    forall s | s in students && s.teacherId == teacher
      ensures s.id in ids
    {
      var j :| 0 <= j < |students| && students[j] == s;
      var i :| 0 <= i < |mine| && mine[i] == s;
      assert ids[i] == s.id;
    }
    ids
  }

  /** `.in('student_id', ids)`. */
  function OwnedLesson(ids: seq<Id>): Lesson -> bool
  {
    (l: Lesson) => l.studentId in ids
  }

  /** The lessons of the teacher's students, in table order. */
  function MyLessons(students: seq<Student>, lessons: seq<Lesson>, teacher: Id): seq<Lesson>
  {
    Filter(lessons, OwnedLesson(TeacherStudentIds(students, teacher)))
  }

  /** The payments the monthly-income card adds up: completed, of one of the
      teacher's students, and dated at or after `start`. No upper bound. */
  function MonthlyPayment(ids: seq<Id>, start: Date): Payment -> bool
  {
    (p: Payment) => p.status == PaymentCompleted && !Before(p.date, start) && p.studentId in ids
  }

  /** `Math.round(completed / (active + completed) * 100)`, or 0 when there are
      no lessons to rate: the nearest whole percentage, halves rounded up. */
  function SuccessRate(active: nat, completed: nat): (r: nat)
    ensures r <= 100
    ensures active + completed == 0 ==> r == 0
    ensures active + completed > 0 ==>
              (2 * r - 1) * (active + completed) <= 200 * completed < (2 * r + 1) * (active + completed)
  {
    if active + completed > 0 then RoundedPercent(completed, active + completed) else 0
  }

  /** No completed lesson gives 0; completed lessons and no planned ones give 100. */
  lemma SuccessRateExtremes(active: nat, completed: nat)
    ensures completed == 0 ==> SuccessRate(active, completed) == 0
    ensures active == 0 && completed > 0 ==> SuccessRate(active, completed) == 100
  {
    if active + completed > 0 {
      PercentExtremes(completed, active + completed);
    }
  }

  /** A planned lesson of one of the students `ids`. */
  function PlannedOf(ids: seq<Id>): Lesson -> bool
  {
    (l: Lesson) => l.studentId in ids && l.status == Planned
  }

  /** A completed lesson of one of the students `ids`. */
  function CompletedOf(ids: seq<Id>): Lesson -> bool
  {
    (l: Lesson) => l.studentId in ids && l.status == Completed
  }

  /** What a lesson adds to the estimated income: its price (0 when missing)
      when it is a completed lesson of one of `ids`, nothing otherwise. */
  function EarnedPrice(ids: seq<Id>): Lesson -> real
  {
    (l: Lesson) => if l.studentId in ids && l.status == Completed then Price(l) else 0.0
  }

  /** The two queries (by student, then by status) count and add up the same
      lessons as one pass over the table. */
  lemma OnePass(lessons: seq<Lesson>, ids: seq<Id>)
    ensures Count(Filter(lessons, OwnedLesson(ids)), IsPlannedLesson) == Count(lessons, PlannedOf(ids))
    ensures Count(Filter(lessons, OwnedLesson(ids)), IsCompletedLesson) == Count(lessons, CompletedOf(ids))
    ensures Sum(Filter(Filter(lessons, OwnedLesson(ids)), IsCompletedLesson), Price) == Sum(lessons, EarnedPrice(ids))
  {
    var own := OwnedLesson(ids);
    FilterFilter(lessons, own, IsPlannedLesson, PlannedOf(ids));
    FilterFilter(lessons, own, IsCompletedLesson, CompletedOf(ids));
    SumFilter(lessons, CompletedOf(ids), Price);
    SumWhereMasked(lessons, CompletedOf(ids), Price, EarnedPrice(ids));
  }

  /** The four cards of `fetchStats`, computed on `today`: the number of the
      teacher's students, the planned lessons, the completed payments since
      the first of the month, the prices (0 when missing) of the completed
      lessons, and the completed share of planned-plus-completed lessons. */
  function ComputeStats(students: seq<Student>, lessons: seq<Lesson>, payments: seq<Payment>,
                        teacher: Id, today: Date): (st: Stats)
    ensures st.successRate <= 100
    ensures st.activeClasses <= |lessons| && st.totalStudents <= |students|
    ensures var ids := TeacherStudentIds(students, teacher);
            && st.totalStudents == Count(students, OfTeacher(teacher))
            && st.activeClasses == Count(lessons, PlannedOf(ids))
            && st.monthlyIncome == SumWhere(payments, MonthlyPayment(ids, StartOfMonth(today)), Amount)
            && st.estimatedIncome == Sum(lessons, EarnedPrice(ids))
            && st.successRate == SuccessRate(Count(lessons, PlannedOf(ids)), Count(lessons, CompletedOf(ids)))
  {
    var ids := TeacherStudentIds(students, teacher);
    var mine := MyLessons(students, lessons, teacher);
    OnePass(lessons, ids);
    SumFilter(payments, MonthlyPayment(ids, StartOfMonth(today)), Amount);
    Stats(
      |ids|,
      Count(mine, IsPlannedLesson),
      Sum(Filter(payments, MonthlyPayment(ids, StartOfMonth(today))), Amount),
      Sum(Filter(mine, IsCompletedLesson), Price),
      SuccessRate(Count(mine, IsPlannedLesson), Count(mine, IsCompletedLesson)))
  }

  /** A lesson that is neither planned nor completed (postponed, say) changes
      no statistic. */
  lemma OtherStatusIgnored(students: seq<Student>, lessons: seq<Lesson>, payments: seq<Payment>,
                           teacher: Id, today: Date, l: Lesson)
    requires l.status != Planned && l.status != Completed
    ensures ComputeStats(students, lessons + [l], payments, teacher, today)
         == ComputeStats(students, lessons, payments, teacher, today)
  {
    OtherStatusCountsNothing(students, lessons, teacher, l);
  }

  lemma OtherStatusCountsNothing(students: seq<Student>, lessons: seq<Lesson>, teacher: Id, l: Lesson)
    requires l.status != Planned && l.status != Completed
    ensures var mine := MyLessons(students, lessons, teacher);
            var mine' := MyLessons(students, lessons + [l], teacher);
            && Count(mine', IsPlannedLesson) == Count(mine, IsPlannedLesson)
            && Count(mine', IsCompletedLesson) == Count(mine, IsCompletedLesson)
            && Filter(mine', IsCompletedLesson) == Filter(mine, IsCompletedLesson)
  {
    var own := OwnedLesson(TeacherStudentIds(students, teacher));
    PushFailing(lessons, l, own, IsPlannedLesson);
    PushFailing(lessons, l, own, IsCompletedLesson);
  }

  /** A completed payment of one of the teacher's students dated on or after
      the first of this month adds its amount to monthlyIncome, however far in
      the future it lies. */
  lemma MonthlyIncomeHasNoUpperBound(students: seq<Student>, lessons: seq<Lesson>, payments: seq<Payment>,
                                     teacher: Id, today: Date, p: Payment)
    requires p.status == PaymentCompleted && p.studentId in TeacherStudentIds(students, teacher)
    requires !Before(p.date, StartOfMonth(today))
    ensures ComputeStats(students, lessons, payments + [p], teacher, today).monthlyIncome
         == ComputeStats(students, lessons, payments, teacher, today).monthlyIncome + p.amount
  {
    var ids := TeacherStudentIds(students, teacher);
    SumFilterPush(payments, p, MonthlyPayment(ids, StartOfMonth(today)), Amount);
  }

  /** A payment dated before the first of this month does not count, even on
      the last day of the previous month. */
  lemma EarlierPaymentIgnored(students: seq<Student>, lessons: seq<Lesson>, payments: seq<Payment>,
                              teacher: Id, today: Date, p: Payment)
    requires Before(p.date, StartOfMonth(today))
    ensures ComputeStats(students, lessons, payments + [p], teacher, today).monthlyIncome
         == ComputeStats(students, lessons, payments, teacher, today).monthlyIncome
  {
    var ids := TeacherStudentIds(students, teacher);
    SumFilterPush(payments, p, MonthlyPayment(ids, StartOfMonth(today)), Amount);
  }

  /** A teacher without students sees zero on every card. */
  lemma NoStudentsNoStats(students: seq<Student>, lessons: seq<Lesson>, payments: seq<Payment>,
                          teacher: Id, today: Date)
    requires forall s :: s in students ==> s.teacherId != teacher
    ensures ComputeStats(students, lessons, payments, teacher, today) == Stats(0, 0, 0.0, 0.0, 0)
  {
    var ids := TeacherStudentIds(students, teacher);
    assert ids == [];
    assert MyLessons(students, lessons, teacher) == [];
    assert Filter(payments, MonthlyPayment(ids, StartOfMonth(today))) == [];
  }

  /** Completing one lesson (the only one with its id) raises the estimated
      income by its price exactly when it is a lesson of the teacher's that was
      not completed yet, and leaves the income as it was otherwise. */
  lemma CompletingAddsPrice(students: seq<Student>, lessons: seq<Lesson>, payments: seq<Payment>,
                            teacher: Id, today: Date, k: nat)
    requires k < |lessons|
    requires forall j :: 0 <= j < |lessons| && j != k ==> lessons[j].id != lessons[k].id
    ensures var after := UpdateWhere(lessons, LessonId, lessons[k].id, MarkCompleted);
            var owned := lessons[k].studentId in TeacherStudentIds(students, teacher);
            ComputeStats(students, after, payments, teacher, today).estimatedIncome
            == ComputeStats(students, lessons, payments, teacher, today).estimatedIncome
               + (if owned && lessons[k].status != Completed then Price(lessons[k]) else 0.0)
  {
    var ids := TeacherStudentIds(students, teacher);
    UpdateUnique(lessons, LessonId, k, MarkCompleted);
    SumReplaceAt(lessons, k, MarkCompleted(lessons[k]), EarnedPrice(ids));
  }

  /** Completing one lesson (the only one with its id) takes it off the
      active classes exactly when it was a planned lesson of the teacher's. */
  lemma CompletingEndsActive(students: seq<Student>, lessons: seq<Lesson>, payments: seq<Payment>,
                             teacher: Id, today: Date, k: nat)
    requires k < |lessons|
    requires forall j :: 0 <= j < |lessons| && j != k ==> lessons[j].id != lessons[k].id
    ensures var after := UpdateWhere(lessons, LessonId, lessons[k].id, MarkCompleted);
            var owned := lessons[k].studentId in TeacherStudentIds(students, teacher);
            ComputeStats(students, after, payments, teacher, today).activeClasses
            == ComputeStats(students, lessons, payments, teacher, today).activeClasses
               - (if owned && lessons[k].status == Planned then 1 else 0)
  {
    var ids := TeacherStudentIds(students, teacher);
    UpdateUnique(lessons, LessonId, k, MarkCompleted);
    CountReplaceAt(lessons, k, MarkCompleted(lessons[k]), PlannedOf(ids));
  }

  /** Deleting one lesson (the only one with its id) takes its price off the
      estimated income exactly when it was a completed lesson of the
      teacher's. */
  lemma DeletingDropsPrice(students: seq<Student>, lessons: seq<Lesson>, payments: seq<Payment>,
                           teacher: Id, today: Date, k: nat)
    requires k < |lessons|
    requires forall j :: 0 <= j < |lessons| && j != k ==> lessons[j].id != lessons[k].id
    ensures var after := Without(lessons, LessonId, lessons[k].id);
            var owned := lessons[k].studentId in TeacherStudentIds(students, teacher);
            ComputeStats(students, after, payments, teacher, today).estimatedIncome
            == ComputeStats(students, lessons, payments, teacher, today).estimatedIncome
               - (if owned && lessons[k].status == Completed then Price(lessons[k]) else 0.0)
  {
    var ids := TeacherStudentIds(students, teacher);
    WithoutUnique(lessons, LessonId, k);
    SumDropAt(lessons, k, EarnedPrice(ids));
  }

  // ---------------------------------------------------------------------
  // The week view

  function DayOf(l: Lesson): string
  {
    l.day
  }

  /** `groupLessonsByDay`: for each of the seven days, the lessons held on it,
      in list order. */
  method GroupLessonsByDay(lessons: seq<Lesson>) returns (grouped: map<string, seq<Lesson>>)
    ensures grouped.Keys == set d | d in DaysOfWeek
    ensures forall d :: d in grouped ==> grouped[d] == FilterKey(lessons, DayOf, d)
  {
    grouped := map[];
    var i := 0;
    while i < |DaysOfWeek|
      invariant 0 <= i <= |DaysOfWeek|
      invariant grouped.Keys == set d | d in DaysOfWeek[..i]
      invariant forall d :: d in grouped ==> grouped[d] == FilterKey(lessons, DayOf, d)
    {
      var day := DaysOfWeek[i];
      grouped := grouped[day := FilterKey(lessons, DayOf, day)];
      i := i + 1;
    }
  }

  /** The seven buckets together hold each lesson on a known day exactly once,
      and no lesson on an unknown day. */
  lemma WeekPartition(lessons: seq<Lesson>)
    ensures BucketCount(lessons, DayOf, DaysOfWeek) == CountKeyIn(lessons, DayOf, DaysOfWeek)
    ensures forall i :: 0 <= i < |lessons| && lessons[i].day in DaysOfWeek
              ==> lessons[i] in FilterKey(lessons, DayOf, lessons[i].day)
    ensures forall l, d :: l in FilterKey(lessons, DayOf, d) ==> l.day == d
  {
    DaysOfWeekShape();
    BucketCountPartition(lessons, DayOf, DaysOfWeek);
    forall l, d | l in FilterKey(lessons, DayOf, d)
      ensures l.day == d
    {
      var r := FilterKey(lessons, DayOf, d);
      var i :| 0 <= i < |r| && r[i] == l;
    }
  }

  // ---------------------------------------------------------------------
  // Lesson actions and their guards

  datatype Action = MarkComplete | Postpone | Delete

  /** The buttons a lesson card shows: complete and postpone while the status
      is unset, complete only once postponed, and delete always. */
  function OfferedActions(s: LessonStatus): set<Action>
  {
    (if Unset(s) then {MarkComplete, Postpone} else {})
    + (if s == Postponed then {MarkComplete} else {})
    + {Delete}
  }

  /** The status an offered action leaves; `None` for delete (the lesson is gone). */
  function NextStatus(a: Action): (r: Option<LessonStatus>)
    ensures r.None? <==> a == Delete
    ensures r.Some? ==> !Unset(r.value)
  {
    match a
    case MarkComplete => Some(Completed)
    case Postpone => Some(Postponed)
    case Delete => None
  }

  datatype Run = Run(final: Option<LessonStatus>, postpones: nat)

  /** Clicks `actions` in order starting from status `s`, as long as each
      click is on an offered button; `None` once a button is not offered. */
  function Perform(s: LessonStatus, actions: seq<Action>): Option<Run>
    decreases |actions|
  {
    if actions == [] then Some(Run(Some(s), 0))
    else
      var a := actions[0];
      if a !in OfferedActions(s) then None
      else match NextStatus(a)
        case None => if |actions| == 1 then Some(Run(None, 0)) else None
        case Some(s') =>
          match Perform(s', actions[1..])
          case None => None
          case Some(run) => Some(Run(run.final, run.postpones + if a == Postpone then 1 else 0))
  }

  /** Through the buttons, a lesson is postponed at most once. */
  lemma {:induction false} PostponedAtMostOnce(s: LessonStatus, actions: seq<Action>)
    requires Perform(s, actions).Some?
    ensures Perform(s, actions).value.postpones <= (if Unset(s) then 1 else 0)
    decreases |actions|
  {
    if actions != [] && actions[0] != Delete {
      var s' := NextStatus(actions[0]).value;
      PostponedAtMostOnce(s', actions[1..]);
    }
  }

  /** A completed lesson can only be deleted: no button changes its status. */
  lemma {:induction false} CompletedIsFinal(actions: seq<Action>)
    requires Perform(Completed, actions).Some?
    ensures Perform(Completed, actions).value.final in {Some(Completed), None}
    ensures actions != [] ==> actions == [Delete]
  {
  }

  /** Every lesson that is not deleted can reach the completed status in at
      most two clicks from an unset or postponed status. */
  lemma CompletionReachable(s: LessonStatus)
    requires Unset(s) || s == Postponed
    ensures Perform(s, [MarkComplete]) == Some(Run(Some(Completed), 0))
    ensures Unset(s) ==> Perform(s, [Postpone, MarkComplete]) == Some(Run(Some(Completed), 1))
  {
    assert [MarkComplete][1..] == [];
    assert [Postpone, MarkComplete][1..] == [MarkComplete];
  }

  /** `update({ status: 'completed' })`: only the status is written. */
  function MarkCompleted(l: Lesson): (r: Lesson)
    ensures r.status == Completed && r.(status := l.status) == l
  {
    l.(status := Completed)
  }

  /** `update({ status: 'postponed', postponed_to, postpone_reason })`. */
  function MarkPostponed(to: string, reason: string): (f: Lesson -> Lesson)
    ensures forall l :: f(l).status == Postponed && f(l).postponedTo == Some(to) && f(l).postponeReason == Some(reason)
    ensures forall l :: f(l).(status := l.status, postponedTo := l.postponedTo, postponeReason := l.postponeReason) == l
  {
    (l: Lesson) => l.(status := Postponed, postponedTo := Some(to), postponeReason := Some(reason))
  }

  /** Completing keeps the postponement date and reason, and every other
      lesson; postponing writes the three fields together. */
  lemma UpdatesTouchOnlyTheirFields(lessons: seq<Lesson>, id: Id, to: string, reason: string)
    ensures var done := UpdateWhere(lessons, LessonId, id, MarkCompleted);
            forall i :: 0 <= i < |lessons| ==>
              && done[i].postponedTo == lessons[i].postponedTo
              && done[i].postponeReason == lessons[i].postponeReason
              && done[i].status == (if lessons[i].id == id then Completed else lessons[i].status)
              && (lessons[i].id != id ==> done[i] == lessons[i])
    ensures var moved := UpdateWhere(lessons, LessonId, id, MarkPostponed(to, reason));
            forall i :: 0 <= i < |lessons| && lessons[i].id == id ==>
              moved[i] == lessons[i].(status := Postponed, postponedTo := Some(to), postponeReason := Some(reason))
  {
  }

  /** Postponing and then completing leaves the lesson completed with the
      postponement date and reason still set. */
  lemma PostponeThenComplete(l: Lesson, to: string, reason: string)
    ensures var after := MarkCompleted(MarkPostponed(to, reason)(l));
            after.status == Completed && after.postponedTo == Some(to) && after.postponeReason == Some(reason)
  {
  }

  /** The lessons the week view lists: none when the teacher has no students,
      otherwise the lessons of the teacher's students. */
  function VisibleLessons(students: seq<Student>, lessons: seq<Lesson>, teacher: Id): (r: seq<Lesson>)
    ensures (forall s :: s in students ==> s.teacherId != teacher) ==> r == []
    ensures forall l :: l in r ==> l in lessons && exists s :: s in students && s.teacherId == teacher && s.id == l.studentId
    ensures forall l :: l in lessons && (exists s :: s in students && s.teacherId == teacher && s.id == l.studentId) ==> l in r
  {
    var ids := TeacherStudentIds(students, teacher);
    if ids == [] then []
    else
      var r := Filter(lessons, OwnedLesson(ids));
      assert forall l :: l in r ==> l in multiset(lessons);
      r
  }

  /** The week view after `fetchLessons`, from the view `shown` before it: a
      failed student query or a teacher without students empties it, a
      failed lesson query keeps it, and otherwise it lists the lessons of the
      teacher's students. */
  function FetchedLessons(shown: seq<Lesson>, students: seq<Student>, lessons: seq<Lesson>, teacher: Id,
                          studentsFail: bool, lessonsFail: bool): (r: seq<Lesson>)
    ensures studentsFail || (forall s :: s in students ==> s.teacherId != teacher) ==> r == []
    ensures !studentsFail && lessonsFail && (exists s :: s in students && s.teacherId == teacher) ==> r == shown
    ensures !studentsFail && !lessonsFail ==> r == VisibleLessons(students, lessons, teacher)
  {
    if studentsFail || TeacherStudentIds(students, teacher) == [] then []
    else if lessonsFail then shown
    else VisibleLessons(students, lessons, teacher)
  }

  /** Which queries of one `fetchStats` and `fetchLessons` pair fail. Each
      of the two runs its own student query; `fetchStats` then runs the
      planned-lesson, completed-lesson and monthly-payment queries, and
      `fetchLessons` the lesson query of the week view. */
  datatype Failures = Failures(
    statsStudentsFail: bool,
    activeFail: bool,
    completedFail: bool,
    monthlyFail: bool,
    viewStudentsFail: bool,
    lessonsFail: bool)

  /** The cards after `fetchStats`, from the cards `shown` before it: a failed
      student query returns early and keeps them; a failed planned-lesson,
      completed-lesson or monthly-payment query reads as no rows
      (`?.length || 0`, `|| []`), which zeroes what that query feeds. */
  function FetchedStats(shown: Stats, students: seq<Student>, lessons: seq<Lesson>, payments: seq<Payment>,
                        teacher: Id, today: Date, f: Failures): (st: Stats)
    ensures f.statsStudentsFail ==> st == shown
    ensures !f.statsStudentsFail ==>
              var ids := TeacherStudentIds(students, teacher);
              var active := if f.activeFail then 0 else Count(lessons, PlannedOf(ids));
              var completed := if f.completedFail then 0 else Count(lessons, CompletedOf(ids));
              && st.totalStudents == Count(students, OfTeacher(teacher))
              && st.activeClasses == active
              && st.monthlyIncome == (if f.monthlyFail then 0.0
                                      else SumWhere(payments, MonthlyPayment(ids, StartOfMonth(today)), Amount))
              && st.estimatedIncome == (if f.completedFail then 0.0 else Sum(lessons, EarnedPrice(ids)))
              && st.successRate == SuccessRate(active, completed)
    ensures !f.statsStudentsFail && f.completedFail ==> st.estimatedIncome == 0.0 && st.successRate == 0
    ensures !f.statsStudentsFail && !f.activeFail && !f.completedFail && !f.monthlyFail ==>
              st == ComputeStats(students, lessons, payments, teacher, today)
  {
    if f.statsStudentsFail then shown
    else
      var all := ComputeStats(students, lessons, payments, teacher, today);
      var ids := TeacherStudentIds(students, teacher);
      var active := if f.activeFail then 0 else all.activeClasses;
      var completed := if f.completedFail then 0 else Count(lessons, CompletedOf(ids));
      SuccessRateExtremes(active, completed);
      Stats(all.totalStudents, active,
            if f.monthlyFail then 0.0 else all.monthlyIncome,
            if f.completedFail then 0.0 else all.estimatedIncome,
            SuccessRate(active, completed))
  }

  /** The dashboard's state: the signed-in teacher (once known), the lessons
      of the week view and the cards. */
  class DashboardPage {
    var teacherId: Option<Id>
    var lessons: seq<Lesson>
    var stats: Stats

    constructor()
      ensures teacherId == None && lessons == [] && stats == Stats(0, 0, 0.0, 0.0, 0)
    {
      teacherId := None;
      lessons := [];
      stats := Stats(0, 0, 0.0, 0.0, 0);
    }

    /** `fetchStats` and `fetchLessons` for the known teacher, where `f` says
        which of their queries fail. */
    method Refresh(db: Database, today: Date, f: Failures)
      modifies this`lessons, this`stats
      ensures teacherId.Some? ==> lessons == FetchedLessons(old(lessons), db.students, db.lessons,
                                                            teacherId.value, f.viewStudentsFail, f.lessonsFail)
      ensures teacherId.Some? ==> stats == FetchedStats(old(stats), db.students, db.lessons, db.payments,
                                                        teacherId.value, today, f)
      ensures teacherId.None? ==> lessons == old(lessons) && stats == old(stats)
    {
      if teacherId.Some? {
        lessons := FetchedLessons(lessons, db.students, db.lessons, teacherId.value, f.viewStudentsFail, f.lessonsFail);
        stats := FetchedStats(stats, db.students, db.lessons, db.payments, teacherId.value, today, f);
      }
    }

    /** `initializeDashboard`: `profile` is the teacher's profile id, or None
        when looking it up or creating it fails, which changes nothing.
        Otherwise the teacher becomes known and both fetches run. */
    method Init(db: Database, profile: Option<Id>, today: Date, f: Failures)
      modifies this`teacherId, this`lessons, this`stats
      ensures teacherId == if profile.Some? then profile else old(teacherId)
      ensures profile.Some? ==> lessons == FetchedLessons(old(lessons), db.students, db.lessons,
                                                          profile.value, f.viewStudentsFail, f.lessonsFail)
      ensures profile.Some? ==> stats == FetchedStats(old(stats), db.students, db.lessons, db.payments,
                                                      profile.value, today, f)
      ensures profile.None? ==> lessons == old(lessons) && stats == old(stats)
    {
      if profile.Some? {
        teacherId := profile;
        Refresh(db, today, f);
      }
    }

    /** `handleLessonComplete`: nothing happens before the teacher is known;
        otherwise the lesson's status is written, unless the update fails,
        and then the week view and the cards are fetched again. */
    method CompleteLesson(db: Database, id: Id, fails: bool, today: Date, f: Failures)
      returns (ok: bool)
      modifies db`lessons, this`lessons, this`stats
      ensures ok <==> teacherId.Some? && !fails
      ensures db.lessons == if ok then UpdateWhere(old(db.lessons), LessonId, id, MarkCompleted) else old(db.lessons)
      ensures ok ==> lessons == FetchedLessons(old(lessons), db.students, db.lessons,
                                               teacherId.value, f.viewStudentsFail, f.lessonsFail)
      ensures ok ==> stats == FetchedStats(old(stats), db.students, db.lessons, db.payments,
                                           teacherId.value, today, f)
      ensures !ok ==> lessons == old(lessons) && stats == old(stats)
    {
      if teacherId.None? || fails {
        return false;
      }
      db.lessons := UpdateWhere(db.lessons, LessonId, id, MarkCompleted);
      Refresh(db, today, f);
      ok := true;
    }

    /** `handlePostponeLesson`: the three fields are written in one update,
        and then the week view and the cards are fetched again. */
    method PostponeLesson(db: Database, id: Id, to: string, reason: string, fails: bool,
                          today: Date, f: Failures) returns (ok: bool)
      modifies db`lessons, this`lessons, this`stats
      ensures ok <==> teacherId.Some? && !fails
      ensures db.lessons == if ok then UpdateWhere(old(db.lessons), LessonId, id, MarkPostponed(to, reason)) else old(db.lessons)
      ensures ok ==> lessons == FetchedLessons(old(lessons), db.students, db.lessons,
                                               teacherId.value, f.viewStudentsFail, f.lessonsFail)
      ensures ok ==> stats == FetchedStats(old(stats), db.students, db.lessons, db.payments,
                                           teacherId.value, today, f)
      ensures !ok ==> lessons == old(lessons) && stats == old(stats)
    {
      if teacherId.None? || fails {
        return false;
      }
      db.lessons := UpdateWhere(db.lessons, LessonId, id, MarkPostponed(to, reason));
      Refresh(db, today, f);
      ok := true;
    }

    /** `handleDeleteLesson`: asks for confirmation, then deletes the row; it
        does not wait for the teacher to be known, but fetches the week view
        and the cards again only when the teacher is known. */
    method DeleteLesson(db: Database, id: Id, confirmed: bool, fails: bool,
                        today: Date, f: Failures) returns (ok: bool)
      modifies db`lessons, this`lessons, this`stats
      ensures ok <==> confirmed && !fails
      ensures db.lessons == if ok then Without(old(db.lessons), LessonId, id) else old(db.lessons)
      ensures ok && teacherId.Some? ==> lessons == FetchedLessons(old(lessons), db.students, db.lessons,
                                                                  teacherId.value, f.viewStudentsFail, f.lessonsFail)
      ensures ok && teacherId.Some? ==> stats == FetchedStats(old(stats), db.students, db.lessons, db.payments,
                                                              teacherId.value, today, f)
      ensures !(ok && teacherId.Some?) ==> lessons == old(lessons) && stats == old(stats)
    {
      if !confirmed || fails {
        return false;
      }
      db.lessons := Without(db.lessons, LessonId, id);
      Refresh(db, today, f);
      ok := true;
    }
  }
}
