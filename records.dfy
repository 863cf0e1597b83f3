/** The rows the pages read and write: lessons, payments and students, with
    the week-day names the pages share. */
module Records {
  import opened Common
  import opened Calendar
  import opened Folds

  /** A lesson's `status` column: `null` (planned), `'completed'`,
      `'postponed'`, or any other text the column may hold (the reports page
      counts `'cancelled'`). */
  datatype LessonStatus = Planned | Completed | Postponed | Other(name: OtherStatusText)

  /** A status text other than the two with their own constructor, so that
      each column value has one encoding. */
  type OtherStatusText = t: string | t != "completed" && t != "postponed" witness ""

  /** `!lesson.status`: the column is `null` or the empty text. */
  predicate Unset(s: LessonStatus)
  {
    s == Planned || s == Other("")
  }

  /** A row of the `lessons` table, with the student's name joined in. */
  datatype Lesson = Lesson(
    id: Id,
    studentId: Id,
    studentName: string,
    subject: string,
    day: string,
    startTime: string,
    status: LessonStatus,
    postponedTo: Option<string>,
    postponeReason: Option<string>,
    pricePerHour: Option<real>)

  /** `lesson.price_per_hour || 0`. */
  function Price(l: Lesson): real
  {
    l.pricePerHour.GetOr(0.0)
  }

  function LessonId(l: Lesson): Id
  {
    l.id
  }

  function StatusOf(l: Lesson): LessonStatus
  {
    l.status
  }

  predicate IsCompletedLesson(l: Lesson)
  {
    l.status == Completed
  }

  predicate IsPlannedLesson(l: Lesson)
  {
    l.status == Planned
  }

  predicate IsPostponedLesson(l: Lesson)
  {
    l.status == Postponed
  }

  /** A payment's `status` column. */
  datatype PaymentStatus = PaymentPending | PaymentCompleted | PaymentCancelled

  /** A row of the `payments` table, with the student's name joined in. */
  datatype Payment = Payment(
    id: Id,
    studentId: Id,
    studentName: string,
    amount: real,
    date: Date,
    paymentMethod: string,
    description: Option<string>,
    status: PaymentStatus)

  function Amount(p: Payment): real
  {
    p.amount
  }

  function MethodOf(p: Payment): string
  {
    p.paymentMethod
  }

  predicate IsCompletedPayment(p: Payment)
  {
    p.status == PaymentCompleted
  }

  predicate IsPendingPayment(p: Payment)
  {
    p.status == PaymentPending
  }

  /** A row of the `students` table. */
  datatype Student = Student(
    id: Id,
    teacherId: Id,
    fullName: string,
    grade: Option<string>,
    phone: Option<string>,
    parentName: Option<string>,
    parentPhone: Option<string>)

  function StudentId(s: Student): Id
  {
    s.id
  }

  /** A row of the `teacher_profiles` table; `avatarUrl` is the path of the
      picture in the `avatars` storage bucket. */
  datatype TeacherProfile = TeacherProfile(
    id: Id,
    userId: Id,
    fullName: string,
    phone: string,
    subject: string,
    avatarUrl: Option<string>)

  function ProfileId(p: TeacherProfile): Id
  {
    p.id
  }

  /** A row of the `subjects` table. */
  datatype Subject = Subject(id: Id, name: string, description: string, objectives: seq<string>)

  /** A row of the `lesson_resources` table; `subject` is the id of its subject
      and `fileUrl` the path of its file in the `resources` storage bucket. */
  datatype Resource = Resource(
    id: Id,
    title: string,
    description: Option<string>,
    subject: Id,
    fileUrl: Option<string>,
    tags: seq<string>)

  /** `if (resource.file_url)`: the resource has a non-empty file path. */
  predicate HasFile(r: Resource)
  {
    r.fileUrl.Some? && r.fileUrl.value != ""
  }

  /** The week days in the order every page lists them, Monday first. */
  const DaysOfWeek: seq<string> :=
    ["Pazartesi", "Salı", "Çarşamba", "Perşembe", "Cuma", "Cumartesi", "Pazar"]

  lemma DaysOfWeekShape()
    ensures |DaysOfWeek| == 7 && Distinct(DaysOfWeek)
  {
  }

  /** The rows of `s` whose `id` is not `id` (`list.filter(x => x.id !== id)`),
      for any row type, given how to read a row's id. */
  function Without<T>(s: seq<T>, idOf: T -> Id, id: Id): (r: seq<T>)
    ensures |r| <= |s|
    ensures forall i :: 0 <= i < |r| ==> idOf(r[i]) != id
    ensures forall x :: x in s && idOf(x) != id ==> x in r
    ensures forall x :: x in r ==> x in s
    ensures forall x :: x in s && idOf(x) != id ==> multiset(r)[x] == multiset(s)[x]
    ensures (forall i :: 0 <= i < |s| ==> idOf(s[i]) != id) ==> r == s
  {
    if s == [] then []
    else
      var init := s[..|s| - 1];
      var last := s[|s| - 1];
      var rest := Without(init, idOf, id);
      assert s == init + [last];
      WithoutStep(init, last, idOf, id, rest);
      rest + (if idOf(last) != id then [last] else [])
  }

  /** The properties of `Without` carry over from `init` to `init + [last]`. */
  lemma WithoutStep<T>(init: seq<T>, last: T, idOf: T -> Id, id: Id, rest: seq<T>)
    requires |rest| <= |init|
    requires forall i :: 0 <= i < |rest| ==> idOf(rest[i]) != id
    requires forall x :: x in init && idOf(x) != id ==> x in rest
    requires forall x :: x in rest ==> x in init
    requires forall x :: x in init && idOf(x) != id ==> multiset(rest)[x] == multiset(init)[x]
    ensures var s, r := init + [last], rest + (if idOf(last) != id then [last] else []);
            && |r| <= |s|
            && (forall i :: 0 <= i < |r| ==> idOf(r[i]) != id)
            && (forall x :: x in s && idOf(x) != id ==> x in r)
            && (forall x :: x in r ==> x in s)
            && (forall x :: x in s && idOf(x) != id ==> multiset(r)[x] == multiset(s)[x])
  {
    var extra := if idOf(last) != id then [last] else [];
    var s, r := init + [last], rest + extra;
    assert multiset(s) == multiset(init) + multiset{last};
    assert multiset(r) == multiset(rest) + multiset(extra);
    InMultiset(s);
    InMultiset(r);
  }

  lemma InMultiset<T>(s: seq<T>)
    ensures forall x :: x in s ==> multiset(s)[x] > 0
  {
  }

  /** `list.map(x => x.id === id ? f(x) : x)`. */
  function UpdateWhere<T>(s: seq<T>, idOf: T -> Id, id: Id, f: T -> T): (r: seq<T>)
    ensures |r| == |s|
    ensures forall i :: 0 <= i < |s| ==> r[i] == if idOf(s[i]) == id then f(s[i]) else s[i]
  {
    seq(|s|, i requires 0 <= i < |s| => if idOf(s[i]) == id then f(s[i]) else s[i])
  }
  /** When `s[k]` is the only row with its id, dropping that id is dropping position `k`. */
  lemma {:induction false} WithoutUnique<T>(s: seq<T>, idOf: T -> Id, k: nat)
    requires k < |s|
    requires forall j :: 0 <= j < |s| && j != k ==> idOf(s[j]) != idOf(s[k])
    ensures Without(s, idOf, idOf(s[k])) == DropAt(s, k)
  {
    var id := idOf(s[k]);
    var init, last := s[..|s| - 1], s[|s| - 1];
    assert s == init + [last];
    WithoutLast(s, idOf, id);
    if k == |s| - 1 {
      assert forall i :: 0 <= i < |init| ==> idOf(init[i]) != id by {
        forall i | 0 <= i < |init|
          ensures idOf(init[i]) != id
        {
          assert init[i] == s[i];
        }
      }
      DropAtPush(init, last, k);
    } else {
      assert init[k] == s[k];
      assert forall j :: 0 <= j < |init| && j != k ==> idOf(init[j]) != id by {
        forall j | 0 <= j < |init| && j != k
          ensures idOf(init[j]) != id
        {
          assert init[j] == s[j];
        }
      }
      WithoutUnique(init, idOf, k);
      DropAtPush(init, last, k);
    }
  }

  /** Dropping a position of `s + [x]`: the last one gives `s`, an earlier one keeps `x` last. */
  lemma DropAtPush<T>(s: seq<T>, x: T, k: nat)
    requires k <= |s|
    ensures DropAt(s + [x], k) == if k == |s| then s else DropAt(s, k) + [x]
  {
    var t := s + [x];
    assert t[..k] == s[..k];
    if k < |s| {
      assert t[k + 1..] == s[k + 1..] + [x];
    }
  }

  lemma WithoutLast<T>(s: seq<T>, idOf: T -> Id, id: Id)
    requires s != []
    ensures Without(s, idOf, id)
            == Without(s[..|s| - 1], idOf, id) + (if idOf(s[|s| - 1]) != id then [s[|s| - 1]] else [])
  {
  }

  /** When `s[k]` is the only row with its id, updating that id is replacing position `k`. */
  lemma UpdateUnique<T>(s: seq<T>, idOf: T -> Id, k: nat, f: T -> T)
    requires k < |s|
    requires forall j :: 0 <= j < |s| && j != k ==> idOf(s[j]) != idOf(s[k])
    ensures UpdateWhere(s, idOf, idOf(s[k]), f) == s[k := f(s[k])]
  {
  }

  /** The lessons of student `id` (`.eq('student_id', id)`). */
  function OfStudent(id: Id): Lesson -> bool
  {
    (l: Lesson) => l.studentId == id
  }

  /** The lessons a delete by `student_id` leaves. */
  function NotOfStudent(id: Id): Lesson -> bool
  {
    (l: Lesson) => l.studentId != id
  }

  /** Deleting the lessons of one student leaves the lessons of every other student as they were. */
  lemma {:induction false} KeepOthers(lessons: seq<Lesson>, studentId: Id, other: Id)
    requires other != studentId
    ensures Filter(Filter(lessons, NotOfStudent(studentId)), OfStudent(other)) == Filter(lessons, OfStudent(other))
  {
    if lessons != [] {
      var init, x := lessons[..|lessons| - 1], lessons[|lessons| - 1];
      assert lessons == init + [x];
      KeepOthers(init, studentId, other);
      FilterAppend(init, [x], NotOfStudent(studentId));
      FilterAppend(init, [x], OfStudent(other));
      var kept := Filter([x], NotOfStudent(studentId));
      assert kept == if x.studentId != studentId then [x] else [] by {
        assert [x][..0] == [];
      }
      FilterAppend(Filter(init, NotOfStudent(studentId)), kept, OfStudent(other));
      assert Filter(kept, OfStudent(other)) == Filter([x], OfStudent(other)) by {
        assert [x][..0] == [];
      }
    }
  }
}
