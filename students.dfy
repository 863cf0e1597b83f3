/** The students page: the sort state, the search over the list, and the
    delete, which removes the student's lessons before the student. */
module Students {
  import opened Common
  import opened Folds
  import opened Text
  import opened Records
  import opened Store

  // ---------------------------------------------------------------------
  // Sorting

  datatype Direction = Asc | Desc

  /** The column the list is ordered by and the direction. */
  datatype SortState = SortState(field: string, direction: Direction)

  /** The order on opening the page: by full name, ascending. */
  const InitialSort: SortState := SortState("full_name", Asc)

  /** `handleSort`: the current column turns the direction round; another
      column becomes the current one, ascending. */
  function NextSort(s: SortState, field: string): (r: SortState)
    ensures r.field == field
    ensures field == s.field ==> r.direction != s.direction
    ensures field != s.field ==> r.direction == Asc
  {
    if field == s.field then s.(direction := if s.direction == Asc then Desc else Asc)
    else SortState(field, Asc)
  }

  /** Choosing the current column twice restores the order; choosing a new
      column twice leaves it descending. */
  lemma SortTwice(s: SortState, field: string)
    ensures field == s.field ==> NextSort(NextSort(s, field), field) == s
    ensures field != s.field ==> NextSort(NextSort(s, field), field) == SortState(field, Desc)
  {
  }

  /** The order after choosing the columns of `fields` one after another. */
  function SortAfter(s: SortState, fields: seq<string>): SortState
  {
    if fields == [] then s else NextSort(SortAfter(s, fields[..|fields| - 1]), fields[|fields| - 1])
  }

  /** Choosing a column other than the name `n` times from the initial
      order sorts by it ascending after an odd number of choices and
      descending after an even one. */
  lemma {:induction false} SortParity(field: string, n: nat)
    requires field != InitialSort.field
    ensures n > 0 ==> SortAfter(InitialSort, seq(n, i => field)) == SortState(field, if n % 2 == 1 then Asc else Desc)
  {
    if n > 1 {
      var fs := seq(n, i => field);
      assert fs[..n - 1] == seq(n - 1, i => field);
      SortParity(field, n - 1);
    } else if n == 1 {
      assert seq(1, i => field)[..0] == [];
    }
  }

  // ---------------------------------------------------------------------
  // Searching

  /** A present field matching the query; an absent one (`?.`) never matches. */
  predicate FieldMatches(f: Option<string>, query: string)
  {
    f.Some? && MatchesQuery(f.value, query)
  }

  /** The name, grade, phone or parent's name contains the query, ignoring case. */
  predicate StudentMatches(s: Student, query: string)
  {
    MatchesQuery(s.fullName, query) || FieldMatches(s.grade, query) || FieldMatches(s.phone, query)
    || FieldMatches(s.parentName, query)
  }

  function Matching(query: string): Student -> bool
  {
    (s: Student) => StudentMatches(s, query)
  }

  /** `filteredStudents`, in the order of the list. */
  function FilteredStudents(students: seq<Student>, query: string): (r: seq<Student>)
    ensures forall i :: 0 <= i < |r| ==> StudentMatches(r[i], query)
    ensures forall i :: 0 <= i < |students| && StudentMatches(students[i], query) ==> students[i] in r
    ensures multiset(r) <= multiset(students)
  {
    Filter(students, Matching(query))
  }

  /** An empty search lists every student, in order. */
  lemma EmptySearchListsAll(students: seq<Student>)
    ensures FilteredStudents(students, "") == students
  {
    forall i | 0 <= i < |students|
      ensures Matching("")(students[i])
    {
      EmptyQueryMatches(students[i].fullName);
    }
    FilterAll(students, Matching(""));
  }

  /** Typing the query in capitals lists the same students. */
  lemma SearchIgnoresCase(students: seq<Student>, query: string)
    ensures FilteredStudents(students, query) == FilteredStudents(students, Lower(query))
  {
    forall i | 0 <= i < |students|
      ensures Matching(query)(students[i]) == Matching(Lower(query))(students[i])
    {
      var s := students[i];
      QueryCaseIgnored(s.fullName, query);
      if s.grade.Some? {
        QueryCaseIgnored(s.grade.value, query);
      }
      if s.phone.Some? {
        QueryCaseIgnored(s.phone.value, query);
      }
      if s.parentName.Some? {
        QueryCaseIgnored(s.parentName.value, query);
      }
    }
    FilterSame(students, Matching(query), Matching(Lower(query)));
  }

  // ---------------------------------------------------------------------
  // Deleting

  function HasId(id: Id): Student -> bool
  {
    (s: Student) => s.id == id
  }

  /** Every lesson belongs to a student of the table. */
  predicate NoOrphans(students: seq<Student>, lessons: seq<Lesson>)
  {
    forall i :: 0 <= i < |lessons| ==> exists j :: 0 <= j < |students| && students[j].id == lessons[i].studentId
  }

  /** Deleting the lessons first and the student second leaves no lesson
      without its student after either step. */
  lemma CascadeKeepsLessonsOwned(students: seq<Student>, lessons: seq<Lesson>, id: Id)
    requires NoOrphans(students, lessons)
    ensures NoOrphans(students, Filter(lessons, NotOfStudent(id)))
    ensures NoOrphans(Without(students, StudentId, id), Filter(lessons, NotOfStudent(id)))
  {
    var kept := Filter(lessons, NotOfStudent(id));
    forall i | 0 <= i < |kept|
      ensures exists j :: 0 <= j < |students| && students[j].id == kept[i].studentId
    {
      assert multiset(kept)[kept[i]] > 0;
      assert kept[i] in lessons;
      var k :| 0 <= k < |lessons| && lessons[k] == kept[i];
    }
    OwnedAfterStudentDeleted(students, kept, id);
  }

  lemma OwnedAfterStudentDeleted(students: seq<Student>, lessons: seq<Lesson>, id: Id)
    requires NoOrphans(students, lessons)
    requires forall i :: 0 <= i < |lessons| ==> lessons[i].studentId != id
    ensures NoOrphans(Without(students, StudentId, id), lessons)
  {
    var rest := Without(students, StudentId, id);
    forall i | 0 <= i < |lessons|
      ensures exists m :: 0 <= m < |rest| && rest[m].id == lessons[i].studentId
    {
      var j :| 0 <= j < |students| && students[j].id == lessons[i].studentId;
      assert students[j] in rest;
      var m :| 0 <= m < |rest| && rest[m] == students[j];
    }
  }

  /** The other order would not do: deleting a student before its lesson
      leaves the lesson without a student. */
  lemma StudentFirstOrphans(s: Student, l: Lesson)
    requires l.studentId == s.id
    ensures NoOrphans([s], [l])
    ensures !NoOrphans(Without([s], StudentId, s.id), [l])
  {
    assert [s][..0] == [];
    assert [s][0].id == [l][0].studentId;
    var rest := Without([s], StudentId, s.id);
    assert |rest| == 0;
  }

  datatype DeleteOutcome = Cancelled | NotFound | LessonsNotDeleted | StudentNotDeleted | Deleted

  class StudentsPage {
    var students: seq<Student>
    var query: string
    var sort: SortState

    constructor()
      ensures students == [] && query == "" && sort == InitialSort
    {
      students := [];
      query := "";
      sort := InitialSort;
    }

    /** `handleSort`. */
    method Sort(field: string)
      modifies this`sort
      ensures sort == NextSort(old(sort), field)
    {
      if field == sort.field {
        sort := sort.(direction := if sort.direction == Asc then Desc else Asc);
      } else {
        sort := SortState(field, Asc);
      }
    }

    /** `handleDelete`: asks first; then checks that exactly one student has
        the id, deletes the student's lessons, deletes the student, and only
        then drops the student from the list. A failed step skips the rest. */
    method Delete(db: Database, id: Id, confirmed: bool, checkFails: bool, lessonsFail: bool, studentFails: bool)
      returns (r: DeleteOutcome)
      modifies db`lessons, db`students, this`students
      ensures r == if !confirmed then Cancelled
                   else if checkFails || Count(old(db.students), HasId(id)) != 1 then NotFound
                   else if lessonsFail then LessonsNotDeleted
                   else if studentFails then StudentNotDeleted
                   else Deleted
      ensures db.lessons == if r in {LessonsNotDeleted, Cancelled, NotFound} then old(db.lessons)
                            else Filter(old(db.lessons), NotOfStudent(id))
      ensures db.students == if r == Deleted then Without(old(db.students), StudentId, id) else old(db.students)
      ensures students == if r == Deleted then Without(old(students), StudentId, id) else old(students)
    {
      if !confirmed {
        return Cancelled;
      }
      if checkFails || Count(db.students, HasId(id)) != 1 {
        return NotFound;
      }
      if lessonsFail {
        return LessonsNotDeleted;
      }
      db.lessons := Filter(db.lessons, NotOfStudent(id));
      if studentFails {
        return StudentNotDeleted;
      }
      db.students := Without(db.students, StudentId, id);
      students := Without(students, StudentId, id);
      r := Deleted;
    }
  }
}
