/** The form that adds or edits a student with the weekly lessons: the time
    choices, the editor of the lesson entries, how a start time is stored and
    read back, and the save, which on an edit replaces every lesson of the
    student by the entries of the form. */
module StudentForm {
  import opened Common
  import opened Folds
  import opened Calendar
  import opened Records
  import opened Numbers
  import opened Store

  /** `TIME_SLOTS`: the hours 17 to 23, each written `${h}:00`. */
  const TimeSlots: seq<string> := seq(7, i requires 0 <= i < 7 => Pad2(i + 17) + ":00")

  /** The choices are exactly seven: the full hours from 17:00 to 23:00. */
  lemma TimeSlotsExact()
    ensures TimeSlots == ["17:00", "18:00", "19:00", "20:00", "21:00", "22:00", "23:00"]
  {
    assert TimeSlots[0] == "17:00" && TimeSlots[1] == "18:00" && TimeSlots[2] == "19:00";
    assert TimeSlots[3] == "20:00" && TimeSlots[4] == "21:00" && TimeSlots[5] == "22:00";
    assert TimeSlots[6] == "23:00";
  }

  /** One lesson of the form: all four fields are form texts. */
  datatype LessonEntry = LessonEntry(subject: string, day: string, startTime: string, price: NumberText)

  /** The entry `addLesson` appends: Monday at 17:00, no subject, no price. */
  const BlankEntry: LessonEntry := LessonEntry("", "Pazartesi", "17:00", Typed(""))

  /** One call of `updateLesson`: a field and its new text. */
  datatype EntryEdit =
    | SetSubject(subject: string)
    | SetDay(day: string)
    | SetStartTime(startTime: string)
    | SetPrice(price: string)

  /** `{ ...entry, [field]: value }`: the named field takes the text, the others keep theirs. */
  function ApplyEntryEdit(e: LessonEntry, edit: EntryEdit): (r: LessonEntry)
    ensures r.subject == (if edit.SetSubject? then edit.subject else e.subject)
    ensures r.day == (if edit.SetDay? then edit.day else e.day)
    ensures r.startTime == (if edit.SetStartTime? then edit.startTime else e.startTime)
    ensures r.price == (if edit.SetPrice? then Typed(edit.price) else e.price)
  {
    match edit
    case SetSubject(v) => e.(subject := v)
    case SetDay(v) => e.(day := v)
    case SetStartTime(v) => e.(startTime := v)
    case SetPrice(v) => e.(price := Typed(v))
  }

  // ---------------------------------------------------------------------
  // Start times

  /** `start_time + ':00'`: the `HH:MM` of the form as the `time` column holds it. */
  function StoredTime(t: string): string
  {
    t + ":00"
  }

  /** `start_time.substring(0, 5)`: the first five characters, or all when fewer. */
  function LoadedTime(s: string): (r: string)
    ensures |r| == if |s| < 5 then |s| else 5
    ensures r == s[..|r|]
  {
    if |s| < 5 then s else s[..5]
  }

  /** A five-character time is read back as it was stored, and a stored
      `HH:MM:00` is stored again as it was read. */
  lemma TimeRoundTrip(t: string, s: string)
    ensures |t| == 5 ==> LoadedTime(StoredTime(t)) == t
    ensures |s| == 8 && s[5..] == ":00" ==> StoredTime(LoadedTime(s)) == s
  {
    if |t| == 5 {
      assert StoredTime(t)[..5] == t;
    }
    if |s| == 8 && s[5..] == ":00" {
      assert s == s[..5] + s[5..];
    }
  }

  /** Every time choice survives the round trip. */
  lemma TimeSlotsRoundTrip(i: nat)
    requires i < |TimeSlots|
    ensures LoadedTime(StoredTime(TimeSlots[i])) == TimeSlots[i]
  {
    TimeRoundTrip(TimeSlots[i], "");
  }

  // ---------------------------------------------------------------------
  // Rows written and rows read

  /** The row inserted for one entry: a planned lesson of the student with
      the stored start time and `parseFloat` of the price (NaN is written as
      `null`); `id` is the one the database gives it. */
  function NewRow(studentId: Id, studentName: string, e: LessonEntry, id: Id): (r: Lesson)
    ensures r.id == id && r.studentId == studentId && r.status == Planned
    ensures r.subject == e.subject && r.day == e.day
    ensures |e.startTime| == 5 ==> LoadedTime(r.startTime) == e.startTime
    ensures r.pricePerHour == NumberValue(e.price)
  {
    TimeRoundTrip(e.startTime, "");
    Lesson(id, studentId, studentName, e.subject, e.day, StoredTime(e.startTime), Planned, None, None, NumberValue(e.price))
  }

  /** `lessons.map(...)`, the rows of one insert, in the order of the form. */
  function NewRows(studentId: Id, studentName: string, entries: seq<LessonEntry>, ids: seq<Id>): (rows: seq<Lesson>)
    requires |ids| == |entries|
    ensures |rows| == |entries|
    ensures forall i :: 0 <= i < |rows| ==> rows[i].studentId == studentId && rows[i].status == Planned
    ensures forall i :: 0 <= i < |rows| ==>
              rows[i].subject == entries[i].subject && rows[i].day == entries[i].day
              && rows[i].startTime == entries[i].startTime + ":00"
  {
    seq(|entries|, i requires 0 <= i < |entries| => NewRow(studentId, studentName, entries[i], ids[i]))
  }

  /** The entry an edit loads from a row; `None` when the row has no price,
      for `null.toString()` throws. */
  function LoadEntry(l: Lesson): (r: Option<LessonEntry>)
    ensures r.None? <==> l.pricePerHour.None?
    ensures r.Some? ==> r.value.subject == l.subject && r.value.day == l.day
                        && NumberValue(r.value.price) == l.pricePerHour
    ensures r.Some? && |l.startTime| == 8 && l.startTime[5..] == ":00" ==> StoredTime(r.value.startTime) == l.startTime
  {
    TimeRoundTrip("", l.startTime);
    if l.pricePerHour.None? then None
    else Some(LessonEntry(l.subject, l.day, LoadedTime(l.startTime), Printed(l.pricePerHour.value)))
  }

  /** `lessonData.map(...)`: every row as an entry, or `None` when one of
      them cannot be read. */
  function LoadEntries(rows: seq<Lesson>): (r: Option<seq<LessonEntry>>)
    ensures r.None? <==> exists i :: 0 <= i < |rows| && rows[i].pricePerHour.None?
    ensures r.Some? ==> |r.value| == |rows| && forall i :: 0 <= i < |rows| ==> Some(r.value[i]) == LoadEntry(rows[i])
  {
    if exists i :: 0 <= i < |rows| && rows[i].pricePerHour.None? then None
    else Some(seq(|rows|, i requires 0 <= i < |rows| => LoadEntry(rows[i]).value))
  }

  /** The entry as a reload shows it: the price becomes the number it was saved as. */
  function Normalised(e: LessonEntry): LessonEntry
    requires NumberValue(e.price).Some?
  {
    e.(price := Printed(NumberValue(e.price).value))
  }

  /** Saving the entries and opening the student again shows the same
      entries, each price as the number it was read as; an entry whose price
      does not read as a number is saved without one and the reload fails. */
  lemma SaveThenLoad(studentId: Id, studentName: string, entries: seq<LessonEntry>, ids: seq<Id>)
    requires |ids| == |entries|
    requires forall i :: 0 <= i < |entries| ==> |entries[i].startTime| == 5
    ensures var loaded := LoadEntries(NewRows(studentId, studentName, entries, ids));
            (forall i :: 0 <= i < |entries| ==> NumberValue(entries[i].price).Some?) ==>
              && loaded.Some? && |loaded.value| == |entries|
              && forall i :: 0 <= i < |entries| ==> loaded.value[i] == Normalised(entries[i])
    ensures (exists i :: 0 <= i < |entries| && NumberValue(entries[i].price).None?) ==>
              LoadEntries(NewRows(studentId, studentName, entries, ids)).None?
  {
    var rows := NewRows(studentId, studentName, entries, ids);
    forall i | 0 <= i < |entries|
      ensures rows[i].pricePerHour == NumberValue(entries[i].price)
      ensures LoadedTime(rows[i].startTime) == entries[i].startTime
    {
      TimeRoundTrip(entries[i].startTime, "");
    }
    if exists i :: 0 <= i < |entries| && NumberValue(entries[i].price).None? {
      var i :| 0 <= i < |entries| && NumberValue(entries[i].price).None?;
      assert rows[i].pricePerHour.None?;
    } else {
      var loaded := LoadEntries(rows);
      forall i | 0 <= i < |entries|
        ensures loaded.value[i] == Normalised(entries[i])
      {
        assert Some(loaded.value[i]) == LoadEntry(rows[i]);
      }
    }
  }

  /** After the old lessons of a student are deleted and the new rows
      inserted, the student's lessons are exactly the new rows, and every
      other student's lessons are as they were. */
  lemma ReplaceLessons(lessons: seq<Lesson>, studentId: Id, rows: seq<Lesson>, other: Id)
    requires forall i :: 0 <= i < |rows| ==> rows[i].studentId == studentId
    requires other != studentId
    ensures Filter(Filter(lessons, NotOfStudent(studentId)) + rows, OfStudent(studentId)) == rows
    ensures Filter(Filter(lessons, NotOfStudent(studentId)) + rows, OfStudent(other)) == Filter(lessons, OfStudent(other))
  {
    var kept := Filter(lessons, NotOfStudent(studentId));
    FilterAppend(kept, rows, OfStudent(studentId));
    FilterNone(kept, OfStudent(studentId));
    FilterAll(rows, OfStudent(studentId));
    FilterAppend(kept, rows, OfStudent(other));
    FilterNone(rows, OfStudent(other));
    KeepOthers(lessons, studentId, other);
  }

  // ---------------------------------------------------------------------
  // The student's own fields

  /** `formData`: the five texts of the student. */
  datatype StudentFields = StudentFields(fullName: string, grade: string, phone: string, parentName: string, parentPhone: string)

  /** `initialData?.x || ''` for each field. */
  function InitialFields(initial: Option<Student>): (f: StudentFields)
    ensures initial.None? ==> f == StudentFields("", "", "", "", "")
    ensures initial.Some? ==> f.fullName == initial.value.fullName && f.grade == initial.value.grade.GetOr("")
  {
    match initial
    case None => StudentFields("", "", "", "", "")
    case Some(s) => StudentFields(s.fullName, s.grade.GetOr(""), s.phone.GetOr(""), s.parentName.GetOr(""), s.parentPhone.GetOr(""))
  }

  /** `update(formData)`: the five fields are written, the id and the teacher kept. */
  function WriteFields(f: StudentFields): (w: Student -> Student)
    ensures forall s :: w(s).id == s.id && w(s).teacherId == s.teacherId
    ensures forall s :: w(s).fullName == f.fullName && w(s).grade == Some(f.grade) && w(s).phone == Some(f.phone)
                        && w(s).parentName == Some(f.parentName) && w(s).parentPhone == Some(f.parentPhone)
  {
    (s: Student) => s.(fullName := f.fullName, grade := Some(f.grade), phone := Some(f.phone),
                       parentName := Some(f.parentName), parentPhone := Some(f.parentPhone))
  }

  /** `insert([{ ...formData, teacher_id }])`, with the id the database gives. */
  function NewStudent(id: Id, teacher: Id, f: StudentFields): Student
  {
    Student(id, teacher, f.fullName, Some(f.grade), Some(f.phone), Some(f.parentName), Some(f.parentPhone))
  }

  /** Opening a student and saving the form unchanged writes the fields back
      as they were, but an absent field is written as the empty text. */
  lemma UnchangedFieldsWritten(s: Student)
    ensures WriteFields(InitialFields(Some(s)))(s).fullName == s.fullName
    ensures WriteFields(InitialFields(Some(s)))(s).grade == Some(s.grade.GetOr(""))
    ensures s.grade.Some? ==> WriteFields(InitialFields(Some(s)))(s).grade == s.grade
  {
  }

  datatype Outcome = NoTeacher | Failed | Saved(studentId: Id)

  // ---------------------------------------------------------------------
  // The form

  class Editor {
    var teacherId: Option<Id>
    /** `initialData`: the student being edited, `None` for a new one. */
    var initial: Option<Student>
    var fields: StudentFields
    var lessons: seq<LessonEntry>

    constructor(initial: Option<Student>)
      ensures teacherId == None && this.initial == initial && fields == InitialFields(initial) && lessons == []
    {
      teacherId := None;
      this.initial := initial;
      fields := InitialFields(initial);
      lessons := [];
    }

    /** `fetchTeacherProfile`: the teacher's profile id (`None` when there is
        no user or profile), where `fails` says whether the profile query
        fails, and, on an edit, the student's lessons as entries, where
        `lessonsFail` says whether the lesson query fails. Returns false when
        the form closes with an error; the teacher is already set when the
        lesson query or the reading of a lesson fails. */
    method Open(db: Database, teacher: Option<Id>, fails: bool, lessonsFail: bool) returns (ok: bool)
      modifies this`teacherId, this`lessons
      ensures teacherId == if teacher.Some? && !fails then teacher else old(teacherId)
      ensures ok <==> teacher.Some? && !fails
                      && (initial.Some? ==> !lessonsFail && LoadEntries(Filter(db.lessons, OfStudent(initial.value.id))).Some?)
      ensures ok && initial.Some? ==> lessons == LoadEntries(Filter(db.lessons, OfStudent(initial.value.id))).value
      ensures !(ok && initial.Some?) ==> lessons == old(lessons)
    {
      if teacher.None? || fails {
        return false;
      }
      teacherId := teacher;
      if initial.Some? {
        if lessonsFail {
          return false;
        }
        var loaded := LoadEntries(Filter(db.lessons, OfStudent(initial.value.id)));
        if loaded.None? {
          return false;
        }
        lessons := loaded.value;
      }
      ok := true;
    }

    /** `addLesson`. */
    method AddLesson()
      modifies this`lessons
      ensures lessons == old(lessons) + [BlankEntry]
    {
      lessons := lessons + [BlankEntry];
    }

    /** `removeLesson`. */
    method RemoveLesson(index: int)
      modifies this`lessons
      ensures lessons == DropAt(old(lessons), index)
    {
      lessons := DropAt(lessons, index);
    }

    /** `updateLesson`, called by the entry at `index`. */
    method UpdateLesson(index: int, edit: EntryEdit)
      requires 0 <= index < |lessons|
      modifies this`lessons
      ensures lessons == old(lessons)[index := ApplyEntryEdit(old(lessons)[index], edit)]
    {
      var updated := lessons;
      updated := updated[index := ApplyEntryEdit(updated[index], edit)];
      lessons := updated;
    }

    /** `handleSubmit`. Without the teacher's id nothing is written. Then the
        student row is updated (edit) or inserted with `newId`; on an edit
        every lesson of the student is deleted; when the form lists lessons
        they are inserted with `lessonIds`. Each step that fails stops the
        save, and what the earlier steps wrote stays. */
    method Submit(db: Database, newId: Id, lessonIds: seq<Id>, writeFails: bool, clearFails: bool, insertFails: bool)
      returns (r: Outcome)
      requires |lessonIds| == |lessons|
      modifies db`students, db`lessons
      ensures r.NoTeacher? <==> teacherId.None?
      ensures r.Saved? <==> teacherId.Some? && !writeFails && !(initial.Some? && clearFails)
                            && !(|lessons| > 0 && insertFails)
      ensures r.Saved? ==> r.studentId == if initial.Some? then initial.value.id else newId
      ensures teacherId.None? || writeFails ==> db.students == old(db.students) && db.lessons == old(db.lessons)
      ensures teacherId.Some? && !writeFails ==>
                db.students == if initial.Some? then UpdateWhere(old(db.students), StudentId, initial.value.id, WriteFields(fields))
                               else old(db.students) + [NewStudent(newId, teacherId.value, fields)]
      ensures teacherId.Some? && !writeFails ==>
                var sid := if initial.Some? then initial.value.id else newId;
                var cleared := if initial.Some? && !clearFails then Filter(old(db.lessons), NotOfStudent(sid)) else old(db.lessons);
                var inserted := !(initial.Some? && clearFails) && |lessons| > 0 && !insertFails;
                db.lessons == cleared + (if inserted then NewRows(sid, fields.fullName, lessons, lessonIds) else [])
      ensures r.Saved? && initial.Some? ==>
                Filter(db.lessons, OfStudent(r.studentId)) == NewRows(r.studentId, fields.fullName, lessons, lessonIds)
    {
      if teacherId.None? {
        return NoTeacher;
      }
      if writeFails {
        return Failed;
      }
      var sid: Id;
      if initial.Some? {
        sid := initial.value.id;
        db.students := UpdateWhere(db.students, StudentId, sid, WriteFields(fields));
      } else {
        sid := newId;
        db.students := db.students + [NewStudent(newId, teacherId.value, fields)];
      }
      if initial.Some? {
        if clearFails {
          return Failed;
        }
        db.lessons := Filter(db.lessons, NotOfStudent(sid));
      }
      var rows := NewRows(sid, fields.fullName, lessons, lessonIds);
      if |lessons| > 0 {
        if insertFails {
          return Failed;
        }
        db.lessons := db.lessons + rows;
      } else {
        assert db.lessons + rows == db.lessons;
      }
      if initial.Some? {
        ReplaceLessons(old(db.lessons), sid, rows, sid + 1);
      }
      r := Saved(sid);
    }
  }
}
