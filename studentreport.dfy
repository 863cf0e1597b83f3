/** The progress report of one student: the completion percentage, the lesson
    count, the status labels, the refusal and failure cases of generation and
    the shape of the produced document. */
module StudentReport {
  import opened Common
  import opened Folds
  import opened Text
  import opened Calendar
  import opened Records
  import StudentForm

  /** `calculateProgress`: 0 for no lessons, otherwise the completed share as
      a whole percentage rounded half up. */
  function Progress(lessons: seq<Lesson>): (r: nat)
    ensures r <= 100
    ensures lessons == [] ==> r == 0
    ensures lessons != [] ==>
              var c := Count(lessons, IsCompletedLesson);
              (2 * r - 1) * |lessons| <= 200 * c < (2 * r + 1) * |lessons|
  {
    if |lessons| == 0 then 0 else RoundedPercent(Count(lessons, IsCompletedLesson), |lessons|)
  }

  /** Every lesson completed gives 100; none completed gives 0. */
  lemma ProgressExtremes(lessons: seq<Lesson>)
    ensures lessons != [] && Count(lessons, IsCompletedLesson) == |lessons| ==> Progress(lessons) == 100
    ensures Count(lessons, IsCompletedLesson) == 0 ==> Progress(lessons) == 0
  {
    if lessons != [] {
      PercentExtremes(Count(lessons, IsCompletedLesson), |lessons|);
    }
  }

  /** `lessons.reduce((sum, lesson) => sum + 1, 0)`: every lesson counts as
      one hour, so the total is the number of lessons. */
  function TotalHours(lessons: seq<Lesson>): (r: nat)
    ensures r == |lessons|
  {
    if lessons == [] then 0 else TotalHours(lessons[..|lessons| - 1]) + 1
  }

  /** The text of the status column. */
  function StatusLabel(s: LessonStatus): (r: string)
    ensures r == "Tamamlandı" <==> s == Completed
    ensures r == "Ertelendi" <==> s == Postponed
    ensures r == "Planlandı" <==> s != Completed && s != Postponed
  {
    if s == Completed then "Tamamlandı" else if s == Postponed then "Ertelendi" else "Planlandı"
  }

  predicate LabelledCompleted(l: Lesson)
  {
    StatusLabel(l.status) == "Tamamlandı"
  }

  /** The rows labelled completed are exactly as many as the completed lessons
      the summary counts. */
  lemma CompletedLabelsMatchCount(lessons: seq<Lesson>)
    ensures Count(lessons, LabelledCompleted) == Count(lessons, IsCompletedLesson)
  {
    FilterSame(lessons, LabelledCompleted, IsCompletedLesson);
  }

  /** `students.find(s => s.id === id)`. */
  function FindStudent(students: seq<Student>, id: Id): (r: Option<Student>)
    ensures r.None? <==> forall i :: 0 <= i < |students| ==> students[i].id != id
    ensures r.Some? ==> r.value in students && r.value.id == id
  {
    FindFirst(students, (s: Student) => s.id == id)
  }

  /** `student.grade || '-'`: the grade when one is filled in, a dash otherwise. */
  function GradeText(s: Student): (r: string)
    ensures r != ""
    ensures s.grade.Some? && s.grade.value != "" ==> r == s.grade.value
    ensures s.grade.None? || s.grade.value == "" ==> r == "-"
  {
    if s.grade.Some? && s.grade.value != "" then s.grade.value else "-"
  }

  const DetailsHeader: seq<string> := ["Tarih", "Konu", "Durum"]

  /** The day a date text names: a `YYYY-MM-DD` alone or followed by a 'T'
      and a time, as `new Date(text)` reads it; `None` for any other text. */
  function DayPart(text: string): Option<Date>
  {
    if |text| >= 10 && (|text| == 10 || text[10] == 'T') then ParseDateKey(text[..10]) else None
  }

  /** `new Date(text).toLocaleDateString('tr-TR')`: a text naming an existing
      day prints as `DD.MM.YYYY`; any other text is an invalid date and prints
      as "Invalid Date". */
  function LocaleDate(text: string): (r: string)
    ensures r == "Invalid Date" <==> DayPart(text).None? || !Valid(DayPart(text).value)
    ensures r != "Invalid Date" ==>
              && |r| == 10 && r[2] == '.' && r[5] == '.'
              && ParseDateKey(r[6..] + "-" + r[3..5] + "-" + r[..2]) == DayPart(text)
  {
    var d := DayPart(text);
    if d.None? || !Valid(d.value) then "Invalid Date"
    else
      var r := text[8..10] + "." + text[5..7] + "." + text[..4];
      assert r[6..] + "-" + r[3..5] + "-" + r[..2] == text[..10];
      r
  }

  /** The `time` column holds `HH:MM:00`, which is not a date: every lesson
      row of the report prints "Invalid Date" in its date cell. */
  lemma StoredTimeIsInvalidDate(hhmm: string)
    requires |hhmm| == 5
    ensures LocaleDate(StudentForm.StoredTime(hhmm)) == "Invalid Date"
  {
    assert |StudentForm.StoredTime(hhmm)| == 8;
  }

  /** One row of the lesson details: the start as a Turkish date, the subject
      and the status label. */
  function DetailsRow(l: Lesson): (r: seq<string>)
    ensures |r| == 3 && r[1] == l.subject
    ensures r[0] == "Invalid Date" <==> DayPart(l.startTime).None? || !Valid(DayPart(l.startTime).value)
    ensures r[2] == "Tamamlandı" <==> l.status == Completed
  {
    [LocaleDate(l.startTime), l.subject, StatusLabel(l.status)]
  }

  /** The document `generateReport` builds. */
  datatype ReportDocument = ReportDocument(
    studentName: string,
    grade: string,
    totalLessons: nat,
    completedLessons: nat,
    progress: nat,
    totalHours: nat,
    details: seq<seq<string>>,
    teacherName: string,
    signature: string)

  datatype Outcome =
    | Refused
    | Failed
    | Generated(doc: ReportDocument, fileName: string)

  /** `${name with white-space runs as '_'}_Rapor_${YYYY-MM-DD}.docx`: the
      student's name with its white-space runs as `_`, then `_Rapor_`, then
      the day's text, which reads back as the day, then `.docx`; no part of
      it is white space. */
  function ReportFileName(studentName: string, today: Date): (r: string)
    requires Printable(today)
    ensures |r| >= 21 && r[|r| - 5..] == ".docx"
    ensures ParseDateKey(r[|r| - 15..|r| - 5]) == Some(today)
    ensures forall i :: 0 <= i < |r| ==> !IsSpace(r[i])
    ensures r[..|r| - 15] == UnderscoreSpaces(studentName) + "_Rapor_"
  {
    var key := DateKey(today);
    DateKeyRoundTrip(today);
    assert forall i :: 0 <= i < |key| ==> IsDigit(key[i]) || key[i] == '-';
    JoinedName(UnderscoreSpaces(studentName), key);
    UnderscoreSpaces(studentName) + "_Rapor_" + key + ".docx"
  }

  /** Where the day's text sits in the file name, and that no part of the
      name is white space. */
  lemma JoinedName(head: string, key: string)
    requires |key| == 10
    requires forall i :: 0 <= i < |head| ==> !IsSpace(head[i])
    requires forall i :: 0 <= i < |key| ==> IsDigit(key[i]) || key[i] == '-'
    ensures var r := head + "_Rapor_" + key + ".docx";
            && |r| >= 21 && r[|r| - 5..] == ".docx" && r[|r| - 15..|r| - 5] == key
            && r[..|r| - 15] == head + "_Rapor_"
            && forall i :: 0 <= i < |r| ==> !IsSpace(r[i])
  {
    var r := head + "_Rapor_" + key + ".docx";
    assert r[|r| - 15..|r| - 5] == key;
    assert r[..|r| - 15] == head + "_Rapor_";
    forall i | 0 <= i < |r|
      ensures !IsSpace(r[i])
    {
      if i < |head| {
        assert r[i] == head[i];
      } else if i < |head| + 7 {
        assert r[i] == "_Rapor_"[i - |head|];
      } else if i < |head| + 17 {
        assert r[i] == key[i - |head| - 7];
      } else {
        assert r[i] == ".docx"[i - |head| - 17];
      }
    }
  }

  /** The details table of the report: the header, then one row per lesson. */
  function DetailsTable(lessons: seq<Lesson>): (d: seq<seq<string>>)
    ensures |d| == |lessons| + 1 && d[0] == ["Tarih", "Konu", "Durum"]
    ensures forall i :: 0 <= i < |lessons| ==>
              d[i + 1] == [LocaleDate(lessons[i].startTime), lessons[i].subject, StatusLabel(lessons[i].status)]
  {
    [DetailsHeader] + seq(|lessons|, i requires 0 <= i < |lessons| => DetailsRow(lessons[i]))
  }

  /** `generateReport`: refused when no student is selected or the signature
      is empty; a failure when the selected student is not in the list or the
      document cannot be packed (`packFails`); otherwise the document and the
      name it is saved under. */
  function GenerateReport(students: seq<Student>, selected: Option<Id>, lessons: seq<Lesson>,
                          teacherName: string, signature: string, today: Date, packFails: bool): (r: Outcome)
    requires Printable(today)
    ensures r.Refused? <==> selected.None? || signature == ""
    ensures r.Failed? <==> selected.Some? && signature != ""
                           && (FindStudent(students, selected.value).None? || packFails)
    ensures r.Generated? ==>
              && selected.Some? && FindStudent(students, selected.value).Some?
              && r.doc.studentName == FindStudent(students, selected.value).value.fullName
              && r.doc.grade == GradeText(FindStudent(students, selected.value).value)
              && r.doc.totalLessons == |lessons|
              && r.doc.completedLessons == Count(lessons, IsCompletedLesson)
              && r.doc.completedLessons <= r.doc.totalLessons
              && r.doc.progress == Progress(lessons)
              && r.doc.totalHours == |lessons|
              && |r.doc.details| == |lessons| + 1
              && r.doc.teacherName == teacherName
              && r.doc.signature == signature
              && r.fileName == ReportFileName(r.doc.studentName, today)
              && r.doc.details[0] == ["Tarih", "Konu", "Durum"]
              && forall i :: 0 <= i < |lessons| ==>
                   r.doc.details[i + 1] == [LocaleDate(lessons[i].startTime), lessons[i].subject, StatusLabel(lessons[i].status)]
  {
    if selected.None? || signature == "" then Refused
    else
      match FindStudent(students, selected.value)
      case None => Failed
      case Some(student) =>
        if packFails then Failed
        else
          var details := DetailsTable(lessons);
          var doc := ReportDocument(student.fullName, GradeText(student), |lessons|, Count(lessons, IsCompletedLesson),
                                    Progress(lessons), TotalHours(lessons), details, teacherName, signature);
          Generated(doc, ReportFileName(student.fullName, today))
  }

}
