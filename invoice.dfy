/** The invoice form: a list of lesson lines the teacher edits, their total,
    and the document and file name produced from them. */
module Invoice {
  import opened Common
  import opened Folds
  import opened Text
  import opened Calendar

  /** One line of the invoice; `duration` is in hours and `price` per hour. */
  datatype LessonDetail = LessonDetail(date: string, time: string, subject: string, duration: real, price: real)

  /** The line `handleAddLesson` appends: empty texts, one hour, no price. */
  const BlankLine: LessonDetail := LessonDetail("", "", "", 1.0, 0.0)

  /** `lesson.price * lesson.duration`. */
  function LineTotal(l: LessonDetail): real
  {
    l.price * l.duration
  }

  /** `calculateTotal`: the sum over the lines of price times duration. No
      lines total 0, and the total is never negative while no price and no
      duration is. */
  function InvoiceTotal(lines: seq<LessonDetail>): (r: real)
    ensures lines == [] ==> r == 0.0
    ensures (forall i :: 0 <= i < |lines| ==> lines[i].price >= 0.0 && lines[i].duration >= 0.0) ==> r >= 0.0
  {
    NonNegativeTotal(lines);
    Sum(lines, LineTotal)
  }

  lemma {:induction false} NonNegativeTotal(lines: seq<LessonDetail>)
    ensures (forall i :: 0 <= i < |lines| ==> lines[i].price >= 0.0 && lines[i].duration >= 0.0) ==>
              Sum(lines, LineTotal) >= 0.0
  {
    if lines != [] && forall i :: 0 <= i < |lines| ==> lines[i].price >= 0.0 && lines[i].duration >= 0.0 {
      var init, last := lines[..|lines| - 1], lines[|lines| - 1];
      NonNegativeTotal(init);
      assert forall i :: 0 <= i < |init| ==> init[i] == lines[i];
      assert last.price * last.duration >= 0.0;
    }
  }

  /** One call of `handleLessonChange`: a field and its new value. */
  datatype Edit =
    | SetDate(date: string)
    | SetTime(time: string)
    | SetSubject(subject: string)
    | SetDuration(duration: real)
    | SetPrice(price: real)

  /** `{ ...line, [field]: value }`: the named field takes the value, the other four keep theirs. */
  function ApplyEdit(l: LessonDetail, e: Edit): (r: LessonDetail)
    ensures r.date == (if e.SetDate? then e.date else l.date)
    ensures r.time == (if e.SetTime? then e.time else l.time)
    ensures r.subject == (if e.SetSubject? then e.subject else l.subject)
    ensures r.duration == (if e.SetDuration? then e.duration else l.duration)
    ensures r.price == (if e.SetPrice? then e.price else l.price)
  {
    match e
    case SetDate(v) => l.(date := v)
    case SetTime(v) => l.(time := v)
    case SetSubject(v) => l.(subject := v)
    case SetDuration(v) => l.(duration := v)
    case SetPrice(v) => l.(price := v)
  }

  /** The form's state, `invoiceData`. */
  class InvoiceForm {
    var studentName: string
    var teacherName: string
    var teacherSignature: string
    var lessons: seq<LessonDetail>

    constructor()
      ensures studentName == "" && teacherName == "" && teacherSignature == "" && lessons == []
    {
      studentName := "";
      teacherName := "";
      teacherSignature := "";
      lessons := [];
    }

    /** `handleAddLesson`. */
    method AddLesson()
      modifies this`lessons
      ensures lessons == old(lessons) + [BlankLine]
    {
      lessons := lessons + [BlankLine];
    }

    /** `handleRemoveLesson`. */
    method RemoveLesson(index: int)
      modifies this`lessons
      ensures lessons == DropAt(old(lessons), index)
    {
      lessons := DropAt(lessons, index);
    }

    /** `handleLessonChange`, called by the row at `index` of the form. */
    method ChangeLesson(index: int, e: Edit)
      requires 0 <= index < |lessons|
      modifies this`lessons
      ensures lessons == old(lessons)[index := ApplyEdit(old(lessons)[index], e)]
    {
      var updated := lessons;
      updated := updated[index := ApplyEdit(updated[index], e)];
      lessons := updated;
    }
  }

  /** A new blank line adds a line but nothing to the total. */
  lemma AddLessonKeepsTotal(lines: seq<LessonDetail>)
    ensures |lines + [BlankLine]| == |lines| + 1
    ensures InvoiceTotal(lines + [BlankLine]) == InvoiceTotal(lines)
  {
    SumPush(lines, BlankLine, LineTotal);
  }

  /** Removing a line takes exactly its amount off the total; an index
      outside the list changes nothing. */
  lemma RemoveLessonTotal(lines: seq<LessonDetail>, index: int)
    ensures 0 <= index < |lines| ==> InvoiceTotal(DropAt(lines, index)) == InvoiceTotal(lines) - LineTotal(lines[index])
    ensures !(0 <= index < |lines|) ==> InvoiceTotal(DropAt(lines, index)) == InvoiceTotal(lines)
  {
    if 0 <= index < |lines| {
      SumDropAt(lines, index, LineTotal);
    }
  }

  /** Editing a line changes the total by the change in that line's amount;
      editing its date, time or subject leaves the total as it was. */
  lemma ChangeLessonTotal(lines: seq<LessonDetail>, index: int, e: Edit)
    requires 0 <= index < |lines|
    ensures InvoiceTotal(lines[index := ApplyEdit(lines[index], e)])
            == InvoiceTotal(lines) - LineTotal(lines[index]) + LineTotal(ApplyEdit(lines[index], e))
    ensures e.SetDate? || e.SetTime? || e.SetSubject? ==>
              InvoiceTotal(lines[index := ApplyEdit(lines[index], e)]) == InvoiceTotal(lines)
  {
    SumReplaceAt(lines, index, ApplyEdit(lines[index], e), LineTotal);
  }

  // ---------------------------------------------------------------------
  // The document

  /** A table cell: a text, or a number the document prints with `toString()`. */
  datatype Cell = TextCell(text: string) | NumberCell(value: real)

  const InvoiceHeader: seq<string> :=
    ["Tarih", "Saat", "Ders", "Süre (Saat)", "Saat Ücreti (₺)", "Toplam (₺)"]

  function LessonRow(l: LessonDetail): seq<Cell>
  {
    [TextCell(l.date), TextCell(l.time), TextCell(l.subject),
     NumberCell(l.duration), NumberCell(l.price), NumberCell(LineTotal(l))]
  }

  /** The lessons table: the header row, then one row per line in order. */
  function InvoiceTable(lines: seq<LessonDetail>): (rows: seq<seq<Cell>>)
    ensures |rows| == |lines| + 1
    ensures forall i :: 0 <= i < |rows| ==> |rows[i]| == 6
    ensures rows[0] == seq(6, j requires 0 <= j < 6 => TextCell(InvoiceHeader[j]))
    ensures forall i :: 0 <= i < |lines| ==>
              rows[i + 1][0] == TextCell(lines[i].date) && rows[i + 1][2] == TextCell(lines[i].subject)
              && rows[i + 1][5] == NumberCell(lines[i].price * lines[i].duration)
  {
    [seq(6, j requires 0 <= j < 6 => TextCell(InvoiceHeader[j]))]
      + seq(|lines|, i requires 0 <= i < |lines| => LessonRow(lines[i]))
  }

  /** The document `generateInvoice` builds. */
  datatype InvoiceDocument = InvoiceDocument(
    title: string,
    student: string,
    teacher: string,
    table: seq<seq<Cell>>,
    total: real,
    signature: string)

  /** The document carries the two names and the signature, a header and one
      row per line, and a total that the amounts printed in the last column
      add up to. */
  function Generate(studentName: string, teacherName: string, signature: string, lines: seq<LessonDetail>): (doc: InvoiceDocument)
    ensures doc.title == "ÖZEL DERS FATURASI" && doc.signature == signature
    ensures doc.student == studentName && doc.teacher == teacherName
    ensures |doc.table| == |lines| + 1 && doc.total == InvoiceTotal(lines)
    ensures Total(AmountColumn(doc.table)) == doc.total
  {
    var rows := InvoiceTable(lines);
    TotalOfEach(lines, LineTotal, AmountColumn(rows));
    InvoiceDocument("ÖZEL DERS FATURASI", studentName, teacherName, rows, InvoiceTotal(lines), signature)
  }

  /** The amounts in the last column of the table, below the header. */
  function AmountColumn(rows: seq<seq<Cell>>): seq<real>
  {
    if |rows| <= 1 then []
    else seq(|rows| - 1, i requires 0 <= i < |rows| - 1 =>
               if |rows[i + 1]| == 6 && rows[i + 1][5].NumberCell? then rows[i + 1][5].value else 0.0)
  }

  // ---------------------------------------------------------------------
  // The file name

  /** `fatura_<name with white-space runs as '_'>_<YYYY-MM-DD>.docx`. */
  function FileName(studentName: string, today: Date): string
    requires Printable(today)
  {
    "fatura_" + UnderscoreSpaces(studentName) + "_" + DateKey(today) + ".docx"
  }

  /** The file name has no white space, starts with `fatura_`, ends with
      `.docx`, and the ten characters before the extension read back as today. */
  lemma FileNameShape(studentName: string, today: Date)
    requires Printable(today)
    ensures var r := FileName(studentName, today);
            && StartsWith(r, "fatura_")
            && |r| >= 22 && r[|r| - 5..] == ".docx"
            && ParseDateKey(r[|r| - 15..|r| - 5]) == Some(today)
            && forall i :: 0 <= i < |r| ==> !IsSpace(r[i])
  {
    var r := FileName(studentName, today);
    var u := UnderscoreSpaces(studentName);
    var key := DateKey(today);
    assert r == "fatura_" + u + "_" + key + ".docx";
    assert r[|r| - 15..|r| - 5] == key;
    DateKeyRoundTrip(today);
    assert forall i :: 0 <= i < |key| ==> IsDigit(key[i]) || key[i] == '-';
  }

  /** A name without white space appears in the file name as it is. */
  lemma FileNameKeepsPlainName(studentName: string, today: Date)
    requires Printable(today)
    requires forall i :: 0 <= i < |studentName| ==> !IsSpace(studentName[i])
    ensures FileName(studentName, today)[7..7 + |studentName|] == studentName
  {
  }
}
