/** The weekly timetable: entries placed on a day and a time slot, the grid
    and exported table that show them, the per-day lists, and the list of
    time slots the teacher ticks. */
module Schedule {
  import opened Common
  import opened Folds
  import opened Text
  import opened Calendar
  import opened Records
  import opened Sorting

  /** A row of the `schedule` table with its student's name joined in. */
  datatype ScheduleItem = ScheduleItem(
    id: Id,
    studentId: Id,
    studentName: string,
    subject: string,
    day: string,
    timeSlot: string)

  function ItemId(x: ScheduleItem): Id
  {
    x.id
  }

  function ItemDay(x: ScheduleItem): string
  {
    x.day
  }

  function ItemSlot(x: ScheduleItem): string
  {
    x.timeSlot
  }

  /** The hourly slots from 08:00 to 20:00 offered by default. */
  const DefaultTimeSlots: seq<string> :=
    ["08:00", "09:00", "10:00", "11:00", "12:00", "13:00", "14:00",
     "15:00", "16:00", "17:00", "18:00", "19:00", "20:00"]

  /** Thirteen slots, the `i`-th one at hour `8 + i`, in ascending order. */
  lemma DefaultTimeSlotsShape()
    ensures |DefaultTimeSlots| == 13
    ensures forall i :: 0 <= i < 13 ==> DefaultTimeSlots[i] == HourSlot(8 + i)
    ensures SortedBy(DefaultTimeSlots, (t: string) => t)
  {
    forall i, j | 0 <= i < j < 13
      ensures StrLe(DefaultTimeSlots[i], DefaultTimeSlots[j])
    {
      HourSlotOrder(8 + i, 8 + j);
    }
  }

  /** The text `HH:00` of hour `h`. */
  function HourSlot(h: int): string
    requires 0 <= h < 100
  {
    Pad2(h) + ":00"
  }

  /** Earlier hours come first in the order of texts. */
  lemma HourSlotOrder(a: int, b: int)
    requires 0 <= a <= b < 100
    ensures StrLe(HourSlot(a), HourSlot(b))
  {
    var x, y := HourSlot(a), HourSlot(b);
    if a / 10 == b / 10 {
      assert x[0] == y[0];
      if a % 10 == b % 10 {
        assert a == b;
        StrLeRefl(x);
      } else {
        assert x[1..][0] < y[1..][0];
      }
    }
  }

  // ---------------------------------------------------------------------
  // The grid and the exported table

  predicate At(day: string, slot: string, x: ScheduleItem)
  {
    x.day == day && x.timeSlot == slot
  }

  /** `schedule.find(item => item.day_of_week === day && item.time_slot === slot)`. */
  function EntryAt(schedule: seq<ScheduleItem>, day: string, slot: string): (r: Option<ScheduleItem>)
    ensures r.None? <==> forall i :: 0 <= i < |schedule| ==> !At(day, slot, schedule[i])
    ensures r.Some? ==> exists i :: 0 <= i < |schedule| && schedule[i] == r.value && At(day, slot, r.value)
                          && forall j :: 0 <= j < i ==> !At(day, slot, schedule[j])
  {
    FindFirst(schedule, (x: ScheduleItem) => At(day, slot, x))
  }

  /** The text of an exported cell: the student's name and the subject on two
      lines, or nothing. A cell is blank exactly when no entry sits on that
      day and slot. */
  function CellText(schedule: seq<ScheduleItem>, day: string, slot: string): (r: string)
    ensures r == "" <==> forall i :: 0 <= i < |schedule| ==> !At(day, slot, schedule[i])
    ensures r != "" ==> exists i :: 0 <= i < |schedule| && At(day, slot, schedule[i])
                          && r == schedule[i].studentName + "\n" + schedule[i].subject
  {
    match EntryAt(schedule, day, slot)
    case None => ""
    case Some(x) =>
      var t := x.studentName + "\n" + x.subject;
      assert t[|x.studentName|] == '\n';
      t
  }

  /** Only the first of several entries on the same day and slot is shown. */
  lemma FirstEntryShown(schedule: seq<ScheduleItem>, k: nat)
    requires k < |schedule|
    requires forall j :: 0 <= j < k ==> !At(schedule[k].day, schedule[k].timeSlot, schedule[j])
    ensures EntryAt(schedule, schedule[k].day, schedule[k].timeSlot) == Some(schedule[k])
  {
    var day, slot := schedule[k].day, schedule[k].timeSlot;
    var r := EntryAt(schedule, day, slot);
    assert At(day, slot, schedule[k]);
    var i :| 0 <= i < |schedule| && schedule[i] == r.value && At(day, slot, r.value)
              && forall j :: 0 <= j < i ==> !At(day, slot, schedule[j]);
    assert !(i < k) && !(k < i);
  }

  /** `handleExportSchedule`'s table: a header of `Saat` and the seven days,
      then one row per selected slot, in the order of the list. */
  function ExportTable(schedule: seq<ScheduleItem>, slots: seq<string>): (rows: seq<seq<string>>)
    ensures |rows| == |slots| + 1
    ensures forall i :: 0 <= i < |rows| ==> |rows[i]| == 8
    ensures rows[0] == ["Saat"] + DaysOfWeek
    ensures forall i, j :: 0 <= i < |slots| && 0 <= j < 7 ==>
              rows[i + 1][0] == slots[i] && rows[i + 1][j + 1] == CellText(schedule, DaysOfWeek[j], slots[i])
  {
    [["Saat"] + DaysOfWeek]
      + seq(|slots|, i requires 0 <= i < |slots| =>
              [slots[i]] + seq(7, j requires 0 <= j < 7 => CellText(schedule, DaysOfWeek[j], slots[i])))
  }

  /** Every entry on a known day and a selected slot shows up in the exported
      table, unless an earlier entry holds the same cell. */
  lemma ExportShowsEntry(schedule: seq<ScheduleItem>, slots: seq<string>, k: nat, row: nat, col: nat)
    requires k < |schedule|
    requires row < |slots| && slots[row] == schedule[k].timeSlot
    requires col < 7 && DaysOfWeek[col] == schedule[k].day
    requires forall j :: 0 <= j < k ==> !At(schedule[k].day, schedule[k].timeSlot, schedule[j])
    ensures ExportTable(schedule, slots)[row + 1][col + 1] == schedule[k].studentName + "\n" + schedule[k].subject
  {
    FirstEntryShown(schedule, k);
  }

  const ExportFileName: string := "ders-programi.docx"

  // ---------------------------------------------------------------------
  // Entries by day

  /** The entries of `day`, ascending by time slot. */
  function DayEntries(schedule: seq<ScheduleItem>, day: string): (r: seq<ScheduleItem>)
    ensures SortedBy(r, ItemSlot)
    ensures multiset(r) == multiset(FilterKey(schedule, ItemDay, day))
  {
    SortBy(FilterKey(schedule, ItemDay, day), ItemSlot)
  }

  /** `groupedLessons`: one list per day of the week. */
  method GroupByDay(schedule: seq<ScheduleItem>) returns (grouped: map<string, seq<ScheduleItem>>)
    ensures grouped.Keys == set d | d in DaysOfWeek
    ensures forall d :: d in grouped ==> grouped[d] == DayEntries(schedule, d)
  {
    grouped := map[];
    var i := 0;
    while i < |DaysOfWeek|
      invariant 0 <= i <= |DaysOfWeek|
      invariant grouped.Keys == set d | d in DaysOfWeek[..i]
      invariant forall d :: d in grouped ==> grouped[d] == DayEntries(schedule, d)
    {
      var day := DaysOfWeek[i];
      grouped := grouped[day := SortBy(FilterKey(schedule, ItemDay, day), ItemSlot)];
      i := i + 1;
    }
  }

  /** A day's list holds exactly that day's entries, each as often as in the
      schedule, in ascending order of time slot; an entry on a day outside
      the week appears in no list. */
  lemma DayEntriesExact(schedule: seq<ScheduleItem>, day: string)
    ensures SortedBy(DayEntries(schedule, day), ItemSlot)
    ensures forall x :: x in DayEntries(schedule, day) ==> x.day == day && x in schedule
    ensures forall x :: x in schedule && x.day == day ==> x in DayEntries(schedule, day)
    ensures forall x :: x in schedule && x.day == day ==>
              multiset(DayEntries(schedule, day))[x] == multiset(schedule)[x]
  {
    var f := FilterKey(schedule, ItemDay, day);
    var r := DayEntries(schedule, day);
    assert multiset(r) == multiset(f);
    forall x | x in r
      ensures x.day == day && x in schedule
    {
      assert x in multiset(f);
      var i :| 0 <= i < |f| && f[i] == x;
    }
    forall x | x in schedule && x.day == day
      ensures multiset(r)[x] == multiset(schedule)[x]
    {
      FilterKeyKeepsCount(schedule, x);
    }
    forall x | x in schedule && x.day == day
      ensures x in r
    {
      FilterKeyKeepsCount(schedule, x);
      assert x in multiset(schedule);
    }
  }

  /** Filtering by day keeps every entry of that day as often as it occurs. */
  lemma {:induction false} FilterKeyKeepsCount(s: seq<ScheduleItem>, x: ScheduleItem)
    ensures multiset(FilterKey(s, ItemDay, x.day))[x] == multiset(s)[x]
  {
    if s != [] {
      var init, last := s[..|s| - 1], s[|s| - 1];
      assert s == init + [last];
      FilterKeyKeepsCount(init, x);
    }
  }

  // ---------------------------------------------------------------------
  // The selected time slots

  /** Ticking a slot: `[...slots, time].sort()`. */
  function CheckedSlots(slots: seq<string>, time: string): (r: seq<string>)
    ensures multiset(r) == multiset(slots) + multiset{time}
    ensures SortedBy(r, (t: string) => t)
    ensures time in r
  {
    var r := SortBy(slots + [time], (t: string) => t);
    assert time in multiset(r);
    r
  }

  /** Unticking a slot: `slots.filter(t => t !== time)`. */
  function UncheckedSlots(slots: seq<string>, time: string): (r: seq<string>)
    ensures time !in r
    ensures forall t :: t in slots && t != time ==> t in r
    ensures forall t :: t in r ==> t in slots
  {
    var r := Filter(slots, (t: string) => t != time);
    assert forall t :: t in r ==> t in multiset(slots);
    r
  }

  /** Ticking then unticking a slot that was not selected gives back the other
      slots, now in ascending order. */
  lemma CheckThenUncheck(slots: seq<string>, time: string)
    requires time !in slots
    ensures multiset(UncheckedSlots(CheckedSlots(slots, time), time)) == multiset(slots)
  {
    var c := CheckedSlots(slots, time);
    FilterDropsOne(c, time);
    assert multiset(slots)[time] == 0;
  }

  /** Removing every copy of `time` takes exactly its copies out of the multiset. */
  lemma {:induction false} FilterDropsOne(s: seq<string>, time: string)
    ensures multiset(Filter(s, (t: string) => t != time)) == multiset(s)[time := 0]
  {
    if s != [] {
      var init, last := s[..|s| - 1], s[|s| - 1];
      assert s == init + [last];
      FilterDropsOne(init, time);
    }
  }

  // ---------------------------------------------------------------------
  // The page

  /** The add form: `student_id`, `subject`, `day_of_week`, `time_slot`; the
      slot is missing when it was reset from an empty slot list. */
  datatype NewEntry = NewEntry(studentId: string, subject: string, day: string, timeSlot: Option<string>)

  /** The form after a successful add: the first day and the first selected slot. */
  function ResetForm(slots: seq<string>): (f: NewEntry)
    ensures f.studentId == "" && f.subject == "" && f.day == "Pazartesi"
    ensures f.timeSlot.Some? <==> slots != []
    ensures slots != [] ==> f.timeSlot == Some(slots[0])
  {
    NewEntry("", "", DaysOfWeek[0], if slots == [] then None else Some(slots[0]))
  }

  class SchedulePage {
    var teacherId: Option<Id>
    var schedule: seq<ScheduleItem>
    var selectedTimeSlots: seq<string>
    var form: NewEntry

    constructor()
      ensures teacherId == None && schedule == [] && selectedTimeSlots == DefaultTimeSlots
      ensures form == NewEntry("", "", "Pazartesi", Some("08:00"))
    {
      teacherId := None;
      schedule := [];
      selectedTimeSlots := DefaultTimeSlots;
      form := NewEntry("", "", "Pazartesi", Some("08:00"));
    }

    /** `initializeSchedule`: `profile` is the teacher's profile id, or None
        when looking it up or creating it fails, which changes nothing.
        `stored` is the teacher's saved time-slot row, None when there is
        none (the page then saves the defaults and keeps its slots); `rows`
        is what the schedule query returns, and a failed schedule query
        keeps the entries shown. */
    method Init(profile: Option<Id>, stored: Option<seq<string>>, rows: seq<ScheduleItem>, scheduleFails: bool)
      modifies this`teacherId, this`selectedTimeSlots, this`schedule
      ensures teacherId == if profile.Some? then profile else old(teacherId)
      ensures selectedTimeSlots == if profile.Some? && stored.Some? then stored.value else old(selectedTimeSlots)
      ensures schedule == if profile.Some? && !scheduleFails then rows else old(schedule)
    {
      if profile.None? {
        return;
      }
      teacherId := profile;
      if stored.Some? {
        selectedTimeSlots := stored.value;
      }
      if !scheduleFails {
        schedule := rows;
      }
    }

    /** `handleAddLesson`: nothing before the teacher is known or when the
        insert fails; otherwise `inserted`, the row the insert returns, goes to
        the end of the list and the form is reset. */
    method AddLesson(inserted: ScheduleItem, fails: bool) returns (ok: bool)
      modifies this`schedule, this`form
      ensures ok <==> teacherId.Some? && !fails
      ensures ok ==> schedule == old(schedule) + [inserted] && form == ResetForm(selectedTimeSlots)
      ensures !ok ==> schedule == old(schedule) && form == old(form)
    {
      if teacherId.None? || fails {
        return false;
      }
      schedule := schedule + [inserted];
      form := ResetForm(selectedTimeSlots);
      ok := true;
    }

    /** `handleDeleteLesson`: after confirmation, the entry with that id leaves the list. */
    method DeleteLesson(id: Id, confirmed: bool, fails: bool) returns (ok: bool)
      modifies this`schedule
      ensures ok <==> confirmed && !fails
      ensures schedule == if ok then Without(old(schedule), ItemId, id) else old(schedule)
    {
      if !confirmed || fails {
        return false;
      }
      schedule := Without(schedule, ItemId, id);
      ok := true;
    }

    /** The checkbox of `time` in the time-slot dialog. */
    method ToggleSlot(time: string, checked: bool)
      modifies this`selectedTimeSlots
      ensures selectedTimeSlots == if checked then CheckedSlots(old(selectedTimeSlots), time)
                                   else UncheckedSlots(old(selectedTimeSlots), time)
    {
      if checked {
        selectedTimeSlots := CheckedSlots(selectedTimeSlots, time);
      } else {
        selectedTimeSlots := UncheckedSlots(selectedTimeSlots, time);
      }
    }
  }
}
