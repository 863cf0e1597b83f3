/** The settings page: settings are a JSON object stored per user, merged with
    the defaults on load, changed one value at a time by the page's buttons,
    and used to choose what the data export contains. */
module Settings {
  import opened Common
  import opened Folds
  import opened Records

  /** A JSON value as the settings column stores it. */
  datatype Json =
    | JNull
    | JBool(b: bool)
    | JNumber(n: real)
    | JString(s: string)
    | JArray(items: seq<Json>)
    | JObject(fields: map<string, Json>)

  /** JavaScript truthiness, used by `!value` and `if (flag)`. */
  predicate Truthy(v: Option<Json>)
  {
    match v
    case None => false
    case Some(JNull) => false
    case Some(JBool(b)) => b
    case Some(JNumber(n)) => n != 0.0
    case Some(JString(s)) => s != ""
    case Some(_) => true
  }

  /** `value?.key`: the field of an object, or nothing. */
  function Field(v: Option<Json>, key: string): Option<Json>
  {
    if v.Some? && v.value.JObject? && key in v.value.fields then Some(v.value.fields[key]) else None
  }

  /** The fields `{ ...value }` contributes: those of an object, none otherwise. */
  function Spread(v: Option<Json>): map<string, Json>
  {
    if v.Some? && v.value.JObject? then v.value.fields else map[]
  }

  // ---------------------------------------------------------------------
  // The defaults

  const DefaultTypes: map<string, Json> :=
    map["lessons" := JBool(true), "payments" := JBool(true), "students" := JBool(true), "system" := JBool(true)]

  const DefaultTiming: map<string, Json> :=
    map["1_day" := JBool(true), "3_hours" := JBool(true), "1_hour" := JBool(true), "10_minutes" := JBool(true)]

  const DefaultNotifications: map<string, Json> :=
    map["enabled" := JBool(true), "sound" := JBool(true), "desktop" := JBool(true), "email" := JBool(false),
        "types" := JObject(DefaultTypes), "timing" := JObject(DefaultTiming)]

  const DefaultSettings: map<string, Json> :=
    map["theme" := JObject(map["mode" := JString("light"), "primaryColor" := JString("indigo"),
                               "menuStyle" := JString("floating")]),
        "notifications" := JObject(DefaultNotifications),
        "language" := JString("tr"),
        "timeFormat" := JString("24h"),
        "dataExport" := JObject(map["format" := JString("json"), "includeStudents" := JBool(true),
                                    "includeLessons" := JBool(true), "includePayments" := JBool(true)])]

  // ---------------------------------------------------------------------
  // Merging the stored settings with the defaults

  /** The object `fetchSettings` builds from the stored settings: the
      defaults overridden by the stored top-level keys, except that
      `notifications` is merged one level deeper and its `types` and
      `timing` one level deeper still. */
  function Merge(stored: Json): (r: map<string, Json>)
    ensures r.Keys == DefaultSettings.Keys + Spread(Some(stored)).Keys
    ensures Complete(r)
  {
    var notifications := Field(Some(stored), "notifications");
    var types := DefaultTypes + Spread(Field(notifications, "types"));
    var timing := DefaultTiming + Spread(Field(notifications, "timing"));
    (DefaultSettings + Spread(Some(stored)))["notifications" :=
      JObject((DefaultNotifications + Spread(notifications))["types" := JObject(types)]["timing" := JObject(timing)])]
  }

  /** A stored top-level key other than `notifications` wins as it is (a stored
      `theme` or `dataExport` replaces the default object whole), and a missing
      one takes its default. */
  lemma MergeTopLevel(stored: Json, key: string)
    requires key != "notifications"
    ensures stored.JObject? && key in stored.fields ==> key in Merge(stored) && Merge(stored)[key] == stored.fields[key]
    ensures key in DefaultSettings && !(stored.JObject? && key in stored.fields) ==>
              key in Merge(stored) && Merge(stored)[key] == DefaultSettings[key]
    ensures key in Merge(stored) <==> key in DefaultSettings || (stored.JObject? && key in stored.fields)
  {
  }

  /** Each notification type and each reminder time is the stored value when
      one is stored and the default otherwise, whatever else is stored. */
  lemma MergeNotificationFlags(stored: Json, group: string, key: string)
    requires group == "types" || group == "timing"
    requires key in (if group == "types" then DefaultTypes else DefaultTiming)
    ensures var n := Field(Some(stored), "notifications");
            var given := Field(Field(n, group), key);
            Field(Field(Some(JObject(Merge(stored))), "notifications"), group).Some?
            && Field(Field(Field(Some(JObject(Merge(stored))), "notifications"), group), key)
               == if given.Some? then given else Some((if group == "types" then DefaultTypes else DefaultTiming)[key])
  {
  }

  /** Merging the merged settings again changes nothing. */
  lemma MergeIdempotent(stored: Json)
    ensures Merge(JObject(Merge(stored))) == Merge(stored)
  {
    CompleteReloads(Merge(stored));
  }

  lemma MergeAgain(m: map<string, Json>, nm: map<string, Json>, types: map<string, Json>, timing: map<string, Json>)
    requires DefaultSettings.Keys <= m.Keys && DefaultNotifications.Keys <= nm.Keys
    requires DefaultTypes.Keys <= types.Keys && DefaultTiming.Keys <= timing.Keys
    requires m["notifications"] == JObject(nm)
    requires nm["types"] == JObject(types) && nm["timing"] == JObject(timing)
    ensures Merge(JObject(m)) == m
  {
    var n := Field(Some(JObject(m)), "notifications");
    assert n == Some(JObject(nm));
    assert Field(n, "types") == Some(JObject(types));
    assert Field(n, "timing") == Some(JObject(timing));
    MapOverride(DefaultTypes, types);
    MapOverride(DefaultTiming, timing);
    MapOverride(DefaultNotifications, nm);
    MapOverride(DefaultSettings, m);
    assert nm["types" := JObject(types)]["timing" := JObject(timing)] == nm;
    assert m["notifications" := JObject(nm)] == m;
  }

  /** Defaults under a map that has all their keys are overridden entirely. */
  lemma MapOverride<K, V>(defaults: map<K, V>, m: map<K, V>)
    requires defaults.Keys <= m.Keys
    ensures defaults + m == m
  {
  }

  /** Stored settings equal to the defaults load as the defaults. */
  lemma MergeDefaults()
    ensures Merge(JObject(DefaultSettings)) == DefaultSettings
  {
    assert DefaultTypes + DefaultTypes == DefaultTypes;
    assert DefaultTiming + DefaultTiming == DefaultTiming;
    assert (DefaultNotifications + DefaultNotifications)["types" := JObject(DefaultTypes)]["timing" := JObject(DefaultTiming)]
           == DefaultNotifications;
  }

  // ---------------------------------------------------------------------
  // Changing one value

  /** The value at `path` (`settings.a.b.c`), or nothing. */
  function Get(v: Option<Json>, path: seq<string>): Option<Json>
    decreases |path|
  {
    if path == [] then v else Get(Field(v, path[0]), path[1..])
  }

  /** `{ ...v, [p0]: { ...v[p0], [p1]: ... value } }`: the value with `path` set
      to `value`, each enclosing object spread afresh. */
  function Set(v: Option<Json>, path: seq<string>, value: Json): Json
    decreases |path|
  {
    if path == [] then value
    else JObject(Spread(v)[path[0] := Set(Field(v, path[0]), path[1..], value)])
  }

  /** Reading back the path that was set gives the value set. */
  lemma {:induction false} GetSet(v: Option<Json>, path: seq<string>, value: Json)
    ensures Get(Some(Set(v, path, value)), path) == Some(value)
    decreases |path|
  {
    if path != [] {
      GetSet(Field(v, path[0]), path[1..], value);
    }
  }

  /** Two paths that part somewhere: neither lies inside the other. */
  predicate Diverge(p: seq<string>, q: seq<string>)
  {
    exists i :: 0 <= i < |p| && i < |q| && p[..i] == q[..i] && p[i] != q[i]
  }

  /** Setting one path leaves every path that parts from it as it was. */
  lemma {:induction false} SetFrame(v: Option<Json>, p: seq<string>, value: Json, q: seq<string>)
    requires Diverge(p, q)
    ensures Get(Some(Set(v, p, value)), q) == Get(v, q)
    decreases |p|
  {
    var i :| 0 <= i < |p| && i < |q| && p[..i] == q[..i] && p[i] != q[i];
    if i == 0 {
      assert Field(Some(Set(v, p, value)), q[0]) == Field(v, q[0]);
    } else {
      assert p[0] == q[0] by {
        assert p[..i][0] == q[..i][0];
      }
      assert p[1..][..i - 1] == q[1..][..i - 1] by {
        assert p[1..][..i - 1] == p[..i][1..];
        assert q[1..][..i - 1] == q[..i][1..];
      }
      SetFrame(Field(v, p[0]), p[1..], value, q[1..]);
    }
  }

  /** Writing back the value already at a path, through objects only,
      changes nothing. */
  lemma {:induction false} SetSame(v: Option<Json>, path: seq<string>)
    requires v.Some? && Get(v, path).Some?
    ensures Set(v, path, Get(v, path).value) == v.value
    decreases |path|
  {
    if path != [] {
      NoneStaysNone(Field(v, path[0]), path[1..]);
      SetSame(Field(v, path[0]), path[1..]);
      assert Spread(v)[path[0] := v.value.fields[path[0]]] == v.value.fields;
    }
  }

  /** Nothing has nothing inside it. */
  lemma {:induction false} NoneStaysNone(v: Option<Json>, path: seq<string>)
    ensures v.None? ==> Get(v, path).None?
    decreases |path|
  {
    if path != [] {
      NoneStaysNone(Field(v, path[0]), path[1..]);
    }
  }

  /** Setting a path twice keeps only the second value. */
  lemma {:induction false} SetSet(v: Option<Json>, path: seq<string>, a: Json, b: Json)
    ensures Set(Some(Set(v, path, a)), path, b) == Set(v, path, b)
    decreases |path|
  {
    if path != [] {
      SetSet(Field(v, path[0]), path[1..], a, b);
    }
  }

  /** `!settings.a.b`: a switch turns the flag at its path to the opposite truth value. */
  function Flip(settings: map<string, Json>, path: seq<string>): map<string, Json>
    requires |path| > 0
  {
    Spread(Some(Set(Some(JObject(settings)), path, JBool(!Truthy(Get(Some(JObject(settings)), path))))))
  }

  /** A switch sets its own flag to the opposite truth value and leaves every
      setting on a path that parts from it unchanged. */
  lemma FlipEffect(settings: map<string, Json>, path: seq<string>, q: seq<string>)
    requires |path| > 0
    ensures Get(Some(JObject(Flip(settings, path))), path) == Some(JBool(!Truthy(Get(Some(JObject(settings)), path))))
    ensures Diverge(path, q) ==> Get(Some(JObject(Flip(settings, path))), q) == Get(Some(JObject(settings)), q)
  {
    var v := Some(JObject(settings));
    var value := JBool(!Truthy(Get(v, path)));
    GetSet(v, path, value);
    if Diverge(path, q) {
      SetFrame(v, path, value, q);
    }
  }

  /** Pressing a switch twice restores a flag that held a boolean. */
  lemma FlipTwice(settings: map<string, Json>, path: seq<string>, b: bool)
    requires |path| > 0
    requires Get(Some(JObject(settings)), path) == Some(JBool(b))
    ensures Flip(Flip(settings, path), path) == settings
  {
    var v := Some(JObject(settings));
    var once := Set(v, path, JBool(!b));
    GetSet(v, path, JBool(!b));
    SetSet(v, path, JBool(!b), JBool(b));
    SetSame(v, path);
  }

  /** The switches of the page. */
  datatype Switch =
    | NotificationsEnabled | Sound | Desktop | Email
    | NotificationType(typeKey: string)
    | ReminderTime(timingKey: string)
    | IncludeStudents | IncludeLessons | IncludePayments

  function SwitchPath(s: Switch): (p: seq<string>)
    ensures |p| > 0
  {
    match s
    case NotificationsEnabled => ["notifications", "enabled"]
    case Sound => ["notifications", "sound"]
    case Desktop => ["notifications", "desktop"]
    case Email => ["notifications", "email"]
    case NotificationType(k) => ["notifications", "types", k]
    case ReminderTime(k) => ["notifications", "timing", k]
    case IncludeStudents => ["dataExport", "includeStudents"]
    case IncludeLessons => ["dataExport", "includeLessons"]
    case IncludePayments => ["dataExport", "includePayments"]
  }

  /** The choice buttons and the language list: each writes one text. */
  datatype Choice =
    | ThemeMode(mode: string)
    | MenuStyle(style: string)
    | Language(language: string)
    | TimeFormat(format: string)
    | ExportFormat(exportFormat: string)

  function ChoicePath(c: Choice): (p: seq<string>)
    ensures |p| > 0
  {
    match c
    case ThemeMode(_) => ["theme", "mode"]
    case MenuStyle(_) => ["theme", "menuStyle"]
    case Language(_) => ["language"]
    case TimeFormat(_) => ["timeFormat"]
    case ExportFormat(_) => ["dataExport", "format"]
  }

  function ChoiceValue(c: Choice): string
  {
    match c
    case ThemeMode(m) => m
    case MenuStyle(s) => s
    case Language(l) => l
    case TimeFormat(f) => f
    case ExportFormat(f) => f
  }

  function Choose(settings: map<string, Json>, c: Choice): map<string, Json>
  {
    Spread(Some(Set(Some(JObject(settings)), ChoicePath(c), JString(ChoiceValue(c)))))
  }

  /** A choice writes its text at its path and leaves every setting on a path
      that parts from it unchanged. */
  lemma ChooseEffect(settings: map<string, Json>, c: Choice, q: seq<string>)
    ensures Get(Some(JObject(Choose(settings, c))), ChoicePath(c)) == Some(JString(ChoiceValue(c)))
    ensures Diverge(ChoicePath(c), q) ==> Get(Some(JObject(Choose(settings, c))), q) == Get(Some(JObject(settings)), q)
  {
    var v := Some(JObject(settings));
    GetSet(v, ChoicePath(c), JString(ChoiceValue(c)));
    if Diverge(ChoicePath(c), q) {
      SetFrame(v, ChoicePath(c), JString(ChoiceValue(c)), q);
    }
  }

  // ---------------------------------------------------------------------
  // The collapsible sections

  /** `toggleSection`: the pressed section opens, or closes when it was the open one. */
  function ToggleSection(expanded: Option<string>, section: string): (r: Option<string>)
    ensures r == None <==> expanded == Some(section)
    ensures r != None ==> r == Some(section)
  {
    if expanded == Some(section) then None else Some(section)
  }

  // ---------------------------------------------------------------------
  // The data export

  /** One key of `exportData`: left out (its flag is off), present with the
      `null` a failed query gives, or present with the rows read. */
  datatype Part<T> = Absent | Null | Rows(rows: seq<T>)

  /** `exportData`: each list is present only when its flag is set. */
  datatype ExportData = ExportData(
    students: Part<Student>,
    lessons: Part<Lesson>,
    payments: Part<Payment>)

  function StudentIds(students: seq<Student>): seq<Id>
  {
    seq(|students|, i requires 0 <= i < |students| => students[i].id)
  }

  predicate LessonOf(ids: seq<Id>, l: Lesson)
  {
    l.studentId in ids
  }

  predicate PaymentOf(ids: seq<Id>, p: Payment)
  {
    p.studentId in ids
  }

  predicate OwnedBy(teacher: Id, s: Student)
  {
    s.teacherId == teacher
  }

  /** `handleExportData`'s queries, one after the other, for the teacher's
      profile id (`None` when there is no user or profile: the export stops
      with an error and nothing is saved): the teacher's students, then the
      lessons and the payments of the students just read (of none when the
      students were not read). A failed query leaves its key holding `null`. */
  method CollectExport(settings: map<string, Json>, db: seq<Student>, lessons: seq<Lesson>, payments: seq<Payment>,
                       profile: Option<Id>, studentsFail: bool, lessonsFail: bool, paymentsFail: bool)
    returns (data: Option<ExportData>)
    ensures data.None? <==> profile.None?
    ensures data.Some? ==>
            var current := Some(JObject(settings));
            var d := data.value;
            && (d.students.Absent? <==> !Truthy(Get(current, ["dataExport", "includeStudents"])))
            && (d.lessons.Absent? <==> !Truthy(Get(current, ["dataExport", "includeLessons"])))
            && (d.payments.Absent? <==> !Truthy(Get(current, ["dataExport", "includePayments"])))
            && (d.students.Null? <==> !d.students.Absent? && studentsFail)
            && (d.lessons.Null? <==> !d.lessons.Absent? && lessonsFail)
            && (d.payments.Null? <==> !d.payments.Absent? && paymentsFail)
    ensures data.Some? && profile.Some? && data.value.students.Rows? ==>
            data.value.students.rows == Filter(db, (s: Student) => OwnedBy(profile.value, s))
    ensures data.Some? ==>
            var d := data.value;
            var ids := if d.students.Rows? then StudentIds(d.students.rows) else [];
            && (d.lessons.Rows? ==> d.lessons.rows == Filter(lessons, (l: Lesson) => LessonOf(ids, l)))
            && (d.payments.Rows? ==> d.payments.rows == Filter(payments, (p: Payment) => PaymentOf(ids, p)))
  {
    if profile.None? {
      return None;
    }
    var current := Some(JObject(settings));
    var d := ExportData(Absent, Absent, Absent);
    if Truthy(Get(current, ["dataExport", "includeStudents"])) {
      d := d.(students := if studentsFail then Null else Rows(Filter(db, (s: Student) => OwnedBy(profile.value, s))));
    }
    var ids := if d.students.Rows? then StudentIds(d.students.rows) else [];
    if Truthy(Get(current, ["dataExport", "includeLessons"])) {
      d := d.(lessons := if lessonsFail then Null else Rows(Filter(lessons, (l: Lesson) => LessonOf(ids, l))));
    }
    if Truthy(Get(current, ["dataExport", "includePayments"])) {
      d := d.(payments := if paymentsFail then Null else Rows(Filter(payments, (p: Payment) => PaymentOf(ids, p))));
    }
    data := Some(d);
  }

  /** Without the students, the exported lessons and payments are empty. */
  lemma NoStudentsNothingLinked(lessons: seq<Lesson>, payments: seq<Payment>)
    ensures Filter(lessons, (l: Lesson) => LessonOf([], l)) == []
    ensures Filter(payments, (p: Payment) => PaymentOf([], p)) == []
  {
    FilterNone(lessons, (l: Lesson) => LessonOf([], l));
    FilterNone(payments, (p: Payment) => PaymentOf([], p));
  }

  /** Every exported lesson and payment belongs to an exported student. */
  lemma ExportLinked(db: seq<Student>, lessons: seq<Lesson>, payments: seq<Payment>, teacher: Id)
    ensures var ids := StudentIds(Filter(db, (s: Student) => OwnedBy(teacher, s)));
            && (forall l :: l in Filter(lessons, (l: Lesson) => LessonOf(ids, l)) ==> l.studentId in ids)
            && (forall p :: p in Filter(payments, (p: Payment) => PaymentOf(ids, p)) ==> p.studentId in ids)
  {
    var ids := StudentIds(Filter(db, (s: Student) => OwnedBy(teacher, s)));
    var ls := Filter(lessons, (l: Lesson) => LessonOf(ids, l));
    var ps := Filter(payments, (p: Payment) => PaymentOf(ids, p));
    forall l | l in ls
      ensures l.studentId in ids
    {
      var i :| 0 <= i < |ls| && ls[i] == l;
    }
    forall p | p in ps
      ensures p.studentId in ids
    {
      var i :| 0 <= i < |ps| && ps[i] == p;
    }
  }

  /** The saved file: JSON exactly when the format is `json`, a Word document otherwise. */
  function ExportFileName(settings: map<string, Json>): (name: string)
    ensures name == "ozel-ders-verileri.json" <==> Get(Some(JObject(settings)), ["dataExport", "format"]) == Some(JString("json"))
    ensures name == "ozel-ders-verileri.docx" <==> Get(Some(JObject(settings)), ["dataExport", "format"]) != Some(JString("json"))
  {
    if Get(Some(JObject(settings)), ["dataExport", "format"]) == Some(JString("json")) then "ozel-ders-verileri.json"
    else "ozel-ders-verileri.docx"
  }

  /** The place of a key among the export's keys, in the order they are added. */
  function SectionRank(heading: string): nat
  {
    if heading == "\nSTUDENTS" then 0 else if heading == "\nLESSONS" then 1 else 2
  }

  /** The section headings of the Word export: each present key, upper-cased
      after a line break, in the order the keys were added. */
  function DocxHeadings(data: ExportData): (r: seq<string>)
    ensures "\nSTUDENTS" in r <==> !data.students.Absent?
    ensures "\nLESSONS" in r <==> !data.lessons.Absent?
    ensures "\nPAYMENTS" in r <==> !data.payments.Absent?
    ensures |r| == (if data.students.Absent? then 0 else 1) + (if data.lessons.Absent? then 0 else 1)
                   + (if data.payments.Absent? then 0 else 1)
    ensures forall i, j :: 0 <= i < j < |r| ==> SectionRank(r[i]) < SectionRank(r[j])
  {
    (if data.students.Absent? then [] else ["\nSTUDENTS"])
      + (if data.lessons.Absent? then [] else ["\nLESSONS"])
      + (if data.payments.Absent? then [] else ["\nPAYMENTS"])
  }

  // ---------------------------------------------------------------------
  // Saving and loading again

  /** Every default key is present, and the notification settings, their
      types and their reminder times are objects holding every default key:
      the shape `fetchSettings` gives the settings. */
  predicate Complete(m: map<string, Json>)
  {
    && DefaultSettings.Keys <= m.Keys
    && m["notifications"].JObject?
    && DefaultNotifications.Keys <= m["notifications"].fields.Keys
    && m["notifications"].fields["types"].JObject?
    && m["notifications"].fields["timing"].JObject?
    && DefaultTypes.Keys <= m["notifications"].fields["types"].fields.Keys
    && DefaultTiming.Keys <= m["notifications"].fields["timing"].fields.Keys
  }

  lemma DefaultsComplete()
    ensures Complete(DefaultSettings)
  {
  }

  /** Settings of that shape, once saved, load back exactly as they were. */
  lemma CompleteReloads(m: map<string, Json>)
    requires Complete(m)
    ensures Merge(JObject(m)) == m
  {
    var nm := m["notifications"].fields;
    MergeAgain(m, nm, nm["types"].fields, nm["timing"].fields);
  }

  /** Setting a value outside `notifications`, a flag directly inside it, or
      one notification type or reminder time keeps the shape. */
  lemma SetComplete(m: map<string, Json>, path: seq<string>, value: Json)
    requires Complete(m) && |path| > 0
    requires path[0] == "notifications" ==>
               || (|path| == 2 && path[1] != "types" && path[1] != "timing")
               || (|path| == 3 && (path[1] == "types" || path[1] == "timing"))
    ensures Complete(Spread(Some(Set(Some(JObject(m)), path, value))))
  {
    var v := Some(JObject(m));
    var inner := Set(Field(v, path[0]), path[1..], value);
    assert Set(v, path, value) == JObject(m[path[0] := inner]);
    if path[0] == "notifications" {
      var nm := m["notifications"].fields;
      var n := Field(v, "notifications");
      assert n == Some(JObject(nm));
      var q := path[1..];
      var deeper := Set(Field(n, q[0]), q[1..], value);
      assert inner == JObject(nm[q[0] := deeper]);
      if |path| == 3 {
        var group := nm[q[0]].fields;
        assert Field(n, q[0]) == Some(JObject(group));
        var last := q[1..];
        assert last == [q[1]] && last[1..] == [];
        assert Set(Field(Some(JObject(group)), q[1]), last[1..], value) == value;
        assert deeper == JObject(group[q[1] := value]);
      }
    }
  }

  /** Each switch keeps the shape. */
  lemma FlipComplete(m: map<string, Json>, s: Switch)
    requires Complete(m)
    ensures Complete(Flip(m, SwitchPath(s)))
  {
    SetComplete(m, SwitchPath(s), JBool(!Truthy(Get(Some(JObject(m)), SwitchPath(s)))));
  }

  /** Each choice keeps the shape. */
  lemma ChooseComplete(m: map<string, Json>, c: Choice)
    requires Complete(m)
    ensures Complete(Choose(m, c))
  {
    SetComplete(m, ChoicePath(c), JString(ChoiceValue(c)));
  }

  // ---------------------------------------------------------------------
  // The page

  /** The `user_settings` table: the settings object stored for each user. */
  class SettingsTable {
    var rows: map<Id, Json>

    constructor(rows: map<Id, Json>)
      ensures this.rows == rows
    {
      this.rows := rows;
    }
  }

  class SettingsPage {
    var settings: map<string, Json>
    var expanded: Option<string>

    constructor()
      ensures settings == DefaultSettings && expanded == Some("notifications")
      ensures Valid()
    {
      settings := DefaultSettings;
      expanded := Some("notifications");
      DefaultsComplete();
    }

    /** The page always holds every default key, down to each notification
        type and reminder time. */
    predicate Valid()
      reads this
    {
      Complete(settings)
    }

    /** `fetchSettings` for the signed-in `user` (`None`: nothing happens). A
        stored row is merged with the defaults; a missing row keeps the
        defaults and stores them; a failed query, or a row whose settings
        are `null` (reading `.notifications` of it throws), changes nothing. */
    method Load(table: SettingsTable, user: Option<Id>, queryFails: bool, insertFails: bool)
      modifies this`settings, table
      ensures user.None? || queryFails ==> settings == old(settings) && table.rows == old(table.rows)
      ensures user.Some? && !queryFails && user.value in old(table.rows) ==>
                table.rows == old(table.rows)
                && settings == if old(table.rows)[user.value] != JNull then Merge(old(table.rows)[user.value])
                               else old(settings)
      ensures user.Some? && !queryFails && user.value !in old(table.rows) ==>
                settings == old(settings)
                && table.rows == if insertFails then old(table.rows)
                                 else old(table.rows)[user.value := JObject(DefaultSettings)]
      ensures old(Valid()) ==> Valid()
    {
      if user.None? || queryFails {
        return;
      }
      if user.value in table.rows {
        var stored := table.rows[user.value];
        if stored != JNull {
          settings := Merge(stored);
        }
      } else if !insertFails {
        table.rows := table.rows[user.value := JObject(DefaultSettings)];
      }
    }

    /** `handleSaveSettings`: the shown settings replace the user's row. With
        no row the update matches nothing and still reports success. */
    method Save(table: SettingsTable, user: Option<Id>, fails: bool) returns (ok: bool)
      modifies table
      ensures ok <==> user.Some? && !fails
      ensures table.rows == if ok && user.value in old(table.rows) then old(table.rows)[user.value := JObject(settings)]
                            else old(table.rows)
    {
      if user.None? || fails {
        return false;
      }
      if user.value in table.rows {
        table.rows := table.rows[user.value := JObject(settings)];
      }
      ok := true;
    }

    method Press(s: Switch)
      modifies this`settings
      ensures settings == Flip(old(settings), SwitchPath(s))
      ensures old(Valid()) ==> Valid()
    {
      if Valid() {
        FlipComplete(settings, s);
      }
      settings := Flip(settings, SwitchPath(s));
    }

    method Pick(c: Choice)
      modifies this`settings
      ensures settings == Choose(old(settings), c)
      ensures old(Valid()) ==> Valid()
    {
      if Valid() {
        ChooseComplete(settings, c);
      }
      settings := Choose(settings, c);
    }

    method Toggle(section: string)
      modifies this`expanded
      ensures expanded == ToggleSection(old(expanded), section)
    {
      expanded := ToggleSection(expanded, section);
    }
  }
}
