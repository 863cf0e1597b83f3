/** The teacher's profile page: the four statistics, saving the editable
    fields, and changing or removing the profile picture in the `avatars`
    storage bucket. */
module Profile {
  import opened Common
  import opened Folds
  import opened Text
  import opened Calendar
  import opened Records
  import opened Store
  import opened Numbers
  import Payments

  // ---------------------------------------------------------------------
  // Checking a chosen picture

  /** A picture larger than this many bytes is refused. */
  const MaxAvatarBytes: nat := 5 * 1024 * 1024

  /** The chosen file: its name, its size in bytes and its MIME type. */
  datatype AvatarFile = AvatarFile(name: string, size: nat, mimeType: string)

  datatype AvatarRejection = TooLarge | NotAnImage

  /** The two checks of `handleAvatarChange`, the size first. */
  function CheckAvatar(f: AvatarFile): (r: Option<AvatarRejection>)
    ensures r.None? <==> f.size <= MaxAvatarBytes && StartsWith(f.mimeType, "image/")
    ensures r == Some(TooLarge) <==> f.size > MaxAvatarBytes
    ensures r == Some(NotAnImage) <==> f.size <= MaxAvatarBytes && !StartsWith(f.mimeType, "image/")
  {
    if f.size > MaxAvatarBytes then Some(TooLarge)
    else if !StartsWith(f.mimeType, "image/") then Some(NotAnImage)
    else None
  }

  /** Exactly five mebibytes is still accepted; one byte more is not. */
  lemma AvatarSizeLimit(name: string, mimeType: string)
    requires StartsWith(mimeType, "image/")
    ensures CheckAvatar(AvatarFile(name, 5242880, mimeType)).None?
    ensures CheckAvatar(AvatarFile(name, 5242881, mimeType)) == Some(TooLarge)
  {
  }

  // ---------------------------------------------------------------------
  // Where the picture is stored

  /** The decimal text of an id, as it appears in a storage path. */
  function Decimal(n: nat): (r: string)
    ensures |r| >= 1
    ensures forall i :: 0 <= i < |r| ==> IsDigit(r[i])
    ensures Number(r) == n
  {
    if n < 10 then
      var r := [Digit(n)];
      assert r[..0] == [];
      r
    else
      var init := Decimal(n / 10);
      var r := init + [Digit(n % 10)];
      assert r[..|r| - 1] == init;
      r
  }

  const AvatarFolder: string := "avatars/"

  /** `avatars/<profile id>.<text after the last dot of the file name>`: past
      the folder, the leading digits read back as the id and a dot follows
      them, and what comes after that dot is the file name's text after its
      last dot, so it holds no dot. */
  function AvatarPath(profileId: Id, fileName: string): (r: string)
    ensures |r| > |AvatarFolder| && r[..|AvatarFolder|] == AvatarFolder
    ensures var rest := r[|AvatarFolder|..];
            var n := DigitRun(rest);
            && n < |rest| && rest[n] == '.' && Number(rest[..n]) == profileId
            && '.' !in rest[n + 1..]
  ensures var rest := r[|AvatarFolder|..];
          DigitRun(rest) < |rest| && rest[DigitRun(rest) + 1..] == AfterLast(fileName, '.')
  {
    var d, ext := Decimal(profileId), AfterLast(fileName, '.');
    var r := AvatarFolder + d + "." + ext;
    FolderThenTail(d, ext);
    r
  }

  /** Where the folder, the digits `d` and the extension sit in a path. */
  lemma FolderThenTail(d: string, ext: string)
    requires forall i :: 0 <= i < |d| ==> IsDigit(d[i])
    ensures var r := AvatarFolder + d + "." + ext;
            var rest := r[|AvatarFolder|..];
            && |r| > |AvatarFolder| && r[..|AvatarFolder|] == AvatarFolder
            && rest == d + "." + ext && DigitRun(rest) == |d| && rest[..|d|] == d && rest[|d|] == '.'
            && rest[|d| + 1..] == ext
  {
    var rest := d + "." + ext;
    assert AvatarFolder + d + "." + ext == AvatarFolder + rest;
    DigitsThenDot(d, ext);
  }

  /** Two profiles never share a picture path, and one profile keeps one path
      per extension: the upload with `upsert` only ever replaces the same
      profile's picture of the same extension. */
  lemma AvatarPathsDistinct(a: Id, nameA: string, b: Id, nameB: string)
    ensures AvatarPath(a, nameA) == AvatarPath(b, nameB)
            <==> a == b && AfterLast(nameA, '.') == AfterLast(nameB, '.')
  {
    var ea, eb := AfterLast(nameA, '.'), AfterLast(nameB, '.');
    assert AvatarPath(a, nameA) == AvatarFolder + Decimal(a) + "." + ea;
    assert AvatarPath(b, nameB) == AvatarFolder + Decimal(b) + "." + eb;
    PathsDistinct(a, ea, b, eb);
  }

  /** The path for a profile id and an extension determines both. */
  lemma PathsDistinct(a: Id, ea: string, b: Id, eb: string)
    ensures AvatarFolder + Decimal(a) + "." + ea == AvatarFolder + Decimal(b) + "." + eb <==> a == b && ea == eb
  {
    var da, db := Decimal(a), Decimal(b);
    var ra, rb := da + "." + ea, db + "." + eb;
    var pa, pb := AvatarFolder + da + "." + ea, AvatarFolder + db + "." + eb;
    var k := |AvatarFolder|;
    assert pa == AvatarFolder + ra;
    assert pb == AvatarFolder + rb;
    DigitsThenDot(da, ea);
    DigitsThenDot(db, eb);
    if pa == pb {
      assert ra == pa[k..] == rb;
      assert da == ra[..|da|];
      assert db == rb[..|db|];
      assert ea == ra[|da| + 1..];
      assert eb == rb[|db| + 1..];
    }
  }

  /** The digits in front of a dot are exactly the leading digit run. */
  lemma DigitsThenDot(d: string, rest: string)
    requires forall i :: 0 <= i < |d| ==> IsDigit(d[i])
    ensures DigitRun(d + "." + rest) == |d|
  {
    var s := d + "." + rest;
    assert s[|d|] == '.';
    assert forall i :: 0 <= i < |d| ==> s[i] == d[i];
  }

  // ---------------------------------------------------------------------
  // The statistics

  datatype Stats = Stats(totalStudents: nat, totalLessons: nat, completedLessons: nat, totalEarnings: real)

  /** What the page shows before, or without, a successful fetch. */
  const NoStats := Stats(0, 0, 0, 0.0)

  function TaughtBy(teacher: Id): Student -> bool
  {
    (s: Student) => s.teacherId == teacher
  }

  /** `students.map(s => s.id)`. */
  function Ids(students: seq<Student>): (r: seq<Id>)
    ensures |r| == |students|
    ensures forall i :: 0 <= i < |r| ==> r[i] == students[i].id
  {
    seq(|students|, i requires 0 <= i < |students| => students[i].id)
  }

  /** `.in('student_id', ids)` on lessons. */
  function LessonOfAny(ids: seq<Id>): Lesson -> bool
  {
    (l: Lesson) => l.studentId in ids
  }

  /** `.in('student_id', ids).eq('status', 'completed')` on payments. */
  function PaidByAny(ids: seq<Id>): Payment -> bool
  {
    (p: Payment) => p.studentId in ids && p.status == PaymentCompleted
  }

  /** `.in('student_id', ids)` on payments, whatever their status. */
  function PaymentOfAny(ids: seq<Id>): Payment -> bool
  {
    (p: Payment) => p.studentId in ids
  }

  /** A completed lesson of one of the students. */
  function CompletedOfAny(ids: seq<Id>): Lesson -> bool
  {
    (l: Lesson) => l.studentId in ids && l.status == Completed
  }

  /** The ids of the teacher's students, or none when that query fails
      (`students?.map(s => s.id) || []`). */
  function StudentIdsOf(students: seq<Student>, teacher: Id, studentsFail: bool): seq<Id>
  {
    if studentsFail then [] else Ids(Filter(students, TaughtBy(teacher)))
  }

  /** `fetchStats` for the teacher's profile id over the three tables; a query
      that fails gives `null` data, which counts as nothing. */
  function TeacherStats(students: seq<Student>, lessons: seq<Lesson>, payments: seq<Payment>, teacher: Id,
                        studentsFail: bool, lessonsFail: bool, paymentsFail: bool): (r: Stats)
    ensures r.completedLessons <= r.totalLessons
    ensures r.totalStudents == if studentsFail then 0 else Count(students, TaughtBy(teacher))
    ensures studentsFail ==> r == NoStats
    ensures !lessonsFail ==>
              var ids := StudentIdsOf(students, teacher, studentsFail);
              r.totalLessons == Count(lessons, LessonOfAny(ids))
              && r.completedLessons == Count(lessons, CompletedOfAny(ids))
    ensures lessonsFail ==> r.totalLessons == 0 && r.completedLessons == 0
    ensures paymentsFail ==> r.totalEarnings == 0.0
    ensures !paymentsFail ==>
              r.totalEarnings == Sum(Filter(payments, PaidByAny(StudentIdsOf(students, teacher, studentsFail))), Amount)
  {
    var ids := StudentIdsOf(students, teacher, studentsFail);
    var ls := if lessonsFail then [] else Filter(lessons, LessonOfAny(ids));
    var ps := if paymentsFail then [] else Filter(payments, PaidByAny(ids));
    CompletedAmongLessons(lessons, ids);
    Stats(|ids|, |ls|, Count(ls, IsCompletedLesson), Sum(ps, Amount))
  }

  /** Counting completed lessons among the students' lessons is counting the
      students' completed lessons in the whole table. */
  lemma CompletedAmongLessons(lessons: seq<Lesson>, ids: seq<Id>)
    ensures Count(Filter(lessons, LessonOfAny(ids)), IsCompletedLesson) == Count(lessons, CompletedOfAny(ids))
  {
    FilterFilter(lessons, LessonOfAny(ids), IsCompletedLesson, CompletedOfAny(ids));
  }

  /** The earnings are what the payments page shows as its total when it lists
      the same students' payments with no search and no status filter. */
  lemma EarningsAgreeWithPaymentsPage(payments: seq<Payment>, ids: seq<Id>)
    ensures Sum(Filter(payments, PaidByAny(ids)), Amount)
            == Payments.TotalAmount(Payments.FilteredPayments(Filter(payments, PaymentOfAny(ids)), "", None))
  {
    var mine := Filter(payments, PaymentOfAny(ids));
    Payments.EmptySearchListsAll(mine);
    FilterFilter(payments, PaymentOfAny(ids), IsCompletedPayment, PaidByAny(ids));
  }

  /** A new payment raises the earnings by its amount when it is completed and
      belongs to one of the students, and leaves them as they were otherwise. */
  lemma EarningsAfterPayment(x: Payment, payments: seq<Payment>, ids: seq<Id>)
    ensures Sum(Filter([x] + payments, PaidByAny(ids)), Amount)
            == Sum(Filter(payments, PaidByAny(ids)), Amount)
               + (if x.studentId in ids && x.status == PaymentCompleted then x.amount else 0.0)
  {
    FilterPrepend(x, payments, PaidByAny(ids));
    if PaidByAny(ids)(x) {
      SumPrepend(x, Filter(payments, PaidByAny(ids)), Amount);
    } else {
      assert [] + Filter(payments, PaidByAny(ids)) == Filter(payments, PaidByAny(ids));
    }
  }

  // ---------------------------------------------------------------------
  // Saving the profile

  function HasProfileId(id: Id): TeacherProfile -> bool
  {
    (p: TeacherProfile) => p.id == id
  }

  /** The stored row after the form is saved: the name, phone and subject of
      the form, everything else as it was. */
  function WithFields(row: TeacherProfile, form: TeacherProfile): (r: TeacherProfile)
    ensures r.id == row.id && r.userId == row.userId && r.avatarUrl == row.avatarUrl
    ensures r.fullName == form.fullName && r.phone == form.phone && r.subject == form.subject
  {
    row.(fullName := form.fullName, phone := form.phone, subject := form.subject)
  }

  /** Saving a form that holds the stored row writes nothing new, and saving
      twice is saving once. */
  lemma SaveUnchangedForm(row: TeacherProfile, form: TeacherProfile)
    ensures WithFields(row, row) == row
    ensures WithFields(WithFields(row, form), form) == WithFields(row, form)
  {
  }

  /** `if (profile.avatar_url)`: a non-empty picture path. */
  predicate HasAvatar(p: TeacherProfile)
  {
    p.avatarUrl.Some? && p.avatarUrl.value != ""
  }

  /** The bucket after the old picture's removal, which may fail unnoticed. */
  function AfterOldRemoved(avatars: set<string>, p: TeacherProfile, removeFails: bool): (r: set<string>)
    ensures r <= avatars
    ensures HasAvatar(p) && !removeFails ==> p.avatarUrl.value !in r
    ensures forall path :: path in avatars && (path != p.avatarUrl.GetOr("") || !HasAvatar(p) || removeFails) ==> path in r
  {
    if HasAvatar(p) && !removeFails then avatars - {p.avatarUrl.value} else avatars
  }

  datatype AvatarOutcome =
    | NothingChosen
    | Rejected(reason: AvatarRejection)
    | UploadFailed
    | AvatarNotSaved
    | AvatarChanged(path: string)

  datatype RemovalOutcome =
    | NoAvatar
    | FileNotRemoved
    | RemovalNotSaved
    | AvatarRemoved

  /** The bucket, the stored profiles and the shown profile after the upload
      and the update of `handleAvatarChange`, from the ones before: the old
      picture is removed (unless that fails), the new one is uploaded, and
      only when the update succeeds does the profile point at it. */
  predicate StoredAvatar(avatars: set<string>, profiles: seq<TeacherProfile>, p: TeacherProfile, path: string,
                         removeFails: bool, uploadFails: bool, updateFails: bool,
                         r: AvatarOutcome, avatars': set<string>, profiles': seq<TeacherProfile>,
                         shown: Option<TeacherProfile>)
  {
    var kept := AfterOldRemoved(avatars, p, removeFails);
    var row := FindFirst(profiles, HasProfileId(p.id));
    && avatars' == (if uploadFails then kept else kept + {path})
    && (uploadFails ==> r == UploadFailed)
    && (!uploadFails && (updateFails || row.None?) ==> r == AvatarNotSaved)
    && (r == AvatarChanged(path) <==> !uploadFails && !updateFails && row.Some?)
    && (r != AvatarChanged(path) ==> shown == Some(p) && profiles' == profiles)
    && (r == AvatarChanged(path) ==>
          profiles' == UpdateWhere(profiles, ProfileId, p.id, (q: TeacherProfile) => q.(avatarUrl := Some(path)))
          && shown == Some(row.value.(avatarUrl := Some(path))))
  }

  class ProfilePage {
    var profile: Option<TeacherProfile>
    var stats: Stats

    constructor(initial: Option<TeacherProfile>)
      ensures profile == initial && stats == NoStats
    {
      profile := initial;
      stats := NoStats;
    }

    /** `fetchStats`, given the teacher's profile id (`None` when there is no
        signed-in user or no profile: the statistics stay as they were). */
    method FetchStats(db: Database, teacher: Option<Id>, studentsFail: bool, lessonsFail: bool, paymentsFail: bool)
      modifies this`stats
      ensures profile == old(profile)
      ensures stats == if teacher.None? then old(stats)
                       else TeacherStats(db.students, db.lessons, db.payments, teacher.value,
                                         studentsFail, lessonsFail, paymentsFail)
    {
      if teacher.None? {
        return;
      }
      stats := TeacherStats(db.students, db.lessons, db.payments, teacher.value, studentsFail, lessonsFail, paymentsFail);
    }

    /** `handleProfileUpdate`: writes the form's name, phone and subject into
        the stored row and shows the row the database returns. Without a
        profile, or when the row is missing or the update fails, nothing
        changes. */
    method UpdateProfile(db: Database, fails: bool) returns (saved: bool)
      modifies this`profile, db`profiles
      ensures stats == old(stats)
      ensures db.students == old(db.students) && db.lessons == old(db.lessons) && db.payments == old(db.payments)
      ensures db.avatars == old(db.avatars)
      ensures !saved ==> profile == old(profile) && db.profiles == old(db.profiles)
      ensures saved <==> old(profile).Some? && !fails
                         && FindFirst(old(db.profiles), HasProfileId(old(profile).value.id)).Some?
      ensures saved ==>
                var form := old(profile).value;
                var row := FindFirst(old(db.profiles), HasProfileId(form.id)).value;
                && db.profiles == UpdateWhere(old(db.profiles), ProfileId, form.id,
                                              (p: TeacherProfile) => WithFields(p, form))
                && profile == Some(WithFields(row, form))
    {
      if profile.None? {
        return false;
      }
      var form := profile.value;
      var row := FindFirst(db.profiles, HasProfileId(form.id));
      if fails || row.None? {
        return false;
      }
      db.profiles := UpdateWhere(db.profiles, ProfileId, form.id, (p: TeacherProfile) => WithFields(p, form));
      profile := Some(WithFields(row.value, form));
      saved := true;
    }

    /** `handleAvatarChange`: checks the file, removes the old picture without
        looking at the result, uploads the new one and records its path. */
    method ChangeAvatar(db: Database, file: Option<AvatarFile>, removeFails: bool, uploadFails: bool, updateFails: bool)
      returns (r: AvatarOutcome)
      modifies this`profile, db`profiles, db`avatars
      ensures stats == old(stats)
      ensures db.students == old(db.students) && db.lessons == old(db.lessons) && db.payments == old(db.payments)
      ensures file.None? || old(profile).None? ==>
                r == NothingChosen && profile == old(profile) && db.avatars == old(db.avatars) && db.profiles == old(db.profiles)
      ensures file.Some? && old(profile).Some? && CheckAvatar(file.value).Some? ==>
                r == Rejected(CheckAvatar(file.value).value)
                && profile == old(profile) && db.avatars == old(db.avatars) && db.profiles == old(db.profiles)
      ensures file.Some? && old(profile).Some? && CheckAvatar(file.value).None? ==>
                StoredAvatar(old(db.avatars), old(db.profiles), old(profile).value,
                             AvatarPath(old(profile).value.id, file.value.name),
                             removeFails, uploadFails, updateFails, r, db.avatars, db.profiles, profile)
      ensures r.AvatarChanged? ==> profile.Some? && profile.value.avatarUrl == Some(r.path) && r.path in db.avatars
    {
      if file.None? || profile.None? {
        return NothingChosen;
      }
      var f, p := file.value, profile.value;
      var rejection := CheckAvatar(f);
      if rejection.Some? {
        return Rejected(rejection.value);
      }
      r := StoreAvatar(db, p, AvatarPath(p.id, f.name), removeFails, uploadFails, updateFails);
    }

    /** The steps of `handleAvatarChange` after the checks, for the picture's
        storage path. */
    method StoreAvatar(db: Database, p: TeacherProfile, path: string, removeFails: bool, uploadFails: bool, updateFails: bool)
      returns (r: AvatarOutcome)
      requires profile == Some(p)
      modifies this`profile, db`profiles, db`avatars
      ensures stats == old(stats)
      ensures db.students == old(db.students) && db.lessons == old(db.lessons) && db.payments == old(db.payments)
      ensures StoredAvatar(old(db.avatars), old(db.profiles), p, path, removeFails, uploadFails, updateFails,
                           r, db.avatars, db.profiles, profile)
      ensures r.AvatarChanged? ==> profile.Some? && profile.value.avatarUrl == Some(r.path) && r.path in db.avatars
    {
      db.avatars := AfterOldRemoved(db.avatars, p, removeFails);
      if uploadFails {
        return UploadFailed;
      }
      db.avatars := db.avatars + {path};
      var row := FindFirst(db.profiles, HasProfileId(p.id));
      if updateFails || row.None? {
        return AvatarNotSaved;
      }
      db.profiles := UpdateWhere(db.profiles, ProfileId, p.id, (q: TeacherProfile) => q.(avatarUrl := Some(path)));
      profile := Some(row.value.(avatarUrl := Some(path)));
      r := AvatarChanged(path);
    }
    /** `handleRemoveAvatar`: deletes the picture from the bucket, then clears
        the stored path. Nothing happens without a picture; a failed removal
        changes nothing; a failed update leaves the path pointing at a file
        that is gone. */
    method RemoveAvatar(db: Database, removeFails: bool, updateFails: bool) returns (r: RemovalOutcome)
      modifies this`profile, db`profiles, db`avatars
      ensures stats == old(stats)
      ensures db.students == old(db.students) && db.lessons == old(db.lessons) && db.payments == old(db.payments)
      ensures r == NoAvatar <==> old(profile).None? || !HasAvatar(old(profile).value)
      ensures r == NoAvatar || r == FileNotRemoved ==> db.avatars == old(db.avatars)
      ensures r == FileNotRemoved <==> r != NoAvatar && removeFails
      ensures r != NoAvatar && r != FileNotRemoved ==>
                db.avatars == old(db.avatars) - {old(profile).value.avatarUrl.value}
      ensures r != AvatarRemoved ==> profile == old(profile) && db.profiles == old(db.profiles)
      ensures r == AvatarRemoved <==>
                r != NoAvatar && !removeFails && !updateFails
                && FindFirst(old(db.profiles), HasProfileId(old(profile).value.id)).Some?
      ensures r == AvatarRemoved ==>
                var id := old(profile).value.id;
                && db.profiles == UpdateWhere(old(db.profiles), ProfileId, id,
                                              (q: TeacherProfile) => q.(avatarUrl := None))
                && profile == Some(FindFirst(old(db.profiles), HasProfileId(id)).value.(avatarUrl := None))
                && old(profile).value.avatarUrl.value !in db.avatars
    {
      if profile.None? || !HasAvatar(profile.value) {
        return NoAvatar;
      }
      var p := profile.value;
      if removeFails {
        return FileNotRemoved;
      }
      db.avatars := db.avatars - {p.avatarUrl.value};
      var row := FindFirst(db.profiles, HasProfileId(p.id));
      if updateFails || row.None? {
        return RemovalNotSaved;
      }
      db.profiles := UpdateWhere(db.profiles, ProfileId, p.id, (q: TeacherProfile) => q.(avatarUrl := None));
      profile := Some(row.value.(avatarUrl := None));
      r := AvatarRemoved;
    }
  }
}
