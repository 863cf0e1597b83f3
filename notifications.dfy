/** The notification bell: the latest sent notifications of the teacher, the
    unread badge, the sound on arrival, marking one as read, and the text of a
    reminder. */
module Notifications {
  import opened Common
  import opened Folds

  /** How long before the lesson a reminder is sent. */
  datatype LeadTime = OneDay | ThreeHours | OneHour | TenMinutes

  /** A row of the `notifications` table with its student's name and its
      lesson's subject joined in. */
  datatype Notification = Notification(
    id: Id,
    teacherId: Id,
    kind: LeadTime,
    studentName: string,
    subject: string,
    read: bool,
    sent: bool)

  predicate IsUnread(n: Notification)
  {
    !n.read
  }

  predicate Shown(teacher: Id, n: Notification)
  {
    n.teacherId == teacher && n.sent
  }

  /** The query of `fetchNotifications` over rows already ordered newest first:
      the teacher's sent notifications, at most ten. */
  function Latest(rows: seq<Notification>, teacher: Id): (r: seq<Notification>)
    ensures |r| <= 10
    ensures forall i :: 0 <= i < |r| ==> r[i].teacherId == teacher && r[i].sent
    ensures |r| == if Count(rows, (n: Notification) => Shown(teacher, n)) < 10
                   then Count(rows, (n: Notification) => Shown(teacher, n)) else 10
    ensures r == Filter(rows, (n: Notification) => Shown(teacher, n))[..|r|]
  {
    var all := Filter(rows, (n: Notification) => Shown(teacher, n));
    if |all| <= 10 then all else all[..10]
  }

  /** The notifications after a click on `id`: that one read, every other as it was. */
  function MarkedRead(ns: seq<Notification>, id: Id): (r: seq<Notification>)
    ensures |r| == |ns|
    ensures forall i :: 0 <= i < |ns| && ns[i].id == id ==> r[i] == ns[i].(read := true)
    ensures forall i :: 0 <= i < |ns| && ns[i].id != id ==> r[i] == ns[i]
  {
    seq(|ns|, i requires 0 <= i < |ns| => if ns[i].id == id then ns[i].(read := true) else ns[i])
  }

  /** Marking as read never adds an unread notification. */
  lemma {:induction false} MarkedReadUnread(ns: seq<Notification>, id: Id)
    ensures Count(MarkedRead(ns, id), IsUnread) <= Count(ns, IsUnread)
    ensures (forall i :: 0 <= i < |ns| ==> ns[i].id != id || ns[i].read) ==> Count(MarkedRead(ns, id), IsUnread) == Count(ns, IsUnread)
  {
    if ns != [] {
      var init, last := ns[..|ns| - 1], ns[|ns| - 1];
      var m := MarkedRead(ns, id);
      MarkedReadUnread(init, id);
      assert m[..|m| - 1] == MarkedRead(init, id);
      assert m[|m| - 1] == if last.id == id then last.(read := true) else last;
      assert Count(m, IsUnread) == Count(MarkedRead(init, id), IsUnread) + (if IsUnread(m[|m| - 1]) then 1 else 0);
      assert Count(ns, IsUnread) == Count(init, IsUnread) + (if IsUnread(last) then 1 else 0);
    }
  }

  // ---------------------------------------------------------------------
  // The unread badge after a click

  /** `Math.max(0, prev - 1)`, as the page lowers the badge on every click. */
  function DecrementedUnread(prev: nat): (r: nat)
    ensures r == if prev == 0 then 0 else prev - 1
  {
    if prev - 1 < 0 then 0 else prev - 1
  }

  /** Clicking a notification that was already read still lowers the badge:
      with one unread and one read notification and a badge of 1, a click on
      the read one leaves the badge at 0 and one notification unread. */
  lemma ReadClickMiscounts()
    ensures var unread := Notification(1, 7, OneDay, "Ada", "Fizik", false, true);
            var seen := Notification(2, 7, OneHour, "Can", "Kimya", true, true);
            var ns := [unread, seen];
            && Count(ns, IsUnread) == 1
            && DecrementedUnread(Count(ns, IsUnread)) == 0
            && Count(MarkedRead(ns, 2), IsUnread) == 1
  {
    var unread := Notification(1, 7, OneDay, "Ada", "Fizik", false, true);
    var seen := Notification(2, 7, OneHour, "Can", "Kimya", true, true);
    var ns := [unread, seen];
    assert ns[..1] == [unread];
    assert [unread][..0] == [];
    var marked := MarkedRead(ns, 2);
    assert marked == [unread, seen];
  }

  /** The badge after a click on `id`: the number of notifications still unread. */
  function UnreadAfterClick(ns: seq<Notification>, id: Id): (r: nat)
    ensures r <= Count(ns, IsUnread)
    ensures r == Count(MarkedRead(ns, id), IsUnread)
  {
    MarkedReadUnread(ns, id);
    Count(MarkedRead(ns, id), IsUnread)
  }

  /** Lowering the badge by one is right exactly when the clicked notification
      is the only unread one with that id. */
  lemma ClickOnUnread(ns: seq<Notification>, k: nat)
    requires k < |ns| && !ns[k].read
    requires forall j :: 0 <= j < |ns| && j != k ==> ns[j].id != ns[k].id
    ensures UnreadAfterClick(ns, ns[k].id) == Count(ns, IsUnread) - 1
  {
    var id := ns[k].id;
    var m := MarkedRead(ns, id);
    MarkedReadSlices(ns, id, k);
    var before, after := ns[..k], ns[k + 1..];
    assert forall i :: 0 <= i < |before| ==> before[i].id != id;
    assert forall i :: 0 <= i < |after| ==> after[i].id != id by {
      forall i | 0 <= i < |after|
        ensures after[i].id != id
      {
        assert after[i] == ns[k + 1 + i];
      }
    }
    MarkedReadUnread(ns[..k], id);
    MarkedReadUnread(ns[k + 1..], id);
    CountAround(ns, k, IsUnread);
    CountAround(m, k, IsUnread);
  }

  /** Exactly one notification has the id, and it is unread. */
  predicate SoleUnread(ns: seq<Notification>, id: Id)
  {
    exists k :: 0 <= k < |ns| && ns[k].id == id && !ns[k].read
      && forall j :: 0 <= j < |ns| && j != k ==> ns[j].id != id
  }

  /** No unread notification has the id. */
  predicate NoneUnread(ns: seq<Notification>, id: Id)
  {
    forall i :: 0 <= i < |ns| && ns[i].id == id ==> ns[i].read
  }

  lemma SoleUnreadDecrements(ns: seq<Notification>, id: Id)
    requires SoleUnread(ns, id)
    ensures UnreadAfterClick(ns, id) == Count(ns, IsUnread) - 1
  {
    var k :| 0 <= k < |ns| && ns[k].id == id && !ns[k].read
      && forall j :: 0 <= j < |ns| && j != k ==> ns[j].id != id;
    ClickOnUnread(ns, k);
  }

  lemma MarkedReadSlices(ns: seq<Notification>, id: Id, k: nat)
    requires k < |ns|
    ensures MarkedRead(ns, id)[..k] == MarkedRead(ns[..k], id)
    ensures MarkedRead(ns, id)[k + 1..] == MarkedRead(ns[k + 1..], id)
  {
  }

  // ---------------------------------------------------------------------
  // The message

  function LeadLabel(t: LeadTime): string
  {
    match t
    case OneDay => "1 gün"
    case ThreeHours => "3 saat"
    case OneHour => "1 saat"
    case TenMinutes => "10 dakika"
  }

  /** `getNotificationMessage`: it opens with the student's name and closes
      with the fixed ending, the lead time between. */
  function Message(n: Notification): (r: string)
    ensures |r| > |n.studentName| + |n.subject| + |MessageEnd| && r[..|n.studentName|] == n.studentName
    ensures r[|r| - |MessageEnd|..] == MessageEnd
  {
    var r := n.studentName + " ile " + n.subject + " dersiniz " + LeadLabel(n.kind) + MessageEnd;
    assert r == (n.studentName + (" ile " + n.subject + " dersiniz " + LeadLabel(n.kind))) + MessageEnd;
    r
  }

  const MessageEnd: string := " sonra başlayacak."


  /** The message names the lead time: two reminders for the same student and
      subject with different lead times read differently. */
  lemma MessageTellsLeadTime(a: Notification, b: Notification)
    requires a.studentName == b.studentName && a.subject == b.subject
    requires Message(a) == Message(b)
    ensures a.kind == b.kind
  {
    var prefix := a.studentName + " ile " + a.subject + " dersiniz ";
    var suffix := MessageEnd;
    var la, lb := LeadLabel(a.kind), LeadLabel(b.kind);
    assert Message(a) == prefix + la + suffix;
    assert Message(b) == prefix + lb + suffix;
    assert |la| == |lb|;
    assert la == Message(a)[|prefix|..|prefix| + |la|];
    assert lb == Message(b)[|prefix|..|prefix| + |lb|];
  }

  // ---------------------------------------------------------------------
  // The bell

  class NotificationBell {
    var notifications: seq<Notification>
    var unreadCount: nat

    constructor()
      ensures notifications == [] && unreadCount == 0
    {
      notifications := [];
      unreadCount := 0;
    }

    /** The badge shows how many of the listed notifications are unread. */
    predicate Valid()
      reads this
    {
      unreadCount == Count(notifications, IsUnread)
    }

    /** `fetchNotifications` with the teacher's profile id (`None` when there
        is no user or profile: nothing happens); a failed query changes nothing.
        Returns whether the sound plays: once, when anything fetched is unread. */
    method Fetch(rows: seq<Notification>, teacher: Option<Id>, fails: bool) returns (sound: bool)
      modifies this
      ensures teacher.Some? && !fails ==> notifications == Latest(rows, teacher.value)
      ensures teacher.None? || fails ==> notifications == old(notifications) && unreadCount == old(unreadCount)
      ensures teacher.Some? && !fails ==> Valid()
      ensures sound <==> teacher.Some? && !fails && exists i :: 0 <= i < |notifications| && !notifications[i].read
    {
      if teacher.None? || fails {
        return false;
      }
      notifications := Latest(rows, teacher.value);
      unreadCount := Count(notifications, IsUnread);
      sound := unreadCount > 0;
    }

    /** `markAsRead` as the page writes it: on success the clicked
        notification is marked read and the badge is lowered by one, whether
        or not the notification was unread; a failed update changes nothing.
        The badge stays right when the click was on the one unread
        notification with that id, and goes wrong when nothing unread had that
        id while the badge was above zero. */
    method MarkAsRead(id: Id, fails: bool)
      modifies this
      ensures notifications == if fails then old(notifications) else MarkedRead(old(notifications), id)
      ensures unreadCount == if fails then old(unreadCount) else DecrementedUnread(old(unreadCount))
      ensures fails ==> (old(Valid()) ==> Valid())
      ensures !fails && old(Valid()) && SoleUnread(old(notifications), id) ==> Valid()
      ensures !fails && old(Valid()) && old(unreadCount) > 0 && NoneUnread(old(notifications), id) ==> !Valid()
    {
      if fails {
        return;
      }
      if SoleUnread(notifications, id) {
        SoleUnreadDecrements(notifications, id);
      }
      MarkedReadUnread(notifications, id);
      unreadCount := DecrementedUnread(unreadCount);
      notifications := MarkedRead(notifications, id);
    }

    /** `markAsRead` with the badge recounted from the list, as intended: on
        success the badge is right whatever was clicked. */
    method MarkAsReadRecounted(id: Id, fails: bool)
      modifies this
      ensures notifications == if fails then old(notifications) else MarkedRead(old(notifications), id)
      ensures unreadCount == if fails then old(unreadCount) else UnreadAfterClick(old(notifications), id)
      ensures !fails ==> Valid()
      ensures fails ==> (old(Valid()) ==> Valid())
    {
      if fails {
        return;
      }
      unreadCount := UnreadAfterClick(notifications, id);
      notifications := MarkedRead(notifications, id);
    }
  }
}
