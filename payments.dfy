/** The payments page: the search and status filter, the collected total of
    the listed payments, the pending count, the list updates of the add,
    update and delete handlers, and the form an edit loads. */
module Payments {
  import opened Common
  import opened Folds
  import opened Text
  import opened Calendar
  import opened Records
  import opened Numbers

  function PaymentId(p: Payment): Id
  {
    p.id
  }

  // ---------------------------------------------------------------------
  // The list on screen

  /** The search box matches the student's name or, when there is one, the
      description, ignoring case. */
  predicate MatchesSearch(p: Payment, query: string)
  {
    MatchesQuery(p.studentName, query) || (p.description.Some? && MatchesQuery(p.description.value, query))
  }

  /** The status select: `None` is the empty choice, "all". */
  predicate MatchesStatus(p: Payment, status: Option<PaymentStatus>)
  {
    status.None? || p.status == status.value
  }

  function Shown(query: string, status: Option<PaymentStatus>): Payment -> bool
  {
    (p: Payment) => MatchesSearch(p, query) && MatchesStatus(p, status)
  }

  /** `filteredPayments`: the payments that match both the search and the
      status filter, in the order of the list. */
  function FilteredPayments(payments: seq<Payment>, query: string, status: Option<PaymentStatus>): (r: seq<Payment>)
    ensures forall i :: 0 <= i < |r| ==> MatchesSearch(r[i], query) && MatchesStatus(r[i], status)
    ensures forall i :: 0 <= i < |payments| && MatchesSearch(payments[i], query) && MatchesStatus(payments[i], status)
                        ==> payments[i] in r
    ensures multiset(r) <= multiset(payments)
  {
    Filter(payments, Shown(query, status))
  }

  /** With an empty search and no status chosen every payment is listed. */
  lemma EmptySearchListsAll(payments: seq<Payment>)
    ensures FilteredPayments(payments, "", None) == payments
  {
    forall i | 0 <= i < |payments|
      ensures Shown("", None)(payments[i])
    {
      EmptyQueryMatches(payments[i].studentName);
    }
    FilterAll(payments, Shown("", None));
  }

  /** With a status chosen only payments of that status are listed, and
      with an empty search all of them are. */
  lemma StatusFilterExact(payments: seq<Payment>, status: PaymentStatus)
    ensures forall p :: p in FilteredPayments(payments, "", Some(status)) <==> p in payments && p.status == status
  {
    forall i | 0 <= i < |payments|
      ensures MatchesSearch(payments[i], "")
    {
      EmptyQueryMatches(payments[i].studentName);
    }
    var r := FilteredPayments(payments, "", Some(status));
    forall p | p in r
      ensures p in payments
    {
      assert multiset(r)[p] > 0;
    }
  }

  /** What a payment adds to the collected total: its amount when completed. */
  function CollectedAmount(p: Payment): real
  {
    if IsCompletedPayment(p) then p.amount else 0.0
  }

  /** `totalAmount`, the reduce over the listed payments: the sum of the
      amounts of the completed payments listed. */
  function TotalAmount(listed: seq<Payment>): (r: real)
    ensures r == Sum(Filter(listed, IsCompletedPayment), Amount)
  {
    SumFilter(listed, IsCompletedPayment, Amount);
    SumWhereMasked(listed, IsCompletedPayment, Amount, CollectedAmount);
    Sum(listed, CollectedAmount)
  }

  /** Listing only pending or only cancelled payments shows a total of 0. */
  lemma OtherStatusTotalsZero(payments: seq<Payment>, query: string, status: PaymentStatus)
    requires status != PaymentCompleted
    ensures TotalAmount(FilteredPayments(payments, query, Some(status))) == 0.0
  {
    var listed := FilteredPayments(payments, query, Some(status));
    FilterNone(listed, IsCompletedPayment);
  }

  /** The pending card counts every payment, whatever is listed. */
  function PendingCount(payments: seq<Payment>): (r: nat)
    ensures r == |Filter(payments, IsPendingPayment)| && r <= |payments|
    ensures r == 0 <==> forall i :: 0 <= i < |payments| ==> payments[i].status != PaymentPending
  {
    Count(payments, IsPendingPayment)
  }

  /** The pending count is never below the number of pending payments listed,
      and equals it when the search and filter list everything. */
  lemma PendingIgnoresFilters(payments: seq<Payment>, query: string, status: Option<PaymentStatus>)
    ensures Count(FilteredPayments(payments, query, status), IsPendingPayment) <= PendingCount(payments)
    ensures query == "" && status.None? ==> Count(FilteredPayments(payments, query, status), IsPendingPayment) == PendingCount(payments)
  {
    CountOfFilter(payments, Shown(query, status), IsPendingPayment);
    if query == "" && status.None? {
      EmptySearchListsAll(payments);
    }
  }

  // ---------------------------------------------------------------------
  // The list updates

  /** No two payments share an id. */
  predicate UniqueIds(payments: seq<Payment>)
  {
    forall i, j :: 0 <= i < j < |payments| ==> payments[i].id != payments[j].id
  }

  /** A saved payment goes in front: it is listed first when it matches, and
      the pending count and the total change by its own share only. */
  lemma AddedPaymentEffect(payments: seq<Payment>, saved: Payment, query: string, status: Option<PaymentStatus>)
    ensures FilteredPayments([saved] + payments, query, status)
            == (if Shown(query, status)(saved) then [saved] else []) + FilteredPayments(payments, query, status)
    ensures PendingCount([saved] + payments) == PendingCount(payments) + (if IsPendingPayment(saved) then 1 else 0)
    ensures TotalAmount([saved] + payments) == CollectedAmount(saved) + TotalAmount(payments)
  {
    FilterPrepend(saved, payments, Shown(query, status));
    CountPrepend(saved, payments, IsPendingPayment);
    SumPrepend(saved, payments, CollectedAmount);
  }

  /** Replacing the payment with a given id: the other payments and their
      order stay, and the total changes by the difference of the two. */
  lemma UpdatedPaymentEffect(payments: seq<Payment>, k: nat, saved: Payment)
    requires k < |payments| && UniqueIds(payments)
    ensures var r := UpdateWhere(payments, PaymentId, payments[k].id, (p: Payment) => saved);
            && r == payments[k := saved]
            && TotalAmount(r) == TotalAmount(payments) - CollectedAmount(payments[k]) + CollectedAmount(saved)
  {
    UpdateUnique(payments, PaymentId, k, (p: Payment) => saved);
    SumReplaceAt(payments, k, saved, CollectedAmount);
  }

  /** Deleting the payment with a given id removes that one entry and takes
      its share off the total and the pending count. */
  lemma DeletedPaymentEffect(payments: seq<Payment>, k: nat)
    requires k < |payments| && UniqueIds(payments)
    ensures var r := Without(payments, PaymentId, payments[k].id);
            && r == payments[..k] + payments[k + 1..]
            && TotalAmount(r) == TotalAmount(payments) - CollectedAmount(payments[k])
            && PendingCount(r) == PendingCount(payments) - (if IsPendingPayment(payments[k]) then 1 else 0)
  {
    WithoutUnique(payments, PaymentId, k);
    SumDropAt(payments, k, CollectedAmount);
    CountAround(payments, k, IsPendingPayment);
    CountAppend(payments[..k], payments[k + 1..], IsPendingPayment);
  }

  // ---------------------------------------------------------------------
  // The form

  /** `newPayment`; `studentId` is `None` for the empty choice. */
  datatype PaymentForm = PaymentForm(
    studentId: Option<Id>,
    amount: NumberText,
    date: string,
    paymentMethod: string,
    description: string,
    status: PaymentStatus)

  /** The form after a save or on opening the page: today's date, cash, completed. */
  function BlankForm(today: Date): PaymentForm
    requires Printable(today)
  {
    PaymentForm(None, Typed(""), DateKey(today), "cash", "", PaymentCompleted)
  }

  /** `handleEditPayment`: the amount as text, the date as `YYYY-MM-DD`, and
      a missing description as the empty text. */
  function EditForm(p: Payment): (f: PaymentForm)
    requires Printable(p.date)
    ensures f.studentId == Some(p.studentId) && f.amount == Printed(p.amount)
    ensures ParseDateKey(f.date) == Some(p.date)
    ensures f.description == if p.description.Some? then p.description.value else ""
    ensures f.paymentMethod == p.paymentMethod && f.status == p.status
  {
    DateKeyRoundTrip(p.date);
    PaymentForm(Some(p.studentId), Printed(p.amount), DateKey(p.date), p.paymentMethod, p.description.GetOr(""), p.status)
  }

  /** The columns an insert or update writes. */
  datatype PaymentRequest = PaymentRequest(
    studentId: Option<Id>,
    amount: Option<real>,
    date: Date,
    paymentMethod: string,
    description: string,
    status: PaymentStatus)

  /** The request a save sends; `None` when the date text is not a day, for
      `new Date(text).toISOString()` then throws before anything is sent. */
  function Request(f: PaymentForm): (r: Option<PaymentRequest>)
    ensures r.None? <==> ParseDateKey(f.date).None?
    ensures r.Some? ==> r.value.amount == NumberValue(f.amount) && r.value.studentId == f.studentId
                        && r.value.description == f.description && r.value.status == f.status
  {
    match ParseDateKey(f.date)
    case None => None
    case Some(d) => Some(PaymentRequest(f.studentId, NumberValue(f.amount), d, f.paymentMethod, f.description, f.status))
  }

  /** Saving an edit without changing anything writes the payment back as it
      was, except that a missing description is written as the empty text. */
  lemma EditThenSave(p: Payment)
    requires Printable(p.date)
    ensures Request(EditForm(p)) == Some(PaymentRequest(Some(p.studentId), Some(p.amount), p.date, p.paymentMethod,
                                                        p.description.GetOr(""), p.status))
  {
  }

  /** A blank form cannot be saved with a number: its amount reads as NaN. */
  lemma BlankFormHasNoAmount(today: Date)
    requires Printable(today)
    ensures Request(BlankForm(today)).Some?
    ensures Request(BlankForm(today)).value.amount.None?
    ensures Request(BlankForm(today)).value.date == today
  {
    DateKeyRoundTrip(today);
  }

  // ---------------------------------------------------------------------
  // The page

  class PaymentsPage {
    var payments: seq<Payment>
    var form: PaymentForm
    var selected: Option<Payment>
    var modalOpen: bool

    constructor(today: Date)
      requires Printable(today)
      ensures payments == [] && form == BlankForm(today) && selected == None && !modalOpen
    {
      payments := [];
      form := BlankForm(today);
      selected := None;
      modalOpen := false;
    }

    /** `handleAddPayment`: the row the service returns (`saved`) goes in
        front and the form is reset; a date that does not parse or a failed
        insert changes nothing. */
    method AddPayment(saved: Payment, fails: bool, today: Date) returns (ok: bool)
      requires Printable(today)
      modifies this`payments, this`form, this`modalOpen
      ensures ok <==> Request(old(form)).Some? && !fails
      ensures ok ==> payments == [saved] + old(payments) && form == BlankForm(today) && !modalOpen
      ensures !ok ==> payments == old(payments) && form == old(form) && modalOpen == old(modalOpen)
    {
      if Request(form).None? || fails {
        return false;
      }
      payments := [saved] + payments;
      modalOpen := false;
      form := BlankForm(today);
      ok := true;
    }

    /** `handleUpdatePayment`: without a selected payment nothing happens;
        otherwise the row with the selected id is replaced by the one the
        service returns, and the form and selection are cleared. */
    method UpdatePayment(saved: Payment, fails: bool, today: Date) returns (ok: bool)
      requires Printable(today)
      modifies this
      ensures ok <==> old(selected).Some? && Request(old(form)).Some? && !fails
      ensures ok ==> payments == UpdateWhere(old(payments), PaymentId, old(selected).value.id, (p: Payment) => saved)
                     && selected == None && form == BlankForm(today) && !modalOpen
      ensures !ok ==> payments == old(payments) && form == old(form) && selected == old(selected)
                      && modalOpen == old(modalOpen)
    {
      if selected.None? || Request(form).None? || fails {
        return false;
      }
      payments := UpdateWhere(payments, PaymentId, selected.value.id, (p: Payment) => saved);
      modalOpen := false;
      selected := None;
      form := BlankForm(today);
      ok := true;
    }

    /** `handleDeletePayment`: asks first; a refusal or a failed delete changes nothing. */
    method DeletePayment(id: Id, confirmed: bool, fails: bool) returns (ok: bool)
      modifies this`payments
      ensures ok <==> confirmed && !fails
      ensures payments == if ok then Without(old(payments), PaymentId, id) else old(payments)
    {
      if !confirmed || fails {
        return false;
      }
      payments := Without(payments, PaymentId, id);
      ok := true;
    }

    /** `handleEditPayment`: selects the payment and loads it into the open form. */
    method EditPayment(p: Payment)
      requires Printable(p.date)
      modifies this`selected, this`form, this`modalOpen
      ensures selected == Some(p) && form == EditForm(p) && modalOpen
    {
      selected := Some(p);
      form := EditForm(p);
      modalOpen := true;
    }
  }
}
