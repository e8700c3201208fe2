/** The booking queue page (src/pages/BookingQueue.tsx): the in-memory list
    of bookings, the three handlers that replace it (add, status update,
    payment), and the views the page derives from it (the filtered list, the
    overdue list, the service names, the length of a rental in days). */
module BookingQueue {
  import opened Seqs
  import opened Bookings

  // ---------------------------------------------------------------------
  // The payment ledger of one booking
  // ---------------------------------------------------------------------

  /** `Math.max(0, x)`. */
  function Max0(x: Money): (r: Money)
    ensures r >= 0.0 && r >= x
    ensures r == x || r == 0.0
  {
    if x > 0.0 then x else 0.0
  }

  /** The payment status of a booking priced `total` of which `paid` has
      been collected: paid once nothing is left to pay, partly paid once
      something has been collected, unpaid otherwise. */
  function PaymentStatusFor(total: Money, paid: Money): (r: PaymentStatus)
    ensures r == Paid <==> paid >= total
    ensures r == Partial <==> 0.0 < paid < total
    ensures r == Unpaid <==> paid <= 0.0 && paid < total
  {
    if Max0(total - paid) == 0.0 then Paid
    else if paid > 0.0 then Partial
    else Unpaid
  }

  /** The stored ledger fields agree with the price and the amount paid: the
      balance is the unpaid part of the price floored at zero, and the status
      is the one `PaymentStatusFor` assigns. */
  predicate LedgerConsistent(b: Booking)
  {
    && b.remainingAmount == Max0(b.totalPrice - b.paidAmount)
    && b.paymentStatus == PaymentStatusFor(b.totalPrice, b.paidAmount)
  }

  // ---------------------------------------------------------------------
  // Creating a booking
  // ---------------------------------------------------------------------

  /** The price field of the add form: blank, or text that `parseFloat`
      reads as a number (`Some`) or as NaN (`None`). */
  datatype PriceText = Blank | Entered(parsed: Option<Money>)

  /** The add form. A date is `None` while the picker holds `null`. */
  datatype BookingForm = BookingForm(
    customerName: string,
    customerPhone: string,
    serviceName: string,
    startDate: Option<Instant>,
    endDate: Option<Instant>,
    totalPrice: PriceText,
    notes: string)

  /** The booking the add form creates with the fresh `id` at time `now`, or
      `None` when a date is missing or the price is blank. An unreadable
      price becomes 0 (`parseFloat(text) || 0`). */
  function NewBooking(form: BookingForm, id: string, now: Instant): (r: Option<Booking>)
    ensures r.None? <==> form.startDate.None? || form.endDate.None? || form.totalPrice.Blank?
    ensures r.Some? ==>
      && r.value.id == id
      && r.value.customerName == form.customerName
      && r.value.customerPhone == form.customerPhone
      && r.value.serviceName == form.serviceName
      && r.value.startDate == form.startDate.value
      && r.value.endDate == form.endDate.value
      && r.value.notes == Some(form.notes)
      && r.value.createdAt == now && r.value.updatedAt == now
    ensures r.Some? ==>
      && r.value.totalPrice == (if form.totalPrice.parsed.Some? then form.totalPrice.parsed.value else 0.0)
      && r.value.status == Pending
      && r.value.paidAmount == 0.0
      && r.value.remainingAmount == r.value.totalPrice
      && r.value.paymentStatus == Unpaid
    // A new booking's ledger is consistent exactly when its price is
    // positive: a zero price is stored as unpaid with nothing left to pay.
    ensures r.Some? ==> (LedgerConsistent(r.value) <==> r.value.totalPrice > 0.0)
  {
    if form.startDate.None? || form.endDate.None? || form.totalPrice.Blank? then None
    else
      var totalPrice := if form.totalPrice.parsed.Some? then form.totalPrice.parsed.value else 0.0;
      Some(Booking(
        id, form.customerName, form.customerPhone, form.serviceName,
        form.startDate.value, form.endDate.value,
        Pending, totalPrice, 0.0, totalPrice, Unpaid,
        Some(form.notes), now, now))
  }

  // ---------------------------------------------------------------------
  // Updating records by id
  // ---------------------------------------------------------------------

  /** `bs.map(b => b.id === id ? f(b) : b)`. */
  function ReplaceById(bs: seq<Booking>, id: string, f: Booking -> Booking): (r: seq<Booking>)
    ensures |r| == |bs|
    ensures forall i :: 0 <= i < |bs| ==> r[i] == if bs[i].id == id then f(bs[i]) else bs[i]
  {
    if bs == [] then []
    else [if bs[0].id == id then f(bs[0]) else bs[0]] + ReplaceById(bs[1..], id, f)
  }

  /** The record with its status set and its update time refreshed. */
  function WithStatus(b: Booking, status: Status, now: Instant): Booking
  {
    b.(status := status, updatedAt := now)
  }

  /** The list after the status handler has run. */
  function StatusUpdated(bs: seq<Booking>, id: string, status: Status, now: Instant): seq<Booking>
  {
    ReplaceById(bs, id, b => WithStatus(b, status, now))
  }

  /** The record `b` after a payment of `amount` entered in the payment
      dialog opened on `selected`: the new figures are computed from the
      dialog's copy `selected`, and written into `b`. */
  function Settled(b: Booking, selected: Booking, amount: Money, now: Instant): (r: Booking)
    ensures r.paidAmount == selected.paidAmount + amount
    ensures r.remainingAmount >= 0.0
    ensures r.remainingAmount == 0.0 <==> r.paidAmount >= selected.totalPrice
    ensures r.paidAmount <= selected.totalPrice ==> r.paidAmount + r.remainingAmount == selected.totalPrice
    ensures r.paymentStatus == Paid <==> r.remainingAmount == 0.0
    ensures b.totalPrice == selected.totalPrice ==> LedgerConsistent(r)
    ensures r.(paidAmount := b.paidAmount, remainingAmount := b.remainingAmount,
               paymentStatus := b.paymentStatus, updatedAt := b.updatedAt) == b
  {
    var newPaid := selected.paidAmount + amount;
    b.(paidAmount := newPaid,
       remainingAmount := Max0(selected.totalPrice - newPaid),
       paymentStatus := PaymentStatusFor(selected.totalPrice, newPaid),
       updatedAt := now)
  }

  /** The list after the payment handler has run with a selection and an amount. */
  function PaymentApplied(bs: seq<Booking>, selected: Booking, amount: Money, now: Instant): seq<Booking>
  {
    ReplaceById(bs, selected.id, b => Settled(b, selected, amount, now))
  }

  /** A status update touches no ledger, so consistent ledgers stay consistent. */
  lemma StatusUpdateKeepsLedgers(bs: seq<Booking>, id: string, status: Status, now: Instant)
    requires forall i :: 0 <= i < |bs| ==> LedgerConsistent(bs[i])
    ensures forall i :: 0 <= i < |bs| ==> LedgerConsistent(StatusUpdated(bs, id, status, now)[i])
  {
  }

  /** A payment leaves every record's ledger consistent, provided the dialog's
      copy carries the price of the records it is applied to. */
  lemma PaymentKeepsLedgers(bs: seq<Booking>, selected: Booking, amount: Money, now: Instant)
    requires forall i :: 0 <= i < |bs| ==> LedgerConsistent(bs[i])
    requires forall i :: 0 <= i < |bs| && bs[i].id == selected.id ==> bs[i].totalPrice == selected.totalPrice
    ensures forall i :: 0 <= i < |bs| ==> LedgerConsistent(PaymentApplied(bs, selected, amount, now)[i])
  {
  }

  // ---------------------------------------------------------------------
  // Successive payments on one booking
  // ---------------------------------------------------------------------

  /** A payment taken in a dialog opened on the booking's current record. */
  function Pay(b: Booking, amount: Money, now: Instant): Booking
  {
    Settled(b, b, amount, now)
  }

  /** The booking after the payments `amounts`, in order. */
  function PayAll(b: Booking, amounts: seq<Money>, now: Instant): Booking
    decreases |amounts|
  {
    if amounts == [] then b else PayAll(Pay(b, amounts[0], now), amounts[1..], now)
  }

  /** Payments accumulate: the amount paid grows by their sum, the price and
      the identity stay, and after at least one payment the ledger is
      consistent whatever it was before. */
  lemma {:induction false} PaymentsAccumulate(b: Booking, amounts: seq<Money>, now: Instant)
    ensures PayAll(b, amounts, now).paidAmount == b.paidAmount + Sum(amounts, Id)
    ensures PayAll(b, amounts, now).totalPrice == b.totalPrice
    ensures PayAll(b, amounts, now).id == b.id
    ensures amounts != [] ==> LedgerConsistent(PayAll(b, amounts, now))
    decreases |amounts|
  {
    if amounts != [] {
      PaymentsAccumulate(Pay(b, amounts[0], now), amounts[1..], now);
    }
  }

  /** Payments that add up to exactly the outstanding price settle the booking. */
  lemma PaymentsCoveringPriceSettle(b: Booking, amounts: seq<Money>, now: Instant)
    requires amounts != []
    requires b.paidAmount + Sum(amounts, Id) == b.totalPrice
    ensures PayAll(b, amounts, now).paymentStatus == Paid
    ensures PayAll(b, amounts, now).remainingAmount == 0.0
    ensures PayAll(b, amounts, now).paidAmount == b.totalPrice
  {
    PaymentsAccumulate(b, amounts, now);
  }

  /** Overpaying is not capped: the balance floors at zero while the amount
      paid exceeds the price, so paid plus remaining exceeds the price. */
  lemma OverpaymentIsNotCapped(b: Booking, amount: Money, now: Instant)
    requires b.paidAmount + amount > b.totalPrice
    ensures Pay(b, amount, now).remainingAmount == 0.0
    ensures Pay(b, amount, now).paymentStatus == Paid
    ensures Pay(b, amount, now).paidAmount > b.totalPrice
    ensures Pay(b, amount, now).paidAmount + Pay(b, amount, now).remainingAmount > b.totalPrice
  {
  }

  // ---------------------------------------------------------------------
  // The store and its handlers
  // ---------------------------------------------------------------------

  /** The page's `bookings` state; each handler replaces the whole list
      (`setBookings`). */
  class BookingStore {
    var bookings: seq<Booking>

    /** The store holding the list first loaded. */
    constructor (initial: seq<Booking>)
      ensures bookings == initial
    {
      bookings := initial;
    }

    /** `handleAddBooking`: appends the booking the form describes, or does
        nothing when a date is missing or the price is blank. */
    method AddBooking(form: BookingForm, id: string, now: Instant)
      modifies this
      ensures NewBooking(form, id, now).None? ==> bookings == old(bookings)
      ensures NewBooking(form, id, now).Some? ==>
        && |bookings| == |old(bookings)| + 1
        && bookings[..|old(bookings)|] == old(bookings)
        && bookings[|old(bookings)|] == NewBooking(form, id, now).value
    {
      var created := NewBooking(form, id, now);
      if created.None? {
        return;
      }
      bookings := bookings + [created.value];
    }

    /** `handleStatusUpdate`: sets the status of the records with the given
        id; every other record, the length and the order are unchanged. */
    method UpdateStatus(bookingId: string, newStatus: Status, now: Instant)
      modifies this
      ensures bookings == StatusUpdated(old(bookings), bookingId, newStatus, now)
      ensures |bookings| == |old(bookings)|
      ensures forall i :: 0 <= i < |bookings| ==>
        bookings[i] == if old(bookings)[i].id == bookingId
                       then old(bookings)[i].(status := newStatus, updatedAt := now)
                       else old(bookings)[i]
      ensures (forall i :: 0 <= i < |bookings| ==> old(bookings)[i].id != bookingId) ==> bookings == old(bookings)
    {
      bookings := StatusUpdated(bookings, bookingId, newStatus, now);
    }

    /** `handlePayment`: with a booking selected and an amount entered, adds
        the amount to what was paid, floors the balance at zero and
        reclassifies, on the records with the selected id only. */
    method ApplyPayment(selected: Option<Booking>, amount: Option<Money>, now: Instant)
      modifies this
      ensures selected.None? || amount.None? ==> bookings == old(bookings)
      ensures selected.Some? && amount.Some? ==>
        bookings == PaymentApplied(old(bookings), selected.value, amount.value, now)
      ensures |bookings| == |old(bookings)|
      ensures selected.Some? && amount.Some? ==> forall i :: 0 <= i < |bookings| ==>
        var b := old(bookings)[i];
        var newPaid := selected.value.paidAmount + amount.value;
        bookings[i] == if b.id == selected.value.id
                       then b.(paidAmount := newPaid,
                               remainingAmount := Max0(selected.value.totalPrice - newPaid),
                               paymentStatus := PaymentStatusFor(selected.value.totalPrice, newPaid),
                               updatedAt := now)
                       else b
    {
      if selected.None? || amount.None? {
        return;
      }
      var chosen := selected.value;
      var newPaidAmount := chosen.paidAmount + amount.value;
      var newRemainingAmount := chosen.totalPrice - newPaidAmount;

      var paymentStatus := Unpaid;
      if newRemainingAmount <= 0.0 {
        paymentStatus := Paid;
      } else if newPaidAmount > 0.0 {
        paymentStatus := Partial;
      }

      var update := (b: Booking) => b.(paidAmount := newPaidAmount,
                            remainingAmount := Max0(newRemainingAmount),
                            paymentStatus := paymentStatus,
                            updatedAt := now);
      assert forall b :: update(b) == Settled(b, chosen, amount.value, now);
      bookings := ReplaceById(bookings, chosen.id, update);
    }
  }

  // ---------------------------------------------------------------------
  // Views derived from the list
  // ---------------------------------------------------------------------

  /** Not fully paid, ended before `now`, and not cancelled. */
  predicate OverdueInQueue(b: Booking, now: Instant)
  {
    b.paymentStatus != Paid && b.endDate < now && b.status != Cancelled
  }

  /** The page's `overdueBookings`: unpaid bookings past their end date. */
  function OverdueBookings(bs: seq<Booking>, now: Instant): (r: seq<Booking>)
    ensures IsSubsequence(r, bs)
    ensures forall b :: b in r <==> b in bs && b.paymentStatus != Paid && b.endDate < now && b.status != Cancelled
    ensures forall b :: multiset(r)[b] == if OverdueInQueue(b, now) then multiset(bs)[b] else 0
  {
    FilterMembers(bs, b => OverdueInQueue(b, now));
    forall x
      ensures multiset(Filter(bs, b => OverdueInQueue(b, now)))[x] == if OverdueInQueue(x, now) then multiset(bs)[x] else 0
    {
      FilterCounts(bs, b => OverdueInQueue(b, now), x);
    }
    Filter(bs, b => OverdueInQueue(b, now))
  }

  /** `Array.from(new Set(bookings.map(b => b.serviceName)))`: each service
      name once, in order of first appearance. */
  function UniqueServiceTypes(bs: seq<Booking>): (r: seq<string>)
    ensures Distinct(r)
    ensures forall i :: 0 <= i < |bs| ==> bs[i].serviceName in r
    ensures forall n :: n in r ==> n in ServiceNames(bs)
    ensures forall i, j :: 0 <= i < j < |r| ==>
      FirstIndex(ServiceNames(bs), r[i]) < FirstIndex(ServiceNames(bs), r[j])
  {
    DedupFirstAppearance(ServiceNames(bs));
    Dedup(ServiceNames(bs))
  }

  const MsPerDay: int := 24 * 60 * 60 * 1000

  /** `calculateDays`: `Math.ceil((end - start) / MsPerDay)`, the least
      number of whole days that covers the span. */
  function CalculateDays(start: Instant, end: Instant): (r: int)
    ensures (r - 1) * MsPerDay < end - start <= r * MsPerDay
  {
    -((start - end) / MsPerDay)
  }

  // ---------------------------------------------------------------------
  // The filtered list
  // ---------------------------------------------------------------------

  /** `toLowerCase` on one character, for the Latin letters. */
  function LowerChar(c: char): char
  {
    if 'A' <= c <= 'Z' then (c as int + 32) as char else c
  }

  function Lower(s: string): (r: string)
    ensures |r| == |s|
  {
    seq(|s|, i requires 0 <= i < |s| => LowerChar(s[i]))
  }

  /** `needle` occurs in `hay` starting at position `i`. */
  predicate OccursAt(hay: string, needle: string, i: int)
  {
    0 <= i && i + |needle| <= |hay| && hay[i..i + |needle|] == needle
  }

  /** `hay.includes(needle)`. */
  function Includes(hay: string, needle: string): (r: bool)
    ensures r <==> exists i :: OccursAt(hay, needle, i)
    decreases |hay|
  {
    if |needle| <= |hay| && hay[..|needle|] == needle then
      assert OccursAt(hay, needle, 0);
      true
    else if hay == [] then false
    else
      var r := Includes(hay[1..], needle);
      assert forall i :: OccursAt(hay[1..], needle, i) <==> OccursAt(hay, needle, i + 1) by {
        forall i
          ensures OccursAt(hay[1..], needle, i) <==> OccursAt(hay, needle, i + 1)
        {
          if 0 <= i && i + |needle| <= |hay| - 1 {
            assert hay[1..][i..i + |needle|] == hay[i + 1..i + 1 + |needle|];
          }
        }
      }
      assert forall i :: OccursAt(hay, needle, i) ==> i >= 1 && OccursAt(hay[1..], needle, i - 1);
      r
  }

  /** The filter settings: the selected tab, the search text, the date
      bounds and the selected service (`""` for any). */
  datatype Criteria = Criteria(
    tab: int,
    searchText: string,
    fromDate: Option<Instant>,
    toDate: Option<Instant>,
    serviceType: string)

  /** The tab condition: 0 all, 1 pending, 2 confirmed or in progress,
      3 completed, 4 not fully paid; a tab index the switch does not name
      keeps its initial `true`. */
  predicate TabAdmits(tab: int, b: Booking)
  {
    if tab == 1 then b.status == Pending
    else if tab == 2 then b.status == Confirmed || b.status == InProgress
    else if tab == 3 then b.status == Completed
    else if tab == 4 then b.paymentStatus != Paid
    else true
  }

  /** Case-insensitive on the name and the service, case-sensitive on the phone. */
  predicate SearchAdmits(text: string, b: Booking)
  {
    || text == ""
    || Includes(Lower(b.customerName), Lower(text))
    || Includes(b.customerPhone, text)
    || Includes(Lower(b.serviceName), Lower(text))
  }

  predicate DateAdmits(c: Criteria, b: Booking)
  {
    && (c.fromDate.None? || b.startDate >= c.fromDate.value)
    && (c.toDate.None? || b.endDate <= c.toDate.value)
  }

  predicate ServiceAdmits(c: Criteria, b: Booking)
  {
    c.serviceType == "" || b.serviceName == c.serviceType
  }

  predicate Admits(c: Criteria, b: Booking)
  {
    TabAdmits(c.tab, b) && SearchAdmits(c.searchText, b) && DateAdmits(c, b) && ServiceAdmits(c, b)
  }

  /** `filteredBookings`: the bookings meeting all four conditions, in list
      order, none of the others and every one of those. */
  function FilteredBookings(bs: seq<Booking>, c: Criteria): (r: seq<Booking>)
    ensures IsSubsequence(r, bs)
    ensures forall i :: 0 <= i < |r| ==>
      TabAdmits(c.tab, r[i]) && SearchAdmits(c.searchText, r[i]) && DateAdmits(c, r[i]) && ServiceAdmits(c, r[i])
    ensures forall b :: b in bs ==> multiset(r)[b] == if Admits(c, b) then multiset(bs)[b] else 0
  {
    var admitted := Filter(bs, b => Admits(c, b));
    FilterMembers(bs, b => Admits(c, b));
    forall x | x in bs
      ensures multiset(admitted)[x] == if Admits(c, x) then multiset(bs)[x] else 0
    {
      FilterCounts(bs, b => Admits(c, b), x);
    }
    admitted
  }

  /** Re-applying the same criteria changes nothing. */
  lemma FilteredBookingsIdempotent(bs: seq<Booking>, c: Criteria)
    ensures FilteredBookings(FilteredBookings(bs, c), c) == FilteredBookings(bs, c)
  {
    FilterIdempotent(bs, b => Admits(c, b));
  }

  /** With tab 0 and every other criterion absent, the whole list shows. */
  lemma NoCriteriaShowsAll(bs: seq<Booking>)
    ensures FilteredBookings(bs, Criteria(0, "", None, None, "")) == bs
  {
    FilterKeepsAll(bs, b => Admits(Criteria(0, "", None, None, ""), b));
  }
}
