/** Reconciliation of the payment provider's notifications. The handler never
    fails: every outcome is an acknowledgement with `received: true`, and
    only the confirm branch writes. */
module PaymentWebhook {
  import opened Wrappers
  import opened BookingEntity
  import opened BookingRepository
  import opened BookingService

  const BookingNotFoundReason := "Booking not found"
  const AlreadyConfirmedReason := "Booking already confirmed"

  /** The acknowledgement body; absent fields are left out of the JSON. */
  datatype Ack = Ack(
    received: bool,
    processed: Option<bool>,
    reason: Option<string>,
    bookingId: Option<string>,
    error: Option<string>)

  const ReceivedOnly := Ack(true, None, None, None, None)

  /** The parts of a notification the handler reads: `action` and `data.id`. */
  datatype Notification = Notification(action: Option<string>, dataId: Option<string>)

  /** Store failures the model cannot produce on its own: the lookup by
      payment id throwing, and the confirmation throwing with a message. */
  datatype Faults = Faults(lookupFails: bool, confirmFails: Option<string>)

  const NoFaults := Faults(false, None)

  /** The notification reaches reconciliation: a payment event with a
      non-empty `data.id`. */
  predicate IsPaymentEvent(n: Notification) {
    n.action in {Some("payment.created"), Some("payment.updated")}
    && n.dataId.Some? && n.dataId.value != ""
  }

  /** `handlePaymentUpdate`. */
  function HandlePaymentUpdate(store: Store, paymentId: string, now: int, faults: Faults): (r: (Ack, Store))
    ensures r.0.received
    ensures r.0.processed.Some?
    ensures PaidIsConfirmed(store) ==> PaidIsConfirmed(r.1)
    ensures r.1 != store ==> r.0.processed == Some(true) && r.0.bookingId.Some?
    ensures r.0.processed == Some(false) ==> r.1 == store
    ensures r.0.reason == Some(BookingNotFoundReason) <==>
      faults.lookupFails || FindByPaymentId(store, paymentId).None?
    ensures r.0.bookingId.Some? ==>
      !faults.lookupFails && faults.confirmFails.None? && r.0.bookingId.value in store
      && FindByPaymentId(store, paymentId) == Some(Entry(r.0.bookingId.value, store[r.0.bookingId.value]))
      && store[r.0.bookingId.value].status != Confirmed
      && r.1 == store[r.0.bookingId.value := store[r.0.bookingId.value].(status := Confirmed, updatedAt := now)]
    ensures !faults.lookupFails && FindByPaymentId(store, paymentId).Some?
      && FindByPaymentId(store, paymentId).value.booking.status == Confirmed
      ==> r == (Ack(true, Some(true), Some(AlreadyConfirmedReason), None, None), store)
    ensures !faults.lookupFails && FindByPaymentId(store, paymentId).Some?
      && FindByPaymentId(store, paymentId).value.booking.status != Confirmed && faults.confirmFails.Some?
      ==> r == (Ack(true, Some(false), None, None, faults.confirmFails), store)
    ensures !faults.lookupFails && faults.confirmFails.None? && FindByPaymentId(store, paymentId).Some?
      && FindByPaymentId(store, paymentId).value.booking.status != Confirmed
      ==> var id := FindByPaymentId(store, paymentId).value.id;
        r == (Ack(true, Some(true), None, Some(id), None),
              store[id := store[id].(status := Confirmed, updatedAt := now)])
  {
    if faults.lookupFails then (Ack(true, Some(false), Some(BookingNotFoundReason), None, None), store)
    else
      match FindByPaymentId(store, paymentId)
      case None => (Ack(true, Some(false), Some(BookingNotFoundReason), None, None), store)
      case Some(e) =>
        if e.booking.status == Confirmed then (Ack(true, Some(true), Some(AlreadyConfirmedReason), None, None), store)
        else if faults.confirmFails.Some? then (Ack(true, Some(false), None, None, faults.confirmFails), store)
        else
          match ConfirmBookingPayment(store, e.id, paymentId, now)
          case Err(msg) => (Ack(true, Some(false), None, None, Some(msg)), store)
          case Ok((c, s)) => (Ack(true, Some(true), None, Some(c.id), None), s)
  }

  /** `handleMercadoPagoWebhook`: dispatch on the action. */
  function HandleWebhook(store: Store, n: Notification, now: int, faults: Faults): (r: (Ack, Store))
    ensures r.0.received
    ensures !IsPaymentEvent(n) ==> r == (ReceivedOnly, store)
    ensures IsPaymentEvent(n) ==> r.0.processed.Some?
    ensures IsPaymentEvent(n) ==> r == HandlePaymentUpdate(store, n.dataId.value, now, faults)
    ensures PaidIsConfirmed(store) ==> PaidIsConfirmed(r.1)
  {
    if IsPaymentEvent(n) then HandlePaymentUpdate(store, n.dataId.value, now, faults)
    else (ReceivedOnly, store)
  }

  /** When every booking with a payment reference is confirmed, the confirm
      branch cannot run: whatever arrives, the store is unchanged and no
      booking id is reported. */
  lemma ConfirmBranchNeedsUnconfirmedPaidBooking(store: Store, n: Notification, now: int, faults: Faults)
    requires PaidIsConfirmed(store)
    ensures HandleWebhook(store, n, now, faults).1 == store
    ensures HandleWebhook(store, n, now, faults).0.bookingId.None?
  {
    if IsPaymentEvent(n) {
      var found := FindByPaymentId(store, n.dataId.value);
      if !faults.lookupFails && found.Some? {
        assert store[found.value.id].paymentId.Some?;
      }
    }
  }

  /** Redelivering a notification after it confirmed a booking writes
      nothing and reports the booking as already confirmed. */
  lemma {:induction false} RedeliveryIsIdempotent(store: Store, n: Notification, now: int, later: int)
    requires HandleWebhook(store, n, now, NoFaults).0.bookingId.Some?
    ensures var s1 := HandleWebhook(store, n, now, NoFaults).1;
      HandleWebhook(s1, n, later, NoFaults) == (Ack(true, Some(true), Some(AlreadyConfirmedReason), None, None), s1)
  {
    var p := n.dataId.value;
    var id := HandleWebhook(store, n, now, NoFaults).0.bookingId.value;
    var s1 := HandleWebhook(store, n, now, NoFaults).1;
    var before := FindByPaymentId(store, p);
    assert store[id].paymentId == Some(p);
    assert s1 == store[id := store[id].(status := Confirmed, updatedAt := now)];
    assert PaymentMatches(s1, p) == PaymentMatches(store, p);
    var after := FindByPaymentId(s1, p);
    assert after.Some?;
    DocumentIds.IdLeAntisymmetric(after.value.id, id);
  }
}
