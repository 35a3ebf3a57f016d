/** The booking lifecycle: creation gated by availability, owner-checked
    reads, updates while `created`, cancellation, and payment confirmation.
    An operation that fails returns `Err` and no store: every failure here
    happens before the first write, so the store is left as it was. */
module BookingService {
  import opened Wrappers
  import opened BookingEntity
  import opened DocumentIds
  import opened BookingRepository
  import opened Availability

  const NotAvailableMessage := "Room not available for selected dates"
  const InvalidUserMessage := "Invalid user ID provided"
  const NotFoundMessage := "Booking not found"
  const NotUpdatableMessage := "Cannot update confirmed or cancelled bookings"
  const NotCancellableMessage := "Cannot cancel confirmed or already cancelled bookings"

  /** The create request body. */
  datatype CreateRequest = CreateRequest(
    roomId: string,
    checkIn: int,
    checkOut: int,
    numberOfRooms: int,
    isBreakfastIncluded: bool,
    specialRequests: Option<string>,
    numberOfGuests: int,
    totalPrice: int,
    roomType: string)

  /** What `createBooking` returns: the stored booking (with its confirmation
      code) and the payment preference, `null` when the provider failed. */
  datatype BookingCreated<P> = BookingCreated(entry: Entry, paymentPreference: Option<P>)

  /** The booking a create request describes, before any code is assigned. */
  function NewBooking(d: CreateRequest, userId: string, now: int): (b: Booking)
    ensures b.userId == userId && b.roomId == d.roomId
    ensures b.checkIn == d.checkIn && b.checkOut == d.checkOut
    ensures b.status == Created && b.paymentId.None? && b.confirmationCode.None?
    ensures b.createdAt == now && b.updatedAt == now
  {
    Booking(userId, d.roomId, d.checkIn, d.checkOut, Created, None, None, now, now,
            d.numberOfRooms, d.isBreakfastIncluded, d.specialRequests, d.numberOfGuests,
            d.totalPrice, d.roomType)
  }

  /** `createBooking`. `freshId` is the id the store hands out, `code` the
      generated confirmation code and `preference` the payment provider's
      answer; all three come from outside the service. */
  function CreateBooking<P>(store: Store, d: CreateRequest, userId: string, now: int,
                            freshId: string, code: string, preference: Result<P, string>)
    : (r: Result<(BookingCreated<P>, Store), string>)
    requires FreshIn(freshId, store)
    ensures r.Err? <==> d.checkIn >= d.checkOut || !Available(store, d.roomId, d.checkIn, d.checkOut)
    ensures r.Err? && d.checkIn >= d.checkOut ==> r.error == RangeError
    ensures r.Err? && d.checkIn < d.checkOut ==> r.error == NotAvailableMessage
    ensures r.Ok? ==> r.value.1 == store[freshId := r.value.0.entry.booking]
    ensures r.Ok? ==> r.value.0.entry.id == freshId
    ensures r.Ok? ==> r.value.0.entry.booking == NewBooking(d, userId, now).(confirmationCode := Some(code))
    ensures r.Ok? ==> r.value.0.paymentPreference == preference.ToOption()
    ensures r.Ok? && PaidIsConfirmed(store) ==> PaidIsConfirmed(r.value.1)
    ensures r.Ok? && ConfirmedDisjoint(store) ==> ConfirmedDisjoint(r.value.1)
  {
    var available :- CheckAvailability(store, d.roomId, d.checkIn, d.checkOut);
    if !available then Err(NotAvailableMessage)
    else
      var b := NewBooking(d, userId, now);
      var (created, s1) := Create(store, freshId, b);
      var stamp := EmptyPatch.(confirmationCode := Some(code), updatedAt := Some(now));
      CreateThenStamp(store, freshId, b, code, now);
      var s2 := Update(s1, created.id, stamp).value.1;
      UnconfirmedKeepsInvariants(store, freshId, b.(confirmationCode := Some(code)));
      Ok((BookingCreated(Entry(created.id, b.(confirmationCode := Some(code))), preference.ToOption()), s2))
  }

  /** Creating a booking and then stamping it with its confirmation code
      and the same update time stores the booking with that code. */
  lemma {:induction false} CreateThenStamp(store: Store, freshId: string, b: Booking, code: string, now: int)
    requires FreshIn(freshId, store) && b.updatedAt == now
    ensures var s1 := Create(store, freshId, b).1;
      var stamp := EmptyPatch.(confirmationCode := Some(code), updatedAt := Some(now));
      Update(s1, freshId, stamp).Ok?
      && Update(s1, freshId, stamp).value.1 == store[freshId := b.(confirmationCode := Some(code))]
  {
    var s1 := Create(store, freshId, b).1;
    var stamp := EmptyPatch.(confirmationCode := Some(code), updatedAt := Some(now));
    assert Merge(b, stamp) == b.(confirmationCode := Some(code));
    assert s1 == store[freshId := b];
  }

  /** Writing a booking that is neither confirmed nor paid keeps both store
      invariants. */
  lemma {:induction false} UnconfirmedKeepsInvariants(store: Store, id: string, b: Booking)
    requires b.status != Confirmed && b.paymentId.None?
    ensures PaidIsConfirmed(store) ==> PaidIsConfirmed(store[id := b])
    ensures ConfirmedDisjoint(store) ==> ConfirmedDisjoint(store[id := b])
  {
  }

  /** `validateUserId`: only the empty string is refused (the type rules out
      the non-string case). */
  function ValidateUserId(userId: string): (r: Result<(), string>)
    ensures r.Err? <==> userId == ""
    ensures r.Err? ==> r.error == InvalidUserMessage
  {
    if userId == "" then Err(InvalidUserMessage) else Ok(())
  }

  /** `getUserBookings`: exactly the caller's bookings. */
  function GetUserBookings(store: Store, userId: string): (r: Result<Store, string>)
    ensures r.Err? <==> userId == ""
    ensures r.Err? ==> r.error == InvalidUserMessage
    ensures r.Ok? ==> forall id :: id in r.value <==> id in store && store[id].userId == userId
    ensures r.Ok? ==> forall id :: id in r.value ==> r.value[id] == store[id]
  {
    var _ :- ValidateUserId(userId);
    Ok(FindByUserId(store, userId))
  }

  /** The caller may see booking `id`. */
  predicate OwnedBy(store: Store, id: string, userId: string) {
    id in store && store[id].userId == userId
  }

  /** `getBookingById`: the booking when it exists and the caller owns it. */
  function GetBookingById(store: Store, id: string, userId: string): (r: Result<Entry, string>)
    ensures r.Ok? <==> userId != "" && OwnedBy(store, id, userId)
    ensures r.Err? ==> r.error == (if userId == "" then InvalidUserMessage else NotFoundMessage)
    ensures r.Ok? ==> r.value == Entry(id, store[id])
  {
    var _ :- ValidateUserId(userId);
    match FindById(store, id)
    case None => Err(NotFoundMessage)
    case Some(e) => if e.booking.userId != userId then Err(NotFoundMessage) else Ok(e)
  }

  /** A caller cannot tell a missing booking from someone else's. */
  lemma NotFoundIsIndistinguishable(store: Store, missing: string, foreign: string, userId: string)
    requires userId != "" && missing !in store
    requires foreign in store && store[foreign].userId != userId
    ensures GetBookingById(store, missing, userId) == GetBookingById(store, foreign, userId) == Err(NotFoundMessage)
  {
  }

  /** `updateBooking`: merges the request into a `created` booking of the
      caller's and stamps `updatedAt`. */
  function UpdateBooking(store: Store, id: string, d: UpdateRequest, userId: string, now: int)
    : (r: Result<(Entry, Store), string>)
    ensures r.Ok? <==> userId != "" && OwnedBy(store, id, userId) && store[id].status == Created
    ensures r.Err? && userId != "" && OwnedBy(store, id, userId) ==> r.error == NotUpdatableMessage
    ensures r.Err? && userId != "" && !OwnedBy(store, id, userId) ==> r.error == NotFoundMessage
    ensures r.Ok? ==> r.value.1 == store[id := Merge(store[id], RequestPatch(d, now))]
    ensures r.Ok? ==> r.value.0 == Entry(id, r.value.1[id]) && r.value.1[id].updatedAt == now
    ensures r.Ok? && PaidIsConfirmed(store) ==> PaidIsConfirmed(r.value.1)
  {
    var e :- GetBookingById(store, id, userId);
    if e.booking.status != Created then Err(NotUpdatableMessage)
    else
      var u := Update(store, id, RequestPatch(d, now));
      assert u.Ok?;
      u
  }

  /** `cancelBooking`: any status other than cancelled or confirmed (the
      undeclared ones included) may be cancelled. */
  function CancelBooking(store: Store, id: string, userId: string, now: int)
    : (r: Result<(Entry, Store), string>)
    ensures r.Ok? <==> userId != "" && OwnedBy(store, id, userId) && store[id].status !in {Cancelled, Confirmed}
    ensures r.Err? && userId != "" && OwnedBy(store, id, userId) ==> r.error == NotCancellableMessage
    ensures r.Err? && userId != "" && !OwnedBy(store, id, userId) ==> r.error == NotFoundMessage
    ensures r.Ok? ==> r.value.1 == store[id := store[id].(status := Cancelled, updatedAt := now)]
    ensures r.Ok? ==> r.value.0 == Entry(id, r.value.1[id])
    ensures r.Ok? && PaidIsConfirmed(store) ==> PaidIsConfirmed(r.value.1)
    ensures r.Ok? && ConfirmedDisjoint(store) ==> ConfirmedDisjoint(r.value.1)
  {
    var _ :- ValidateUserId(userId);
    var e :- GetBookingById(store, id, userId);
    if e.booking.status == Cancelled || e.booking.status == Confirmed then Err(NotCancellableMessage)
    else
      var u := Update(store, id, EmptyPatch.(status := Some(Cancelled), updatedAt := Some(now)));
      assert u.Ok?;
      u
  }

  /** `confirmBookingPayment`: confirms and records the payment; an already
      confirmed booking comes back as it is, with no write. Nothing stops a
      cancelled booking from being confirmed. */
  function ConfirmBookingPayment(store: Store, bookingId: string, paymentId: string, now: int)
    : (r: Result<(Entry, Store), string>)
    ensures r.Err? <==> bookingId !in store
    ensures r.Err? ==> r.error == NotFoundMessage
    ensures r.Ok? ==> bookingId in r.value.1 && r.value.0 == Entry(bookingId, r.value.1[bookingId])
    ensures r.Ok? && store[bookingId].status == Confirmed ==> r.value.1 == store
    ensures r.Ok? && store[bookingId].status != Confirmed ==>
      r.value.1 == store[bookingId := store[bookingId].(status := Confirmed, paymentId := Some(paymentId), updatedAt := now)]
    ensures r.Ok? ==> r.value.1[bookingId].status == Confirmed
    ensures r.Ok? && PaidIsConfirmed(store) ==> PaidIsConfirmed(r.value.1)
  {
    match FindById(store, bookingId)
    case None => Err(NotFoundMessage)
    case Some(e) =>
      if e.booking.status == Confirmed then Ok((e, store))
      else
        var u := Update(store, bookingId, EmptyPatch.(status := Some(Confirmed), paymentId := Some(paymentId), updatedAt := Some(now)));
        assert u.Ok?;
        u
  }

  /** Confirming twice is confirming once: the second call writes nothing
      and answers with the booking the first call produced. */
  lemma ConfirmIsIdempotent(store: Store, bookingId: string, paymentId: string, now: int, later: int)
    requires bookingId in store
    ensures var first := ConfirmBookingPayment(store, bookingId, paymentId, now).value;
      ConfirmBookingPayment(first.1, bookingId, paymentId, later) == Ok(first)
  {
  }

  /** A minimal booking for the witnesses below. */
  function Stay(roomId: string, checkIn: int, checkOut: int, status: Status): Booking {
    Booking("guest", roomId, checkIn, checkOut, status, None, None, 0, 0, 1, false, None, 1, 0, "Standard")
  }

  /** An update that only sets `status` to the given text. */
  function StatusRequest(status: string): UpdateRequest {
    UpdateRequest(None, None, None, None, None, None, None, None, None, Some(status))
  }

  /** `updateBooking` does not re-check availability: a guest can set their
      own `created` booking to `confirmed` over another confirmed stay. */
  lemma UpdateCanConfirmOverlappingStays()
    ensures exists store: Store, id: string, d: UpdateRequest, now: int ::
      ConfirmedDisjoint(store) && PaidIsConfirmed(store)
      && UpdateBooking(store, id, d, "guest", now).Ok?
      && !ConfirmedDisjoint(UpdateBooking(store, id, d, "guest", now).value.1)
  {
    var store := map["a" := Stay("suite-301", 0, 10, Confirmed), "b" := Stay("suite-301", 5, 15, Created)];
    assert ConfirmedDisjoint(store) && PaidIsConfirmed(store) by {
      assert forall id :: id in store ==> id == "a" || id == "b";
      assert forall id :: id in store ==> store[id].paymentId.None?;
    }
    var after := UpdateBooking(store, "b", StatusRequest("confirmed"), "guest", 1);
    assert after.Ok?;
    assert !ConfirmedDisjoint(after.value.1) by {
      assert after.value.1["b"].status == Confirmed;
      assert after.value.1["a"] == store["a"];
    }
  }

  /** `confirmBookingPayment` does not re-check availability either, and
      revives cancelled bookings: confirming two overlapping unconfirmed
      bookings of one room breaks disjointness. */
  lemma ConfirmCanConfirmOverlappingStays()
    ensures exists store: Store, paymentId: string, now: int ::
      ConfirmedDisjoint(store) && PaidIsConfirmed(store)
      && "b" in store && store["b"].status == Cancelled
      && ConfirmBookingPayment(store, "a", paymentId, now).Ok?
      && ConfirmBookingPayment(ConfirmBookingPayment(store, "a", paymentId, now).value.1, "b", paymentId, now).Ok?
      && !ConfirmedDisjoint(ConfirmBookingPayment(ConfirmBookingPayment(store, "a", paymentId, now).value.1, "b", paymentId, now).value.1)
  {
    var store := map["a" := Stay("suite-301", 0, 10, Created), "b" := Stay("suite-301", 5, 15, Cancelled)];
    assert ConfirmedDisjoint(store) && PaidIsConfirmed(store) by {
      assert forall id :: id in store ==> store[id].status != Confirmed && store[id].paymentId.None?;
    }
    var s1 := ConfirmBookingPayment(store, "a", "p", 1).value.1;
    var s2 := ConfirmBookingPayment(s1, "b", "p", 1).value.1;
    assert !ConfirmedDisjoint(s2) by {
      assert s2["a"].status == Confirmed && s2["b"].status == Confirmed;
      assert s2["a"].roomId == s2["b"].roomId;
    }
  }
}
