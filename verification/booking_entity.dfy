/** The booking record, the partial update the repository applies to it, and
    the update request the booking controller binds. Instants are integer
    milliseconds; prices are whole currency units. */
module BookingEntity {
  import opened Wrappers

  /** The four declared statuses. The update request validates `status` only
      as a string, so any other text can reach the store: `Unlisted` holds it. */
  datatype Status = Created | PendingPayment | Confirmed | Cancelled | Unlisted(name: string)

  /** The status a string names, as the store keeps it. */
  function ParseStatus(s: string): (st: Status)
    ensures st == Confirmed <==> s == "confirmed"
    ensures st == Created <==> s == "created"
    ensures st.Unlisted? <==> s !in {"created", "pending_payment", "confirmed", "cancelled"}
  {
    if s == "created" then Created
    else if s == "pending_payment" then PendingPayment
    else if s == "confirmed" then Confirmed
    else if s == "cancelled" then Cancelled
    else Unlisted(s)
  }

  function StatusName(st: Status): string {
    match st
    case Created => "created"
    case PendingPayment => "pending_payment"
    case Confirmed => "confirmed"
    case Cancelled => "cancelled"
    case Unlisted(name) => name
  }

  /** Reading back the text a status is stored as gives the status again. */
  lemma StatusNameRoundTrip(st: Status)
    requires st.Unlisted? ==> st.name !in {"created", "pending_payment", "confirmed", "cancelled"}
    ensures ParseStatus(StatusName(st)) == st
  {
  }

  /** A booking document. Its id is the key it is stored under. */
  datatype Booking = Booking(
    userId: string,
    roomId: string,
    checkIn: int,
    checkOut: int,
    status: Status,
    paymentId: Option<string>,
    confirmationCode: Option<string>,
    createdAt: int,
    updatedAt: int,
    numberOfRooms: int,
    isBreakfastIncluded: bool,
    specialRequests: Option<string>,
    numberOfGuests: int,
    totalPrice: int,
    roomType: string)

  /** A `Partial<Booking>`: the fields an update sets; absent fields are kept. */
  datatype Patch = Patch(
    roomId: Option<string>,
    checkIn: Option<int>,
    checkOut: Option<int>,
    numberOfRooms: Option<int>,
    isBreakfastIncluded: Option<bool>,
    specialRequests: Option<string>,
    numberOfGuests: Option<int>,
    totalPrice: Option<int>,
    roomType: Option<string>,
    status: Option<Status>,
    paymentId: Option<string>,
    confirmationCode: Option<string>,
    updatedAt: Option<int>)

  const EmptyPatch := Patch(None, None, None, None, None, None, None, None, None, None, None, None, None)

  /** The store's field-wise update of one document. */
  function Merge(b: Booking, p: Patch): Booking {
    Booking(
      b.userId,
      p.roomId.GetOr(b.roomId),
      p.checkIn.GetOr(b.checkIn),
      p.checkOut.GetOr(b.checkOut),
      p.status.GetOr(b.status),
      if p.paymentId.Some? then p.paymentId else b.paymentId,
      if p.confirmationCode.Some? then p.confirmationCode else b.confirmationCode,
      b.createdAt,
      p.updatedAt.GetOr(b.updatedAt),
      p.numberOfRooms.GetOr(b.numberOfRooms),
      p.isBreakfastIncluded.GetOr(b.isBreakfastIncluded),
      if p.specialRequests.Some? then p.specialRequests else b.specialRequests,
      p.numberOfGuests.GetOr(b.numberOfGuests),
      p.totalPrice.GetOr(b.totalPrice),
      p.roomType.GetOr(b.roomType))
  }

  /** Applying a patch twice is applying it once; the empty patch changes
      nothing; owner and creation time are never patched. */
  lemma MergeLaws(b: Booking, p: Patch)
    ensures Merge(Merge(b, p), p) == Merge(b, p)
    ensures Merge(b, EmptyPatch) == b
    ensures Merge(b, p).userId == b.userId && Merge(b, p).createdAt == b.createdAt
  {
  }

  /** The update request body (whitelisted, unknown fields are refused).
      `status` is any string. */
  datatype UpdateRequest = UpdateRequest(
    roomId: Option<string>,
    checkIn: Option<int>,
    checkOut: Option<int>,
    numberOfRooms: Option<int>,
    isBreakfastIncluded: Option<bool>,
    specialRequests: Option<string>,
    numberOfGuests: Option<int>,
    totalPrice: Option<int>,
    roomType: Option<string>,
    status: Option<string>)

  /** `{ ...data, updatedAt: now }`: the request's fields plus the stamp. */
  function RequestPatch(d: UpdateRequest, now: int): (p: Patch)
    ensures p.paymentId.None? && p.confirmationCode.None?
    ensures p.updatedAt == Some(now)
    ensures p.status.Some? <==> d.status.Some?
    ensures d.status.Some? ==> p.status.value == ParseStatus(d.status.value)
  {
    Patch(
      d.roomId, d.checkIn, d.checkOut, d.numberOfRooms, d.isBreakfastIncluded,
      d.specialRequests, d.numberOfGuests, d.totalPrice, d.roomType,
      if d.status.Some? then Some(ParseStatus(d.status.value)) else None,
      None, None, Some(now))
  }

  /** Half-open stays [aIn, aOut) and [bIn, bOut) share an instant. */
  predicate Overlaps(aIn: int, aOut: int, bIn: int, bOut: int) {
    aIn < bOut && aOut > bIn
  }

  /** A booking that carries a payment reference is confirmed. */
  ghost predicate PaidIsConfirmed(store: map<string, Booking>) {
    forall id :: id in store && store[id].paymentId.Some? ==> store[id].status == Confirmed
  }

  /** No two confirmed bookings of one room overlap. */
  ghost predicate ConfirmedDisjoint(store: map<string, Booking>) {
    forall a, b ::
      a in store && b in store && a != b
      && store[a].status == Confirmed && store[b].status == Confirmed
      && store[a].roomId == store[b].roomId
      ==> !Overlaps(store[a].checkIn, store[a].checkOut, store[b].checkIn, store[b].checkOut)
  }
}
