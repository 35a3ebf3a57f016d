/** The booking collection over the document store, modelled as a map from
    document id to booking. Every operation is a pure function of the store;
    those that write return the new store. */
module BookingRepository {
  import opened Wrappers
  import opened BookingEntity
  import opened DocumentIds

  type Store = map<string, Booking>

  /** A booking together with the id of its document. */
  datatype Entry = Entry(id: string, booking: Booking)

  /** `add(booking)`: the document gets a store-generated id. */
  function Create(store: Store, freshId: string, b: Booking): (r: (Entry, Store))
    requires FreshIn(freshId, store)
    ensures r.0 == Entry(freshId, b)
    ensures r.1.Keys == store.Keys + {freshId} && |r.1| == |store| + 1
    ensures r.1[freshId] == b
    ensures forall id :: id in store ==> r.1[id] == store[id]
  {
    (Entry(freshId, b), store[freshId := b])
  }

  function FindById(store: Store, id: string): (r: Option<Entry>)
    ensures r.None? <==> id !in store
    ensures r.Some? ==> r.value == Entry(id, store[id])
  {
    if id in store then Some(Entry(id, store[id])) else None
  }

  /** Reading a just-created booking back yields it under its new id. */
  lemma CreateThenFind(store: Store, freshId: string, b: Booking, other: string)
    requires FreshIn(freshId, store)
    ensures FindById(Create(store, freshId, b).1, freshId) == Some(Create(store, freshId, b).0)
    ensures other != freshId ==> FindById(Create(store, freshId, b).1, other) == FindById(store, other)
  {
  }

  /** The documents whose owner is `userId` (the store gives no order). */
  function FindByUserId(store: Store, userId: string): (r: Store)
    ensures forall id :: id in r <==> id in store && store[id].userId == userId
    ensures forall id :: id in r ==> r[id] == store[id]
  {
    map id | id in store && store[id].userId == userId :: store[id]
  }

  /** The documents of room `roomId` with status `status`. */
  function FindByRoomIdAndStatus(store: Store, roomId: string, status: Status): (r: Store)
    ensures forall id :: id in r <==> id in store && store[id].roomId == roomId && store[id].status == status
    ensures forall id :: id in r ==> r[id] == store[id]
  {
    map id | id in store && store[id].roomId == roomId && store[id].status == status :: store[id]
  }

  /** `update(id, data)` followed by the re-read of the document. */
  function Update(store: Store, id: string, p: Patch): (r: Result<(Entry, Store), string>)
    ensures r.Err? <==> id !in store
    ensures r.Err? ==> r.error == NoDocumentToUpdate
    ensures r.Ok? ==> r.value.1.Keys == store.Keys
    ensures r.Ok? ==> r.value.1[id] == Merge(store[id], p)
    ensures r.Ok? ==> forall k :: k in store && k != id ==> r.value.1[k] == store[k]
    ensures r.Ok? ==> r.value.0 == Entry(id, r.value.1[id])
  {
    if id !in store then Err(NoDocumentToUpdate)
    else
      var s := store[id := Merge(store[id], p)];
      Ok((Entry(id, s[id]), s))
  }

  /** The ids of the bookings that carry `paymentId`. */
  function PaymentMatches(store: Store, paymentId: string): set<string> {
    set id | id in store && store[id].paymentId == Some(paymentId)
  }

  /** `where('paymentId', '==', p).limit(1)`: the matching booking with the
      least id, or `null`. */
  function FindByPaymentId(store: Store, paymentId: string): (r: Option<Entry>)
    ensures r.None? <==> forall id :: id in store ==> store[id].paymentId != Some(paymentId)
    ensures r.Some? ==> r.value.id in store && r.value.booking == store[r.value.id]
    ensures r.Some? ==> r.value.booking.paymentId == Some(paymentId)
    ensures r.Some? ==> forall id :: id in store && store[id].paymentId == Some(paymentId) ==> IdLe(r.value.id, id)
  {
    var matches := PaymentMatches(store, paymentId);
    assert forall id :: id in store && store[id].paymentId == Some(paymentId) ==> id in matches;
    if matches == {} then
      None
    else
      var id := LeastId(matches);
      Some(Entry(id, store[id]))
  }
}
