/** Sequences of the requests that reach the booking store from outside:
    the guest's create, update and cancel calls and the provider's payment
    notifications. Failed requests leave the store as it was. */
module Lifecycle {
  import opened Wrappers
  import opened BookingEntity
  import opened DocumentIds
  import opened BookingRepository
  import opened BookingService
  import opened PaymentWebhook

  datatype Request =
    | CreateCall(d: CreateRequest, userId: string, now: int, freshId: string, code: string)
    | UpdateCall(id: string, u: UpdateRequest, userId: string, now: int)
    | CancelCall(id: string, userId: string, now: int)
    | WebhookCall(n: Notification, now: int, faults: Faults)

  /** The store after one request. A create whose id is already taken never
      happens (the store hands out unused ids), so it is skipped. The payment
      preference plays no part in the store and is taken as failed. */
  function Apply(store: Store, req: Request): (s: Store)
    ensures PaidIsConfirmed(store) ==> PaidIsConfirmed(s)
  {
    match req
    case CreateCall(d, userId, now, freshId, code) =>
      if !FreshIn(freshId, store) then store
      else
        (match CreateBooking<()>(store, d, userId, now, freshId, code, Err(""))
         case Ok((_, s)) => s
         case Err(_) => store)
    case UpdateCall(id, u, userId, now) =>
      (match UpdateBooking(store, id, u, userId, now)
       case Ok((_, s)) => s
       case Err(_) => store)
    case CancelCall(id, userId, now) =>
      (match CancelBooking(store, id, userId, now)
       case Ok((_, s)) => s
       case Err(_) => store)
    case WebhookCall(n, now, faults) =>
      HandleWebhook(store, n, now, faults).1
  }

  function Run(store: Store, reqs: seq<Request>): Store
    decreases |reqs|
  {
    if |reqs| == 0 then store else Run(Apply(store, reqs[0]), reqs[1..])
  }

  /** Every booking carrying a payment reference is confirmed after any
      sequence of requests that starts from such a store. */
  lemma {:induction false} RunPreservesPaidIsConfirmed(store: Store, reqs: seq<Request>)
    requires PaidIsConfirmed(store)
    ensures PaidIsConfirmed(Run(store, reqs))
    decreases |reqs|
  {
    if |reqs| > 0 {
      RunPreservesPaidIsConfirmed(Apply(store, reqs[0]), reqs[1..]);
    }
  }

  /** No sequence of requests from an empty store ever lets a payment
      notification confirm a booking: payment references are only written
      by that very branch. */
  lemma WebhookNeverConfirms(reqs: seq<Request>, n: Notification, now: int, faults: Faults)
    ensures var s := Run(map[], reqs);
      HandleWebhook(s, n, now, faults) == (HandleWebhook(s, n, now, faults).0, s)
      && HandleWebhook(s, n, now, faults).0.bookingId.None?
  {
    RunPreservesPaidIsConfirmed(map[], reqs);
    ConfirmBranchNeedsUnconfirmedPaidBooking(Run(map[], reqs), n, now, faults);
  }
}
