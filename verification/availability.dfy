/** The availability engine: a room is free for a stay when none of its
    confirmed bookings overlaps the stay as half-open intervals. Reads only:
    no function here returns a store. */
module Availability {
  import opened Wrappers
  import opened BookingEntity
  import opened BookingRepository

  const InvalidRangeMessage := "Check-in date must be before check-out date"
  const CheckFailedPrefix := "Failed to check availability: "
  const MultipleFailedPrefix := "Failed to check availability for multiple rooms: "
  const PeriodFailedPrefix := "Failed to get available rooms: "

  /** The error every range check raises for `checkIn >= checkOut`. */
  const RangeError := CheckFailedPrefix + InvalidRangeMessage

  /** Reference definition: no booking in the whole store that is confirmed
      and of this room shares an instant with [checkIn, checkOut). */
  ghost predicate Available(store: Store, roomId: string, checkIn: int, checkOut: int) {
    forall id :: id in store && store[id].roomId == roomId && store[id].status == Confirmed
      ==> !Overlaps(checkIn, checkOut, store[id].checkIn, store[id].checkOut)
  }

  /** `checkAvailability`: rejects an empty or reversed range whatever the
      store holds, otherwise scans the room's confirmed bookings. */
  function CheckAvailability(store: Store, roomId: string, checkIn: int, checkOut: int): (r: Result<bool, string>)
    ensures r.Err? <==> checkIn >= checkOut
    ensures r.Err? ==> r.error == RangeError
    ensures r.Ok? ==> (r.value <==> Available(store, roomId, checkIn, checkOut))
  {
    if checkIn >= checkOut then Err(RangeError)
    else
      var confirmed := FindByRoomIdAndStatus(store, roomId, Confirmed);
      Ok(!exists id | id in confirmed :: Overlaps(checkIn, checkOut, confirmed[id].checkIn, confirmed[id].checkOut))
  }

  /** A booking that is not confirmed never blocks: removing it, or changing
      it to any other non-confirmed booking, leaves every answer unchanged. */
  lemma NonConfirmedNeverBlock(store: Store, id: string, b: Booking, roomId: string, checkIn: int, checkOut: int)
    requires b.status != Confirmed
    requires id !in store || store[id].status != Confirmed
    ensures CheckAvailability(store[id := b], roomId, checkIn, checkOut) == CheckAvailability(store, roomId, checkIn, checkOut)
  {
    if checkIn < checkOut {
      var s' := store[id := b];
      assert Available(s', roomId, checkIn, checkOut) <==> Available(store, roomId, checkIn, checkOut) by {
        forall k | k in s' && k != id ensures k in store && s'[k] == store[k] { }
        forall k | k in store && k != id ensures k in s' && s'[k] == store[k] { }
      }
    }
  }

  /** Stays that only touch (one's check-out is the other's check-in) never
      conflict, whatever order they come in. */
  lemma BackToBackStaysDoNotConflict(store: Store, roomId: string, checkIn: int, checkOut: int)
    requires checkIn < checkOut
    requires forall id :: (id in store && store[id].roomId == roomId && store[id].status == Confirmed
      ==> store[id].checkIn == checkOut || store[id].checkOut == checkIn)
    ensures CheckAvailability(store, roomId, checkIn, checkOut) == Ok(true)
  {
  }

  datatype RoomAvailability = RoomAvailability(roomId: string, available: bool)

  /** `checkAvailabilityForMultipleRooms`: one entry per requested room, in
      request order; an empty request never reaches the range check. */
  function CheckAvailabilityForMultipleRooms(store: Store, roomIds: seq<string>, checkIn: int, checkOut: int)
    : (r: Result<seq<RoomAvailability>, string>)
    ensures r.Err? <==> |roomIds| > 0 && checkIn >= checkOut
    ensures r.Err? ==> r.error == MultipleFailedPrefix + RangeError
    ensures r.Ok? ==> |r.value| == |roomIds|
    ensures r.Ok? ==> forall i :: 0 <= i < |roomIds| ==>
      r.value[i].roomId == roomIds[i]
      && CheckAvailability(store, roomIds[i], checkIn, checkOut) == Ok(r.value[i].available)
  {
    if |roomIds| == 0 then Ok([])
    else
      match CheckAvailability(store, roomIds[0], checkIn, checkOut)
      case Err(e) => Err(MultipleFailedPrefix + e)
      case Ok(free) =>
        match CheckAvailabilityForMultipleRooms(store, roomIds[1..], checkIn, checkOut)
        case Err(e) => Err(e)
        case Ok(rest) => Ok([RoomAvailability(roomIds[0], free)] + rest)
  }

  /** A room of the fixed catalogue. */
  datatype Room = Room(id: string, roomType: string, name: string)

  const Catalogue: seq<Room> := [
    Room("standard-101", "Standard", "Quarto Standard 101"),
    Room("standard-102", "Standard", "Quarto Standard 102"),
    Room("deluxe-201", "Deluxe", "Quarto Deluxe 201"),
    Room("suite-301", "Suite", "Su\U{00ED}te Master 301")
  ]

  /** Position of a room id in the catalogue; 4 for an id outside it. */
  function CatalogueIndex(id: string): nat {
    if id == "standard-101" then 0
    else if id == "standard-102" then 1
    else if id == "deluxe-201" then 2
    else if id == "suite-301" then 3
    else 4
  }

  /** The catalogue lists its rooms by increasing index, each room once. */
  lemma CatalogueIsOrdered()
    ensures InCatalogueOrder(Catalogue)
  {
    assert CatalogueIndex(Catalogue[0].id) == 0 && CatalogueIndex(Catalogue[1].id) == 1;
    assert CatalogueIndex(Catalogue[2].id) == 2 && CatalogueIndex(Catalogue[3].id) == 3;
  }

  /** Price per night; `prices[roomType] || 200`. */
  function PricePerNight(roomType: string): (p: int)
    ensures roomType == "Standard" ==> p == 200
    ensures roomType == "Deluxe" ==> p == 350
    ensures roomType == "Suite" ==> p == 500
    ensures roomType !in {"Standard", "Deluxe", "Suite"} ==> p == 200
  {
    if roomType == "Deluxe" then 350 else if roomType == "Suite" then 500 else 200
  }

  /** Amenities per room type, with the three-item default. */
  function Amenities(roomType: string): (a: seq<string>)
    ensures roomType == "Standard" ==> a == ["Wi-Fi", "TV", "Ar-condicionado", "Frigobar"]
    ensures roomType == "Deluxe" ==> |a| == 6 && a[5] == "Caf\U{00E9} da manh\U{00E3}"
    ensures roomType == "Suite" ==> |a| == 8 && "Hidromassagem" in a
    ensures roomType !in {"Standard", "Deluxe", "Suite"} ==> a == ["Wi-Fi", "TV", "Ar-condicionado"]
  {
    if roomType == "Standard" then ["Wi-Fi", "TV", "Ar-condicionado", "Frigobar"]
    else if roomType == "Deluxe" then
      ["Wi-Fi", "TV Smart", "Ar-condicionado", "Frigobar", "Varanda", "Caf\U{00E9} da manh\U{00E3}"]
    else if roomType == "Suite" then
      ["Wi-Fi", "TV Smart", "Ar-condicionado", "Frigobar", "Varanda", "Hidromassagem",
       "Servi\U{00E7}o de quarto", "Caf\U{00E9} da manh\U{00E3}"]
    else ["Wi-Fi", "TV", "Ar-condicionado"]
  }

  datatype RoomOffer = RoomOffer(id: string, roomType: string, name: string, pricePerNight: int, amenities: seq<string>)

  function OfferFor(room: Room): RoomOffer {
    RoomOffer(room.id, room.roomType, room.name, PricePerNight(room.roomType), Amenities(room.roomType))
  }

  /** A non-empty type list restricts the catalogue to those types. */
  predicate Wanted(room: Room, roomTypes: Option<seq<string>>) {
    roomTypes.None? || |roomTypes.value| == 0 || room.roomType in roomTypes.value
  }

  predicate InCatalogueOrder(rooms: seq<Room>) {
    forall i, j :: 0 <= i < j < |rooms| ==> CatalogueIndex(rooms[i].id) < CatalogueIndex(rooms[j].id)
  }

  function RoomsToCheck(rooms: seq<Room>, roomTypes: Option<seq<string>>): (r: seq<Room>)
    ensures forall x :: x in r <==> x in rooms && Wanted(x, roomTypes)
  {
    if |rooms| == 0 then []
    else
      var rest := RoomsToCheck(rooms[1..], roomTypes);
      assert forall x :: x in rooms <==> x == rooms[0] || x in rooms[1..];
      if Wanted(rooms[0], roomTypes) then [rooms[0]] + rest else rest
  }

  /** Filtering keeps the catalogue's order. */
  lemma {:induction false} RoomsToCheckKeepsOrder(rooms: seq<Room>, roomTypes: Option<seq<string>>)
    requires InCatalogueOrder(rooms)
    ensures InCatalogueOrder(RoomsToCheck(rooms, roomTypes))
    decreases |rooms|
  {
    if |rooms| > 0 {
      var rest := RoomsToCheck(rooms[1..], roomTypes);
      InOrderTail(rooms);
      RoomsToCheckKeepsOrder(rooms[1..], roomTypes);
      if Wanted(rooms[0], roomTypes) {
        assert RoomsToCheck(rooms, roomTypes) == [rooms[0]] + rest;
        RoomInOrderCons(rooms[0], rest);
      }
    }
  }

  /** The rooms after the first of an ordered list are ordered and all come
      after it. */
  lemma {:induction false} InOrderTail(rooms: seq<Room>)
    requires InCatalogueOrder(rooms) && |rooms| > 0
    ensures InCatalogueOrder(rooms[1..])
    ensures forall x :: x in rooms[1..] ==> CatalogueIndex(rooms[0].id) < CatalogueIndex(x.id)
  {
    forall i, j | 0 <= i < j < |rooms[1..]|
      ensures CatalogueIndex(rooms[1..][i].id) < CatalogueIndex(rooms[1..][j].id)
    {
      assert rooms[1..][i] == rooms[i + 1] && rooms[1..][j] == rooms[j + 1];
    }
    forall x | x in rooms[1..] ensures CatalogueIndex(rooms[0].id) < CatalogueIndex(x.id) {
      var j :| 0 <= j < |rooms[1..]| && rooms[1..][j] == x;
      assert rooms[j + 1] == x;
    }
  }

  /** A room ahead of every room of an ordered list may head it. */
  lemma {:induction false} RoomInOrderCons(room: Room, rest: seq<Room>)
    requires InCatalogueOrder(rest)
    requires forall x :: x in rest ==> CatalogueIndex(room.id) < CatalogueIndex(x.id)
    ensures InCatalogueOrder([room] + rest)
  {
    var all := [room] + rest;
    forall i, j | 0 <= i < j < |all| ensures CatalogueIndex(all[i].id) < CatalogueIndex(all[j].id) {
      assert all[j] == rest[j - 1];
      if i > 0 {
        assert all[i] == rest[i - 1];
      } else {
        assert rest[j - 1] in rest;
      }
    }
  }

  /** The loop over the rooms to check: the first check fails the whole call. */
  function Offers(store: Store, rooms: seq<Room>, checkIn: int, checkOut: int): (r: Result<seq<RoomOffer>, string>)
    ensures r.Err? <==> |rooms| > 0 && checkIn >= checkOut
    ensures r.Err? ==> r.error == RangeError
    ensures r.Ok? ==> forall o :: o in r.value <==>
      exists x :: x in rooms && o == OfferFor(x) && Available(store, x.id, checkIn, checkOut)
  {
    if |rooms| == 0 then Ok([])
    else
      match CheckAvailability(store, rooms[0].id, checkIn, checkOut)
      case Err(e) => Err(e)
      case Ok(free) =>
        match Offers(store, rooms[1..], checkIn, checkOut)
        case Err(e) => Err(e)
        case Ok(rest) =>
          assert forall x :: x in rooms <==> x == rooms[0] || x in rooms[1..];
          if free then Ok([OfferFor(rooms[0])] + rest) else Ok(rest)
  }

  predicate OffersInCatalogueOrder(offers: seq<RoomOffer>) {
    forall i, j :: 0 <= i < j < |offers| ==> CatalogueIndex(offers[i].id) < CatalogueIndex(offers[j].id)
  }

  /** Checking rooms in catalogue order yields offers in catalogue order. */
  lemma {:induction false} OffersKeepCatalogueOrder(store: Store, rooms: seq<Room>, checkIn: int, checkOut: int)
    requires InCatalogueOrder(rooms)
    ensures Offers(store, rooms, checkIn, checkOut).Ok? ==> OffersInCatalogueOrder(Offers(store, rooms, checkIn, checkOut).value)
    decreases |rooms|
  {
    if |rooms| > 0 && checkIn < checkOut {
      InOrderTail(rooms);
      OffersKeepCatalogueOrder(store, rooms[1..], checkIn, checkOut);
      var rest := Offers(store, rooms[1..], checkIn, checkOut).value;
      forall o | o in rest
        ensures CatalogueIndex(rooms[0].id) < CatalogueIndex(o.id)
      {
        var x :| x in rooms[1..] && o == OfferFor(x) && Available(store, x.id, checkIn, checkOut);
      }
      if Available(store, rooms[0].id, checkIn, checkOut) {
        assert Offers(store, rooms, checkIn, checkOut).value == [OfferFor(rooms[0])] + rest;
        OfferInOrderCons(OfferFor(rooms[0]), rest);
      } else {
        assert Offers(store, rooms, checkIn, checkOut).value == rest;
      }
    }
  }

  /** An offer ahead of every offer of an ordered list may head it. */
  lemma {:induction false} OfferInOrderCons(offer: RoomOffer, rest: seq<RoomOffer>)
    requires OffersInCatalogueOrder(rest)
    requires forall o :: o in rest ==> CatalogueIndex(offer.id) < CatalogueIndex(o.id)
    ensures OffersInCatalogueOrder([offer] + rest)
  {
    var all := [offer] + rest;
    forall i, j | 0 <= i < j < |all| ensures CatalogueIndex(all[i].id) < CatalogueIndex(all[j].id) {
      assert all[j] == rest[j - 1];
      if i > 0 {
        assert all[i] == rest[i - 1];
      } else {
        assert rest[j - 1] in rest;
      }
    }
  }

  /** `getAvailableRoomsForPeriod`: exactly the catalogue rooms of a wanted
      type that are available, in catalogue order. When no room is wanted,
      no range check runs and the answer is empty. */
  function GetAvailableRoomsForPeriod(store: Store, checkIn: int, checkOut: int, roomTypes: Option<seq<string>>)
    : (r: Result<seq<RoomOffer>, string>)
    ensures r.Err? <==> checkIn >= checkOut && exists x :: x in Catalogue && Wanted(x, roomTypes)
    ensures r.Err? ==> r.error == PeriodFailedPrefix + RangeError
    ensures r.Ok? ==> forall o :: o in r.value <==>
      exists x :: x in Catalogue && Wanted(x, roomTypes) && o == OfferFor(x) && Available(store, x.id, checkIn, checkOut)
    ensures r.Ok? ==> OffersInCatalogueOrder(r.value)
  {
    var toCheck := RoomsToCheck(Catalogue, roomTypes);
    assert |toCheck| > 0 <==> exists x :: x in Catalogue && Wanted(x, roomTypes) by {
      if |toCheck| > 0 { assert toCheck[0] in toCheck; }
    }
    assert InCatalogueOrder(toCheck) by {
      CatalogueIsOrdered();
      RoomsToCheckKeepsOrder(Catalogue, roomTypes);
    }
    OffersKeepCatalogueOrder(store, toCheck, checkIn, checkOut);
    match Offers(store, toCheck, checkIn, checkOut)
    case Err(e) => Err(PeriodFailedPrefix + e)
    case Ok(offers) => Ok(offers)
  }

  const DayMs := 1000 * 60 * 60 * 24

  function Abs(x: int): nat {
    if x < 0 then -x else x
  }

  /** `calculateNights`: whole days between the instants, rounded up. */
  function CalculateNights(checkIn: int, checkOut: int): (n: nat)
    ensures (n - 1) * DayMs < Abs(checkOut - checkIn) <= n * DayMs
    ensures checkIn < checkOut ==> n >= 1
  {
    (Abs(checkOut - checkIn) + DayMs - 1) / DayMs
  }

  lemma NightsSymmetric(a: int, b: int)
    ensures CalculateNights(a, b) == CalculateNights(b, a)
  {
  }
}
