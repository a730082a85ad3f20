/** A booking of a room by a guest over a range of days, with its total cost
    worked out once, when the booking is made. */
module Bookings {
  import opened Outcomes
  import opened Guests
  import opened Rooms

  /** A booking record. Check-in and check-out are day ordinals, so the
      number of nights is their plain difference. The guest and room are the
      ones given at construction. */
  datatype Booking = Booking(id: int, guest: Guest, room: Room,
                             checkIn: int, checkOut: int, totalCost: real)

  /** Nights between check-in and check-out; negative when check-out comes
      first, which nothing rejects. */
  function Nights(checkIn: int, checkOut: int): (n: int)
    ensures n < 0 <==> checkOut < checkIn
    ensures checkIn + n == checkOut
  {
    checkOut - checkIn
  }

  /** The cost of a stay: nothing, with the unavailability reported, when the
      room is not available; otherwise the nights times the nightly price. */
  function CalculateTotalCost(room: Room, checkIn: int, checkOut: int): (r: Outcome<real>)
    ensures r.Ok() <==> room.isAvailable
    ensures !r.Ok() ==> r.state == 0.0 && r.error == RoomUnavailable
    ensures r.Ok() ==> r.state == Nights(checkIn, checkOut) as real * room.pricePerNight
  {
    if !room.isAvailable then Rejected(0.0, RoomUnavailable)
    else Applied(Nights(checkIn, checkOut) as real * room.pricePerNight)
  }

  /** Makes a booking. It always succeeds; the cost is fixed here, and the
      guest and room are stored as given (the room is not marked taken). */
  function NewBooking(id: int, guest: Guest, room: Room, checkIn: int, checkOut: int): (b: Booking)
    ensures b.id == id && b.guest == guest && b.room == room
    ensures b.checkIn == checkIn && b.checkOut == checkOut
    ensures b.room.isAvailable == room.isAvailable
    ensures !room.isAvailable ==> b.totalCost == 0.0
    ensures room.isAvailable ==> b.totalCost == (checkOut - checkIn) as real * room.pricePerNight
  {
    Booking(id, guest, room, checkIn, checkOut, CalculateTotalCost(room, checkIn, checkOut).state)
  }

  /** The booking as seen after the shared room it refers to has changed:
      the room it reports is the new one, its stored cost is untouched. */
  function RefreshRoom(b: Booking, room: Room): (r: Booking)
    ensures r.room == room
    ensures r.id == b.id && r.guest == b.guest && r.checkIn == b.checkIn && r.checkOut == b.checkOut
    ensures r.totalCost == b.totalCost
  {
    b.(room := room)
  }

  /** With a positive price, the cost has the sign of the number of nights:
      a check-out before check-in gives a negative cost, the same day gives
      nothing. */
  lemma CostSignFollowsNights(room: Room, checkIn: int, checkOut: int)
    requires room.isAvailable && room.pricePerNight > 0.0
    ensures CalculateTotalCost(room, checkIn, checkOut).state < 0.0 <==> checkOut < checkIn
    ensures CalculateTotalCost(room, checkIn, checkOut).state > 0.0 <==> checkIn < checkOut
    ensures CalculateTotalCost(room, checkIn, checkIn).state == 0.0
  {}

  /** Splitting a stay at any day does not change what it costs in total,
      whether or not the room is available. */
  lemma SplitStayCostsTheSame(room: Room, a: int, b: int, c: int)
    ensures CalculateTotalCost(room, a, b).state + CalculateTotalCost(room, b, c).state
         == CalculateTotalCost(room, a, c).state
  {}

  /** The stored cost is frozen: setting the room's availability afterwards,
      to any value, leaves it at what it was when the booking was made. A
      room unavailable at booking keeps a cost of 0 even once it is made
      available, though a fresh calculation would then charge for the nights. */
  lemma CostFrozenAtConstruction(id: int, guest: Guest, room: Room, checkIn: int, checkOut: int, status: Value)
    ensures var b := NewBooking(id, guest, room, checkIn, checkOut);
            var b' := RefreshRoom(b, SetAvailability(b.room, status).state);
            && b'.totalCost == b.totalCost
            && (room.isAvailable ==> b'.totalCost == (checkOut - checkIn) as real * room.pricePerNight)
            && (!room.isAvailable ==> b'.totalCost == 0.0)
    ensures var b := NewBooking(id, guest, room, checkIn, checkOut);
            var b' := RefreshRoom(b, SetAvailability(b.room, BoolValue(true)).state);
            !room.isAvailable ==>
              && b'.totalCost == 0.0
              && CalculateTotalCost(b'.room, checkIn, checkOut).state
                 == (checkOut - checkIn) as real * room.pricePerNight
  {}

  /** A concrete stay: 5 nights at 120 in an available room cost 600, and the
      cost stays 600 once the room is marked unavailable, while a fresh
      calculation on the changed room would give 0. */
  lemma FiveNightsAt120(guest: Guest)
    ensures var room := NewRoom(101, "Double", ["Free Breakfast", "Swimming Pool"], 120.0);
            var b := NewBooking(1, guest, room, 15, 20);
            var taken := SetAvailability(room, BoolValue(false)).state;
            && b.totalCost == 600.0
            && RefreshRoom(b, taken).totalCost == 600.0
            && CalculateTotalCost(taken, 15, 20).state == 0.0
  {}
}
