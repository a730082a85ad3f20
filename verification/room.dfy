/** A hotel room: identity, type, amenities, nightly price and availability. */
module Rooms {
  import opened Outcomes

  /** A room record; the accessors of the original are the datatype's fields.
      Amenities keep the order they were given in. */
  datatype Room = Room(id: int, roomType: string, amenities: seq<string>,
                       pricePerNight: real, isAvailable: bool)

  /** A dynamically typed argument, as the availability setter may receive
      anything. Only `BoolValue` is a boolean: an integer such as 1 is not. */
  datatype Value =
    | BoolValue(b: bool)
    | IntValue(i: int)
    | StrValue(s: string)
    | NoneValue

  /** A new room is available and keeps its amenities as given. */
  function NewRoom(id: int, roomType: string, amenities: seq<string>, pricePerNight: real): (r: Room)
    ensures r.id == id && r.roomType == roomType && r.pricePerNight == pricePerNight
    ensures r.amenities == amenities
    ensures r.isAvailable
  {
    Room(id, roomType, amenities, pricePerNight, true)
  }

  /** Sets the availability flag to a boolean argument; any other argument is
      rejected and the room is left as it was. Nothing but the flag changes. */
  function SetAvailability(room: Room, status: Value): (r: Outcome<Room>)
    ensures r.Ok() <==> status.BoolValue?
    ensures r.Ok() ==> r.state.isAvailable == status.b
    ensures !r.Ok() ==> r.state == room && r.error == NotABoolean
    ensures r.state.id == room.id && r.state.roomType == room.roomType
    ensures r.state.amenities == room.amenities && r.state.pricePerNight == room.pricePerNight
  {
    match status
    case BoolValue(b) => Applied(room.(isAvailable := b))
    case _ => Rejected(room, NotABoolean)
  }

  /** Setting the same value twice is the same as setting it once. */
  lemma SetAvailabilityIdempotent(room: Room, status: Value)
    ensures SetAvailability(SetAvailability(room, status).state, status) == SetAvailability(room, status)
  {}

  /** A later boolean overrides an earlier one. */
  lemma SetAvailabilityLastWins(room: Room, a: bool, b: bool)
    ensures SetAvailability(SetAvailability(room, BoolValue(a)).state, BoolValue(b)).state
         == SetAvailability(room, BoolValue(b)).state
  {}

  /** The integers 0 and 1 are not booleans and are rejected. */
  lemma IntegerStatusRejected(room: Room)
    ensures !SetAvailability(room, IntValue(0)).Ok()
    ensures SetAvailability(room, IntValue(1)) == Rejected(room, NotABoolean)
  {}
}
