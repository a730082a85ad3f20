/** Failure handling shared by every hotel record.

    Each fallible setter of the hotel records catches its own validation error,
    reports it and leaves the record as it was. Here that becomes an explicit
    value: an `Outcome` carries the state after the call and says whether the
    update was applied or rejected, and why.
 */
module Outcomes {

  /** The one error kind the records raise, with the check that failed. */
  datatype ValidationError =
    | NegativePoints      // a negative loyalty-point amount
    | NotABoolean         // an availability status that is not a boolean
    | RatingOutOfRange    // a feedback rating outside 1..5
    | InvalidStatus       // a service status outside the three known values
    | RoomUnavailable     // a booking on a room that is not available

  /** The state after a fallible update. A rejected update carries the state
      it was given, unchanged, together with the reason it was rejected. */
  datatype Outcome<+T> = Applied(state: T) | Rejected(state: T, error: ValidationError) {

    /** True if the update was applied */
    predicate Ok() {
      Applied?
    }
  }

  /** The value a field holds after a run of setter calls that each replace it
      with their input when `accepts` holds of it and otherwise keep it:
      the last accepted input, or `current` if none was accepted. */
  function LastAccepted<T>(inputs: seq<T>, accepts: T -> bool, current: T): (v: T)
    ensures v == current || v in inputs
    ensures v != current ==> accepts(v)
    ensures (forall i | 0 <= i < |inputs| :: !accepts(inputs[i])) ==> v == current
    decreases |inputs|
  {
    if |inputs| == 0 then current
    else LastAccepted(inputs[1..], accepts, if accepts(inputs[0]) then inputs[0] else current)
  }
}
