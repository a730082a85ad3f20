/** Feedback left by a guest: a rating and a comment. */
module Feedbacks {
  import opened Outcomes
  import opened Guests

  /** A feedback record. The rating is meant to lie in 1..5, but the
      constructor stores whatever it is given. */
  datatype Feedback = Feedback(id: int, guest: Guest, rating: int, comments: string)

  /** A rating the setter accepts: 1 to 5, both ends included. */
  predicate ValidRating(rating: int) {
    1 <= rating <= 5
  }

  /** Makes a feedback record; the rating is not checked. */
  function NewFeedback(id: int, guest: Guest, rating: int, comments: string): (f: Feedback)
    ensures f.id == id && f.guest == guest && f.rating == rating && f.comments == comments
  {
    Feedback(id, guest, rating, comments)
  }

  /** Sets the rating if it lies in 1..5; otherwise the update is rejected and
      the previous rating kept. Nothing but the rating changes. */
  function SetRating(f: Feedback, rating: int): (r: Outcome<Feedback>)
    ensures r.Ok() <==> 1 <= rating && rating <= 5
    ensures r.Ok() ==> r.state.rating == rating
    ensures !r.Ok() ==> r.state == f && r.error == RatingOutOfRange
    ensures r.state.id == f.id && r.state.guest == f.guest && r.state.comments == f.comments
    ensures ValidRating(f.rating) ==> ValidRating(r.state.rating)
  {
    if !ValidRating(rating) then Rejected(f, RatingOutOfRange)
    else Applied(f.(rating := rating))
  }

  /** The boundary ratings 1 and 5 are accepted, 0 and 6 are not. */
  lemma RatingBoundaries(f: Feedback)
    ensures SetRating(f, 1).Ok() && SetRating(f, 5).Ok()
    ensures SetRating(f, 0) == Rejected(f, RatingOutOfRange)
    ensures SetRating(f, 6) == Rejected(f, RatingOutOfRange)
  {}

  /** An out-of-range rating given at construction is kept as it is. */
  lemma ConstructorKeepsOutOfRangeRating(guest: Guest)
    ensures NewFeedback(1, guest, 9, "").rating == 9 && !ValidRating(9)
  {}

  /** Setting the same rating twice is the same as setting it once. */
  lemma SetRatingIdempotent(f: Feedback, rating: int)
    ensures SetRating(SetRating(f, rating).state, rating) == SetRating(f, rating)
  {}

  /** The feedback after a run of `SetRating` calls, first rating first. */
  function RateAll(f: Feedback, ratings: seq<int>): Feedback
    decreases |ratings|
  {
    if |ratings| == 0 then f
    else RateAll(SetRating(f, ratings[0]).state, ratings[1..])
  }

  /** After any run of calls the rating is the last one in range, or the
      original if none was; an in-range rating stays in range, and only the
      rating ever changes. */
  lemma {:induction false} RateAllKeepsLastValid(f: Feedback, ratings: seq<int>)
    ensures RateAll(f, ratings).rating == LastAccepted(ratings, ValidRating, f.rating)
    ensures RateAll(f, ratings) == f.(rating := RateAll(f, ratings).rating)
    ensures ValidRating(f.rating) ==> ValidRating(RateAll(f, ratings).rating)
    decreases |ratings|
  {
    if |ratings| > 0 {
      RateAllKeepsLastValid(SetRating(f, ratings[0]).state, ratings[1..]);
    }
  }
}
