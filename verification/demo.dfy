/** The demonstration scenario: one record of each kind, built in order and
    updated as the driver does. Console output is not modelled. */
module Demo {
  import opened Outcomes
  import opened Guests
  import opened Rooms
  import opened Bookings
  import opened Invoices
  import opened Loyalty
  import opened Feedbacks
  import opened GuestServices

  /** The scenario's observable results: a 5-night stay at 120 costs 600, the
      invoice shows 600, earning 100 points gives the programme and the guest
      100 each, the feedback keeps its rating of 5, and the service request
      moves to "In Progress". */
  lemma DemoScenario(now: Timestamp)
    ensures
      var guest := NewGuest(1, "Shaikha Alkaabi", "Shaikha.j2005@gmail.com");
      var room := NewRoom(101, "Double", ["Free Breakfast", "Swimming Pool"], 120.0);
      var booking := NewBooking(1, guest, room, 15, 20);
      var invoice := NewInvoice(1, booking, "Credit Card");
      var earned := EarnPoints(NewProgram(1), guest, 100);
      var feedback := NewFeedback(1, earned.state.1, 5, "Excellent stay. I loved it.");
      var service := SetStatus(NewService(1, "Housekeeping", now), "In Progress");
      && booking.totalCost == 600.0
      && DisplayedCost(invoice) == 600.0
      && earned.Ok() && earned.state.0.points == 100 && earned.state.1.loyaltyPoints == 100
      && feedback.rating == 5 && ValidRating(feedback.rating)
      && service.Ok() && service.state.status == "In Progress"
  {}
}
