# Hotel management records, verified model

A Dafny model of a small hotel-management domain. Seven record kinds
(guest, room, booking, invoice, loyalty programme, feedback and guest-service
request) hold plain data. Their behaviour is a handful of validated setters
and one derived quantity, the booking's total cost.

Each fallible setter in the original catches its own validation error, prints
it and keeps the record unchanged. Here every such setter returns an
`Outcomes.Outcome`: either `Applied(state)`, or `Rejected(state, error)` where
`state` is the record it was given, unchanged, and `error` is a
`ValidationError` naming the check that failed. The original's getters are
the datatypes' fields. The availability setter accepts either boolean, false
included; only arguments of another type are rejected.

Shared references are modelled by passing state explicitly. For example,
`Loyalty.EarnPoints` maps a (programme, guest) pair to a new pair. A change
to a room after a booking refers to it is modelled by `Bookings.RefreshRoom`,
which replaces the booking's room and leaves its stored cost alone.

Check-in and check-out dates are whole-day ordinals, so the number of nights
is a plain difference. Prices and costs are `real`. Ids are `int`.

Modules, one per source file:

- `Outcomes` (outcome.dfy): the validation errors and the outcome type.
- `Guests` (guest.dfy), `Rooms` (room.dfy) and `Bookings` (booking.dfy).
- `Invoices` (invoice.dfy), `Loyalty` (loyalty_program.dfy), `Feedbacks`
  (feedback.dfy) and `GuestServices` (guest_service.dfy).
- `Demo` (demo.dfy): the driver's scenario, stated as one lemma.

Some lemmas are about runs of calls: `AddAll`, `EarnAll`, `EarnShared`,
`RateAll` and `SetAllStatuses` apply a setter to a sequence of inputs, in
order. They state invariants that hold over a record's whole lifetime.

## Model

| member | source | states |
|---|---|---|
| Guests.NewGuest | guest.py:4-15 | a new guest keeps the id, name and contact it was given and starts with 0 loyalty points, so it is valid (balance not negative) |
| Guests.SetName | guest.py:35-37 | the name becomes the argument; id, contact and points are unchanged |
| Guests.SetContact | guest.py:39-41 | the contact becomes the argument; id, name and points are unchanged |
| Guests.AddLoyaltyPoints | guest.py:43-50 | accepted exactly when points >= 0, and then the balance grows by exactly that amount; a negative amount is rejected with NegativePoints and the guest returned unchanged; id, name and contact never change; the balance never falls and validity is preserved |
| Guests.SettersCommute | guest.py:35-41 | setting name then contact equals setting contact then name |
| Guests.SetNameLastWins | guest.py:35-37 | a second name replaces the first completely |
| Guests.AddAllAddsAcceptedTotal | guest.py:43-50 | over any run of calls, the balance grows by the sum of the non-negative amounts; negative amounts are ignored; id, name and contact are unchanged; a valid guest stays valid |
| Rooms.NewRoom | room.py:4-17 | a new room is available and stores id, type, price and the amenities list as given, in order |
| Rooms.SetAvailability | room.py:41-48 | accepted exactly when the argument is a boolean, and then the flag equals it; any other argument is rejected with NotABoolean and the room returned unchanged; id, type, amenities and price never change |
| Rooms.SetAvailabilityIdempotent | room.py:44-46 | applying the same argument twice gives the same outcome as applying it once |
| Rooms.SetAvailabilityLastWins | room.py:46 | a later boolean overrides an earlier one |
| Rooms.IntegerStatusRejected | room.py:44-45 | the integers 0 and 1 are not booleans and are rejected |
| Bookings.Nights | booking.py:47 | the night count is negative exactly when check-out is before check-in, and check-in plus nights is check-out |
| Bookings.CalculateTotalCost | booking.py:42-51 | on an unavailable room the cost is 0 and the error RoomUnavailable is reported; on an available room the cost is nights times the nightly price, with no check on the date order |
| Bookings.NewBooking | booking.py:7-22 | a booking always succeeds and stores the guest, room and dates as given; the room's availability is not changed; the cost is 0 on an unavailable room, otherwise nights times price |
| Bookings.RefreshRoom | booking.py:22 | a later change to the shared room changes the room the booking reports but never its stored cost |
| Bookings.CostSignFollowsNights | booking.py:47-48 | at a positive price the cost is negative exactly when check-out is before check-in, positive exactly when it is after, and 0 for a same-day stay |
| Bookings.SplitStayCostsTheSame | booking.py:45-51 | on any room, the costs of [a,b] and [b,c] add up to the cost of [a,c] (on an unavailable room all three are 0) |
| Bookings.CostFrozenAtConstruction | booking.py:22 | after the room's availability is set to anything, the booking's stored cost is still what it was made with: nights times the price for a room available at booking, 0 for a room unavailable at booking, even once it is made available and a fresh calculation would give nights times the price |
| Bookings.FiveNightsAt120 | main.py:21-29 | 5 nights at 120 on an available room cost 600; the stored cost stays 600 after the room is made unavailable, while a fresh calculation would give 0 |
| Invoices.NewInvoice | invoice.py:6-16 | id, booking and payment method are stored as given, with no check on the payment method |
| Invoices.DisplayedCostNotRecomputed | invoice.py:33-36 | after the room changes in any way, the invoice still shows the cost worked out when the booking was made, and the booking's cost is unchanged |
| Loyalty.NewProgram | loyalty_program.py:6-15 | a new programme keeps its id and starts with 0 points |
| Loyalty.EarnPoints | loyalty_program.py:27-35 | accepted exactly when points >= 0, and then the programme and the guest each gain exactly that amount; a negative amount is rejected with NegativePoints and neither changes; the guest-minus-programme gap is kept; the programme balance never falls; both records stay valid; the guest's id, name and contact are unchanged |
| Loyalty.EarnHundredOnFreshGuest | main.py:41-42 | earning 100 points for a fresh programme and a guest with 0 points leaves both at 100 |
| Loyalty.EarnAllKeepsBalancesInStep | loyalty_program.py:30-33 | over any run of calls, the programme grows by the sum of the non-negative amounts; the guest ends as if it had received the same amounts directly; the gap between the two balances is kept |
| Loyalty.SharedGuestHoldsProgrammesTotal | loyalty_program.py:30-33 | when several programmes share one guest, the gap between the guest's balance and the programmes' total is kept; so a guest whose balance starts equal to that total keeps holding exactly the total |
| Feedbacks.NewFeedback | feedback.py:6-18 | the rating is stored as given, even out of range; id, guest and comments are stored as given |
| Feedbacks.SetRating | feedback.py:34-41 | accepted exactly when 1 <= rating <= 5, and then the rating is the argument; otherwise rejected with RatingOutOfRange and the feedback returned unchanged; id, guest and comments never change; an in-range rating stays in range |
| Feedbacks.RatingBoundaries | feedback.py:37 | ratings 1 and 5 are accepted; 0 and 6 are rejected |
| Feedbacks.ConstructorKeepsOutOfRangeRating | feedback.py:17 | a rating of 9 given at construction is kept |
| Feedbacks.SetRatingIdempotent | feedback.py:37-39 | setting the same rating twice gives the same outcome as setting it once |
| Feedbacks.RateAllKeepsLastValid | feedback.py:34-41 | over any run of calls, the rating is the last in-range argument, or the original if there was none; only the rating changes; an in-range rating stays in range |
| GuestServices.NewService | guest_service.py:4-15 | a new request keeps its id, type and request time, and its status is "Pending", a valid status |
| GuestServices.SetStatus | guest_service.py:31-38 | accepted exactly when the status is "Pending", "In Progress" or "Completed", and then the status is the argument; any other string is rejected with InvalidStatus and the request returned unchanged; id, type and request time never change; a valid status stays valid |
| GuestServices.AnyValidStatusReachable | guest_service.py:34-36 | every valid status is reached in one call from any status; no order is enforced |
| GuestServices.StatusExamples | guest_service.py:34-36 | Pending can move to "In Progress" and Completed can move back to Pending; "Bogus" is rejected and nothing changes |
| GuestServices.SetStatusIdempotent | guest_service.py:34-36 | setting the same status twice gives the same outcome as setting it once |
| GuestServices.SetAllStatusesKeepsLastValid | guest_service.py:31-38 | over any run of calls, the status is the last valid argument, or the original if there was none; only the status changes; a valid status stays valid |
| Demo.DemoScenario | main.py:13-57 | in the driver's scenario: the booking costs 600; the invoice shows 600; the programme and the guest each hold 100 points; the feedback rating is 5; the service status is "In Progress" |

## Left out

- Console output: every `print` in the error handlers and in the driver, and
  the exact text of each record's string form. The only part of the string
  form that is modelled is the invoice's total, by `Invoices.DisplayedCost`.
- The driver's top-level catch-all and its call to the clock. The request time
  is a parameter of `GuestServices.NewService`; `Timestamp` is a wrapper
  around an ordinal that is only stored, never compared or computed with.
- Calendar arithmetic. Dates are day ordinals and nights are their difference,
  so the driver's 15 May to 20 May stay is days 15 to 20.
- Floating point. Prices and costs are exact reals, with no rounding.
- Dynamic typing, except where the source checks types. `Rooms.Value` gives
  the availability setter arguments of any kind. Elsewhere arguments have one
  static type: ratings and point amounts are integers, names, contacts, labels
  and statuses are strings, and ids are integers. The original would also
  compare a float rating such as 4.5 against 1..5 and accept it.
- Aliasing. A booking, feedback or invoice holds the guest, room or booking
  it was given as a value. Any read through the original's `get_guest`,
  `get_room` or `get_booking` therefore sees that record as it was passed
  in, unless the caller refreshes it, as `Bookings.RefreshRoom` does for the
  room. In the original such a read goes through the reference and sees
  later changes: after the driver's `earn_points(100)`, the booking's guest
  holds 100 points, while in the model the booking's copy still holds 0.
  Stored costs are unaffected either way, since they are fixed at booking.
- Loyalty.NewProgram: a programme does not remember its guest. In the
  original the guest is bound once, at construction, and every earning goes
  to it; here `Loyalty.EarnPoints` takes the guest as an argument, and the
  caller must pass the same guest (as returned by the previous call) every
  time. Fed two different guests, one programme could reach states the
  original cannot, such as 20 points while each guest holds 10.
