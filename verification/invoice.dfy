/** An invoice for a booking, paid by some payment method. */
module Invoices {
  import opened Guests
  import opened Rooms
  import opened Bookings

  /** An invoice record. The payment method is any label; nothing checks it. */
  datatype Invoice = Invoice(id: int, booking: Booking, paymentMethod: string)

  /** Makes an invoice; the booking and payment method are stored as given. */
  function NewInvoice(id: int, booking: Booking, paymentMethod: string): (inv: Invoice)
    ensures inv.id == id && inv.booking == booking && inv.paymentMethod == paymentMethod
  {
    Invoice(id, booking, paymentMethod)
  }

  /** The total shown on the invoice: the booking's stored cost, read as it is. */
  function DisplayedCost(inv: Invoice): (c: real)
    ensures c == inv.booking.totalCost
  {
    inv.booking.totalCost
  }

  /** The invoice shows the cost worked out when the booking was made, even
      after the shared room has changed in any way (price, availability, ...),
      and displaying it leaves the booking as it was. */
  lemma DisplayedCostNotRecomputed(id: int, guest: Guest, room: Room, checkIn: int, checkOut: int,
                                   later: Room, paymentMethod: string)
    ensures var b := NewBooking(id, guest, room, checkIn, checkOut);
            var inv := NewInvoice(id, RefreshRoom(b, later), paymentMethod);
            && DisplayedCost(inv) == CalculateTotalCost(room, checkIn, checkOut).state
            && inv.booking.totalCost == b.totalCost
  {}
}
