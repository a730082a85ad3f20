/** A hotel guest: identity, contact details and a loyalty-point balance. */
module Guests {
  import opened Outcomes

  /** A guest record; the accessors of the original are the datatype's fields. */
  datatype Guest = Guest(id: int, name: string, contact: string, loyaltyPoints: int)

  /** The invariant of a guest: the loyalty balance is never negative. */
  predicate Valid(g: Guest) {
    g.loyaltyPoints >= 0
  }

  /** A new guest starts with no loyalty points. */
  function NewGuest(id: int, name: string, contact: string): (g: Guest)
    ensures g.id == id && g.name == name && g.contact == contact
    ensures g.loyaltyPoints == 0
    ensures Valid(g)
  {
    Guest(id, name, contact, 0)
  }

  /** Replaces the name and nothing else. */
  function SetName(g: Guest, name: string): (r: Guest)
    ensures r.name == name
    ensures r.id == g.id && r.contact == g.contact && r.loyaltyPoints == g.loyaltyPoints
  {
    g.(name := name)
  }

  /** Replaces the contact details and nothing else. */
  function SetContact(g: Guest, contact: string): (r: Guest)
    ensures r.contact == contact
    ensures r.id == g.id && r.name == g.name && r.loyaltyPoints == g.loyaltyPoints
  {
    g.(contact := contact)
  }

  /** Adds a non-negative amount to the balance; a negative amount is
      rejected and the guest is left as it was. */
  function AddLoyaltyPoints(g: Guest, points: int): (r: Outcome<Guest>)
    ensures r.Ok() <==> points >= 0
    ensures r.Ok() ==> r.state.loyaltyPoints == g.loyaltyPoints + points
    ensures !r.Ok() ==> r.state == g && r.error == NegativePoints
    ensures r.state.id == g.id && r.state.name == g.name && r.state.contact == g.contact
    ensures r.state.loyaltyPoints >= g.loyaltyPoints
    ensures Valid(g) ==> Valid(r.state)
  {
    if points < 0 then Rejected(g, NegativePoints)
    else Applied(g.(loyaltyPoints := g.loyaltyPoints + points))
  }

  /** Setting the name then the contact is the same as the other way round. */
  lemma SettersCommute(g: Guest, name: string, contact: string)
    ensures SetContact(SetName(g, name), contact) == SetName(SetContact(g, contact), name)
  {}

  /** A second `SetName` overrides the first. */
  lemma SetNameLastWins(g: Guest, a: string, b: string)
    ensures SetName(SetName(g, a), b) == SetName(g, b)
  {}

  /** The guest after a run of `AddLoyaltyPoints` calls, first amount first. */
  function AddAll(g: Guest, amounts: seq<int>): Guest
    decreases |amounts|
  {
    if |amounts| == 0 then g
    else AddAll(AddLoyaltyPoints(g, amounts[0]).state, amounts[1..])
  }

  /** Reference sum: the total of the amounts that a guest would accept. */
  function AcceptedTotal(amounts: seq<int>): (t: int)
    ensures t >= 0
    decreases |amounts|
  {
    if |amounts| == 0 then 0
    else (if amounts[0] >= 0 then amounts[0] else 0) + AcceptedTotal(amounts[1..])
  }

  /** Over any run of calls, the balance grows by exactly the accepted
      amounts, the negative ones are ignored, the identity and contact
      details stay as they were, and a valid guest stays valid. */
  lemma {:induction false} AddAllAddsAcceptedTotal(g: Guest, amounts: seq<int>)
    ensures AddAll(g, amounts).loyaltyPoints == g.loyaltyPoints + AcceptedTotal(amounts)
    ensures AddAll(g, amounts).id == g.id
    ensures AddAll(g, amounts).name == g.name && AddAll(g, amounts).contact == g.contact
    ensures Valid(g) ==> Valid(AddAll(g, amounts))
    decreases |amounts|
  {
    if |amounts| > 0 {
      AddAllAddsAcceptedTotal(AddLoyaltyPoints(g, amounts[0]).state, amounts[1..]);
    }
  }
}
