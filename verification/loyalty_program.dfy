/** A loyalty programme linked to a guest. Earning points adds the same
    amount to the programme's own balance and to the guest's balance; the
    link to the guest is modelled by passing the guest in and out. */
module Loyalty {
  import opened Outcomes
  import opened Guests

  /** A programme record with its own point balance. */
  datatype LoyaltyProgram = LoyaltyProgram(id: int, points: int)

  /** The invariant of a programme: its balance is never negative. */
  predicate Valid(p: LoyaltyProgram) {
    p.points >= 0
  }

  /** A new programme starts with no points. */
  function NewProgram(id: int): (p: LoyaltyProgram)
    ensures p.id == id && p.points == 0
    ensures Valid(p)
  {
    LoyaltyProgram(id, 0)
  }

  /** Earns a non-negative amount for both the programme and its guest; a
      negative amount is rejected and neither changes. The difference between
      the two balances is kept, and the programme's balance never falls. */
  function EarnPoints(p: LoyaltyProgram, g: Guest, points: int): (r: Outcome<(LoyaltyProgram, Guest)>)
    ensures r.Ok() <==> points >= 0
    ensures r.Ok() ==> r.state.0.points == p.points + points
    ensures r.Ok() ==> r.state.1.loyaltyPoints == g.loyaltyPoints + points
    ensures !r.Ok() ==> r.state == (p, g) && r.error == NegativePoints
    ensures r.state.1.loyaltyPoints - r.state.0.points == g.loyaltyPoints - p.points
    ensures r.state.0.points >= p.points
    ensures Valid(p) ==> Valid(r.state.0)
    ensures Guests.Valid(g) ==> Guests.Valid(r.state.1)
    ensures r.state.0.id == p.id
    ensures r.state.1.id == g.id && r.state.1.name == g.name && r.state.1.contact == g.contact
  {
    if points < 0 then Rejected((p, g), NegativePoints)
    else Applied((p.(points := p.points + points), AddLoyaltyPoints(g, points).state))
  }

  /** A fresh programme earning 100 points for a fresh guest leaves both at 100. */
  lemma EarnHundredOnFreshGuest(g: Guest)
    requires g.loyaltyPoints == 0
    ensures var r := EarnPoints(NewProgram(1), g, 100);
            r.Ok() && r.state.0.points == 100 && r.state.1.loyaltyPoints == 100
  {}

  /** The pair after a run of `EarnPoints` calls on one programme. */
  function EarnAll(p: LoyaltyProgram, g: Guest, amounts: seq<int>): (LoyaltyProgram, Guest)
    decreases |amounts|
  {
    if |amounts| == 0 then (p, g)
    else
      var next := EarnPoints(p, g, amounts[0]).state;
      EarnAll(next.0, next.1, amounts[1..])
  }

  /** Over any run of calls both balances grow by exactly the accepted
      amounts, so they stay in step; in particular a fresh programme for a
      fresh guest keeps the two balances equal. */
  lemma {:induction false} EarnAllKeepsBalancesInStep(p: LoyaltyProgram, g: Guest, amounts: seq<int>)
    ensures EarnAll(p, g, amounts).0.points == p.points + AcceptedTotal(amounts)
    ensures EarnAll(p, g, amounts).1 == AddAll(g, amounts)
    ensures EarnAll(p, g, amounts).1.loyaltyPoints - EarnAll(p, g, amounts).0.points
         == g.loyaltyPoints - p.points
    ensures EarnAll(p, g, amounts).0.id == p.id
    decreases |amounts|
  {
    if |amounts| > 0 {
      var next := EarnPoints(p, g, amounts[0]).state;
      assert next.1 == AddLoyaltyPoints(g, amounts[0]).state;
      EarnAllKeepsBalancesInStep(next.0, next.1, amounts[1..]);
      AddAllAddsAcceptedTotal(g, amounts);
    } else {
      AddAllAddsAcceptedTotal(g, amounts);
    }
  }

  /** One earning call aimed at the programme at index `program` of a list of
      programmes that all refer to the same guest. */
  datatype Earning = Earning(program: nat, amount: int)

  /** Sum of the balances of a list of programmes. */
  function TotalPoints(ps: seq<LoyaltyProgram>): int
    decreases |ps|
  {
    if |ps| == 0 then 0 else ps[0].points + TotalPoints(ps[1..])
  }

  /** Replacing one programme changes the total by the change in its balance. */
  lemma {:induction false} TotalPointsUpdate(ps: seq<LoyaltyProgram>, i: nat, q: LoyaltyProgram)
    requires i < |ps|
    ensures TotalPoints(ps[i := q]) == TotalPoints(ps) - ps[i].points + q.points
    decreases |ps|
  {
    if i == 0 {
      assert ps[i := q][1..] == ps[1..];
    } else {
      assert ps[i := q][1..] == ps[1..][i - 1 := q];
      TotalPointsUpdate(ps[1..], i - 1, q);
    }
  }

  /** Every earning aims at one of the programmes. */
  predicate Targets(ps: seq<LoyaltyProgram>, events: seq<Earning>) {
    forall k | 0 <= k < |events| :: events[k].program < |ps|
  }

  /** The programmes and the shared guest after a run of earnings. */
  function EarnShared(ps: seq<LoyaltyProgram>, g: Guest, events: seq<Earning>): (r: (seq<LoyaltyProgram>, Guest))
    requires Targets(ps, events)
    ensures |r.0| == |ps|
    decreases |events|
  {
    if |events| == 0 then (ps, g)
    else
      var e := events[0];
      var next := EarnPoints(ps[e.program], g, e.amount).state;
      EarnShared(ps[e.program := next.0], next.1, events[1..])
  }

  /** When several programmes share one guest, the guest's balance moves by
      the sum of what all the programmes earned: the gap between the guest's
      balance and the programmes' total is kept. Starting from a fresh guest
      and fresh programmes, the guest holds exactly the programmes' total. */
  lemma {:induction false} SharedGuestHoldsProgrammesTotal(ps: seq<LoyaltyProgram>, g: Guest, events: seq<Earning>)
    requires Targets(ps, events)
    ensures EarnShared(ps, g, events).1.loyaltyPoints - TotalPoints(EarnShared(ps, g, events).0)
         == g.loyaltyPoints - TotalPoints(ps)
    ensures g.loyaltyPoints == TotalPoints(ps)
            ==> EarnShared(ps, g, events).1.loyaltyPoints == TotalPoints(EarnShared(ps, g, events).0)
    decreases |events|
  {
    if |events| > 0 {
      var e := events[0];
      var next := EarnPoints(ps[e.program], g, e.amount).state;
      TotalPointsUpdate(ps, e.program, next.0);
      SharedGuestHoldsProgrammesTotal(ps[e.program := next.0], next.1, events[1..]);
    }
  }
}
