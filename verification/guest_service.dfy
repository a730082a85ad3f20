/** A service requested by a guest, with a status that is one of three values. */
module GuestServices {
  import opened Outcomes

  /** When the service was requested; an opaque value that is only stored. */
  datatype Timestamp = Timestamp(ordinal: int)

  const Pending: string := "Pending"
  const InProgress: string := "In Progress"
  const Completed: string := "Completed"

  /** A service request. Its status is a string, as in the original. */
  datatype GuestService = GuestService(id: int, serviceType: string, requestTime: Timestamp, status: string)

  /** The statuses the setter accepts, in no particular order of progress. */
  predicate ValidStatus(status: string) {
    status in [Pending, InProgress, Completed]
  }

  /** A new request is pending. */
  function NewService(id: int, serviceType: string, requestTime: Timestamp): (s: GuestService)
    ensures s.id == id && s.serviceType == serviceType && s.requestTime == requestTime
    ensures s.status == "Pending"
    ensures ValidStatus(s.status)
  {
    GuestService(id, serviceType, requestTime, Pending)
  }

  /** Sets the status if it is one of the three known values; otherwise the
      update is rejected and the previous status kept. Nothing but the status
      changes. */
  function SetStatus(svc: GuestService, status: string): (r: Outcome<GuestService>)
    ensures r.Ok() <==> status == "Pending" || status == "In Progress" || status == "Completed"
    ensures r.Ok() ==> r.state.status == status
    ensures !r.Ok() ==> r.state == svc && r.error == InvalidStatus
    ensures r.state.id == svc.id && r.state.serviceType == svc.serviceType
    ensures r.state.requestTime == svc.requestTime
    ensures ValidStatus(svc.status) ==> ValidStatus(r.state.status)
  {
    if !ValidStatus(status) then Rejected(svc, InvalidStatus)
    else Applied(svc.(status := status))
  }

  /** No order is enforced: every valid status is reached from every status in
      one call, so a completed request can go back to pending. */
  lemma AnyValidStatusReachable(svc: GuestService, target: string)
    requires ValidStatus(target)
    ensures SetStatus(svc, target) == Applied(svc.(status := target))
  {}

  /** Concrete moves: pending to in progress, completed back to pending, and a
      bogus status rejected. */
  lemma StatusExamples(id: int, t: Timestamp)
    ensures var s := NewService(id, "Housekeeping", t);
            && SetStatus(s, "In Progress").state.status == "In Progress"
            && SetStatus(s.(status := "Completed"), "Pending").state.status == "Pending"
            && SetStatus(s, "Bogus") == Rejected(s, InvalidStatus)
  {}

  /** Setting the same status twice is the same as setting it once. */
  lemma SetStatusIdempotent(svc: GuestService, status: string)
    ensures SetStatus(SetStatus(svc, status).state, status) == SetStatus(svc, status)
  {}

  /** The request after a run of `SetStatus` calls, first status first. */
  function SetAllStatuses(svc: GuestService, statuses: seq<string>): GuestService
    decreases |statuses|
  {
    if |statuses| == 0 then svc
    else SetAllStatuses(SetStatus(svc, statuses[0]).state, statuses[1..])
  }

  /** After any run of calls the status is the last valid one, or the original
      if none was valid; a request whose status is valid keeps a valid status,
      and only the status ever changes. */
  lemma {:induction false} SetAllStatusesKeepsLastValid(svc: GuestService, statuses: seq<string>)
    ensures SetAllStatuses(svc, statuses).status == LastAccepted(statuses, ValidStatus, svc.status)
    ensures SetAllStatuses(svc, statuses) == svc.(status := SetAllStatuses(svc, statuses).status)
    ensures ValidStatus(svc.status) ==> ValidStatus(SetAllStatuses(svc, statuses).status)
    decreases |statuses|
  {
    if |statuses| > 0 {
      SetAllStatusesKeepsLastValid(SetStatus(svc, statuses[0]).state, statuses[1..]);
    }
  }
}
