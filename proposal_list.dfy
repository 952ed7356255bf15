/** The proposal cards (ProposalList.tsx): the status badge, the timer and the button. */
module ProposalList {
  import opened Types

  /** The `{ status, color }` pair `getProposalStatus` returns. */
  datatype StatusView = StatusView(status: string, color: string)

  const NotStarted := "Not Started"
  const Active := "Active"
  const EndedPending := "Ended - Results Pending"
  const Completed := "Completed"

  /**
   * `getProposalStatus(proposal)` at time `now`: exactly one of four statuses, decided by
   * where `now` falls against the voting window and, after it, by whether results are out.
   */
  function GetProposalStatus(now: int, p: Proposal): (r: StatusView)
    ensures r.status == NotStarted <==> now < p.startTime
    ensures r.status == Active <==> p.startTime <= now <= p.endTime
    ensures r.status == EndedPending <==> p.startTime <= now && p.endTime < now && !p.isRevealed
    ensures r.status == Completed <==> p.startTime <= now && p.endTime < now && p.isRevealed
    ensures r.status in {NotStarted, Active, EndedPending, Completed}
  {
    if now < p.startTime then StatusView(NotStarted, "text-gray-500")
    else if now <= p.endTime then StatusView(Active, "text-green-600")
    else if !p.isRevealed then StatusView(EndedPending, "text-orange-600")
    else StatusView(Completed, "text-blue-600")
  }

  /** The card's `isActive`: the same window test, so it agrees with the badge. */
  predicate IsActive(now: int, p: Proposal)
    ensures IsActive(now, p) <==> GetProposalStatus(now, p).status == Active
  {
    now >= p.startTime && now <= p.endTime
  }

  /** The button reads "Vote Now" on active cards and "View Details" on all others. */
  function ButtonLabel(now: int, p: Proposal): (r: string)
    ensures r == "Vote Now" <==> GetProposalStatus(now, p).status == Active
    ensures r == "View Details" <==> GetProposalStatus(now, p).status != Active
  {
    if IsActive(now, p) then "Vote Now" else "View Details"
  }

  /** The timer block: active and some time left, i.e. from the start up to, not at, the end. */
  predicate ShowTimer(now: int, p: Proposal)
    ensures ShowTimer(now, p) <==> p.startTime <= now < p.endTime
    ensures ShowTimer(now, p) ==> GetProposalStatus(now, p).status == Active
  {
    IsActive(now, p) && p.endTime - now > 0
  }
}
