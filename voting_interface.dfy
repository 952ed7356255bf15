/**
 * The voting page of one proposal (VotingInterface.tsx): its own copy of the status
 * classification, which sections are shown, and the vote button's guard.
 */
module VotingInterface {
  import opened Common
  import opened Types
  import ProposalList
  import Ledger

  /** `getProposalStatus()` here also says whether the window admits votes. */
  datatype StatusView = StatusView(status: string, color: string, canVote: bool)

  /** The status badge agrees with the proposal cards'; `canVote` holds only for "Active". */
  function GetProposalStatus(now: int, p: Proposal): (r: StatusView)
    ensures r.status == ProposalList.GetProposalStatus(now, p).status
    ensures r.color == ProposalList.GetProposalStatus(now, p).color
    ensures r.canVote <==> r.status == ProposalList.Active
  {
    if now < p.startTime then StatusView("Not Started", "text-gray-500", false)
    else if now <= p.endTime then StatusView("Active", "text-green-600", true)
    else if !p.isRevealed then StatusView("Ended - Results Pending", "text-orange-600", false)
    else StatusView("Completed", "text-blue-600", false)
  }

  /** `showTimer`: the window test, so it holds exactly when the status admits votes. */
  predicate ShowTimer(now: int, p: Proposal)
    ensures ShowTimer(now, p) <==> GetProposalStatus(now, p).canVote
  {
    now >= p.startTime && now <= p.endTime
  }

  /** The countdown block: the timer is shown and time remains. */
  predicate ShowCountdown(now: int, p: Proposal)
    ensures ShowCountdown(now, p) <==> p.startTime <= now < p.endTime
  {
    ShowTimer(now, p) && p.endTime - now > 0
  }

  /** "Cast Your Vote": the window is open, the page lets this user vote, and they have not. */
  predicate ShowVoteSection(now: int, p: Proposal, canVote: bool, hasVoted: bool)
    ensures ShowVoteSection(now, p, canVote, hasVoted) <==>
              ProposalList.GetProposalStatus(now, p).status == ProposalList.Active && canVote && !hasVoted
  {
    GetProposalStatus(now, p).canVote && canVote && !hasVoted
  }

  /** "Reveal Voting Results": the window has closed, nothing is revealed, and the stats allow it. */
  predicate ShowRevealSection(now: int, p: Proposal, stats: Option<VoteStats>)
    ensures ShowRevealSection(now, p, stats) <==>
              now > p.endTime && !p.isRevealed && stats.Some? && stats.value.canReveal
    // for a window that opens before it closes, that is the "Ended - Results Pending" badge
    ensures p.startTime <= p.endTime ==>
              (ShowRevealSection(now, p, stats) <==>
                 ProposalList.GetProposalStatus(now, p).status == ProposalList.EndedPending &&
                 stats.Some? && stats.value.canReveal)
  {
    now > p.endTime && !p.isRevealed && stats.Some? && stats.value.canReveal
  }

  /** "Cannot Vote": the window is open but the page does not let this user vote. */
  predicate ShowCannotVote(now: int, p: Proposal, canVote: bool)
    ensures ShowCannotVote(now, p, canVote) <==>
              !canVote && ProposalList.GetProposalStatus(now, p).status == ProposalList.Active
  {
    !canVote && GetProposalStatus(now, p).canVote
  }

  /** The vote form and the reveal form never appear together, nor the vote form and "Cannot Vote". */
  lemma SectionsExclusive(now: int, p: Proposal, canVote: bool, hasVoted: bool, stats: Option<VoteStats>)
    ensures !(ShowVoteSection(now, p, canVote, hasVoted) && ShowRevealSection(now, p, stats))
    ensures !(ShowVoteSection(now, p, canVote, hasVoted) && ShowCannotVote(now, p, canVote))
    ensures !(ShowCannotVote(now, p, canVote) && ShowRevealSection(now, p, stats))
  {
  }

  /** What `handleVote` does: an alert without a call, or `onCastVote(selected)`. */
  datatype VoteAction = Alert(message: string) | CastVote(option: nat)

  const NoSelectionAlert := "Please select an option to vote"

  /** `handleVote()`: alerts when nothing is selected, otherwise casts the selected option. */
  function HandleVote(selected: Option<nat>): VoteAction
  {
    match selected
    case None => Alert(NoSelectionAlert)
    case Some(i) => CastVote(i)
  }

  /**
   * The selection after a series of clicks on the rendered options: it starts as `null`
   * and each click `setSelectedOption(index)` replaces it.
   */
  function SelectionAfter(clicks: seq<nat>): Option<nat>
  {
    if clicks == [] then None else Some(clicks[|clicks| - 1])
  }

  /**
   * `handleVote` never calls `onCastVote` before an option was clicked, and when it does,
   * it passes the option clicked last. As the clickable rows are `proposal.options`, that
   * index passes the ledger's "Invalid option" check.
   */
  lemma {:induction false} VoteFromRenderedOption(p: Proposal, clicks: seq<nat>)
    requires forall k :: 0 <= k < |clicks| ==> clicks[k] < |p.options|
    ensures HandleVote(SelectionAfter(clicks)) == Alert(NoSelectionAlert) <==> clicks == []
    ensures HandleVote(SelectionAfter(clicks)).CastVote? ==>
              HandleVote(SelectionAfter(clicks)).option == clicks[|clicks| - 1] &&
              Ledger.ValidOption(HandleVote(SelectionAfter(clicks)).option, |p.options|)
  {
    if clicks != [] {
      var last := clicks[|clicks| - 1];
      assert last < |p.options|;
      assert HandleVote(SelectionAfter(clicks)) == CastVote(last);
    }
  }
}
