/** The front end's view of the contracts' data (the interfaces of types/index.ts). */
module Types {

  /** A proposal as the front end holds it; times are in seconds. */
  datatype Proposal = Proposal(
    id: nat, creator: string, title: string, description: string, options: seq<string>,
    startTime: int, endTime: int, minVotesForReveal: int, isActive: bool, isRevealed: bool)

  /** What the proposal manager reports about a proposal. */
  datatype VoteStats = VoteStats(totalVoters: nat, timeRemaining: int, canVote: bool, canReveal: bool)
}
