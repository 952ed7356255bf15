/**
 * The proposal ledger (the VotingCore contract): a counter of proposals, the proposals
 * keyed by id, and per proposal the set of addresses that have voted. Ballots are
 * encrypted: the handle and input proof a voter submits are opaque here, and the ledger
 * keeps only who voted, never the choice. The current block time is an explicit argument.
 */
module Ledger {
  import opened Common

  /** An encrypted-input handle and its proof, as produced by the encryption library. */
  type Handle = seq<bv8>
  type InputProof = seq<bv8>

  const MinOptions: nat := 2
  const MaxOptions: nat := 10
  const MaxDuration: nat := 30 * SecondsPerDay

  predicate ValidOptionCount(n: int) { MinOptions <= n <= MaxOptions }
  predicate ValidDuration(d: int) { 1 <= d <= MaxDuration }

  /** An option index `castVote` accepts for a proposal with `optionCount` options. */
  predicate ValidOption(optionIndex: int, optionCount: int) { 0 <= optionIndex < optionCount }

  /** The parameters `createProposal` accepts. */
  predicate Admissible(optionCount: int, duration: int)
  {
    ValidOptionCount(optionCount) && ValidDuration(duration)
  }

  /** The public fields `getProposalInfo` returns. */
  datatype Proposal = Proposal(
    id: nat, creator: Address, title: string, description: string, options: seq<string>,
    startTime: int, endTime: int, minVotesForReveal: nat, isActive: bool, isRevealed: bool)

  predicate WellFormed(p: Proposal, id: nat)
  {
    p.id == id && ValidOptionCount(|p.options|) && ValidDuration(p.endTime - p.startTime)
  }

  datatype CoreError =
    | InvalidOptionCount | InvalidDuration | ProposalNotFound | VotingNotActive
    | AlreadyVoted | InvalidOption | NotCreator | VotingStillActive

  /** The revert string of each error. */
  function Reason(e: CoreError): string
  {
    match e
    case InvalidOptionCount => "Invalid number of options"
    case InvalidDuration => "Invalid duration"
    case ProposalNotFound => "Proposal does not exist"
    case VotingNotActive => "Voting not active"
    case AlreadyVoted => "Already voted"
    case InvalidOption => "Invalid option"
    case NotCreator => "Only creator can perform this action"
    case VotingStillActive => "Voting still active"
  }

  datatype Result<+T> = Ok(value: T) | Err(error: CoreError)

  class VotingCore {
    var proposalCount: nat
    var proposals: map<nat, Proposal>
    var voters: map<nat, set<Address>>

    /** Ids run 1..proposalCount without gaps; every proposal has a voter set. */
    ghost predicate Valid()
      reads this
    {
      && (forall id :: id in proposals <==> 1 <= id <= proposalCount)
      && (forall id :: id in voters <==> id in proposals)
      && (forall id :: id in proposals ==> WellFormed(proposals[id], id))
    }

    constructor ()
      ensures Valid() && proposalCount == 0 && proposals == map[] && voters == map[]
    {
      proposalCount := 0;
      proposals := map[];
      voters := map[];
    }

    /** `getProposalInfo(id)`; None for an id never allocated. */
    function GetProposalInfo(id: nat): (r: Option<Proposal>)
      reads this
      requires Valid()
      ensures r.Some? <==> 1 <= id <= proposalCount
      ensures r.Some? ==> WellFormed(r.value, id)
    {
      if id in proposals then Some(proposals[id]) else None
    }

    /** `hasUserVoted(id, voter)`. */
    predicate HasUserVoted(id: nat, voter: Address)
      reads this
    {
      id in voters && voter in voters[id]
    }

    /** `createProposal(...)`: validates, then allocates the next id and opens the window [now, now + duration]. */
    method CreateProposal(caller: Address, now: int, title: string, description: string, options: seq<string>,
                          duration: nat, minVotesForReveal: nat) returns (r: Result<nat>)
      requires Valid()
      modifies this
      ensures Valid()
      ensures r == if !ValidOptionCount(|options|) then Err(InvalidOptionCount)
                   else if !ValidDuration(duration) then Err(InvalidDuration)
                   else Ok(old(proposalCount) + 1)
      ensures r.Ok? ==> proposalCount == r.value
      ensures r.Ok? ==> proposals == old(proposals)[r.value := Proposal(r.value, caller, title, description, options,
                                                                        now, now + duration, minVotesForReveal, true, false)]
      ensures r.Ok? ==> voters == old(voters)[r.value := {}]
      ensures r.Err? ==> proposalCount == old(proposalCount) && proposals == old(proposals) && voters == old(voters)
    {
      if !ValidOptionCount(|options|) {
        return Err(InvalidOptionCount);
      }
      if !ValidDuration(duration) {
        return Err(InvalidDuration);
      }
      var id := proposalCount + 1;
      proposals := proposals[id := Proposal(id, caller, title, description, options, now, now + duration,
                                            minVotesForReveal, true, false)];
      voters := voters[id := {}];
      proposalCount := id;
      r := Ok(id);
    }

    /** `castVote(id, option, handle, proof)`: records that `caller` voted; no registration is consulted. */
    method CastVote(caller: Address, now: int, id: nat, optionIndex: nat, handle: Handle, proof: InputProof)
      returns (r: Result<()>)
      requires Valid()
      modifies this`voters
      ensures Valid()
      ensures r == if id !in old(proposals) then Err(ProposalNotFound)
                   else if !(proposals[id].startTime <= now <= proposals[id].endTime) then Err(VotingNotActive)
                   else if old(HasUserVoted(id, caller)) then Err(AlreadyVoted)
                   else if !ValidOption(optionIndex, |proposals[id].options|) then Err(InvalidOption)
                   else Ok(())
      ensures r.Ok? ==> voters == old(voters)[id := old(voters[id]) + {caller}]
      ensures r.Ok? ==> HasUserVoted(id, caller)
      ensures r.Err? ==> voters == old(voters)
    {
      if id !in proposals {
        return Err(ProposalNotFound);
      }
      var p := proposals[id];
      if !(p.startTime <= now <= p.endTime) {
        return Err(VotingNotActive);
      }
      if caller in voters[id] {
        return Err(AlreadyVoted);
      }
      if !ValidOption(optionIndex, |p.options|) {
        return Err(InvalidOption);
      }
      voters := voters[id := voters[id] + {caller}];
      r := Ok(());
    }

    /** `revealResults(id)`: the creator, once the window has closed, marks the results revealed. */
    method RevealResults(caller: Address, now: int, id: nat) returns (r: Result<()>)
      requires Valid()
      modifies this`proposals
      ensures Valid()
      ensures r == if id !in old(proposals) then Err(ProposalNotFound)
                   else if caller != old(proposals[id]).creator then Err(NotCreator)
                   else if now <= old(proposals[id]).endTime then Err(VotingStillActive)
                   else Ok(())
      ensures r.Ok? ==> proposals == old(proposals)[id := old(proposals[id]).(isRevealed := true)]
      ensures r.Err? ==> proposals == old(proposals)
    {
      if id !in proposals {
        return Err(ProposalNotFound);
      }
      var p := proposals[id];
      if caller != p.creator {
        return Err(NotCreator);
      }
      if now <= p.endTime {
        return Err(VotingStillActive);
      }
      proposals := proposals[id := p.(isRevealed := true)];
      r := Ok(());
    }
  }

  // ---------------------------------------------------------------------------
  // The test cases, replayed against a freshly deployed ledger.
  // ---------------------------------------------------------------------------

  /** The first proposal gets id 1 and reads back as given, active and unrevealed. */
  method CreateScenario(alice: Address, now: int, title: string, description: string)
    returns (r: Result<nat>, count: nat, info: Option<Proposal>)
    ensures r == Ok(1) && count == 1
    ensures info.Some? && info.value.title == title && info.value.description == description
    ensures info.value.options == ["Option A", "Option B", "Option C"] && info.value.creator == alice
    ensures info.value.isActive && !info.value.isRevealed
  {
    var core := new VotingCore();
    r := core.CreateProposal(alice, now, title, description, ["Option A", "Option B", "Option C"], 3600, 2);
    count := core.proposalCount;
    info := core.GetProposalInfo(1);
  }

  /** Each accepted proposal takes the next id, which is the counter's new value. */
  method ConsecutiveIdsScenario(alice: Address, now: int) returns (first: Result<nat>, second: Result<nat>, count: nat)
    ensures first == Ok(1) && second == Ok(2) && count == 2
  {
    var core := new VotingCore();
    first := core.CreateProposal(alice, now, "Quick Test", "Quick test proposal", ["A", "B"], 1, 1);
    second := core.CreateProposal(alice, now + 2, "Active Proposal", "Still active", ["X", "Y"], 3600, 1);
    count := core.proposalCount;
  }

  /** One option, eleven options, duration 0 and 30 days + 1 second are each rejected. */
  method RejectScenario(alice: Address, now: int)
    returns (few: Result<nat>, many: Result<nat>, short: Result<nat>, long: Result<nat>, count: nat)
    ensures few == Err(InvalidOptionCount) && many == Err(InvalidOptionCount)
    ensures Reason(few.error) == "Invalid number of options"
    ensures short == Err(InvalidDuration) && long == Err(InvalidDuration)
    ensures Reason(short.error) == "Invalid duration"
    ensures count == 0
  {
    var core := new VotingCore();
    few := core.CreateProposal(alice, now, "Title", "Description", ["A"], 3600, 1);
    var eleven := seq(11, _ => "Option");
    many := core.CreateProposal(alice, now, "Title", "Description", eleven, 3600, 1);
    short := core.CreateProposal(alice, now, "Title", "Description", ["A", "B"], 0, 1);
    long := core.CreateProposal(alice, now, "Title", "Description", ["A", "B"], 30 * 24 * 60 * 60 + 1, 1);
    count := core.proposalCount;
  }

  /** An unregistered voter votes once; a second vote for any option and option 999 are refused. */
  method VotingScenario(alice: Address, bob: Address, charlie: Address, now: int, secondChoice: nat, h: Handle, pf: InputProof)
    returns (first: Result<()>, voted: bool, second: Result<()>, outOfRange: Result<()>)
    requires bob != charlie
    ensures first == Ok(()) && voted
    ensures second == Err(AlreadyVoted) && Reason(second.error) == "Already voted"
    ensures outOfRange == Err(InvalidOption) && Reason(outOfRange.error) == "Invalid option"
  {
    var core := new VotingCore();
    var created := core.CreateProposal(alice, now, "Test Voting", "Test voting description", ["Yes", "No"], 3600, 1);
    var id := core.proposalCount;
    first := core.CastVote(bob, now, id, 0, h, pf);
    voted := core.HasUserVoted(id, bob);
    second := core.CastVote(bob, now, id, secondChoice, h, pf);
    outOfRange := core.CastVote(charlie, now, id, 999, h, pf);
  }

  /** After a one-second window the creator reveals with no votes cast; anyone else is refused. */
  method RevealAfterEndScenario(alice: Address, bob: Address, now: int, later: int)
    returns (foreign: Result<()>, own: Result<()>, revealed: bool)
    requires alice != bob
    requires later > now + 1
    ensures foreign == Err(NotCreator) && Reason(foreign.error) == "Only creator can perform this action"
    ensures own == Ok(()) && revealed
  {
    var core := new VotingCore();
    var quick := core.CreateProposal(alice, now, "Quick Test", "Quick test proposal", ["A", "B"], 1, 1);
    var id := core.proposalCount;
    foreign := core.RevealResults(bob, later, id);
    own := core.RevealResults(alice, later, id);
    var info := core.GetProposalInfo(id);
    revealed := info.Some? && info.value.isRevealed;
  }

  /**
   * After the one-second fixture proposal (id 1), a proposal whose window is still open
   * takes id 2 and cannot be revealed, even by its creator.
   */
  method RevealBeforeEndScenario(alice: Address, now: int, later: int) returns (activeId: nat, early: Result<()>)
    requires later > now + 1
    ensures activeId == 2
    ensures early == Err(VotingStillActive) && Reason(early.error) == "Voting still active"
  {
    var core := new VotingCore();
    var quick := core.CreateProposal(alice, now, "Quick Test", "Quick test proposal", ["A", "B"], 1, 1);
    var active := core.CreateProposal(alice, later, "Active Proposal", "Still active", ["X", "Y"], 3600, 1);
    activeId := core.proposalCount;
    early := core.RevealResults(alice, later, activeId);
  }
}
