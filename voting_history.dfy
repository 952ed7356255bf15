/**
 * The voting history panel (VotingHistory.tsx): per-proposal status, the list of items
 * built from the proposals a user voted on, and the three summary counters.
 */
module VotingHistory {
  import opened Common
  import opened Types
  import Strings
  import ProposalList

  /** The item status `'active' | 'ended' | 'revealed'`. */
  datatype HistoryStatus = ActiveStatus | EndedStatus | RevealedStatus

  /**
   * The status of a history item: revealed results win, otherwise the item is ended once
   * `currentTime` is past the end. There is no "not started" status here.
   */
  function StatusOf(currentTime: int, p: Proposal): (s: HistoryStatus)
    ensures s == RevealedStatus <==> p.isRevealed
    ensures s == EndedStatus <==> !p.isRevealed && currentTime > p.endTime
    ensures s == ActiveStatus <==> !p.isRevealed && currentTime <= p.endTime
  {
    if p.isRevealed then RevealedStatus
    else if currentTime > p.endTime then EndedStatus
    else ActiveStatus
  }

  /** The string key the panel stores for a status. */
  function StatusKey(s: HistoryStatus): string
  {
    match s
    case ActiveStatus => "active"
    case EndedStatus => "ended"
    case RevealedStatus => "revealed"
  }

  /** `getStatusColor(status)`: a colour per known key and grey for any other string. */
  function StatusColor(status: string): (r: string)
    ensures status == "active" <==> r == "text-green-600 bg-green-100"
    ensures status == "ended" <==> r == "text-orange-600 bg-orange-100"
    ensures status == "revealed" <==> r == "text-blue-600 bg-blue-100"
    ensures status !in {"active", "ended", "revealed"} <==> r == "text-gray-600 bg-gray-100"
  {
    if status == "active" then "text-green-600 bg-green-100"
    else if status == "ended" then "text-orange-600 bg-orange-100"
    else if status == "revealed" then "text-blue-600 bg-blue-100"
    else "text-gray-600 bg-gray-100"
  }

  /** `getStatusText(status)`: a label per known key and "Unknown" for any other string. */
  function StatusText(status: string): (r: string)
    ensures status == "active" <==> r == "Active"
    ensures status == "ended" <==> r == "Ended"
    ensures status == "revealed" <==> r == "Results Available"
    ensures status !in {"active", "ended", "revealed"} <==> r == "Unknown"
  {
    if status == "active" then "Active"
    else if status == "ended" then "Ended"
    else if status == "revealed" then "Results Available"
    else "Unknown"
  }

  /** Every status an item can carry has its own label and colour, never the fallback. */
  lemma StatusLabelsDistinct(s: HistoryStatus, t: HistoryStatus)
    ensures StatusText(StatusKey(s)) != "Unknown"
    ensures StatusColor(StatusKey(s)) != "text-gray-600 bg-gray-100"
    ensures s != t ==> StatusText(StatusKey(s)) != StatusText(StatusKey(t))
  {
  }

  /** The coarse status the proposal cards' badge corresponds to. */
  function FromCardStatus(status: string): HistoryStatus
  {
    if status == ProposalList.Completed then RevealedStatus
    else if status == ProposalList.EndedPending then EndedStatus
    else ActiveStatus
  }

  /**
   * The history status agrees with the proposal cards' badge (not started and active both
   * count as active) unless results were revealed while the window is still open.
   */
  lemma StatusAgreesWithCards(now: int, p: Proposal)
    requires p.startTime <= p.endTime
    requires !p.isRevealed || now > p.endTime
    ensures StatusOf(now, p) == FromCardStatus(ProposalList.GetProposalStatus(now, p).status)
  {
  }

  /** Where the two disagree: revealed inside the window shows as revealed here, active on the card. */
  lemma RevealedInWindowDiverges(now: int, p: Proposal)
    requires p.isRevealed && p.startTime <= now <= p.endTime
    ensures StatusOf(now, p) == RevealedStatus
    ensures ProposalList.GetProposalStatus(now, p).status == ProposalList.Active
  {
  }

  /** One history row. `votedAt` is the clock when the row was built, not the time of the vote. */
  datatype HistoryItem = HistoryItem(
    proposalId: nat,
    proposalTitle: string,
    votedAt: int,
    hasVoted: bool,
    status: HistoryStatus,
    endTime: int,
    totalVotes: nat)

  /**
   * What loading one voted proposal yields: the proposal, its (possibly null) stats and the
   * clock `Date.now() / 1000` read once both calls returned; a null proposal; or a thrown error.
   */
  datatype ItemFetch = Loaded(proposal: Proposal, stats: Option<VoteStats>, loadedAt: int) | Missing | Failed

  /** `stats?.totalVoters || 0`. */
  function TotalVotes(stats: Option<VoteStats>): nat
  {
    if stats.Some? then stats.value.totalVoters else 0
  }

  /** The positions, in increasing order, whose proposal loaded. */
  function LoadedPositions(fetches: seq<ItemFetch>): (ks: seq<nat>)
    ensures |ks| <= |fetches|
    ensures forall j :: 0 <= j < |ks| ==> ks[j] < |fetches| && fetches[ks[j]].Loaded?
    ensures forall i, j :: 0 <= i < j < |ks| ==> ks[i] < ks[j]
    ensures forall k :: 0 <= k < |fetches| && fetches[k].Loaded? ==> k in ks
  {
    if fetches == [] then []
    else
      var n := |fetches| - 1;
      var rest := LoadedPositions(fetches[..n]);
      assert forall k :: 0 <= k < n ==> fetches[..n][k] == fetches[k];
      if fetches[n].Loaded? then rest + [n] else rest
  }

  /** The row pushed for voted id `id` whose proposal loaded as `f`. */
  predicate IsRowFor(item: HistoryItem, id: nat, f: ItemFetch, currentTime: int)
    requires f.Loaded?
  {
    && item.proposalId == id
    && item.proposalTitle == f.proposal.title
    && item.votedAt == f.loadedAt
    && item.hasVoted
    && item.status == StatusOf(currentTime, f.proposal)
    && item.endTime == f.proposal.endTime
    && item.totalVotes == TotalVotes(f.stats)
  }

  /**
   * The items the loop collects from `votedProposalIds` and the per-id fetches: the j-th
   * row belongs to the j-th id whose proposal loaded, so null proposals and failed loads
   * are skipped and the input order is kept; every row is marked voted and carries the
   * proposal's title, end, history status and voter count.
   */
  function History(ids: seq<nat>, fetches: seq<ItemFetch>, currentTime: int): (r: seq<HistoryItem>)
    requires |ids| == |fetches|
    ensures |r| == |LoadedPositions(fetches)|
    ensures forall j :: 0 <= j < |r| ==>
              var k := LoadedPositions(fetches)[j]; IsRowFor(r[j], ids[k], fetches[k], currentTime)
  {
    if ids == [] then []
    else
      var n := |ids| - 1;
      var rest := History(ids[..n], fetches[..n], currentTime);
      assert forall k :: 0 <= k < n ==> ids[..n][k] == ids[k] && fetches[..n][k] == fetches[k];
      match fetches[n]
      case Loaded(p, stats, at) =>
        rest + [HistoryItem(ids[n], p.title, at, true, StatusOf(currentTime, p), p.endTime, TotalVotes(stats))]
      case _ => rest
  }

  /** The `for ... of votedProposalIds` loop, pushing one item per loaded proposal. */
  method CollectHistory(ids: seq<nat>, fetches: seq<ItemFetch>, currentTime: int)
    returns (items: seq<HistoryItem>)
    requires |ids| == |fetches|
    ensures items == History(ids, fetches, currentTime)
  {
    items := [];
    var i := 0;
    while i < |ids|
      invariant 0 <= i <= |ids|
      invariant items == History(ids[..i], fetches[..i], currentTime)
    {
      assert ids[..i + 1][..i] == ids[..i];
      assert fetches[..i + 1][..i] == fetches[..i];
      match fetches[i] {
        case Loaded(p, stats, at) =>
          items := items + [HistoryItem(ids[i], p.title, at, true, StatusOf(currentTime, p), p.endTime, TotalVotes(stats))];
        case _ =>
      }
      i := i + 1;
    }
    assert ids[..i] == ids && fetches[..i] == fetches;
  }

  /** How many of the ended proposals have their results revealed. */
  function RevealedCount(ended: seq<Proposal>): (n: nat)
    ensures n <= |ended|
    ensures n == 0 <==> forall k :: 0 <= k < |ended| ==> !ended[k].isRevealed
    ensures n == |ended| <==> forall k :: 0 <= k < |ended| ==> ended[k].isRevealed
  {
    if ended == [] then 0
    else
      var rest := RevealedCount(ended[1..]);
      assert forall k :: 1 <= k < |ended| ==> ended[k] == ended[1..][k - 1];
      (if ended[0].isRevealed then 1 else 0) + rest
  }

  /** The counting loop over `allEndedProposals`. */
  method CountResultsAvailable(ended: seq<Proposal>) returns (n: nat)
    ensures n == RevealedCount(ended)
  {
    n := 0;
    var i := 0;
    while i < |ended|
      invariant 0 <= i <= |ended|
      invariant n + RevealedCount(ended[i..]) == RevealedCount(ended)
    {
      assert ended[i..][1..] == ended[i + 1..];
      if ended[i].isRevealed {
        n := n + 1;
      }
      i := i + 1;
    }
    assert ended[i..] == [];
  }

  /** The three counters in the panel's header. */
  datatype Stats = Stats(proposalsVoted: nat, activeProposals: nat, resultsAvailable: nat)

  const ZeroStats := Stats(0, 0, 0)

  /** The outcome of `getUserVotedProposals`: the ids with one fetch per id, or a thrown error. */
  datatype VotedFetch = VotedIds(ids: seq<nat>, fetches: seq<ItemFetch>) | VotedFailed

  /**
   * The two statistics calls: both succeed, `getEndedProposals` throws after the active
   * list arrived, or `getActiveProposals` throws.
   */
  datatype StatsFetch = BothLoaded(active: seq<Proposal>, ended: seq<Proposal>)
                      | EndedFailed(active: seq<Proposal>)
                      | ActiveFailed

  /** `activeProposals` after the statistics block: a failed call leaves its counter at 0. */
  function ActiveCount(f: StatsFetch): nat
  {
    match f
    case BothLoaded(active, _) => |active|
    case EndedFailed(active) => |active|
    case ActiveFailed => 0
  }

  /** `resultsAvailable` after the statistics block. */
  function ResultsCount(f: StatsFetch): nat
  {
    if f.BothLoaded? then RevealedCount(f.ended) else 0
  }

  /** The panel's state: the history rows and the counters. */
  class HistoryPanel {
    var history: seq<HistoryItem>
    var stats: Stats

    constructor ()
      ensures history == [] && stats == ZeroStats
    {
      history := [];
      stats := ZeroStats;
    }

    /**
     * `loadVotingHistory()`. Without an address or a contract the rows are cleared and the
     * counters kept; a failed id query clears both; otherwise the rows are `History(...)`
     * and the counters are its length and the statistics counts.
     */
    method LoadVotingHistory(userAddress: string, contractReady: bool, currentTime: int,
                             voted: VotedFetch, statsFetch: StatsFetch)
      requires voted.VotedIds? ==> |voted.ids| == |voted.fetches|
      modifies this
      ensures userAddress == [] || !contractReady ==> history == [] && stats == old(stats)
      ensures userAddress != [] && contractReady && voted.VotedFailed? ==> history == [] && stats == ZeroStats
      ensures userAddress != [] && contractReady && voted.VotedIds? ==>
                history == History(voted.ids, voted.fetches, currentTime) &&
                stats == Stats(|history|, ActiveCount(statsFetch), ResultsCount(statsFetch))
    {
      if userAddress == [] || !contractReady {
        history := [];
        return;
      }
      match voted
      case VotedFailed =>
        history := [];
        stats := ZeroStats;
      case VotedIds(ids, fetches) =>
        var items := CollectHistory(ids, fetches, currentTime);
        history := items;
        var proposalsVoted := |items|;
        var activeProposals := 0;
        var resultsAvailable := 0;
        match statsFetch {
          case BothLoaded(active, ended) =>
            activeProposals := |active|;
            resultsAvailable := CountResultsAvailable(ended);
          case EndedFailed(active) =>
            activeProposals := |active|;
          case ActiveFailed =>
        }
        stats := Stats(proposalsVoted, activeProposals, resultsAvailable);
    }
  }
}
