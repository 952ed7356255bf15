/**
 * The application page (page.tsx): loading and de-duplicating the proposal lists, the
 * results shown for a selected proposal, the `canVote` flag and the vote total.
 */
module Page {
  import opened Common
  import opened Types
  import opened Strings
  import Utils
  import VotingInterface
  import ResultsVisualization

  datatype Mode = Real | Mock

  /**
   * The chain each mode expects: the one the helpers name "Hardhat Local" in mock mode and
   * "Sepolia Testnet" in real mode; as the names differ, the two modes never accept the
   * same chain.
   */
  function ExpectedChainId(mode: Mode): (id: int)
    ensures Utils.ChainName(id) == (if mode == Mock then "Hardhat Local" else "Sepolia Testnet")
  {
    if mode == Mock then Utils.HardhatId else Utils.SepoliaId
  }

  /** `new Set(activeProposals.map(p => p.id))`. */
  function ProposalIds(ps: seq<Proposal>): set<nat>
  {
    set p | p in ps :: p.id
  }

  /** `filter(p => !ids.has(p.id))`: the proposals outside `ids`, in their original order. */
  function WithoutIds(ps: seq<Proposal>, ids: set<nat>): (r: seq<Proposal>)
    ensures |r| <= |ps|
    ensures Subsequence(r, ps)
    ensures forall p :: multiset(r)[p] == if p.id !in ids then multiset(ps)[p] else 0
    ensures forall p :: p in r <==> p in ps && p.id !in ids
  {
    if ps == [] then []
    else
      var rest := WithoutIds(ps[1..], ids);
      WithoutIdsStep(ps, ids, rest);
      if ps[0].id in ids then rest else [ps[0]] + rest
  }

  /** Deciding the first proposal keeps every proposal's count right, given the rest's. */
  lemma WithoutIdsStep(ps: seq<Proposal>, ids: set<nat>, rest: seq<Proposal>)
    requires ps != []
    requires forall p :: multiset(rest)[p] == if p.id !in ids then multiset(ps[1..])[p] else 0
    ensures var r := if ps[0].id in ids then rest else [ps[0]] + rest;
            forall p :: multiset(r)[p] == if p.id !in ids then multiset(ps)[p] else 0
  {
    assert ps == [ps[0]] + ps[1..];
  }

  /**
   * `uniqueEndedProposals`: the ended proposals, in order, without any whose id is also
   * among the active ones; every other ended proposal is kept.
   */
  function UniqueEnded(active: seq<Proposal>, ended: seq<Proposal>): (r: seq<Proposal>)
    ensures Subsequence(r, ended)
    ensures forall p, q :: p in r && q in active ==> p.id != q.id
    ensures forall p :: multiset(r)[p] == if p.id !in ProposalIds(active) then multiset(ended)[p] else 0
  {
    WithoutIds(ended, ProposalIds(active))
  }

  /** `allProposals`: the active proposals followed by the de-duplicated ended ones. */
  function AllProposals(active: seq<Proposal>, ended: seq<Proposal>): (r: seq<Proposal>)
    ensures |r| == |active| + |UniqueEnded(active, ended)|
    ensures r[..|active|] == active
    ensures r[|active|..] == UniqueEnded(active, ended)
  {
    active + UniqueEnded(active, ended)
  }

  /** A proposal id never appears in both parts of `allProposals`. */
  lemma CategoriesDisjoint(active: seq<Proposal>, ended: seq<Proposal>, i: int, j: int)
    requires 0 <= i < |active| <= j < |AllProposals(active, ended)|
    ensures AllProposals(active, ended)[i].id != AllProposals(active, ended)[j].id
  {
    var all := AllProposals(active, ended);
    assert all[i] == active[i];
    assert all[j] == UniqueEnded(active, ended)[j - |active|];
  }

  /** What the contract calls of `loadProposals` produce: both lists, or an error message. */
  datatype LoadFetch = Fetched(active: seq<Proposal>, ended: seq<Proposal>) | LoadFailed(message: string)

  const DefaultLoadError := "Failed to load proposals"
  const MockLoadError := "Mock mode: Ensure local Hardhat node is running and contracts are deployed"

  /** The page's proposal state. */
  class HomePage {
    var realProposals: seq<Proposal>
    var realActiveProposals: seq<Proposal>
    var realEndedProposals: seq<Proposal>
    var isLoadingProposals: bool
    var proposalsError: Option<string>

    /** The combined list is the active list then the ended list, and they share no id. */
    ghost predicate Valid()
      reads this
    {
      realProposals == realActiveProposals + realEndedProposals &&
      forall p, q :: p in realEndedProposals && q in realActiveProposals ==> p.id != q.id
    }

    constructor ()
      ensures Valid()
      ensures realProposals == [] && realActiveProposals == [] && realEndedProposals == []
      ensures !isLoadingProposals && proposalsError == None
    {
      realProposals := [];
      realActiveProposals := [];
      realEndedProposals := [];
      isLoadingProposals := false;
      proposalsError := None;
    }

    /**
     * `loadProposals()`. On the wrong chain the lists are untouched; otherwise they are
     * replaced by the fetched, de-duplicated lists, or emptied with an error message.
     * Loading always ends with the flag cleared.
     */
    method LoadProposals(mode: Mode, chainId: int, fetch: LoadFetch)
      requires Valid()
      modifies this
      ensures Valid()
      ensures !isLoadingProposals
      ensures chainId != ExpectedChainId(mode) ==>
                realProposals == old(realProposals) && realActiveProposals == old(realActiveProposals) &&
                realEndedProposals == old(realEndedProposals) && proposalsError == None
      ensures chainId == ExpectedChainId(mode) && fetch.Fetched? ==>
                realActiveProposals == fetch.active &&
                realEndedProposals == UniqueEnded(fetch.active, fetch.ended) &&
                realProposals == AllProposals(fetch.active, fetch.ended) &&
                proposalsError == None
      ensures chainId == ExpectedChainId(mode) && fetch.LoadFailed? ==>
                realProposals == [] && realActiveProposals == [] && realEndedProposals == [] &&
                proposalsError == Some(if mode == Mock then MockLoadError
                                       else if fetch.message == [] then DefaultLoadError
                                       else fetch.message)
    {
      isLoadingProposals := true;
      proposalsError := None;
      if chainId == ExpectedChainId(mode) {
        match fetch {
          case Fetched(active, ended) =>
            var unique := UniqueEnded(active, ended);
            realProposals := active + unique;
            realActiveProposals := active;
            realEndedProposals := unique;
          case LoadFailed(message) =>
            proposalsError := Some(if message == [] then DefaultLoadError else message);
            if mode == Mock {
              proposalsError := Some(MockLoadError);
            }
            realProposals := [];
            realActiveProposals := [];
            realEndedProposals := [];
        }
      }
      isLoadingProposals := false;
    }
  }

  /** What `getDecryptedResults` yields: tallies, null, or a thrown error. */
  datatype ResultsFetch = Decrypted(results: Option<seq<nat>>) | DecryptFailed

  /**
   * `loadProposalResults(proposal)`: tallies appear only for a selected, revealed proposal
   * whose decryption returned them; every other path leaves the results empty.
   */
  function LoadedResults(proposal: Option<Proposal>, fetch: ResultsFetch): (r: seq<nat>)
    ensures proposal.None? || !proposal.value.isRevealed ==> r == []
    ensures fetch.DecryptFailed? || fetch == Decrypted(None) ==> r == []
    ensures r != [] ==> proposal.Some? && proposal.value.isRevealed && fetch == Decrypted(Some(r))
    ensures proposal.Some? && proposal.value.isRevealed && fetch.Decrypted? && fetch.results.Some? ==>
              r == fetch.results.value
  {
    if proposal.None? || !proposal.value.isRevealed then []
    else match fetch
      case Decrypted(Some(results)) => results
      case _ => []
  }

  /** The `canVote` the page hands to the voting view: not yet voted and the end not passed. */
  predicate CanVote(hasVoted: bool, now: int, p: Proposal)
  {
    !hasVoted && now <= p.endTime
  }

  /**
   * With the page's `canVote`, inside the voting window the vote form is shown exactly to
   * users who have not voted and the "Cannot Vote" card exactly to those who have. One
   * `now` stands for two clocks: the page's `Date.now() / 1000` when it computes `canVote`
   * and the voting view's own `currentTime`, which a one-second interval refreshes.
   */
  lemma VotingViewSections(hasVoted: bool, now: int, p: Proposal)
    ensures VotingInterface.ShowVoteSection(now, p, CanVote(hasVoted, now, p), hasVoted) <==>
              p.startTime <= now <= p.endTime && !hasVoted
    ensures VotingInterface.ShowCannotVote(now, p, CanVote(hasVoted, now, p)) <==>
              p.startTime <= now <= p.endTime && hasVoted
  {
  }

  /** `currentResults.reduce((a, b) => a + b, 0)`, accumulated left to right. */
  function TotalVotes(results: seq<nat>): nat
  {
    if results == [] then 0 else TotalVotes(results[..|results| - 1]) + results[|results| - 1]
  }

  /** No single tally exceeds the total. */
  lemma {:induction false} TallyBoundedByTotal(results: seq<nat>, i: int)
    requires 0 <= i < |results|
    ensures results[i] <= TotalVotes(results)
  {
    var n := |results| - 1;
    if i < n {
      TallyBoundedByTotal(results[..n], i);
    }
  }

  /** The total is zero exactly when every tally is zero. */
  lemma {:induction false} TotalZeroIff(results: seq<nat>)
    ensures TotalVotes(results) == 0 <==> forall i :: 0 <= i < |results| ==> results[i] == 0
  {
    if results != [] {
      var n := |results| - 1;
      TotalZeroIff(results[..n]);
      assert forall i :: 0 <= i < n ==> results[..n][i] == results[i];
    }
  }

  /** The tallies `results[i] || 0` for the first `n` options. */
  function Padded(results: seq<nat>, n: nat): seq<nat>
  {
    seq(n, i requires 0 <= i < n => ResultsVisualization.ValueAt(results, i))
  }

  lemma {:induction false} PaddedTotal(results: seq<nat>, n: nat)
    ensures TotalVotes(Padded(results, n)) == TotalVotes(results[..Min(n, |results|)])
  {
    if n > 0 {
      PaddedTotal(results, n - 1);
      assert Padded(results, n)[..n - 1] == Padded(results, n - 1);
      if n <= |results| {
        assert results[..n][..n - 1] == results[..n - 1];
      }
    }
  }

  function Values(d: seq<ResultsVisualization.ChartEntry>): (v: seq<nat>)
    ensures |v| == |d|
  {
    seq(|d|, i requires 0 <= i < |d| => d[i].value)
  }

  /** The chart's values are the tallies padded with zeros to one per option. */
  lemma ChartValuesPadded(results: seq<nat>, options: seq<string>)
    requires results != []
    ensures Values(ResultsVisualization.ChartData(results, options, true)) == Padded(results, |options|)
  {
    var d := ResultsVisualization.ChartData(results, options, true);
    var v, pad := Values(d), Padded(results, |options|);
    forall i | 0 <= i < |v|
      ensures v[i] == pad[i]
    {
      assert v[i] == d[i].value;
    }
  }

  /**
   * The chart accounts for every counted vote: when there are no more tallies than options,
   * its values sum to the `totalVotes` the page passes in; extra tallies are not charted.
   */
  lemma ChartShowsAllVotes(results: seq<nat>, options: seq<string>)
    requires results != []
    ensures TotalVotes(Values(ResultsVisualization.ChartData(results, options, true))) ==
              TotalVotes(results[..Min(|options|, |results|)])
    ensures |results| <= |options| ==>
              TotalVotes(Values(ResultsVisualization.ChartData(results, options, true))) == TotalVotes(results)
  {
    ChartValuesPadded(results, options);
    PaddedTotal(results, |options|);
    assert results[..|results|] == results;
  }
}
