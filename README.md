# Confidential voting dApp — Dafny model

This project models a confidential voting application built on fully homomorphic
encryption (FHE). It has two smart contracts and a web front end.

- **The identity registry (`VotingAuth`)** holds a profile per address: registered,
  banned, voting weight in [1,100] and ban reason. It also holds a moderator set, one
  admin and a pause flag.
- **The proposal ledger (`VotingCore`)** numbers proposals 1, 2, … and checks their
  option count (2..10) and duration (1 s .. 30 days). It accepts one encrypted ballot per
  voter inside the voting window and lets the creator reveal the results once the window
  has closed.
- **The front end** covers:
  - the create-proposal form, with its option editing and validation;
  - the three separate status classifiers: the proposal cards, the voting page and the
    voting history;
  - the voting page's visibility rules;
  - the page's proposal loading and de-duplication, the results it shows and its
    `canVote` flag;
  - the results chart: its entries, the winner and the sorted list;
  - the formatting helpers.

The contracts' source is not among the files modelled. Their behaviour is taken from the
Hardhat tests (`fhevm-hardhat-template/test/VotingAuth.ts`, `.../VotingCore.ts`), which
re-deploy and call the contracts in turn. Each contract is therefore a `class` whose
methods state every outcome, revert string and new state. The test cases are replayed as
scenario methods on a fresh object. Where the tests say nothing, the model makes a choice,
and each such choice is listed under "## Left out".

Modules, one per source file:

| Module | File | Source |
|---|---|---|
| `Common` | common.dfy | shared types |
| `Strings` | strings.dfy | the JavaScript string behaviour the helpers use: number-to-text in template literals and `trim` |
| `Registry` | registry.dfy | the VotingAuth tests |
| `Ledger` | ledger.dfy | the VotingCore tests |
| `Types` | types.dfy | types/index.ts |
| `Utils` | utils.dfy | lib/utils.ts |
| `ProposalForm` | proposal_form.dfy | CreateProposalForm.tsx |
| `ProposalList` | proposal_list.dfy | ProposalList.tsx |
| `VotingInterface` | voting_interface.dfy | VotingInterface.tsx |
| `VotingHistory` | voting_history.dfy | VotingHistory.tsx |
| `Page` | page.dfy | app/page.tsx |
| `ResultsVisualization` | results_visualization.dfy | ResultsVisualization.tsx |

Time is an integer parameter (`now`, `currentTime`) throughout. Contract calls are
parameters too: their possible outcomes (success, null, thrown error) are a datatype.

## Model

| member | source | states |
|---|---|---|
| Registry.VotingAuth.constructor | fhevm-hardhat-template/test/VotingAuth.ts:13-18 | a fresh deployment has no profiles, the deployer as admin and only moderator, and is not paused |
| Registry.VotingAuth.ProfileOf | fhevm-hardhat-template/test/VotingAuth.ts:45-48 | a profile is always well-formed (registered iff weight in [1,100], else 0); an untouched address reads as the blank profile |
| Registry.VotingAuth.GetVotingWeight | fhevm-hardhat-template/test/VotingAuth.ts:92-93 | the weight is in [1,100] exactly for a registered address and 0 exactly for an unregistered one |
| Registry.VotingAuth.RegisterUser | fhevm-hardhat-template/test/VotingAuth.ts:41-57 | a fresh caller becomes registered, not banned, weight 1; an already registered caller gets "User already registered" and nothing changes |
| Registry.VotingAuth.RegisterUserWithWeight | fhevm-hardhat-template/test/VotingAuth.ts:59-78 | only the admin may call it; a weight outside [1,100] reverts "Invalid voting weight"; otherwise exactly the given weight is stored |
| Registry.VotingAuth.UpdateVotingWeight | fhevm-hardhat-template/test/VotingAuth.ts:86-110 | checks moderator first, then that the target is registered, then the weight; on success `getVotingWeight` reads the new weight back and only that field changes |
| Registry.VotingAuth.BanUser | fhevm-hardhat-template/test/VotingAuth.ts:118-127 | a moderator sets `isBanned` and records the reason, after which `canUserVote` is false; a non-moderator changes nothing |
| Registry.VotingAuth.UnbanUser | fhevm-hardhat-template/test/VotingAuth.ts:129-138 | a moderator clears `isBanned` and resets the reason to ""; the user may vote again exactly if registered |
| Registry.VotingAuth.AddModerator | fhevm-hardhat-template/test/VotingAuth.ts:149-156 | admin only; the target joins the moderator set |
| Registry.VotingAuth.RemoveModerator | fhevm-hardhat-template/test/VotingAuth.ts:158-166 | admin only; the target leaves the moderator set |
| Registry.VotingAuth.TransferAdmin | fhevm-hardhat-template/test/VotingAuth.ts:192-208 | admin only; the target becomes admin and moderator; a non-admin gets "Only admin can perform this action" and nothing changes |
| Registry.VotingAuth.Pause | fhevm-hardhat-template/test/VotingAuth.ts:212-224 | admin only; sets `paused`; a non-admin leaves it as it was |
| Registry.VotingAuth.Unpause | fhevm-hardhat-template/test/VotingAuth.ts:216-217 | admin only; clears `paused` |
| Registry.RegisterFreshScenario | fhevm-hardhat-template/test/VotingAuth.ts:41-49 | registering on a fresh deployment succeeds with profile (registered, not banned, weight 1) |
| Registry.DoubleRegistrationScenario | fhevm-hardhat-template/test/VotingAuth.ts:51-57 | the second registration reverts "User already registered" and the profile is unchanged |
| Registry.WeightedRegistrationScenario | fhevm-hardhat-template/test/VotingAuth.ts:59-78 | weights 0 and 101 revert "Invalid voting weight"; any weight is accepted exactly when in [1,100] and is then stored as given |
| Registry.WeightUpdateScenario | fhevm-hardhat-template/test/VotingAuth.ts:81-110 | weight 10 reads back as 10; an unregistered target reverts "User not registered"; 0 and 101 revert "Invalid voting weight" |
| Registry.NonModeratorScenario | fhevm-hardhat-template/test/VotingAuth.ts:178-182 | a non-moderator gets "Only moderator can perform this action" even for an unregistered target |
| Registry.BanScenario | fhevm-hardhat-template/test/VotingAuth.ts:113-145 | after a ban the profile carries the reason and `canUserVote` is false; after unban the reason is "" and voting is allowed again |
| Registry.AdminScenario | fhevm-hardhat-template/test/VotingAuth.ts:148-224 | moderators are added and removed; a non-admin's add, transfer and pause all revert; pause then unpause reads back true then false; the new admin is a moderator |
| Ledger.VotingCore.GetProposalInfo | fhevm-hardhat-template/test/VotingCore.ts:67-73 | a proposal exists exactly for ids 1..proposalCount, and each is well-formed (2..10 options, duration 1 s..30 days) |
| Ledger.VotingCore.CreateProposal | fhevm-hardhat-template/test/VotingCore.ts:47-120 | rejects option counts outside [2,10] ("Invalid number of options") and durations outside [1, 2592000] ("Invalid duration") without change; otherwise the new id is count+1, the counter becomes it, and the stored proposal is active, unrevealed, with the caller's data and the window [now, now+duration] |
| Ledger.VotingCore.CastVote | fhevm-hardhat-template/test/VotingCore.ts:142-209 | in order: unknown id, outside the window, already voted ("Already voted", whatever the option), option index out of range ("Invalid option"); on success only this voter is added to this proposal's voters and `hasUserVoted` holds; no registration is consulted |
| Ledger.VotingCore.RevealResults | fhevm-hardhat-template/test/VotingCore.ts:212-265 | a non-creator gets "Only creator can perform this action", a reveal at or before the end gets "Voting still active"; otherwise only `isRevealed` of that proposal becomes true, with no vote minimum |
| Ledger.CreateScenario | fhevm-hardhat-template/test/VotingCore.ts:47-74 | the first proposal gets id 1, the count becomes 1 and it reads back with the given title, description, options and creator, active and unrevealed |
| Ledger.ConsecutiveIdsScenario | fhevm-hardhat-template/test/VotingCore.ts:248-260 | two successive proposals get ids 1 and 2, each equal to the counter after its creation |
| Ledger.RejectScenario | fhevm-hardhat-template/test/VotingCore.ts:76-120 | 1 and 11 options, duration 0 and 30 days + 1 s are each rejected with their revert strings, and no proposal is created |
| Ledger.VotingScenario | fhevm-hardhat-template/test/VotingCore.ts:124-209 | an unregistered voter's vote succeeds and is recorded; the same voter's second vote for any option reverts "Already voted"; option 999 of 2 reverts "Invalid option" |
| Ledger.RevealAfterEndScenario | fhevm-hardhat-template/test/VotingCore.ts:215-246 | after a one-second window the creator reveals with zero votes cast (minimum 1) and `isRevealed` reads true; another account is refused |
| Ledger.RevealBeforeEndScenario | fhevm-hardhat-template/test/VotingCore.ts:248-265 | after the fixture proposal, a one-hour proposal gets id 2 and its creator's early reveal reverts "Voting still active" |
| Strings.DecimalRoundTrip | voting-dapp/src/lib/utils.ts:20-22 | the numeral a number is printed as reads back as that number, so printed counts are unambiguous |
| Strings.TrimEmptyIff | voting-dapp/src/components/voting/CreateProposalForm.tsx:48-53 | `trim()` yields "" exactly when the text is all white space or line terminators |
| Utils.FormatAddress | voting-dapp/src/lib/utils.ts:8-11 | "" stays ""; otherwise the first up-to-six chars, "...", the last up-to-four chars, with that length |
| Utils.FormatLongAddress | voting-dapp/src/lib/utils.ts:8-11 | an address of 10 or more chars becomes 13 chars: its first 6, "...", its last 4 |
| Utils.Decomposition | voting-dapp/src/lib/utils.ts:16-18 | hours ≤ 23, minutes ≤ 59, and days·86400 + hours·3600 + minutes·60 ≤ s < that + 60 |
| Utils.FormatTimeRemaining | voting-dapp/src/lib/utils.ts:13-23 | the text is "Ended" if and only if the remaining time is non-positive, so a countdown never reads "Ended"; every countdown ends in the unit "h" or "m"; the three text forms are stated by DayUnitIff, HoursForm and MinutesOnly |
| Utils.DayUnitIff | voting-dapp/src/lib/utils.ts:16-20 | a positive countdown ends in "h" exactly when at least one day remains, and then reads "{d}d {h}h" with the whole days and the hours left over |
| Utils.HoursForm | voting-dapp/src/lib/utils.ts:16-21 | from one hour up to a day the countdown reads "{h}h {m}m", with h in [1,23] the whole hours and m in [0,59] the minutes left over |
| Utils.MinutesOnly | voting-dapp/src/lib/utils.ts:21-22 | under an hour the text is the whole minutes followed by "m", and "0m" under a minute |
| Utils.ChainName | voting-dapp/src/lib/utils.ts:29-40 | ids 1, 11155111 and 31337 get their fixed names; any other id gets "Chain " followed by a numeral that reads back as that id |
| Utils.ChainNameInjective | voting-dapp/src/lib/utils.ts:29-40 | distinct chain ids get distinct names, including the generic "Chain n" |
| ProposalForm.AddOption | voting-dapp/src/components/voting/CreateProposalForm.tsx:27-31 | the inputs already typed are kept as a prefix; one empty input is added exactly when fewer than ten are shown, so a list of at most ten never grows past ten |
| ProposalForm.DropIndex | voting-dapp/src/components/voting/CreateProposalForm.tsx:35 | the position filter keeps every element except the one at `index`, in order; an index outside the list removes nothing |
| ProposalForm.RemoveOption | voting-dapp/src/components/voting/CreateProposalForm.tsx:33-37 | drops input `index` only while more than two inputs remain |
| ProposalForm.UpdateOption | voting-dapp/src/components/voting/CreateProposalForm.tsx:39-43 | the copy has the same length, the new value at `index` and every other slot unchanged, i.e. it is `options[index := value]` as the edit model applies it |
| ProposalForm.ApplyKeepsRange | voting-dapp/src/components/voting/CreateProposalForm.tsx:27-43 | every edit keeps between two and ten inputs |
| ProposalForm.EditsKeepRange | voting-dapp/src/components/voting/CreateProposalForm.tsx:27-43 | any sequence of edits keeps between two and ten inputs |
| ProposalForm.ReachableInRange | voting-dapp/src/components/voting/CreateProposalForm.tsx:23-43 | from the initial two empty inputs, every reachable list has 2..10 inputs |
| ProposalForm.ValidOptions | voting-dapp/src/components/voting/CreateProposalForm.tsx:53 | the kept options are an in-order subsequence of the inputs, and every input text occurs in it as often as among the inputs if its trim is non-empty, and not at all otherwise (duplicates are all kept) |
| ProposalForm.ValidOptionsVisible | voting-dapp/src/components/voting/CreateProposalForm.tsx:53 | an input is kept exactly when it is not all white space |
| ProposalForm.HandleSubmit | voting-dapp/src/components/voting/CreateProposalForm.tsx:45-76 | submits if and only if title and description are non-blank, at least 2 options are kept, days in [1,30] and minimum votes ≥ 1; the payload is trimmed with the duration in seconds; blank text gives its alert |
| ProposalForm.AlertOrder | voting-dapp/src/components/voting/CreateProposalForm.tsx:54-67 | once the text checks pass, the alert shown is that of the first failing check: options, then duration, then minimum votes |
| ProposalForm.SubmissionAdmissible | voting-dapp/src/components/voting/CreateProposalForm.tsx:69-75 | a submitted payload from at most ten inputs passes the ledger's option and duration checks, with minimum votes ≥ 1 |
| ProposalForm.ReachableSubmissionAdmissible | voting-dapp/src/components/voting/CreateProposalForm.tsx:23-75 | every payload the form can submit is one `createProposal` accepts |
| ProposalList.GetProposalStatus | voting-dapp/src/components/voting/ProposalList.tsx:32-43 | exactly one of four statuses, each given by an if-and-only-if: Not Started before the start, Active inside [start, end], then Ended - Results Pending or Completed by `isRevealed` |
| ProposalList.IsActive | voting-dapp/src/components/voting/ProposalList.tsx:81 | the card's `isActive` holds exactly when the badge says Active |
| ProposalList.ButtonLabel | voting-dapp/src/components/voting/ProposalList.tsx:150-152 | "Vote Now" exactly on Active cards and "View Details" on all others |
| ProposalList.ShowTimer | voting-dapp/src/components/voting/ProposalList.tsx:80-117 | the timer shows exactly from the start up to, not at, the end, and only on Active cards |
| VotingInterface.GetProposalStatus | voting-dapp/src/components/voting/VotingInterface.tsx:52-63 | the same status and colour as the proposal cards; `canVote` holds exactly for Active |
| VotingInterface.ShowTimer | voting-dapp/src/components/voting/VotingInterface.tsx:67 | the timer condition coincides with the status's `canVote` |
| VotingInterface.ShowCountdown | voting-dapp/src/components/voting/VotingInterface.tsx:118 | the countdown shows exactly from the start up to, not at, the end |
| VotingInterface.ShowVoteSection | voting-dapp/src/components/voting/VotingInterface.tsx:140 | the vote form shows exactly when the status is Active, the page allows voting and the user has not voted |
| VotingInterface.ShowRevealSection | voting-dapp/src/components/voting/VotingInterface.tsx:218 | the reveal form shows if and only if the end has passed, nothing is revealed and stats exist and allow it; for a window that opens before it closes, that is exactly the "Ended - Results Pending" badge with `canReveal` |
| VotingInterface.ShowCannotVote | voting-dapp/src/components/voting/VotingInterface.tsx:267 | "Cannot Vote" shows exactly when the status is Active and the page disallows voting |
| VotingInterface.SectionsExclusive | voting-dapp/src/components/voting/VotingInterface.tsx:140-267 | no two of the vote form, the reveal form and "Cannot Vote" appear together |
| VotingInterface.VoteFromRenderedOption | voting-dapp/src/components/voting/VotingInterface.tsx:43-50 | after clicks on rendered option rows, `handleVote` alerts "Please select an option to vote" exactly when nothing was clicked; otherwise it casts the option clicked last, which passes the ledger's "Invalid option" check |
| VotingHistory.StatusOf | voting-dapp/src/components/voting/VotingHistory.tsx:74-79 | revealed iff `isRevealed`; ended iff unrevealed and past the end; active otherwise, with no not-started state |
| VotingHistory.StatusColor | voting-dapp/src/components/voting/VotingHistory.tsx:142-153 | each of the three keys gets its own colour, and any other string gets grey |
| VotingHistory.StatusText | voting-dapp/src/components/voting/VotingHistory.tsx:155-166 | each of the three keys gets its own label, and any other string gets "Unknown" |
| VotingHistory.StatusLabelsDistinct | voting-dapp/src/components/voting/VotingHistory.tsx:142-166 | no item status falls back to "Unknown" or grey, and distinct statuses have distinct labels |
| VotingHistory.StatusAgreesWithCards | voting-dapp/src/components/voting/VotingHistory.tsx:74-79 | history status and card badge agree (Not Started and Active count as active), unless results were revealed at or before the end |
| VotingHistory.RevealedInWindowDiverges | voting-dapp/src/components/voting/VotingHistory.tsx:75-76 | a proposal revealed inside its window shows as revealed in the history and Active on the card |
| VotingHistory.History | voting-dapp/src/components/voting/VotingHistory.tsx:63-89 | the j-th row belongs to the j-th voted id whose proposal loaded (null and failed loads skipped, input order kept), and carries that id, the title, the load-time clock, `hasVoted = true`, the history status, the end time and `totalVoters` or 0 without stats |
| VotingHistory.CollectHistory | voting-dapp/src/components/voting/VotingHistory.tsx:60-95 | the push loop builds exactly `History` |
| VotingHistory.RevealedCount | voting-dapp/src/components/voting/VotingHistory.tsx:112-116 | at most the number of ended proposals; 0 iff none is revealed; all iff all are |
| VotingHistory.CountResultsAvailable | voting-dapp/src/components/voting/VotingHistory.tsx:102-116 | the counting loop returns `RevealedCount` |
| VotingHistory.HistoryPanel.LoadVotingHistory | voting-dapp/src/components/voting/VotingHistory.tsx:49-137 | with no address or contract, the rows are cleared and the counters kept; if the id query fails, both are reset to empty and 0; otherwise rows = `History`, `proposalsVoted` is its length, `activeProposals` is the active list's length (0 if that call throws) and `resultsAvailable` is the count of revealed ended proposals (0 if either statistics call throws) |
| Page.ExpectedChainId | voting-dapp/src/app/page.tsx:77 | mock mode expects the chain the helpers name "Hardhat Local", real mode the one named "Sepolia Testnet"; so the two modes never accept the same chain |
| Page.WithoutIds | voting-dapp/src/app/page.tsx:100 | an in-order subsequence of the proposals in which each proposal whose id is outside the set occurs as often as in the input, and no other proposal occurs |
| Page.UniqueEnded | voting-dapp/src/app/page.tsx:99-100 | an in-order subsequence of the ended list sharing no id with the active list, keeping every other ended proposal with its multiplicity |
| Page.AllProposals | voting-dapp/src/app/page.tsx:102 | the active list, then the de-duplicated ended list; length is the sum |
| Page.CategoriesDisjoint | voting-dapp/src/app/page.tsx:98-102 | no id appears both in the active part and in the ended part of the combined list |
| Page.HomePage.LoadProposals | voting-dapp/src/app/page.tsx:58-125 | the invariant "combined = active ++ ended, no shared id" is kept. On the wrong chain the lists are unchanged and the error cleared. On success the lists are the de-duplicated fetch. On failure all three are emptied and the error is the message, "Failed to load proposals" when it is empty, or the mock-mode hint in mock mode. Loading always ends. |
| Page.LoadedResults | voting-dapp/src/app/page.tsx:235-255 | a selected, revealed proposal whose decryption returns tallies shows exactly those tallies; without a selection, before the reveal, on decryption failure or a null result the results are empty |
| Page.VotingViewSections | voting-dapp/src/app/page.tsx:400-414 | with the page's `canVote` (not yet voted and the end not passed), inside the window the vote form shows exactly to users who have not voted and "Cannot Vote" exactly to those who have |
| Page.TallyBoundedByTotal | voting-dapp/src/app/page.tsx:441 | no single tally exceeds the total |
| Page.TotalZeroIff | voting-dapp/src/app/page.tsx:441 | the total is 0 exactly when every tally is 0 |
| Page.ChartShowsAllVotes | voting-dapp/src/app/page.tsx:438-443 | the chart's values sum to the total of the tallies it charts, so to `totalVotes` when there are no more tallies than options |
| ResultsVisualization.DisplayName | voting-dapp/src/components/voting/ResultsVisualization.tsx:30 | a name of up to 20 chars is kept; a longer one becomes its first 20 chars followed by "..." |
| ResultsVisualization.ChartData | voting-dapp/src/components/voting/ResultsVisualization.tsx:26-36 | empty before the reveal or without tallies; otherwise one entry per option in option order, with the full name, the display name, the tally or 0, and palette colour i mod 10 |
| ResultsVisualization.ColoursCycle | voting-dapp/src/components/voting/ResultsVisualization.tsx:14-34 | any ten consecutive entries have distinct colours, and entries ten apart share one |
| ResultsVisualization.EarliestMaxUnique | voting-dapp/src/components/voting/ResultsVisualization.tsx:38-43 | a sequence has at most one earliest maximum, so the winner is determined |
| ResultsVisualization.ReduceFrom | voting-dapp/src/components/voting/ResultsVisualization.tsx:40-42 | the strict-greater reduce ends on the earliest entry of largest value |
| ResultsVisualization.Winner | voting-dapp/src/components/voting/ResultsVisualization.tsx:38-43 | null iff there are no entries; otherwise an entry whose value is ≥ every value, and the earliest such (ties keep the earlier entry) |
| ResultsVisualization.SortByValue | voting-dapp/src/components/voting/ResultsVisualization.tsx:204-205 | sorts in place: the array ends up by non-increasing value and is a permutation of the original |
| ResultsVisualization.DetailedList | voting-dapp/src/components/voting/ResultsVisualization.tsx:204-205 | the detailed list holds exactly the chart entries, by non-increasing value, and its first entry has the winner's vote count |
| ResultsVisualization.TopIsWinner | voting-dapp/src/components/voting/ResultsVisualization.tsx:38-43 | the head of any sorted rearrangement of the entries has the value of the `winner` reduce |

## Left out

- Encryption: the encrypted tallies, input handles and proofs, and decryption. Handles and proofs are opaque byte strings. No test checks a tally, so weighted accumulation is not modelled.
- Registry check orders: the tests show only single failures. The model checks `updateVotingWeight` as moderator, registration, weight and `registerUserWithWeight` as admin, weight. Repeat registration by the admin overwrites the profile.
- Registry.VotingAuth.BanUser: checks only that the caller is a moderator, not that the target is registered, because no test bans an unregistered user.
- Registry.VotingAuth.TransferAdmin: the old admin keeps moderator status, because the tests do not say otherwise.
- Registry.VotingAuth.IsModerator: is plain membership in the moderator set. The admin has no implicit moderator right, so after the admin removes itself from the set it can no longer ban users or update weights. The tests never remove the admin.
- Registry.VotingAuth.RegisterUser: stores `isBanned = false`, as does `RegisterUserWithWeight`. Registering therefore lifts a ban placed earlier on an unregistered address, a consequence of `BanUser` not checking registration.
- Ledger.VotingCore.CreateProposal: accepts `minVotesForReveal = 0`, since no test rejects it. No operation ever clears `isActive`.
- Registry events (`UserRegistered`, `VotingWeightUpdated`, `UserBanned`, `UserUnbanned`) and profile fields the tests never read (registration time, `bannedBy`) are not modelled.
- Nothing in either contract is blocked by `paused`, because no test shows pausing blocking an operation.
- Ledger.VotingCore.RevealResults: does not enforce `minVotesForReveal`, as the tests reveal with zero votes and minimum 1. A second reveal by the creator succeeds again.
- Ledger check order: unknown id and closed window are never exercised by the tests. Their order and the revert strings "Proposal does not exist" and "Voting not active" are this model's choice. So are two orders the tests never combine: `castVote` checks "Already voted" before "Invalid option" (the tests hit each alone), and `revealResults` checks the creator before "Voting still active" (no test has a stranger reveal early).
- Ledger.VotingCore.CastVote: does not consult the registry, as the tests vote with an unregistered account.
- Ledger events and the `ProposalManager` contract are not modelled (the shown files only deploy `ProposalManager`). Neither are `getProposalStats` and the active/ended proposal indices the front end reads.
- Page.VotingViewSections: one `now` stands for the page's clock when it computes `canVote` and the voting view's own one-second clock; the moments where the two differ are not modelled.
- Floating point: progress-bar widths, percentages with `toFixed`, and the fractional `Date.now() / 1000` clock. Time is an integer.
- Utils.FormatTimeRemaining: modelled on whole seconds; fractional remaining times are not.
- Timers and library calls: `setInterval` clocks, the 2-second `setTimeout` before loading, `formatTimestamp` (locale dates), `cn` and `sleep`.
- Network and wallet code: contract calls, MetaMask, chain switching with its alerts, and proposal creation through the wallet. Storage and script I/O: key storage, ABI generation, deployment scripts.
- Presentation: JSX markup, the loading spinners, and the cards, inputs and privacy page.
- ProposalForm.HandleSubmit: the days and minimum-vote fields are integers. The source stores `Number(e.target.value)`, which may be fractional; the model relies on the browser form's step, min and max validation to keep them whole.
- ProposalForm.UpdateOption: requires `index < |options|`, because it is only called from a rendered input. The array growth JavaScript would do for a larger index is not modelled.
- Strings: JavaScript strings are UTF-16 code-unit sequences; here a string is a sequence of Unicode scalar values. Thus `trim`, `length` and `substring` count surrogate pairs as one element.
- ResultsVisualization.SortByValue: does not state that the sort is stable (JavaScript's `Array.prototype.sort` is), only order and permutation.
- ResultsVisualization.DetailedList: sorts a fresh copy of `chartData`. The source sorts the memoised array itself (ResultsVisualization.tsx:204-205), which the pie and bar charts also hold, so later renders draw those charts in sorted order; that aliasing is not modelled.
- ResultsVisualization.ChartData: percentages per entry are left out (floating point).
- VotingHistory.HistoryPanel.LoadVotingHistory: the effect's re-run on dependency changes and the `isLoading` spinner are not modelled.
