/**
 * The create-proposal form (CreateProposalForm.tsx): editing the list of option inputs
 * and the validation that turns the form into the payload handed to `createProposal`.
 */
module ProposalForm {
  import opened Common
  import opened Strings
  import Ledger

  const MinFormOptions: nat := 2
  const MaxFormOptions: nat := 10
  const MinDays: int := 1
  const MaxDays: int := 30

  /** The form starts with two empty option inputs. */
  const InitialOptions: seq<string> := ["", ""]

  /** The option counts the form's buttons keep the list within. */
  predicate InRange(options: seq<string>) { MinFormOptions <= |options| <= MaxFormOptions }

  // ---------------------------------------------------------------------------
  // Editing the option list
  // ---------------------------------------------------------------------------

  /**
   * `addOption()`: the inputs typed so far stay as they are, and one empty input is added
   * exactly when fewer than ten are shown, so the list never grows past ten.
   */
  function AddOption(options: seq<string>): (r: seq<string>)
    ensures options <= r
    ensures forall j :: |options| <= j < |r| ==> r[j] == ""
    ensures |r| == |options| + 1 <==> |options| < MaxFormOptions
    ensures |r| == |options| <==> |options| >= MaxFormOptions
    ensures |options| <= MaxFormOptions ==> |r| <= MaxFormOptions
  {
    if |options| < MaxFormOptions then options + [""] else options
  }

  /** `s.filter((_, i) => i !== index)`: every position except `index`, in order. */
  function DropIndex(s: seq<string>, index: int): (r: seq<string>)
    ensures 0 <= index < |s| ==> r == s[..index] + s[index + 1..]
    ensures !(0 <= index < |s|) ==> r == s
    decreases |s|
  {
    if s == [] then []
    else (if index == 0 then [] else [s[0]]) + DropIndex(s[1..], index - 1)
  }

  /** `removeOption(index)`: drops input `index` while more than two remain. */
  function RemoveOption(options: seq<string>, index: int): (r: seq<string>)
    ensures |options| > MinFormOptions && 0 <= index < |options| ==> r == options[..index] + options[index + 1..]
    ensures |options| <= MinFormOptions || !(0 <= index < |options|) ==> r == options
  {
    if |options| > MinFormOptions then DropIndex(options, index) else options
  }

  /**
   * `updateOption(index, value)`: copies the list, then overwrites one slot of the copy.
   * Its contract says the result is `options[index := value]`, the value `Apply` uses for
   * an `Update` edit.
   */
  method UpdateOption(options: seq<string>, index: nat, value: string) returns (r: seq<string>)
    requires index < |options|
    ensures |r| == |options| && r[index] == value
    ensures forall j :: 0 <= j < |r| && j != index ==> r[j] == options[j]
    ensures r == options[index := value]
  {
    var copy := new string[|options|](j requires 0 <= j < |options| => options[j]);
    copy[index] := value;
    r := copy[..];
  }

  /** One click or keystroke on the option list; the inputs only ever update a rendered index. */
  datatype Edit = Add | Remove(index: int) | Update(index: int, value: string)

  function Apply(options: seq<string>, e: Edit): seq<string>
  {
    match e
    case Add => AddOption(options)
    case Remove(i) => RemoveOption(options, i)
    case Update(i, v) => if 0 <= i < |options| then options[i := v] else options
  }

  function ApplyAll(options: seq<string>, edits: seq<Edit>): seq<string>
    decreases |edits|
  {
    if edits == [] then options else ApplyAll(Apply(options, edits[0]), edits[1..])
  }

  /** Each edit keeps between two and ten inputs. */
  lemma ApplyKeepsRange(options: seq<string>, e: Edit)
    requires InRange(options)
    ensures InRange(Apply(options, e))
  {
  }

  /** Whatever the user clicks, the form shows between two and ten option inputs. */
  lemma {:induction false} EditsKeepRange(options: seq<string>, edits: seq<Edit>)
    requires InRange(options)
    ensures InRange(ApplyAll(options, edits))
    decreases |edits|
  {
    if edits != [] {
      ApplyKeepsRange(options, edits[0]);
      EditsKeepRange(Apply(options, edits[0]), edits[1..]);
    }
  }

  lemma ReachableInRange(edits: seq<Edit>)
    ensures InRange(ApplyAll(InitialOptions, edits))
  {
    EditsKeepRange(InitialOptions, edits);
  }

  // ---------------------------------------------------------------------------
  // Submitting
  // ---------------------------------------------------------------------------

  /** `options.filter(opt => opt.trim() !== "")`: the non-blank inputs, untrimmed, in order. */
  function ValidOptions(options: seq<string>): (r: seq<string>)
    ensures |r| <= |options|
    ensures Subsequence(r, options)
    ensures forall x :: multiset(r)[x] == if Trim(x) != "" then multiset(options)[x] else 0
    ensures forall x :: x in r <==> x in options && Trim(x) != ""
  {
    if options == [] then []
    else
      var rest := ValidOptions(options[1..]);
      ValidOptionsStep(options, rest);
      if Trim(options[0]) != "" then [options[0]] + rest else rest
  }

  /** Deciding the first input keeps every input's count right, given the rest's. */
  lemma ValidOptionsStep(options: seq<string>, rest: seq<string>)
    requires options != []
    requires forall x :: multiset(rest)[x] == if Trim(x) != "" then multiset(options[1..])[x] else 0
    ensures var r := if Trim(options[0]) != "" then [options[0]] + rest else rest;
            forall x :: multiset(r)[x] == if Trim(x) != "" then multiset(options)[x] else 0
  {
    assert options == [options[0]] + options[1..];
  }

  /** An input counts as an option exactly when it holds a char that is not white space. */
  lemma ValidOptionsVisible(options: seq<string>, x: string)
    ensures x in ValidOptions(options) <==> x in options && !AllWhitespace(x)
  {
    TrimEmptyIff(x);
  }

  /** The form's fields; the duration is in days, as typed. */
  datatype FormState = FormState(title: string, description: string, options: seq<string>, duration: int, minVotesForReveal: int)

  /** What `onSubmit` receives; the duration is in seconds. */
  datatype Payload = Payload(title: string, description: string, options: seq<string>, duration: int, minVotesForReveal: int)

  /** `handleSubmit` either calls `onSubmit` with a payload or shows an alert and returns. */
  datatype Submission = Submitted(payload: Payload) | Alerted(message: string)

  const MissingTextAlert := "Please fill in title and description"
  const TooFewOptionsAlert := "Please provide at least 2 options"
  const DurationAlert := "Duration must be between 1 and 30 days"
  const MinVotesAlert := "Minimum votes for reveal must be at least 1"

  /**
   * `handleSubmit`: the checks in order, each failing with its alert and no call; the
   * days are converted with `24 * 60 * 60` seconds per day.
   */
  function HandleSubmit(f: FormState): (r: Submission)
    ensures r.Submitted? <==>
              && Trim(f.title) != "" && Trim(f.description) != ""
              && |ValidOptions(f.options)| >= MinFormOptions
              && MinDays <= f.duration <= MaxDays
              && f.minVotesForReveal >= 1
    ensures r.Submitted? ==>
              r.payload == Payload(Trim(f.title), Trim(f.description), ValidOptions(f.options),
                                   f.duration * SecondsPerDay, f.minVotesForReveal)
    ensures Trim(f.title) == "" || Trim(f.description) == "" ==> r == Alerted(MissingTextAlert)
  {
    if Trim(f.title) == "" || Trim(f.description) == "" then Alerted(MissingTextAlert)
    else
      var validOptions := ValidOptions(f.options);
      if |validOptions| < MinFormOptions then Alerted(TooFewOptionsAlert)
      else if f.duration < MinDays || f.duration > MaxDays then Alerted(DurationAlert)
      else if f.minVotesForReveal < 1 then Alerted(MinVotesAlert)
      else Submitted(Payload(Trim(f.title), Trim(f.description), validOptions,
                             f.duration * SecondsPerDay, f.minVotesForReveal))
  }

  /** The alert shown names the first check that fails. */
  lemma AlertOrder(f: FormState)
    requires Trim(f.title) != "" && Trim(f.description) != ""
    ensures |ValidOptions(f.options)| < 2 ==> HandleSubmit(f) == Alerted(TooFewOptionsAlert)
    ensures |ValidOptions(f.options)| >= 2 && !(1 <= f.duration <= 30) ==> HandleSubmit(f) == Alerted(DurationAlert)
    ensures |ValidOptions(f.options)| >= 2 && 1 <= f.duration <= 30 && f.minVotesForReveal < 1 ==>
              HandleSubmit(f) == Alerted(MinVotesAlert)
  {
  }

  /**
   * A payload built from a list the option buttons kept within ten inputs passes the
   * ledger's own checks: 2..10 options and 1 day to 30 days, within [1 s, 30 days].
   */
  lemma SubmissionAdmissible(f: FormState)
    requires |f.options| <= MaxFormOptions
    requires HandleSubmit(f).Submitted?
    ensures var p := HandleSubmit(f).payload;
            Ledger.Admissible(|p.options|, p.duration) && p.minVotesForReveal >= 1
    ensures SecondsPerDay <= HandleSubmit(f).payload.duration <= Ledger.MaxDuration
  {
  }

  /** The same holds for every list the form can show, since its buttons keep it in range. */
  lemma ReachableSubmissionAdmissible(edits: seq<Edit>, title: string, description: string, days: int, minVotes: int)
    requires HandleSubmit(FormState(title, description, ApplyAll(InitialOptions, edits), days, minVotes)).Submitted?
    ensures var p := HandleSubmit(FormState(title, description, ApplyAll(InitialOptions, edits), days, minVotes)).payload;
            Ledger.Admissible(|p.options|, p.duration)
  {
    ReachableInRange(edits);
    SubmissionAdmissible(FormState(title, description, ApplyAll(InitialOptions, edits), days, minVotes));
  }
}
