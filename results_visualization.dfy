/**
 * The results view (ResultsVisualization.tsx): the chart entries derived from the
 * decrypted tallies, the winner, and the detailed list sorted by votes.
 */
module ResultsVisualization {
  import opened Common

  /** One chart entry; percentages are left out of the model. */
  datatype ChartEntry = ChartEntry(name: string, fullName: string, value: nat, color: string)

  /** The palette the entries cycle through. */
  const Colors: seq<string> := [
    "#0088FE", "#00C49F", "#FFBB28", "#FF8042",
    "#8884d8", "#82ca9d", "#ffc658", "#ff7c7c",
    "#8dd1e1", "#d084d0"
  ]

  const MaxNameLength: nat := 20

  /** Long option names are cut to their first 20 characters followed by "...". */
  function DisplayName(option: string): (n: string)
    ensures |option| <= MaxNameLength ==> n == option
    ensures |option| > MaxNameLength ==>
              |n| == MaxNameLength + 3 && n[..MaxNameLength] == option[..MaxNameLength] && n[MaxNameLength..] == "..."
    ensures |n| <= MaxNameLength + 3
  {
    if |option| > MaxNameLength then option[..MaxNameLength] + "..." else option
  }

  /** `results[index] || 0`: a missing tally reads as zero. */
  function ValueAt(results: seq<nat>, i: nat): nat
  {
    if i < |results| then results[i] else 0
  }

  function EntryAt(results: seq<nat>, options: seq<string>, i: nat): ChartEntry
    requires i < |options|
  {
    ChartEntry(DisplayName(options[i]), options[i], ValueAt(results, i), Colors[i % |Colors|])
  }

  /**
   * `chartData`: nothing before the reveal or without tallies; otherwise one entry per
   * option, in option order, carrying the option's tally and the palette's colour.
   */
  function ChartData(results: seq<nat>, options: seq<string>, isRevealed: bool): (d: seq<ChartEntry>)
    ensures !isRevealed || results == [] ==> d == []
    ensures isRevealed && results != [] ==> |d| == |options|
    ensures isRevealed && results != [] ==>
              forall i :: 0 <= i < |d| ==>
                d[i].fullName == options[i] && d[i].name == DisplayName(options[i]) &&
                d[i].value == ValueAt(results, i) && d[i].color == Colors[i % 10]
  {
    if !isRevealed || results == [] then []
    else seq(|options|, i requires 0 <= i < |options| => EntryAt(results, options, i))
  }

  /** Any ten consecutive entries have ten different colours, and the palette repeats after ten. */
  lemma ColoursCycle(results: seq<nat>, options: seq<string>, isRevealed: bool, i: nat, j: nat)
    requires i < j < |ChartData(results, options, isRevealed)|
    ensures j - i < 10 ==> ChartData(results, options, isRevealed)[i].color != ChartData(results, options, isRevealed)[j].color
    ensures j - i == 10 ==> ChartData(results, options, isRevealed)[i].color == ChartData(results, options, isRevealed)[j].color
  {
    var d := ChartData(results, options, isRevealed);
    assert i % 10 != j % 10 <== j - i < 10;
    assert j - i == 10 ==> j % 10 == i % 10;
  }

  /** Entry `k` has the largest value, and every earlier entry has a strictly smaller one. */
  predicate IsEarliestMax(d: seq<ChartEntry>, k: int)
  {
    0 <= k < |d| &&
    (forall j :: 0 <= j < |d| ==> d[j].value <= d[k].value) &&
    (forall j :: 0 <= j < k ==> d[j].value < d[k].value)
  }

  /** A sequence has at most one earliest maximum. */
  lemma EarliestMaxUnique(d: seq<ChartEntry>, k: int, m: int)
    requires IsEarliestMax(d, k) && IsEarliestMax(d, m)
    ensures k == m
  {
    assert d[k].value == d[m].value;
  }

  /**
   * The `reduce` from index `i` on, with `k` the entry kept so far: a later entry replaces
   * it only with a strictly larger value, so ties keep the earlier one.
   */
  function ReduceFrom(d: seq<ChartEntry>, k: nat, i: nat): (w: nat)
    requires k < i <= |d|
    requires forall j :: 0 <= j < i ==> d[j].value <= d[k].value
    requires forall j :: 0 <= j < k ==> d[j].value < d[k].value
    ensures IsEarliestMax(d, w)
    decreases |d| - i
  {
    if i == |d| then k
    else if d[i].value > d[k].value then ReduceFrom(d, i, i + 1)
    else ReduceFrom(d, k, i + 1)
  }

  /** `winner`: null exactly when there are no entries, otherwise the earliest entry of largest value. */
  function Winner(d: seq<ChartEntry>): (w: Option<ChartEntry>)
    ensures w.None? <==> d == []
    ensures w.Some? ==> exists k :: IsEarliestMax(d, k) && w.value == d[k]
  {
    if d == [] then None else Some(d[ReduceFrom(d, 0, 1)])
  }

  /** Entries in order of non-increasing value. */
  predicate SortedByValue(s: seq<ChartEntry>)
  {
    forall i, j :: 0 <= i < j < |s| ==> s[i].value >= s[j].value
  }

  /** Entries `lo..hi` are in order of non-increasing value. */
  predicate SortedBetween(a: array<ChartEntry>, lo: int, hi: int)
    reads a
    requires 0 <= lo <= hi <= a.Length
  {
    forall x, y :: lo <= x < y < hi ==> a[x].value >= a[y].value
  }

  /** The entries up to `hi` are ordered apart from the one at `j`, which moves. */
  predicate OrderedExcept(s: seq<ChartEntry>, hi: int, j: int)
    requires 0 <= j <= hi < |s|
  {
    forall x, y :: 0 <= x < y <= hi && x != j && y != j ==> s[x].value >= s[y].value
  }

  /** The moving entry is at least every entry it has passed. */
  predicate DominatesAfter(s: seq<ChartEntry>, hi: int, j: int)
    requires 0 <= j <= hi < |s|
  {
    forall y :: j < y <= hi ==> s[j].value >= s[y].value
  }

  function SwapAt(s: seq<ChartEntry>, j: int): (t: seq<ChartEntry>)
    requires 0 < j < |s|
    ensures |t| == |s| && multiset(t) == multiset(s)
  {
    s[j - 1 := s[j]][j := s[j - 1]]
  }

  /** Swapping the moving entry with a smaller left neighbour keeps both facts, one place further left. */
  lemma SwapStep(s: seq<ChartEntry>, hi: int, j: int)
    requires 0 < j <= hi < |s|
    requires OrderedExcept(s, hi, j) && DominatesAfter(s, hi, j)
    requires s[j - 1].value < s[j].value
    ensures OrderedExcept(SwapAt(s, j), hi, j - 1) && DominatesAfter(SwapAt(s, j), hi, j - 1)
  {
  }

  /** Once the left neighbour is no smaller, the entries up to `hi` are ordered. */
  lemma InsertDone(s: seq<ChartEntry>, hi: int, j: int)
    requires 0 <= j <= hi < |s|
    requires OrderedExcept(s, hi, j) && DominatesAfter(s, hi, j)
    requires j == 0 || s[j - 1].value >= s[j].value
    ensures forall x, y :: 0 <= x < y <= hi ==> s[x].value >= s[y].value
  {
    if j > 0 {
      assert forall x :: 0 <= x < j - 1 ==> s[x].value >= s[j - 1].value;
    }
  }

  /** Exchange two neighbouring entries. */
  method SwapDown(a: array<ChartEntry>, j: int)
    requires 0 < j < a.Length
    modifies a
    ensures a[..] == SwapAt(old(a[..]), j)
  {
    a[j - 1], a[j] := a[j], a[j - 1];
  }

  /** Move entry `i` left past every smaller entry, extending the sorted prefix by one. */
  method InsertAt(a: array<ChartEntry>, i: int)
    requires 0 < i < a.Length
    requires SortedBetween(a, 0, i)
    modifies a
    ensures SortedBetween(a, 0, i + 1)
    ensures multiset(a[..]) == multiset(old(a[..]))
  {
    var j := i;
    while j > 0 && a[j - 1].value < a[j].value
      invariant 0 <= j <= i
      invariant OrderedExcept(a[..], i, j) && DominatesAfter(a[..], i, j)
      invariant multiset(a[..]) == multiset(old(a[..]))
    {
      SwapStep(a[..], i, j);
      SwapDown(a, j);
      j := j - 1;
    }
    InsertDone(a[..], i, j);
  }

  /**
   * The detailed list's `sort((a, b) => b.value - a.value)`, which reorders the array in
   * place: afterwards it holds the same entries by non-increasing value.
   */
  method SortByValue(a: array<ChartEntry>)
    modifies a
    ensures SortedByValue(a[..])
    ensures multiset(a[..]) == multiset(old(a[..]))
  {
    if a.Length == 0 {
      return;
    }
    var i := 1;
    while i < a.Length
      invariant 1 <= i <= a.Length
      invariant SortedBetween(a, 0, i)
      invariant multiset(a[..]) == multiset(old(a[..]))
    {
      InsertAt(a, i);
      i := i + 1;
    }
  }

  /**
   * The detailed list: the memoised `chartData`, sorted by votes. The result holds exactly
   * the chart's entries, by non-increasing value, so it opens with the winner's vote count.
   */
  method DetailedList(results: seq<nat>, options: seq<string>, isRevealed: bool) returns (list: seq<ChartEntry>)
    ensures SortedByValue(list)
    ensures multiset(list) == multiset(ChartData(results, options, isRevealed))
    ensures |list| == |ChartData(results, options, isRevealed)|
    ensures list != [] ==> list[0].value == Winner(ChartData(results, options, isRevealed)).value.value
  {
    var data := ChartData(results, options, isRevealed);
    var a := new ChartEntry[|data|](i requires 0 <= i < |data| => data[i]);
    assert a[..] == data;
    SortByValue(a);
    list := a[..];
    assert |list| == |multiset(list)| == |multiset(data)| == |data|;
    if list != [] {
      TopIsWinner(data, list);
    }
  }

  /** The head of a sorted permutation of the entries carries the winning value. */
  lemma TopIsWinner(data: seq<ChartEntry>, list: seq<ChartEntry>)
    requires list != [] && SortedByValue(list) && multiset(list) == multiset(data)
    ensures Winner(data).Some? && list[0].value == Winner(data).value.value
  {
    var top := list[0];
    assert top in multiset(list);
    assert top in data;
    var w := Winner(data).value;
    var k :| IsEarliestMax(data, k) && w == data[k];
    assert w in multiset(data);
    assert w in list;
    var j :| 0 <= j < |list| && list[j] == w;
    var m :| 0 <= m < |data| && data[m] == top;
    assert top.value <= w.value;
    assert list[0].value >= list[j].value;
  }

}
