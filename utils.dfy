/** The formatting helpers of lib/utils.ts. */
module Utils {
  import opened Common
  import opened Strings

  // ---------------------------------------------------------------------------
  // formatAddress
  // ---------------------------------------------------------------------------

  /** `s.slice(0, n)`: the first n chars, or all of `s` when it is shorter. */
  function SliceHead(s: string, n: nat): (r: string)
    ensures |r| == Min(n, |s|) && r == s[..Min(n, |s|)]
  {
    if |s| <= n then s else s[..n]
  }

  /** `s.slice(-n)` for n > 0: the last n chars, or all of `s` when it is shorter. */
  function SliceTail(s: string, n: nat): (r: string)
    ensures |r| == Min(n, |s|) && r == s[|s| - Min(n, |s|)..]
  {
    if |s| <= n then s else s[|s| - n..]
  }

  /** `formatAddress(a)`: "" stays "", otherwise the first six chars, "..." and the last four. */
  function FormatAddress(a: string): (r: string)
    ensures a == "" ==> r == ""
    ensures a != "" ==> r == a[..Min(6, |a|)] + "..." + a[|a| - Min(4, |a|)..]
    ensures a != "" ==> |r| == Min(6, |a|) + 3 + Min(4, |a|)
  {
    if a == "" then "" else SliceHead(a, 6) + "..." + SliceTail(a, 4)
  }

  /** A full address keeps its 6-char head and 4-char tail around "...", 13 chars in all. */
  lemma FormatLongAddress(a: string)
    requires |a| >= 10
    ensures |FormatAddress(a)| == 13
    ensures FormatAddress(a)[..6] == a[..6]
    ensures FormatAddress(a)[6..9] == "..."
    ensures FormatAddress(a)[9..] == a[|a| - 4..]
  {
    var r := FormatAddress(a);
    assert r == a[..6] + "..." + a[|a| - 4..];
    assert r[..6] == a[..6];
    assert r[6..9] == "...";
    assert r[9..] == a[|a| - 4..];
  }

  // ---------------------------------------------------------------------------
  // formatTimeRemaining
  // ---------------------------------------------------------------------------

  const SecondsPerHour: nat := 3600
  const SecondsPerMinute: nat := 60

  /** `Math.floor(seconds / 86400)` etc.; for positive seconds floor division is Dafny's. */
  function Days(s: nat): nat { s / SecondsPerDay }
  function Hours(s: nat): nat { (s % SecondsPerDay) / SecondsPerHour }
  function Minutes(s: nat): nat { (s % SecondsPerHour) / SecondsPerMinute }

  /** Whole days, hours and minutes split `s`: hours below 24, minutes below 60, under a minute left over. */
  lemma Decomposition(s: nat)
    ensures Hours(s) <= 23 && Minutes(s) <= 59
    ensures Days(s) * 86400 + Hours(s) * 3600 + Minutes(s) * 60 <= s
    ensures s < Days(s) * 86400 + Hours(s) * 3600 + Minutes(s) * 60 + 60
  {
    var d, r := s / 86400, s % 86400;
    var h, r2 := r / 3600, r % 3600;
    HourRemainder(s, d, h, r2);
    var m, r3 := r2 / 60, r2 % 60;
    assert Days(s) == d && Hours(s) == h && Minutes(s) == m;
  }

  /** Splitting off whole days first leaves the same remainder modulo an hour. */
  lemma HourRemainder(s: nat, d: nat, h: nat, r2: nat)
    requires d == s / 86400 && h == (s % 86400) / 3600 && r2 == (s % 86400) % 3600
    ensures h <= 23 && r2 < 3600
    ensures s == 86400 * d + 3600 * h + r2
    ensures s % 3600 == r2
  {
    var q := 24 * d + h;
    assert s == 3600 * q + r2;
    assert (3600 * q + r2) % 3600 == r2;
  }

  /** `formatTimeRemaining(seconds)`. */
  /** "Ended" is shown exactly for non-positive remaining time; a countdown never reads "Ended". */
  function FormatTimeRemaining(seconds: int): (r: string)
    ensures r == "Ended" <==> seconds <= 0
    ensures seconds > 0 ==> |r| >= 2 && (r[|r| - 1] == 'h' || r[|r| - 1] == 'm')
  {
    if seconds <= 0 then "Ended"
    else
      var d, h, m := Days(seconds), Hours(seconds), Minutes(seconds);
      var r :=
        if d > 0 then NatToString(d) + "d " + NatToString(h) + "h"
        else if h > 0 then NatToString(h) + "h " + NatToString(m) + "m"
        else NatToString(m) + "m";
      assert r[|r| - 1] != "Ended"[4];
      r
  }

  /**
   * A countdown ends in "h" exactly when at least a day remains, and then it reads
   * "{days}d {hours}h" with the whole days and the hours left over.
   */
  lemma DayUnitIff(seconds: int)
    requires seconds > 0
    ensures var r := FormatTimeRemaining(seconds); r[|r| - 1] == 'h' <==> seconds >= 86400
    ensures seconds >= 86400 ==>
              FormatTimeRemaining(seconds) == NatToString(seconds / 86400) + "d " + NatToString(Hours(seconds)) + "h"
  {
  }

  /** From an hour up to a day the countdown reads "{hours}h {minutes}m". */
  lemma HoursForm(seconds: int)
    requires 3600 <= seconds < 86400
    ensures FormatTimeRemaining(seconds) == NatToString(seconds / 3600) + "h " + NatToString(Minutes(seconds)) + "m"
    ensures 1 <= seconds / 3600 <= 23 && Minutes(seconds) <= 59
  {
    assert Days(seconds) == 0;
    assert seconds % 86400 == seconds;
    assert Hours(seconds) == seconds / 3600;
  }

  /** Under an hour the countdown is whole minutes only, "0m" for the last minute. */
  lemma MinutesOnly(seconds: int)
    requires 0 < seconds < 3600
    ensures FormatTimeRemaining(seconds) == NatToString(seconds / 60) + "m"
    ensures seconds < 60 ==> FormatTimeRemaining(seconds) == "0m"
  {
    assert Days(seconds) == 0 && Hours(seconds) == 0;
    assert seconds % 3600 == seconds;
  }

  // ---------------------------------------------------------------------------
  // getChainName
  // ---------------------------------------------------------------------------

  const MainnetId: int := 1
  const SepoliaId: int := 11155111
  const HardhatId: int := 31337

  /** `getChainName(chainId)`. */
  function ChainName(chainId: int): (r: string)
    ensures chainId == MainnetId ==> r == "Ethereum Mainnet"
    ensures chainId == SepoliaId ==> r == "Sepolia Testnet"
    ensures chainId == HardhatId ==> r == "Hardhat Local"
    // any other id is spelled out after "Chain ", and its numeral reads back to the id
    ensures chainId !in {MainnetId, SepoliaId, HardhatId} ==>
      |r| > 6 && r[..6] == "Chain " && IsNumeral(r[6..]) && IntValue(r[6..]) == chainId
  {
    if chainId == MainnetId then "Ethereum Mainnet"
    else if chainId == SepoliaId then "Sepolia Testnet"
    else if chainId == HardhatId then "Hardhat Local"
    else
      var r := "Chain " + IntToString(chainId);
      assert r[6..] == IntToString(chainId);
      IntRoundTrip(chainId);
      r
  }
  /** Distinct chain ids get distinct names: a generic "Chain n" never collides with a fixed name. */
  lemma ChainNameInjective(a: int, b: int)
    requires ChainName(a) == ChainName(b)
    ensures a == b
  {
    var known := {MainnetId, SepoliaId, HardhatId};
    // a generic name starts with 'C', none of the fixed names does
    assert a !in known ==> ChainName(a)[0] == 'C';
    assert b !in known ==> ChainName(b)[0] == 'C';
    assert a in known ==> ChainName(a)[0] != 'C';
    assert b in known ==> ChainName(b)[0] != 'C';
    if a !in known && b !in known {
      assert ChainName(a)[6..] == IntToString(a);
      assert ChainName(b)[6..] == IntToString(b);
      IntToStringInjective(a, b);
    }
  }
}
