/**
 * The address badge of the web interface: a contract address shortened to
 * its first six and last four characters, and the link to the block
 * explorer of the contract's network.
 */
module AddressBadge {
  import opened PyValues
  import opened Text

  /**
   * JavaScript `s.substring(start, end)`: both bounds are clamped to
   * `[0, s.length]` and swapped when the start lies after the end.
   */
  function Substring(s: string, start: int, end: int): (r: string)
    ensures var a := Clamp(start, |s|); var b := Clamp(end, |s|);
      |r| == (if a <= b then b - a else a - b)
    ensures 0 <= start <= end <= |s| ==> r == s[start..end]
  {
    var a := Clamp(start, |s|);
    var b := Clamp(end, |s|);
    if a <= b then s[a..b] else s[b..a]
  }

  function Clamp(i: int, n: nat): (c: nat)
    ensures c <= n
    ensures 0 <= i <= n ==> c == i
  {
    if i < 0 then 0 else if i > n then n else i
  }

  function Min(a: nat, b: nat): nat
  {
    if a <= b then a else b
  }

  /**
   * `formatAddress(addr)`: the empty address stays empty; any other becomes
   * its first six characters, `...`, and its last four. A short address is
   * shown with its beginning and end overlapping.
   */
  function FormatAddress(addr: string): (r: string)
    ensures addr == [] ==> r == []
    ensures addr != [] ==> var head := Min(|addr|, 6); var tail := Min(|addr|, 4);
      |r| == head + 3 + tail
      && r[..head] == addr[..head]
      && r[head..head + 3] == "..."
      && r[head + 3..] == addr[|addr| - tail..]
  {
    if addr == [] then []
    else Substring(addr, 0, 6) + "..." + Substring(addr, |addr| - 4, |addr|)
  }

  /** An address of at least ten characters is shown in exactly thirteen. */
  lemma FormatAddressLength(addr: string)
    requires |addr| >= 10
    ensures |FormatAddress(addr)| == 13
  {
  }

  /** Two addresses that agree on their first six and last four characters show the same badge text. */
  lemma {:induction false} FormatAddressKeepsOnlyEnds(a: string, b: string)
    requires |a| >= 6 && |b| >= 6
    requires a[..6] == b[..6] && a[|a| - 4..] == b[|b| - 4..]
    ensures FormatAddress(a) == FormatAddress(b)
  {
    var ra := FormatAddress(a);
    var rb := FormatAddress(b);
    assert ra == ra[..6] + ra[6..9] + ra[9..];
    assert rb == rb[..6] + rb[6..9] + rb[9..];
  }

  /** The network assumed when the badge is given none. */
  const DefaultNetwork := "Ethereum"

  /**
   * The host of `getExplorerUrl`'s branch for a lower-cased network name:
   * the first of its tests that holds picks the explorer, and Etherscan is
   * the fallback.
   */
  function ExplorerHost(networkLower: string): string
  {
    if Contains(networkLower, "ethereum") || networkLower == "mainnet" then "etherscan.io"
    else if Contains(networkLower, "polygon") then "polygonscan.com"
    else if Contains(networkLower, "arbitrum") then "arbiscan.io"
    else if Contains(networkLower, "optimism") then "optimistic.etherscan.io"
    else if Contains(networkLower, "bsc") || Contains(networkLower, "binance") then "bscscan.com"
    else if Contains(networkLower, "avalanche") then "snowtrace.io"
    else "etherscan.io"
  }

  /**
   * `getExplorerUrl()`: a non-empty explorer URL given to the badge wins;
   * otherwise the address page of the explorer chosen by the lower-cased
   * network, which defaults to Ethereum.
   */
  function ExplorerUrl(address: string, network: Option<string>, explorerUrl: Option<string>): (url: string)
    ensures explorerUrl.Some? && explorerUrl.value != [] ==> url == explorerUrl.value
    ensures !(explorerUrl.Some? && explorerUrl.value != []) ==>
      StartsWith(url, "https://") && EndsWith(url, "/address/" + address)
      && 8 <= |url| - |address| - 9 && url[8..|url| - |address| - 9] == ExplorerHost(Lower(NetworkOr(network)))
  {
    if explorerUrl.Some? && explorerUrl.value != [] then explorerUrl.value
    else AddressPage(ExplorerHost(Lower(NetworkOr(network))), address)
  }

  /** `https://<host>/address/<address>`: the host and the address can be read back from the URL. */
  function AddressPage(host: string, address: string): (url: string)
    ensures StartsWith(url, "https://") && EndsWith(url, "/address/" + address)
    ensures 8 <= |url| - |address| - 9 && url[8..|url| - |address| - 9] == host
  {
    var url := "https://" + host + "/address/" + address;
    assert url[..8] == "https://";
    assert url[|url| - |address| - 9..] == "/address/" + address;
    assert url[8..|url| - |address| - 9] == host;
    url
  }

  function NetworkOr(network: Option<string>): string
  {
    if network.Some? then network.value else DefaultNetwork
  }

  lemma DefaultLower()
    ensures Lower(DefaultNetwork) == "ethereum"
  {
    var l := Lower(DefaultNetwork);
    assert l[0] == 'e' && l[1] == 't' && l[2] == 'h' && l[3] == 'e';
    assert l[4] == 'r' && l[5] == 'e' && l[6] == 'u' && l[7] == 'm';
  }

  /** The explorer does not depend on the case of the network's name. */
  lemma ExplorerIgnoresCase(address: string, network: string)
    ensures ExplorerUrl(address, Some(network), None) == ExplorerUrl(address, Some(Lower(network)), None)
  {
    LowerIdempotent(network);
  }

  /** Without a network or an explorer URL the badge links to the address page on Etherscan. */
  lemma DefaultIsEtherscan(address: string)
    ensures ExplorerUrl(address, None, None) == AddressPage("etherscan.io", address)
  {
    DefaultHost();
  }

  lemma DefaultHost()
    ensures ExplorerHost(Lower(NetworkOr(None))) == "etherscan.io"
  {
    DefaultLower();
    assert OccursAt("ethereum", "ethereum", 0);
  }

  /** One branch of the explorer choice: the names it matches by substring or exactly, and its host. */
  datatype NetworkRule = NetworkRule(substrings: seq<string>, names: seq<string>, host: string)

  /** The branches of `getExplorerUrl`, in the order they are tried. */
  const Rules: seq<NetworkRule> := [
    NetworkRule(["ethereum"], ["mainnet"], "etherscan.io"),
    NetworkRule(["polygon"], [], "polygonscan.com"),
    NetworkRule(["arbitrum"], [], "arbiscan.io"),
    NetworkRule(["optimism"], [], "optimistic.etherscan.io"),
    NetworkRule(["bsc", "binance"], [], "bscscan.com"),
    NetworkRule(["avalanche"], [], "snowtrace.io")
  ]

  const FallbackHost := "etherscan.io"

  predicate Matches(networkLower: string, rule: NetworkRule)
  {
    (exists k | 0 <= k < |rule.substrings| :: Contains(networkLower, rule.substrings[k]))
    || networkLower in rule.names
  }

  /** The host of the first rule that matches, or the fallback. */
  function TableHost(networkLower: string, rules: seq<NetworkRule>): string
  {
    if |rules| == 0 then FallbackHost
    else if Matches(networkLower, rules[0]) then rules[0].host
    else TableHost(networkLower, rules[1..])
  }

  /** `TableHost` is the host of the first matching rule, and the fallback when none matches. */
  lemma {:induction false} TableHostFirstMatch(n: string, rules: seq<NetworkRule>)
    ensures (forall k | 0 <= k < |rules| :: !Matches(n, rules[k])) ==> TableHost(n, rules) == FallbackHost
    ensures forall k | 0 <= k < |rules| ::
      (Matches(n, rules[k]) && (forall j | 0 <= j < k :: !Matches(n, rules[j])) ==> TableHost(n, rules) == rules[k].host)
  {
    if |rules| > 0 && !Matches(n, rules[0]) {
      TableHostFirstMatch(n, rules[1..]);
      assert forall k | 1 <= k < |rules| :: rules[k] == rules[1..][k - 1];
    }
  }

  /** A rule without exact names matches exactly when one of its substrings occurs. */
  lemma MatchesSubstrings(n: string, rule: NetworkRule)
    requires rule.names == [] && 1 <= |rule.substrings| <= 2
    ensures Matches(n, rule) <==>
      Contains(n, rule.substrings[0]) || (|rule.substrings| == 2 && Contains(n, rule.substrings[1]))
  {
    if Contains(n, rule.substrings[0]) {
      assert Contains(n, rule.substrings[0]);
    }
    if |rule.substrings| == 2 && Contains(n, rule.substrings[1]) {
      assert Contains(n, rule.substrings[1]);
    }
  }

  /** Trying the rules from the `k`-th on: that rule's host when it matches, the later rules otherwise. */
  lemma TableStep(n: string, k: nat)
    requires k < |Rules|
    ensures TableHost(n, Rules[k..]) == if Matches(n, Rules[k]) then Rules[k].host else TableHost(n, Rules[k + 1..])
  {
    assert Rules[k..][0] == Rules[k];
    assert Rules[k..][1..] == Rules[k + 1..];
  }

  /** The if-chain of `getExplorerUrl` is the first-match reading of `Rules`. */
  lemma HostFollowsTable(networkLower: string)
    ensures ExplorerHost(networkLower) == TableHost(networkLower, Rules)
  {
    var n := networkLower;
    assert Rules[6..] == [];
    var h5 := TableHost(n, Rules[5..]);
    assert h5 == if Contains(n, "avalanche") then "snowtrace.io" else FallbackHost by {
      TableStep(n, 5);
      MatchesSubstrings(n, Rules[5]);
    }
    var h4 := TableHost(n, Rules[4..]);
    assert h4 == if Contains(n, "bsc") || Contains(n, "binance") then "bscscan.com" else h5 by {
      TableStep(n, 4);
      MatchesSubstrings(n, Rules[4]);
    }
    var h3 := TableHost(n, Rules[3..]);
    assert h3 == if Contains(n, "optimism") then "optimistic.etherscan.io" else h4 by {
      TableStep(n, 3);
      MatchesSubstrings(n, Rules[3]);
    }
    var h2 := TableHost(n, Rules[2..]);
    assert h2 == if Contains(n, "arbitrum") then "arbiscan.io" else h3 by {
      TableStep(n, 2);
      MatchesSubstrings(n, Rules[2]);
    }
    var h1 := TableHost(n, Rules[1..]);
    assert h1 == if Contains(n, "polygon") then "polygonscan.com" else h2 by {
      TableStep(n, 1);
      MatchesSubstrings(n, Rules[1]);
    }
    assert TableHost(n, Rules[0..]) == if Contains(n, "ethereum") || n == "mainnet" then "etherscan.io" else h1 by {
      TableStep(n, 0);
      if Contains(n, "ethereum") {
        assert Contains(n, Rules[0].substrings[0]);
      }
    }
    assert Rules[0..] == Rules;
  }
}
