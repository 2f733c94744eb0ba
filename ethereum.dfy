/**
 * Display helpers for addresses, percentages and block-explorer links, and the table of
 * supported networks.
 */
module Ethereum {
  import opened Wrappers
  import opened JsNumber
  import opened Tables

  // ---------------------------------------------------------------- addresses

  /** A position clamped into [0, |s|], as `String.prototype.substring` clamps its arguments. */
  function Clamp(i: int, len: nat): (r: nat)
    ensures r <= len
    ensures 0 <= i <= len ==> r == i
  {
    if i < 0 then 0 else if i > len then len else i
  }

  /** `s.substring(start, end)`: both ends clamped, and swapped when start is past end. */
  function Substring(s: string, start: int, end: int): (r: string)
    ensures 0 <= start <= end <= |s| ==> r == s[start..end]
  {
    var a, b := Clamp(start, |s|), Clamp(end, |s|);
    if a <= b then s[a..b] else s[b..a]
  }

  /**
   * `formatAddress(address, charsToShow)`: the empty string for a missing or empty address,
   * otherwise the first charsToShow + 2 characters, "..." and the last charsToShow.
   */
  function FormatAddress(address: Option<string>, charsToShow: int): string
  {
    if address.None? || address.value == [] then ""
    else
      var a := address.value;
      Substring(a, 0, charsToShow + 2) + "..." + Substring(a, |a| - charsToShow, |a|)
  }

  /** The default `charsToShow` of `formatAddress`. */
  const DefaultCharsToShow := 4

  /** No address, or an empty one, shows as nothing. */
  lemma FormatAddressEmpty(charsToShow: int)
    ensures FormatAddress(None, charsToShow) == ""
    ensures FormatAddress(Some(""), charsToShow) == ""
  {
  }

  /**
   * An address at least charsToShow + 2 long shows its "0x" and charsToShow more characters,
   * an ellipsis and its last charsToShow characters: 2 * charsToShow + 5 characters.
   */
  lemma FormatAddressShape(a: string, charsToShow: nat)
    requires |a| >= charsToShow + 2
    ensures var r := FormatAddress(Some(a), charsToShow);
      && r == a[..charsToShow + 2] + "..." + a[|a| - charsToShow..]
      && |r| == 2 * charsToShow + 5
  {
  }

  /**
   * A shorter non-empty address is shown whole, followed by the ellipsis and its last
   * charsToShow characters (all of it when it is shorter still).
   */
  lemma FormatAddressShort(a: string, charsToShow: nat)
    requires 0 < |a| < charsToShow + 2
    ensures FormatAddress(Some(a), charsToShow)
         == a + "..." + (if |a| >= charsToShow then a[|a| - charsToShow..] else a)
  {
    assert a[0..|a|] == a;
  }

  // ---------------------------------------------------------------- percentages

  function Abs(x: real): (r: real)
    ensures r >= 0.0 && (r == x || r == -x)
  {
    if x < 0.0 then -x else x
  }

  /** `formatPercentage(value, includeSign)`: optional sign, magnitude to one decimal, "%". */
  function FormatPercentage(value: real, includeSign: bool): string
  {
    var sign := if includeSign then (if value >= 0.0 then "+" else "-") else "";
    sign + FixedText1(Abs(value)) + "%"
  }

  /**
   * The text starts with "+" exactly when the sign is wanted and the value is not negative,
   * with "-" exactly when it is wanted and the value is negative, and with a digit otherwise;
   * it always ends with "%" after a one-decimal magnitude.
   */
  lemma FormatPercentageSign(value: real, includeSign: bool)
    ensures var s := FormatPercentage(value, includeSign);
      && |s| >= 4 && s[|s| - 1] == '%' && s[|s| - 3] == '.'
      && (s[0] == '+' <==> includeSign && value >= 0.0)
      && (s[0] == '-' <==> includeSign && value < 0.0)
      && (!includeSign ==> '0' <= s[0] <= '9')
  {
    var m := FixedText1(Abs(value));
    var n := Round(Abs(value) * 10.0);
    assert m == Radix(n / 10, 10) + "." + [DigitChar(n % 10)];
    var digits := Radix(n / 10, 10);
    assert DigitValue(digits[0]) < 10 && DigitChar(DigitValue(digits[0])) == digits[0];
    assert m[0] == digits[0];
  }

  // ---------------------------------------------------------------- explorers

  datatype Network = Network(
    chainId: string,
    name: string,
    currency: string,
    explorerUrl: string,
    rpcUrl: string)

  /** `Object.values(NETWORKS)`, in declaration order. */
  const Networks: seq<Network> := [
    Network("0x1", "Ethereum Mainnet", "ETH", "https://etherscan.io", "https://mainnet.infura.io/v3/"),
    Network("0x89", "Polygon Mainnet", "MATIC", "https://polygonscan.com", "https://polygon-rpc.com/"),
    Network("0xa4b1", "Arbitrum One", "ETH", "https://arbiscan.io", "https://arb1.arbitrum.io/rpc"),
    Network("0xa", "Optimism", "ETH", "https://optimistic.etherscan.io", "https://mainnet.optimism.io"),
    Network("0xa86a", "Avalanche C-Chain", "AVAX", "https://snowtrace.io", "https://api.avax.network/ext/bc/C/rpc")
  ]

  /** No two networks share a chain id, so a lookup by chain id has at most one answer. */
  lemma NetworkIdsDistinct()
    ensures forall i, j :: 0 <= i < j < |Networks| ==> Networks[i].chainId != Networks[j].chainId
  {
  }

  datatype LinkType = Address | Tx

  function LinkTypeText(t: LinkType): string
  {
    match t
    case Address => "address"
    case Tx => "tx"
  }

  /** `` `0x${chainId.toString(16)}` ``. */
  function ChainIdHex(chainId: int): string
  {
    "0x" + IntText(chainId, 16)
  }

  /** `Object.values(NETWORKS).find(net => net.chainId === hex)`. */
  function NetworkByChainId(hex: string): (r: Option<Network>)
    ensures r.None? <==> forall i | 0 <= i < |Networks| :: Networks[i].chainId != hex
    ensures forall i | 0 <= i < |Networks| && Networks[i].chainId == hex :: r == Some(Networks[i])
  {
    NetworkIdsDistinct();
    var fi := FirstIndex(Networks, (n: Network) => n.chainId == hex);
    assert fi.Some? ==> forall i | 0 <= i < |Networks| && Networks[i].chainId == hex :: i == fi.value;
    Find(Networks, (n: Network) => n.chainId == hex)
  }

  /** The path of an explorer link: `/${type}/${hash}`. */
  function ExplorerPath(linkType: LinkType, hash: string): string
  {
    "/" + LinkTypeText(linkType) + "/" + hash
  }

  /** `getExplorerUrl(chainId, hash, type)`; `type` defaults to Address. */
  function GetExplorerUrl(chainId: int, hash: string, linkType: LinkType): (r: string)
    ensures forall i | 0 <= i < |Networks| && Networks[i].chainId == ChainIdHex(chainId) ::
      r == Networks[i].explorerUrl + ExplorerPath(linkType, hash)
    ensures (forall i | 0 <= i < |Networks| :: Networks[i].chainId != ChainIdHex(chainId)) ==>
      r == "https://etherscan.io" + ExplorerPath(linkType, hash)
  {
    match NetworkByChainId(ChainIdHex(chainId))
    case None => "https://etherscan.io" + ExplorerPath(linkType, hash)
    case Some(network) => network.explorerUrl + ExplorerPath(linkType, hash)
  }

  /** The network an explorer link is taken from has a hex id that reads back as the chain id. */
  lemma ExplorerChainRoundTrip(chainId: nat, i: nat)
    requires i < |Networks| && Networks[i].chainId == ChainIdHex(chainId)
    ensures ParseRadix(Networks[i].chainId[2..], 16) == chainId
  {
    assert Networks[i].chainId[2..] == Radix(chainId, 16);
    RadixRoundTrip(chainId, 16);
  }

  /** Polygon's chain id 137 is 0x89. */
  lemma PolygonChainId()
    ensures ChainIdHex(137) == Networks[1].chainId
  {
    assert Radix(8, 16) == "8";
    DivideStep(137, 16);
    assert Radix(137, 16) == Radix(8, 16) + [DigitChar(9)];
  }

  /** Arbitrum's chain id 42161 is 0xa4b1. */
  lemma ArbitrumChainId()
    ensures ChainIdHex(42161) == Networks[2].chainId
  {
    assert Radix(10, 16) == "a";
    DivideStep(164, 16);
    assert Radix(164, 16) == Radix(10, 16) + [DigitChar(4)];
    DivideStep(2635, 16);
    assert Radix(2635, 16) == Radix(164, 16) + [DigitChar(11)];
    DivideStep(42161, 16);
    assert Radix(42161, 16) == Radix(2635, 16) + [DigitChar(1)];
  }

  /** Polygon (137) and Arbitrum (42161) resolve to their own explorers. */
  lemma KnownExplorers(hash: string)
    ensures GetExplorerUrl(137, hash, Tx) == "https://polygonscan.com" + ExplorerPath(Tx, hash)
    ensures GetExplorerUrl(42161, hash, Address) == "https://arbiscan.io" + ExplorerPath(Address, hash)
  {
    PolygonChainId();
    ArbitrumChainId();
  }

  /** A chain id outside the table, such as 5, falls back to etherscan. */
  lemma UnknownExplorer(hash: string)
    ensures GetExplorerUrl(5, hash, Tx) == "https://etherscan.io" + ExplorerPath(Tx, hash)
  {
    assert ChainIdHex(5) == "0x5";
  }
}
