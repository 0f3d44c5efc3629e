/** The pure helpers of `lib/utils.ts`: wallet-address abbreviation and the
    trade-identifier format. */
module Utils {
  import opened JsText

  /** `formatWalletAddress`: the empty address stays empty; any other is
      shown as its first four characters, "...", and its last four. */
  function FormatWalletAddress(address: string): (r: string)
    ensures r == "" <==> address == ""
    ensures address != "" ==> |r| == 3 + 2 * Min(4, |address|)
    ensures |r| <= 11
  {
    if address == "" then "" else Slice(address, 0, 4) + "..." + SliceFrom(address, -4)
  }

  function Min(a: int, b: int): int { if a < b then a else b }

  /** A non-empty address of length n becomes its first min(4, n) characters,
      "...", then its last min(4, n) characters. */
  lemma FormatShape(address: string)
    requires address != ""
    ensures var k := Min(4, |address|);
      FormatWalletAddress(address) == address[..k] + "..." + address[|address| - k..]
  {
  }

  /** An address of four characters or more always abbreviates to eleven. */
  lemma FormatLength(address: string)
    requires |address| >= 4
    ensures |FormatWalletAddress(address)| == 11
  {
    FormatShape(address);
  }

  /** A short non-empty address is repeated on both sides of the dots. */
  lemma FormatShort(address: string)
    requires 0 < |address| < 4
    ensures FormatWalletAddress(address) == address + "..." + address
  {
    FormatShape(address);
    assert address[..|address|] == address;
  }

  /** The abbreviation always starts with a prefix of the address and ends
      with a suffix of it. */
  lemma FormatPrefixSuffix(address: string)
    requires address != ""
    ensures exists p, q ::
      && 0 < p <= |address| && 0 <= q < |address|
      && FormatWalletAddress(address) == address[..p] + "..." + address[q..]
  {
    FormatShape(address);
    var k := Min(4, |address|);
    assert 0 < k <= |address| && 0 <= |address| - k < |address|;
  }

  const TradeIdPrefix := "TRADE-"

  /** `generateTradeId`, with `Math.random().toString(36)` as the input
      `random`: characters 2 to 10 of it, upper-cased, after "TRADE-". */
  function GenerateTradeId(random: string): (id: string)
    ensures |TradeIdPrefix| <= |id| <= |TradeIdPrefix| + 8
    ensures id[..|TradeIdPrefix|] == TradeIdPrefix
  {
    TradeIdPrefix + ToUpperCase(Substring(random, 2, 10))
  }

  /** The part of an identifier after "TRADE-". */
  function TradeIdSuffix(id: string): string
    requires |id| >= |TradeIdPrefix|
  {
    id[|TradeIdPrefix|..]
  }

  predicate IsBase36Lower(c: char) { '0' <= c <= '9' || 'a' <= c <= 'z' }

  predicate IsBase36Upper(c: char) { '0' <= c <= '9' || 'A' <= c <= 'Z' }

  /** An identifier starts with "TRADE-", followed by characters 2 to
      min(10, |random|) of `random` with every ASCII letter upper-cased; so
      the suffix has at most eight characters, no lower-case letter, and the
      identifier at most fourteen. */
  lemma TradeIdShape(random: string)
    ensures var id := GenerateTradeId(random);
      && id[..|TradeIdPrefix|] == TradeIdPrefix
      && |TradeIdSuffix(id)| == (if |random| <= 2 then 0 else Min(10, |random|) - 2)
      && (forall i :: 0 <= i < |TradeIdSuffix(id)| ==>
            TradeIdSuffix(id)[i] == UpperChar(random[2 + i]))
      && |TradeIdSuffix(id)| <= 8
      && (forall i :: 0 <= i < |TradeIdSuffix(id)| ==> !IsAsciiLower(TradeIdSuffix(id)[i]))
      && |id| <= 14
  {
    var id := GenerateTradeId(random);
    assert TradeIdSuffix(id) == ToUpperCase(Substring(random, 2, 10));
  }

  /** A base-36 digit string of at least ten characters gives exactly the
      "TRADE-XXXXXXXX" pattern: eight upper-case base-36 characters. */
  lemma TradeIdPattern(random: string)
    requires |random| >= 10
    requires forall i :: 2 <= i < |random| ==> IsBase36Lower(random[i])
    ensures var id := GenerateTradeId(random);
      && |id| == 14
      && id[..6] == "TRADE-"
      && forall i :: 6 <= i < 14 ==> IsBase36Upper(id[i])
  {
    var id := GenerateTradeId(random);
    TradeIdShape(random);
    forall i | 6 <= i < 14 ensures IsBase36Upper(id[i]) {
      assert id[i] == TradeIdSuffix(id)[i - 6] == UpperChar(random[i - 4]);
    }
  }
}
