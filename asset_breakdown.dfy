/** The balance snapshot shown by the asset breakdown dialog, the display
    helpers it uses and its "by asset" tab (AssetBreakdownDialog.tsx). */
module AssetBreakdown {
  import opened Js

  /** A chain id used as a property key of a plain object. Ids below 2^32 - 1
      are array indices, which object key enumeration lists in ascending
      numeric order. */
  type ChainId = n: int | 0 <= n < 0xFFFF_FFFF

  /** One chain's share of an asset (`chain.token.chainId`, `chain.amount`,
      `chain.amountInUSD`). */
  datatype ChainAggregation = ChainAggregation(chainId: ChainId, amount: real, amountInUSD: real)

  /** One token aggregated over every chain. */
  datatype Asset = Asset(tokenType: string, amount: real, amountInUSD: real,
                         chainAggregation: seq<ChainAggregation>)

  /** The balance snapshot returned by the account's `getPrimaryAssets`. */
  datatype Snapshot = Snapshot(totalAmountInUSD: real, assets: seq<Asset>)

  /** An entry of the static chain table (`supportedChains`). */
  datatype ChainInfo = ChainInfo(name: string, icon: string, chainId: int)

  /** An entry of the static token table (`dummyTokens`). */
  datatype TokenInfo = TokenInfo(id: string, name: string, symbol: string, icon: string)

  /** What the dialog shows for a token type. */
  datatype TokenDisplay = TokenDisplay(name: string, symbol: string, icon: string)

  const AmountThreshold: real := 0.00001
  const UsdThreshold: real := 0.01

  /** `getChainName`: the name of the first table entry with this id, or
      "Chain " followed by the id in decimal. */
  function ChainName(chains: seq<ChainInfo>, chainId: ChainId): (r: string)
    ensures (exists i | 0 <= i < |chains| ::
               chains[i].chainId == chainId && r == chains[i].name &&
               forall j | 0 <= j < i :: chains[j].chainId != chainId)
            || ((forall i | 0 <= i < |chains| :: chains[i].chainId != chainId) &&
                r == "Chain " + DecimalString(chainId))
  {
    match Find(chains, (c: ChainInfo) => c.chainId == chainId)
    case Some(chain) => chain.name
    case None => "Chain " + DecimalString(chainId)
  }

  /** A chain missing from the table is named after its id, so different
      missing chains get different names. */
  lemma UnknownChainNamesDiffer(chains: seq<ChainInfo>, c1: ChainId, c2: ChainId)
    requires forall i | 0 <= i < |chains| :: chains[i].chainId != c1 && chains[i].chainId != c2
    requires c1 != c2
    ensures ChainName(chains, c1) != ChainName(chains, c2)
  {
    var n1, n2 := ChainName(chains, c1), ChainName(chains, c2);
    if n1 == n2 {
      assert n1[6..] == DecimalString(c1) && n2[6..] == DecimalString(c2);
      DecimalStringInjective(c1, c2);
    }
  }

  /** `getTokenInfo`: looks the lower-cased token type up; a missing entry, or
      an empty name or symbol, falls back to the upper-cased token type, and a
      missing entry has no icon. */
  function TokenInfoFor(tokens: seq<TokenInfo>, tokenType: string): (r: TokenDisplay)
    ensures (forall i | 0 <= i < |tokens| :: tokens[i].id != ToLower(tokenType)) ==>
              r == TokenDisplay(ToUpper(tokenType), ToUpper(tokenType), "")
    ensures forall i | 0 <= i < |tokens| && tokens[i].id == ToLower(tokenType) &&
                       (forall j | 0 <= j < i :: tokens[j].id != ToLower(tokenType)) ::
              r.icon == tokens[i].icon &&
              r.name == (if tokens[i].name != "" then tokens[i].name else ToUpper(tokenType)) &&
              r.symbol == (if tokens[i].symbol != "" then tokens[i].symbol else ToUpper(tokenType))
  {
    var id := ToLower(tokenType);
    var token := Find(tokens, (t: TokenInfo) => t.id == id);
    var fallback := ToUpper(tokenType);
    TokenDisplay(
      if token.Some? && token.value.name != "" then token.value.name else fallback,
      if token.Some? && token.value.symbol != "" then token.value.symbol else fallback,
      if token.Some? then token.value.icon else "")
  }

  /** The lookup ignores the case of the token type: "USDC", "usdc" and "Usdc"
      are shown alike. */
  lemma {:induction false} TokenInfoIgnoresCase(tokens: seq<TokenInfo>, tokenType: string)
    ensures TokenInfoFor(tokens, tokenType) == TokenInfoFor(tokens, ToUpper(tokenType))
    ensures TokenInfoFor(tokens, tokenType) == TokenInfoFor(tokens, ToLower(tokenType))
  {
    CaseMappingAbsorbs(tokenType);
  }

  /** `formatAmount`: "0" for zero, "<0.00001" for every other amount below the
      threshold (negative ones included), the 5-decimal rendering otherwise. */
  function FormatAmount(amount: real, toFixed: FixedRendering): (r: string)
    ensures amount < AmountThreshold ==> r == (if amount == 0.0 then "0" else "<0.00001")
    ensures AmountThreshold <= amount ==> r == toFixed(amount, 5)
    ensures r != ""
  {
    if amount == 0.0 then "0"
    else if amount < AmountThreshold then "<0.00001"
    else toFixed(amount, 5)
  }

  /** `formatUSD`: "$0.00" for zero, "<$0.01" for every other value below a
      cent, "$" and the 2-decimal rendering otherwise; so every result is
      marked as dollars. */
  function FormatUsd(amount: real, toFixed: FixedRendering): (r: string)
    ensures amount < UsdThreshold ==> r == (if amount == 0.0 then "$0.00" else "<$0.01")
    ensures UsdThreshold <= amount ==> r == "$" + toFixed(amount, 2)
    ensures |r| >= 2 && (r[0] == '$' || r[..2] == "<$")
  {
    if amount == 0.0 then "$0.00"
    else if amount < UsdThreshold then "<$0.01"
    else "$" + toFixed(amount, 2)
  }

  /** Only the two lowest branches ignore the value: two amounts rendered the
      same at or above the threshold got the same 2-decimal rendering. */
  lemma FormatUsdDistinguishes(a: real, b: real, toFixed: FixedRendering)
    requires UsdThreshold <= a && UsdThreshold <= b
    requires FormatUsd(a, toFixed) == FormatUsd(b, toFixed)
    ensures toFixed(a, 2) == toFixed(b, 2)
  {
    assert FormatUsd(a, toFixed)[1..] == toFixed(a, 2);
    assert FormatUsd(b, toFixed)[1..] == toFixed(b, 2);
  }

  // The "by asset" tab.

  predicate PositiveAsset(a: Asset) { a.amount > 0.0 }

  predicate PositiveChain(c: ChainAggregation) { c.amount > 0.0 }

  /** One card of the "by asset" tab: the asset, the chain rows listed in its
      "Chain Distribution" menu, and whether "No assets on any chain" is shown. */
  datatype AssetCard = AssetCard(asset: Asset, chains: seq<ChainAggregation>, noChainsMessage: bool)

  function CardOf(a: Asset): AssetCard
  {
    var rows := Filter(a.chainAggregation, PositiveChain);
    AssetCard(a, rows, |rows| == 0)
  }

  function CardsOf(shown: seq<Asset>): (r: seq<AssetCard>)
    ensures |r| == |shown|
  {
    seq(|shown|, i requires 0 <= i < |shown| => CardOf(shown[i]))
  }

  lemma CardsOfAppend(xs: seq<Asset>, ys: seq<Asset>)
    ensures CardsOf(xs + ys) == CardsOf(xs) + CardsOf(ys)
  {
    var l, r := CardsOf(xs + ys), CardsOf(xs) + CardsOf(ys);
    forall i | 0 <= i < |l|
      ensures l[i] == r[i]
    {
      if i < |xs| {
        assert (xs + ys)[i] == xs[i];
      } else {
        assert (xs + ys)[i] == ys[i - |xs|];
      }
    }
  }

  /** The "by asset" tab; `None` when there is no snapshot and the dialog
      renders nothing. */
  function ByAssetView(snapshot: Option<Snapshot>): (r: Option<seq<AssetCard>>)
    ensures r.None? <==> snapshot.None?
    ensures r.Some? ==> |r.value| == |Filter(snapshot.value.assets, PositiveAsset)|
  {
    match snapshot
    case None => None
    case Some(s) =>
      Some(CardsOf(Filter(s.assets, PositiveAsset)))
  }

  /** The tab lists exactly the assets with a positive amount, in the order of
      the snapshot; each card lists exactly the chains holding a positive
      amount, in order, and shows the empty message iff there is none. */
  lemma ByAssetViewContents(s: Snapshot)
    ensures var cards := ByAssetView(Some(s)).value;
      && (forall a :: (exists i | 0 <= i < |cards| :: cards[i].asset == a) <==> a in s.assets && a.amount > 0.0)
      && (forall i | 0 <= i < |cards| ::
            && cards[i].chains == Filter(cards[i].asset.chainAggregation, PositiveChain)
            && (forall c :: c in cards[i].chains <==> c in cards[i].asset.chainAggregation && c.amount > 0.0)
            && (cards[i].noChainsMessage <==>
                  forall k | 0 <= k < |cards[i].asset.chainAggregation| ::
                    cards[i].asset.chainAggregation[k].amount <= 0.0))
  {
    var cards := ByAssetView(Some(s)).value;
    var shown := Filter(s.assets, PositiveAsset);
    forall a | a in s.assets && a.amount > 0.0
      ensures exists i | 0 <= i < |cards| :: cards[i].asset == a
    {
      var k :| 0 <= k < |s.assets| && s.assets[k] == a;
      assert a in shown;
      var i :| 0 <= i < |shown| && shown[i] == a;
      assert cards[i].asset == a;
    }
    forall i | 0 <= i < |cards|
      ensures cards[i].noChainsMessage <==>
                forall k | 0 <= k < |cards[i].asset.chainAggregation| ::
                  cards[i].asset.chainAggregation[k].amount <= 0.0
    {
      FilterEmpty(cards[i].asset.chainAggregation, PositiveChain);
    }
  }

  /** The tab keeps the snapshot's order: the cards of two snapshot parts
      shown one after the other are the cards of the joined snapshot. */
  lemma ByAssetViewKeepsOrder(total: real, xs: seq<Asset>, ys: seq<Asset>)
    ensures ByAssetView(Some(Snapshot(total, xs + ys))).value ==
            ByAssetView(Some(Snapshot(total, xs))).value + ByAssetView(Some(Snapshot(total, ys))).value
  {
    FilterAppend(xs, ys, PositiveAsset);
    CardsOfAppend(Filter(xs, PositiveAsset), Filter(ys, PositiveAsset));
  }
}
