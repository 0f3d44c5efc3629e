/** The trade-creation page: a mock wallet catalogue, selection toggles,
    case-insensitive search, the guards in front of "Create Trade" and the
    request it sends to the trade route. */
module TradePage {
  import opened Wrappers
  import opened Seqs
  import opened JsText
  import opened TradeTypes
  import TradeRoute

  /** An entry of the page's mock token catalogue. */
  datatype MockToken = MockToken(id: int, name: string, symbol: string, balance: real, price: real)

  const MockTokens: seq<MockToken> := [
    MockToken(1, "Solana", "SOL", 2.5, 120.45),
    MockToken(2, "Ethereum", "ETH", 1.2, 3200.78),
    MockToken(3, "Bitcoin", "BTC", 0.05, 42000.12),
    MockToken(4, "Cardano", "ADA", 150.0, 0.45),
    MockToken(5, "Polkadot", "DOT", 25.0, 6.78)
  ]

  const NftPlaceholder := "/placeholder.svg?height=100&width=100"

  const MockNfts: seq<NftItem> := [
    NftItem(101, "Cosmic Horizon #1234", "Cosmic Horizon", NftPlaceholder),
    NftItem(102, "Bored Ape #5678", "BAYC", NftPlaceholder),
    NftItem(103, "Doodle #9012", "Doodles", NftPlaceholder),
    NftItem(104, "Azuki #3456", "Azuki", NftPlaceholder),
    NftItem(105, "CloneX #7890", "CloneX", NftPlaceholder)
  ]

  // ---------------------------------------------------------------- selection

  /** `prev.filter(x => x !== id)`. */
  function RemoveAll(selection: seq<int>, id: int): seq<int> {
    Filter(selection, x => x != id)
  }

  /** `toggleTokenSelection` / `toggleNFTSelection`: drop every occurrence of
      a selected id, append an unselected one. */
  function Toggle(selection: seq<int>, id: int): (r: seq<int>)
    ensures id in r <==> id !in selection
    ensures forall x :: x != id ==> (x in r <==> x in selection)
  {
    if id in selection then RemoveAll(selection, id) else selection + [id]
  }

  /** Toggling a selected id removes every occurrence of it and keeps every
      other id, as often as before and in the same order; toggling an
      unselected id appends it. */
  lemma ToggleSpec(selection: seq<int>, id: int)
    ensures id in selection ==>
      && id !in Toggle(selection, id)
      && IsSubsequence(Toggle(selection, id), selection)
      && forall x :: x != id ==> multiset(Toggle(selection, id))[x] == multiset(selection)[x]
    ensures id !in selection ==> Toggle(selection, id) == selection + [id]
  {
    if id in selection {
      FilterIsSubsequence(selection, x => x != id);
      forall x | x != id
        ensures multiset(Toggle(selection, id))[x] == multiset(selection)[x]
      {
        FilterCount(selection, x => x != id, x);
      }
    }
  }

  /** Toggling an unselected id twice gives back the original selection. */
  lemma ToggleTwice(selection: seq<int>, id: int)
    requires id !in selection
    ensures Toggle(Toggle(selection, id), id) == selection
  {
    assert id in selection + [id];
    FilterAppend(selection, [id], x => x != id);
    FilterKeepsAll(selection, x => x != id);
    assert Filter([id], x => x != id) == [];
  }

  /** A selection built by toggling never holds an id twice. */
  lemma ToggleNoDuplicates(selection: seq<int>, id: int)
    requires NoDuplicates(selection)
    ensures NoDuplicates(Toggle(selection, id))
  {
    if id in selection {
      FilterNoDuplicates(selection, x => x != id);
    }
  }

  // ------------------------------------------------------------------- search

  /** The token search: the lower-cased query occurs in the lower-cased name
      or in the lower-cased symbol. */
  predicate TokenMatches(token: MockToken, query: string) {
    || Includes(ToLowerCase(token.name), ToLowerCase(query))
    || Includes(ToLowerCase(token.symbol), ToLowerCase(query))
  }

  /** The NFT search: the lower-cased query occurs in the lower-cased name or
      in the lower-cased collection. */
  predicate NftMatches(nft: NftItem, query: string) {
    || Includes(ToLowerCase(nft.name), ToLowerCase(query))
    || Includes(ToLowerCase(nft.collection), ToLowerCase(query))
  }

  /** `filteredTokens`, over the catalogue `tokens` (the page passes `MockTokens`). */
  function FilterTokens(tokens: seq<MockToken>, query: string): (r: seq<MockToken>)
    ensures |r| <= |tokens|
    ensures forall i :: 0 <= i < |r| ==> r[i] in tokens && TokenMatches(r[i], query)
  {
    Filter(tokens, t => TokenMatches(t, query))
  }

  /** `filteredNFTs`, over the catalogue `nfts` (the page passes `MockNfts`). */
  function FilterNfts(nfts: seq<NftItem>, query: string): (r: seq<NftItem>)
    ensures |r| <= |nfts|
    ensures forall i :: 0 <= i < |r| ==> r[i] in nfts && NftMatches(r[i], query)
  {
    Filter(nfts, n => NftMatches(n, query))
  }

  /** The token search keeps exactly the tokens in whose lower-cased name or
      symbol the lower-cased query occurs, in catalogue order. */
  lemma FilterTokensSpec(tokens: seq<MockToken>, query: string)
    ensures forall t :: t in FilterTokens(tokens, query) <==>
      && t in tokens
      && ((exists i :: OccursAt(ToLowerCase(t.name), ToLowerCase(query), i))
          || (exists i :: OccursAt(ToLowerCase(t.symbol), ToLowerCase(query), i)))
    ensures forall t :: multiset(FilterTokens(tokens, query))[t] ==
              if TokenMatches(t, query) then multiset(tokens)[t] else 0
    ensures IsSubsequence(FilterTokens(tokens, query), tokens)
  {
    FilterIsSubsequence(tokens, t => TokenMatches(t, query));
    forall t: MockToken
      ensures multiset(FilterTokens(tokens, query))[t] ==
        if TokenMatches(t, query) then multiset(tokens)[t] else 0
    {
      FilterCount(tokens, t => TokenMatches(t, query), t);
    }
    forall t: MockToken
      ensures t in FilterTokens(tokens, query) <==>
        && t in tokens
        && ((exists i :: OccursAt(ToLowerCase(t.name), ToLowerCase(query), i))
            || (exists i :: OccursAt(ToLowerCase(t.symbol), ToLowerCase(query), i)))
    {
      IncludesIffOccurs(ToLowerCase(t.name), ToLowerCase(query));
      IncludesIffOccurs(ToLowerCase(t.symbol), ToLowerCase(query));
      if t in tokens && TokenMatches(t, query) {
        var k :| 0 <= k < |tokens| && tokens[k] == t;
      }
    }
  }

  /** The NFT search keeps exactly the NFTs in whose lower-cased name or
      collection the lower-cased query occurs, in catalogue order. */
  lemma FilterNftsSpec(nfts: seq<NftItem>, query: string)
    ensures forall n :: n in FilterNfts(nfts, query) <==>
      && n in nfts
      && ((exists i :: OccursAt(ToLowerCase(n.name), ToLowerCase(query), i))
          || (exists i :: OccursAt(ToLowerCase(n.collection), ToLowerCase(query), i)))
    ensures forall n :: multiset(FilterNfts(nfts, query))[n] ==
              if NftMatches(n, query) then multiset(nfts)[n] else 0
    ensures IsSubsequence(FilterNfts(nfts, query), nfts)
  {
    FilterIsSubsequence(nfts, n => NftMatches(n, query));
    forall n: NftItem
      ensures multiset(FilterNfts(nfts, query))[n] ==
        if NftMatches(n, query) then multiset(nfts)[n] else 0
    {
      FilterCount(nfts, n => NftMatches(n, query), n);
    }
    forall n: NftItem
      ensures n in FilterNfts(nfts, query) <==>
        && n in nfts
        && ((exists i :: OccursAt(ToLowerCase(n.name), ToLowerCase(query), i))
            || (exists i :: OccursAt(ToLowerCase(n.collection), ToLowerCase(query), i)))
    {
      IncludesIffOccurs(ToLowerCase(n.name), ToLowerCase(query));
      IncludesIffOccurs(ToLowerCase(n.collection), ToLowerCase(query));
      if n in nfts && NftMatches(n, query) {
        var k :| 0 <= k < |nfts| && nfts[k] == n;
      }
    }
  }

  /** An empty search box shows the whole catalogue. */
  lemma EmptySearchKeepsAll(tokens: seq<MockToken>, nfts: seq<NftItem>)
    ensures FilterTokens(tokens, "") == tokens
    ensures FilterNfts(nfts, "") == nfts
  {
    forall i | 0 <= i < |tokens| ensures TokenMatches(tokens[i], "") {
    }
    FilterKeepsAll(tokens, t => TokenMatches(t, ""));
    forall i | 0 <= i < |nfts| ensures NftMatches(nfts[i], "") {
    }
    FilterKeepsAll(nfts, n => NftMatches(n, ""));
  }

  /** Lower-casing twice is lower-casing once. */
  lemma LowerIdempotent(s: string)
    ensures ToLowerCase(ToLowerCase(s)) == ToLowerCase(s)
  {
  }

  /** The search ignores the case of ASCII letters in the query. */
  lemma {:induction false} TokenSearchIgnoresCase(tokens: seq<MockToken>, query: string)
    ensures FilterTokens(tokens, query) == FilterTokens(tokens, ToLowerCase(query))
  {
    LowerIdempotent(query);
    if tokens != [] {
      TokenSearchIgnoresCase(tokens[1..], query);
    }
  }

  /** The NFT search ignores the case of ASCII letters in the query too. */
  lemma {:induction false} NftSearchIgnoresCase(nfts: seq<NftItem>, query: string)
    ensures FilterNfts(nfts, query) == FilterNfts(nfts, ToLowerCase(query))
  {
    LowerIdempotent(query);
    if nfts != [] {
      NftSearchIgnoresCase(nfts[1..], query);
    }
  }

  // ------------------------------------------------------- offer construction

  /** `mockTokens.find(t => t.id === id)`, as a creator-offer item whose
      amount is the catalogue balance. */
  function TokenItemById(id: int): Option<TokenItem> {
    match Find(MockTokens, (t: MockToken) => t.id == id)
    case None => None
    case Some(t) => Some(TokenItem(t.id, t.name, t.symbol, t.balance))
  }

  /** `mockNFTs.find(n => n.id === id)`. */
  function NftItemById(id: int): Option<NftItem> {
    Find(MockNfts, (n: NftItem) => n.id == id)
  }

  /** The creator's tokens, in selection order; None when an id is not in the
      catalogue (`find` then gives `undefined`, reading its `id` throws a
      `TypeError`, and the handler's `catch` reports the error). */
  function CreatorTokens(selection: seq<int>): (r: Option<seq<TokenItem>>)
    ensures r.Some? ==> |r.value| == |selection|
    ensures r.Some? ==> forall i :: 0 <= i < |selection| ==> r.value[i].id == selection[i]
  {
    LookupAll(selection, TokenItemById)
  }

  /** The creator's NFTs, in selection order; None when an id is not in the catalogue. */
  function CreatorNfts(selection: seq<int>): (r: Option<seq<NftItem>>)
    ensures r.Some? ==> |r.value| == |selection|
    ensures r.Some? ==> forall i :: 0 <= i < |selection| ==> r.value[i].id == selection[i]
  {
    LookupAll(selection, NftItemById)
  }

  /** Every catalogue id resolves; the i-th creator token is the catalogue
      token with the i-th selected id, offered in its whole balance. */
  lemma CreatorTokensSpec(selection: seq<int>)
    ensures CreatorTokens(selection).Some? <==>
      forall i :: 0 <= i < |selection| ==> selection[i] in {1, 2, 3, 4, 5}
    ensures CreatorTokens(selection).Some? ==>
      var items := CreatorTokens(selection).value;
      && |items| == |selection|
      && forall i :: 0 <= i < |selection| ==>
           exists k :: 0 <= k < |MockTokens| && MockTokens[k].id == selection[i]
             && items[i] == TokenItem(selection[i], MockTokens[k].name, MockTokens[k].symbol, MockTokens[k].balance)
  {
    forall id | id in {1, 2, 3, 4, 5} ensures TokenItemById(id).Some? {
      assert MockTokens[id - 1].id == id;
    }
    forall id | id !in {1, 2, 3, 4, 5} ensures TokenItemById(id).None? {
      assert forall k :: 0 <= k < |MockTokens| ==> MockTokens[k].id == k + 1;
    }
  }

  /** Every catalogue id resolves; the i-th creator NFT is the catalogue NFT
      with the i-th selected id. */
  lemma CreatorNftsSpec(selection: seq<int>)
    ensures CreatorNfts(selection).Some? <==>
      forall i :: 0 <= i < |selection| ==> selection[i] in {101, 102, 103, 104, 105}
    ensures CreatorNfts(selection).Some? ==>
      var items := CreatorNfts(selection).value;
      && |items| == |selection|
      && forall i :: 0 <= i < |selection| ==> items[i] in MockNfts && items[i].id == selection[i]
  {
    forall id | id in {101, 102, 103, 104, 105} ensures NftItemById(id).Some? {
      assert MockNfts[id - 101].id == id;
    }
    forall id | id !in {101, 102, 103, 104, 105} ensures NftItemById(id).None? {
      assert forall k :: 0 <= k < |MockNfts| ==> MockNfts[k].id == k + 101;
    }
  }

  /** The body the page posts: the creator's wallet and items, `solValue`
      (the parsed SOL field, or 0 when it does not parse), and a counterparty
      offer that is always empty. */
  function CreateRequest(
    wallet: string, counterparty: string, tokens: seq<TokenItem>, nfts: seq<NftItem>, solValue: real
  ): (r: TradeRoute.CreateBody)
    ensures TradeRoute.NormalizeOffer(r.creatorOffer) == TradeOffer(tokens, nfts, solValue)
    ensures TradeRoute.NormalizeOffer(r.counterpartyOffer) == EmptyOffer
    ensures TradeRoute.ValidationError(r).None?
      <==> wallet != "" && counterparty != "" && (tokens != [] || nfts != [] || solValue > 0.0)
  {
    TradeRoute.CreateBody(
      Some(wallet),
      Some(counterparty),
      Some(TradeRoute.OfferBody(Some(tokens), Some(nfts), Some(solValue))),
      Some(TradeRoute.OfferBody(Some([]), Some([]), Some(0.0))))
  }

  // ------------------------------------------------------------------- guards

  /** How a click on "Create Trade" ends, by the toast it shows. */
  datatype CreateOutcome =
    | WalletNotConnected
    | MissingCounterparty
    | OfferEmpty
    | ItemLookupFailed
    | ServerError(description: string)
    | TradeCreated(tradeId: string)

  /** The empty-offer test: no token, no NFT and an empty SOL field. Any
      non-empty text, "0" included, counts as an offer. */
  predicate IsOfferEmpty(selectedTokens: seq<int>, selectedNfts: seq<int>, solText: string) {
    |selectedTokens| == 0 && |selectedNfts| == 0 && solText == ""
  }

  /** The toast of the first guard that stops the handler, or None. */
  function GuardFailure(
    connected: bool, hasPublicKey: bool, counterparty: string,
    selectedTokens: seq<int>, selectedNfts: seq<int>, solText: string
  ): (r: Option<CreateOutcome>)
    ensures r == Some(WalletNotConnected) <==> !connected || !hasPublicKey
    ensures r == Some(MissingCounterparty) <==> connected && hasPublicKey && counterparty == ""
    ensures r == Some(OfferEmpty) <==>
      connected && hasPublicKey && counterparty != "" && IsOfferEmpty(selectedTokens, selectedNfts, solText)
    ensures r.None? <==>
      connected && hasPublicKey && counterparty != "" && !IsOfferEmpty(selectedTokens, selectedNfts, solText)
  {
    if !connected || !hasPublicKey then Some(WalletNotConnected)
    else if counterparty == "" then Some(MissingCounterparty)
    else if IsOfferEmpty(selectedTokens, selectedNfts, solText) then Some(OfferEmpty)
    else None
  }

  /** The `disabled` expression of the "Create Trade" button. */
  predicate CreateDisabled(
    connected: bool, counterparty: string,
    selectedTokens: seq<int>, selectedNfts: seq<int>, solText: string, isCreatingTrade: bool
  )
    ensures isCreatingTrade || !connected || counterparty == "" ==>
      CreateDisabled(connected, counterparty, selectedTokens, selectedNfts, solText, isCreatingTrade)
  {
    || !connected
    || counterparty == ""
    || IsOfferEmpty(selectedTokens, selectedNfts, solText)
    || isCreatingTrade
  }

  /** With a public key present, the button is disabled exactly when a
      creation is in progress or the handler would stop at one of its guards. */
  lemma CreateDisabledIffGuard(
    connected: bool, counterparty: string,
    selectedTokens: seq<int>, selectedNfts: seq<int>, solText: string, isCreatingTrade: bool
  )
    ensures CreateDisabled(connected, counterparty, selectedTokens, selectedNfts, solText, isCreatingTrade)
      <==> isCreatingTrade || GuardFailure(connected, true, counterparty, selectedTokens, selectedNfts, solText).Some?
  {
  }

  /** The page's form state. */
  class TradeForm {
    var counterpartyAddress: string
    var selectedTokens: seq<int>
    var selectedNfts: seq<int>
    var solAmount: string
    var isCreatingTrade: bool

    constructor ()
      ensures counterpartyAddress == "" && solAmount == ""
      ensures selectedTokens == [] && selectedNfts == []
      ensures !isCreatingTrade
    {
      counterpartyAddress, solAmount := "", "";
      selectedTokens, selectedNfts := [], [];
      isCreatingTrade := false;
    }

    method ToggleTokenSelection(id: int)
      modifies this`selectedTokens
      ensures selectedTokens == Toggle(old(selectedTokens), id)
    {
      selectedTokens := Toggle(selectedTokens, id);
    }

    method ToggleNftSelection(id: int)
      modifies this`selectedNfts
      ensures selectedNfts == Toggle(old(selectedNfts), id)
    {
      selectedNfts := Toggle(selectedNfts, id);
    }

    /** `handleCreateTrade`. The wallet adapter's `connected` and `publicKey`
        are inputs, and so is `solValue`, what `Number.parseFloat(solAmount) || 0`
        gives. The `fetch` to the trade route is a call of `server.Post`. */
    method HandleCreateTrade(
      connected: bool, publicKey: Option<string>, solValue: real,
      server: TradeRoute.TradeStore, random: string, createdAt: int, updatedAt: int
    ) returns (outcome: CreateOutcome)
      requires server.Valid()
      modifies this, server
      ensures server.Valid()
      ensures var guard := GuardFailure(connected, publicKey.Some?, old(counterpartyAddress),
                                        old(selectedTokens), old(selectedNfts), old(solAmount));
        guard.Some? ==> outcome == guard.value && unchanged(this) && unchanged(server)
      ensures GuardFailure(connected, publicKey.Some?, old(counterpartyAddress),
                           old(selectedTokens), old(selectedNfts), old(solAmount)).None? ==>
        var tokens, nfts := CreatorTokens(old(selectedTokens)), CreatorNfts(old(selectedNfts));
        && !isCreatingTrade
        && ((tokens.None? || nfts.None?) ==>
              && outcome == ItemLookupFailed
              && server.trades == old(server.trades)
              && counterpartyAddress == old(counterpartyAddress) && solAmount == old(solAmount)
              && selectedTokens == old(selectedTokens) && selectedNfts == old(selectedNfts))
        && ((tokens.Some? && nfts.Some?) ==>
              var response := TradeRoute.Respond(
                CreateRequest(publicKey.value, old(counterpartyAddress), tokens.value, nfts.value, solValue),
                random, createdAt, updatedAt);
              && (response.BadRequest? ==>
                    && outcome == ServerError(response.error)
                    && server.trades == old(server.trades)
                    && counterpartyAddress == old(counterpartyAddress) && solAmount == old(solAmount)
                    && selectedTokens == old(selectedTokens) && selectedNfts == old(selectedNfts))
              && (response.Created? ==>
                    && outcome == TradeCreated(response.trade.id)
                    && server.trades == old(server.trades) + [response.trade]
                    && counterpartyAddress == "" && solAmount == ""
                    && selectedTokens == [] && selectedNfts == []))
    {
      if !connected || publicKey.None? {
        return WalletNotConnected;
      }
      if counterpartyAddress == "" {
        return MissingCounterparty;
      }
      if |selectedTokens| == 0 && |selectedNfts| == 0 && solAmount == "" {
        return OfferEmpty;
      }
      isCreatingTrade := true;
      var creatorTokens := CreatorTokens(selectedTokens);
      var creatorNfts := CreatorNfts(selectedNfts);
      if creatorTokens.None? || creatorNfts.None? {
        outcome := ItemLookupFailed;
      } else {
        var body := CreateRequest(publicKey.value, counterpartyAddress, creatorTokens.value, creatorNfts.value, solValue);
        var response := server.Post(body, random, createdAt, updatedAt);
        match response
        case BadRequest(error) =>
          outcome := ServerError(if error != "" then error else "Failed to create trade");
        case Created(trade) =>
          outcome := TradeCreated(trade.id);
          selectedTokens, selectedNfts := [], [];
          solAmount, counterpartyAddress := "", "";
      }
      isCreatingTrade := false;
    }
  }
}
