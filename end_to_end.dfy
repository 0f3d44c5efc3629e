/** Facts that connect the trade page, the trade route and the admin panel. */
module EndToEnd {
  import opened Wrappers
  import opened TradeTypes
  import TradeRoute
  import TradePage
  import AdminPage

  /** The route accepts a body built by the trade page exactly when both
      wallets are non-empty and the creator offers a token, an NFT or a
      positive SOL amount. */
  lemma PageRequestAccepted(
    wallet: string, counterparty: string, tokens: seq<TokenItem>, nfts: seq<NftItem>,
    solValue: real, random: string, createdAt: int, updatedAt: int)
    ensures TradeRoute.Respond(TradePage.CreateRequest(wallet, counterparty, tokens, nfts, solValue),
                               random, createdAt, updatedAt).Created?
      <==> wallet != "" && counterparty != "" && (|tokens| > 0 || |nfts| > 0 || solValue > 0.0)
  {
  }

  /** The page and the route disagree on the SOL field "0": with nothing
      selected the page lets the request through, since the text is not
      empty, but it sends 0 and the route answers 400 "Creator offer cannot
      be empty". */
  lemma ZeroSolTextPassesPageFailsRoute(wallet: string, counterparty: string, random: string, createdAt: int, updatedAt: int)
    requires wallet != "" && counterparty != ""
    ensures TradePage.GuardFailure(true, true, counterparty, [], [], "0").None?
    ensures TradeRoute.Respond(TradePage.CreateRequest(wallet, counterparty, [], [], 0.0), random, createdAt, updatedAt)
      == TradeRoute.BadRequest(TradeRoute.CreatorOfferEmpty)
  {
  }

  /** A trade the route has just created is shown as pending, with Accept
      and Reject buttons, and its creator offer never reads "No items
      offered". */
  lemma NewTradeOnAdminPanel(body: TradeRoute.CreateBody, random: string, createdAt: int, updatedAt: int)
    requires TradeRoute.Respond(body, random, createdAt, updatedAt).Created?
    ensures var t := TradeRoute.Respond(body, random, createdAt, updatedAt).trade;
      && AdminPage.ShowsActions(t)
      && AdminPage.StatusBadgeVariant(t.status.Name()) == AdminPage.Secondary
      && AdminPage.StatusLabel(t.status.Name()) == "Pending"
      && !AdminPage.ShowsNoItems(t.creatorOffer)
  {
    TradeRoute.CreatedTrade(body, random, createdAt, updatedAt);
    var t := TradeRoute.Respond(body, random, createdAt, updatedAt).trade;
    AdminPage.StatusLabels();
  }

  /** The counterparty side of a trade created from the page is the empty
      offer, so it always shows as "No items offered". */
  lemma PageCounterpartyOfferEmpty(
    wallet: string, counterparty: string, tokens: seq<TokenItem>, nfts: seq<NftItem>,
    solValue: real, random: string, createdAt: int, updatedAt: int)
    requires TradeRoute.Respond(TradePage.CreateRequest(wallet, counterparty, tokens, nfts, solValue),
                                random, createdAt, updatedAt).Created?
    ensures var t := TradeRoute.Respond(TradePage.CreateRequest(wallet, counterparty, tokens, nfts, solValue),
                                        random, createdAt, updatedAt).trade;
      t.counterpartyOffer == EmptyOffer && AdminPage.ShowsNoItems(t.counterpartyOffer)
  {
  }
}
