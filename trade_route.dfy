/** The trade-creation endpoint: a process-wide in-memory list of trades,
    a `POST` handler that validates a request body, normalises it into a
    pending trade and appends it, and a `GET` handler that returns the list. */
module TradeRoute {
  import opened Wrappers
  import opened TradeTypes
  import opened Utils

  /** An offer as the request body carries it: any field may be missing. */
  datatype OfferBody = OfferBody(
    tokens: Option<seq<TokenItem>>,
    nfts: Option<seq<NftItem>>,
    solAmount: Option<real>)

  /** The fields of a `POST` body that the handler reads; any may be missing. */
  datatype CreateBody = CreateBody(
    creatorWallet: Option<string>,
    counterpartyWallet: Option<string>,
    creatorOffer: Option<OfferBody>,
    counterpartyOffer: Option<OfferBody>)

  /** What `POST` answers: the stored trade, or a 400 with an error message. */
  datatype PostResponse = Created(trade: Trade) | BadRequest(error: string) {
    function StatusCode(): (code: int)
      ensures code == 400 <==> BadRequest?
    {
      if Created? then 200 else 400
    }
  }

  const CreatorWalletRequired := "Creator wallet is required"
  const CounterpartyWalletRequired := "Counterparty wallet is required"
  const CreatorOfferEmpty := "Creator offer cannot be empty"

  /** JavaScript truthiness of a wallet field: present and not the empty string. */
  predicate IsTruthy(s: Option<string>) {
    s.Some? && s.value != ""
  }

  /** The `hasCreatorOffer` test: a token list that is present and non-empty,
      an NFT list that is present and non-empty, or a SOL amount that is
      present, non-zero and positive. */
  predicate HasCreatorOffer(o: Option<OfferBody>)
    ensures HasCreatorOffer(o) ==> o.Some?
  {
    match o
    case None => false
    case Some(offer) =>
      || (offer.tokens.Some? && |offer.tokens.value| > 0)
      || (offer.nfts.Some? && |offer.nfts.value| > 0)
      || (offer.solAmount.Some? && offer.solAmount.value != 0.0 && offer.solAmount.value > 0.0)
  }

  /** The message of the first guard the body fails, or None when it passes
      all three. The guards are tried in a fixed order, so each message
      names the first failing field. */
  function ValidationError(body: CreateBody): (r: Option<string>)
    ensures r == Some(CreatorWalletRequired) <==> !IsTruthy(body.creatorWallet)
    ensures r == Some(CounterpartyWalletRequired)
      <==> IsTruthy(body.creatorWallet) && !IsTruthy(body.counterpartyWallet)
    ensures r == Some(CreatorOfferEmpty)
      <==> IsTruthy(body.creatorWallet) && IsTruthy(body.counterpartyWallet) && !HasCreatorOffer(body.creatorOffer)
    ensures r.None?
      <==> IsTruthy(body.creatorWallet) && IsTruthy(body.counterpartyWallet) && HasCreatorOffer(body.creatorOffer)
  {
    if !IsTruthy(body.creatorWallet) then Some(CreatorWalletRequired)
    else if !IsTruthy(body.counterpartyWallet) then Some(CounterpartyWalletRequired)
    else if !HasCreatorOffer(body.creatorOffer) then Some(CreatorOfferEmpty)
    else None
  }

  /** An offer as it is stored: `tokens || []`, `nfts || []`, `solAmount || 0`.
      A missing offer is read through `?.` and so becomes the empty offer.
      (`v || 0` is `v` for every number but NaN, which reals do not have.) */
  function NormalizeOffer(o: Option<OfferBody>): (r: TradeOffer)
    ensures o.None? ==> r == EmptyOffer
    ensures o.Some? ==> r.tokens == (if o.value.tokens.Some? then o.value.tokens.value else [])
    ensures o.Some? ==> r.nfts == (if o.value.nfts.Some? then o.value.nfts.value else [])
    ensures o.Some? ==> r.solAmount == (if o.value.solAmount.Some? then o.value.solAmount.value else 0.0)
  {
    match o
    case None => EmptyOffer
    case Some(offer) => TradeOffer(offer.tokens.GetOr([]), offer.nfts.GetOr([]), offer.solAmount.GetOr(0.0))
  }

  /** The guard on the raw body agrees with non-emptiness of the offer as stored. */
  lemma HasCreatorOfferIffNonEmpty(o: Option<OfferBody>)
    ensures HasCreatorOffer(o) <==> IsNonEmptyOffer(NormalizeOffer(o))
  {
  }

  /** What a successfully created trade looks like. */
  ghost predicate IsNewTrade(t: Trade) {
    && t.creatorWallet != ""
    && t.counterpartyWallet != ""
    && IsNonEmptyOffer(t.creatorOffer)
    && t.status == Pending
    && |t.id| >= |TradeIdPrefix| && t.id[..|TradeIdPrefix|] == TradeIdPrefix
  }

  /** The answer to a `POST` with body `body`, given the random string behind
      the identifier and the two clock readings of `createdAt` and `updatedAt`. */
  function Respond(body: CreateBody, random: string, createdAt: int, updatedAt: int): (r: PostResponse)
    ensures r.BadRequest? <==> ValidationError(body).Some?
    ensures r.BadRequest? ==> r.error == ValidationError(body).value
  {
    match ValidationError(body)
    case Some(message) => BadRequest(message)
    case None =>
      Created(Trade(
        GenerateTradeId(random),
        body.creatorWallet.value,
        body.counterpartyWallet.value,
        NormalizeOffer(body.creatorOffer),
        NormalizeOffer(body.counterpartyOffer),
        Pending,
        createdAt,
        updatedAt))
  }

  /** A created trade is pending, carries the request's wallets and
      normalised offers and the clock readings, has a "TRADE-" identifier and
      a non-empty creator offer. */
  lemma CreatedTrade(body: CreateBody, random: string, createdAt: int, updatedAt: int)
    requires Respond(body, random, createdAt, updatedAt).Created?
    ensures var t := Respond(body, random, createdAt, updatedAt).trade;
      && IsNewTrade(t)
      && Some(t.creatorWallet) == body.creatorWallet
      && Some(t.counterpartyWallet) == body.counterpartyWallet
      && t.creatorOffer == NormalizeOffer(body.creatorOffer)
      && t.counterpartyOffer == NormalizeOffer(body.counterpartyOffer)
      && (body.counterpartyOffer.None? ==> t.counterpartyOffer == EmptyOffer)
      && t.id == GenerateTradeId(random)
      && t.createdAt == createdAt && t.updatedAt == updatedAt
  {
    TradeIdShape(random);
    HasCreatorOfferIffNonEmpty(body.creatorOffer);
  }

  /** The module-level `trades` array and the two handlers over it. */
  class TradeStore {
    var trades: seq<Trade>

    /** Every stored trade came out of a successful `POST`. */
    ghost predicate Valid()
      reads this
    {
      forall i :: 0 <= i < |trades| ==> IsNewTrade(trades[i])
    }

    constructor ()
      ensures Valid() && trades == []
    {
      trades := [];
    }

    /** `POST`: three early-return guards, then the trade is built and pushed. */
    method Post(body: CreateBody, random: string, createdAt: int, updatedAt: int) returns (response: PostResponse)
      requires Valid()
      modifies this
      ensures Valid()
      ensures response == Respond(body, random, createdAt, updatedAt)
      ensures response.BadRequest? ==> trades == old(trades)
      ensures response.Created? ==> trades == old(trades) + [response.trade]
    {
      if !IsTruthy(body.creatorWallet) {
        return BadRequest(CreatorWalletRequired);
      }
      if !IsTruthy(body.counterpartyWallet) {
        return BadRequest(CounterpartyWalletRequired);
      }
      var hasCreatorOffer := HasCreatorOffer(body.creatorOffer);
      if !hasCreatorOffer {
        return BadRequest(CreatorOfferEmpty);
      }
      var trade := Trade(
        GenerateTradeId(random),
        body.creatorWallet.value,
        body.counterpartyWallet.value,
        NormalizeOffer(body.creatorOffer),
        NormalizeOffer(body.counterpartyOffer),
        Pending,
        createdAt,
        updatedAt);
      CreatedTrade(body, random, createdAt, updatedAt);
      trades := trades + [trade];
      response := Created(trade);
    }

    /** `GET`: the whole store, in insertion order, unfiltered. */
    method Get() returns (all: seq<Trade>)
      requires Valid()
      ensures all == trades
      ensures forall i :: 0 <= i < |all| ==> IsNewTrade(all[i])
    {
      all := trades;
    }
  }
}
