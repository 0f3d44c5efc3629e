/** The records exchanged between the pages and the trade route. Amounts are
    JavaScript numbers; the model takes them as reals, since the modelled code
    only compares them with 0 and defaults them to 0. */
module TradeTypes {

  /** A quantity of a fungible token offered in a trade. */
  datatype TokenItem = TokenItem(id: int, name: string, symbol: string, amount: real)

  /** A single non-fungible token; `img` is a reference to its picture. */
  datatype NftItem = NftItem(id: int, name: string, collection: string, img: string)

  /** One side's contribution to a trade. */
  datatype TradeOffer = TradeOffer(tokens: seq<TokenItem>, nfts: seq<NftItem>, solAmount: real)

  datatype TradeStatus = Pending | Accepted | Rejected | Completed {

    /** The string the status has on the wire and in the pages. */
    function Name(): (r: string)
      ensures r != ""
      ensures 'a' <= r[0] <= 'z'
    {
      match this
      case Pending => "pending"
      case Accepted => "accepted"
      case Rejected => "rejected"
      case Completed => "completed"
    }
  }

  /** Timestamps are milliseconds since the epoch, as `Date.now()` gives them. */
  datatype Trade = Trade(
    id: string,
    creatorWallet: string,
    counterpartyWallet: string,
    creatorOffer: TradeOffer,
    counterpartyOffer: TradeOffer,
    status: TradeStatus,
    createdAt: int,
    updatedAt: int)

  /** The offer that carries nothing. */
  const EmptyOffer := TradeOffer([], [], 0.0)

  /** An offer that puts something on the table: a token, an NFT or a
      positive amount of SOL. */
  predicate IsNonEmptyOffer(o: TradeOffer) {
    |o.tokens| > 0 || |o.nfts| > 0 || o.solAmount > 0.0
  }

  /** Distinct statuses have distinct names, so comparing names compares statuses. */
  lemma NameInjective(s: TradeStatus, t: TradeStatus)
    ensures s.Name() == t.Name() <==> s == t
  {
    if s != t {
      assert s.Name()[1] != t.Name()[1] || s.Name()[0] != t.Name()[0];
    }
  }
}
