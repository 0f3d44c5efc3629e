/** The admin panel: trades of one wallet, filtered by status, with
    accept/reject actions whose replies replace the shown record. */
module AdminPage {
  import opened Wrappers
  import opened Seqs
  import opened JsText
  import opened TradeTypes

  /** `updateTrade`'s map: every trade with the updated trade's id is
      replaced by it. */
  function ReplaceById(trades: seq<Trade>, updated: Trade): (r: seq<Trade>)
    ensures |r| == |trades|
    ensures forall i :: 0 <= i < |trades| ==>
      r[i] == if trades[i].id == updated.id then updated else trades[i]
  {
    if trades == [] then []
    else [if trades[0].id == updated.id then updated else trades[0]] + ReplaceById(trades[1..], updated)
  }

  /** Replacing never changes which id sits at which position. */
  lemma ReplaceByIdKeepsIds(trades: seq<Trade>, updated: Trade)
    ensures forall i :: 0 <= i < |trades| ==> ReplaceById(trades, updated)[i].id == trades[i].id
  {
  }

  /** Applying the same reply twice is the same as applying it once. */
  lemma ReplaceByIdIdempotent(trades: seq<Trade>, updated: Trade)
    ensures ReplaceById(ReplaceById(trades, updated), updated) == ReplaceById(trades, updated)
  {
  }

  /** A reply for a trade that is not in the list changes nothing. */
  lemma ReplaceByIdAbsent(trades: seq<Trade>, updated: Trade)
    requires forall i :: 0 <= i < |trades| ==> trades[i].id != updated.id
    ensures ReplaceById(trades, updated) == trades
  {
  }

  /** `filteredTrades`: with a non-empty filter, the trades whose status
      string equals it; with the empty filter, every trade. */
  function FilterByStatus(trades: seq<Trade>, statusFilter: string): (r: seq<Trade>)
    ensures |r| <= |trades|
    ensures forall i :: 0 <= i < |r| ==> r[i] in trades
    ensures statusFilter != "" ==> forall i :: 0 <= i < |r| ==> r[i].status.Name() == statusFilter
  {
    Filter(trades, (t: Trade) => if statusFilter != "" then t.status.Name() == statusFilter else true)
  }

  /** The empty filter keeps every trade, in order. */
  lemma EmptyFilterKeepsAll(trades: seq<Trade>)
    ensures FilterByStatus(trades, "") == trades
  {
    FilterKeepsAll(trades, (t: Trade) => if "" != "" then t.status.Name() == "" else true);
  }

  /** A non-empty filter keeps exactly the trades with that status string,
      in their original order. */
  lemma StatusFilterSpec(trades: seq<Trade>, statusFilter: string)
    requires statusFilter != ""
    ensures forall t :: t in FilterByStatus(trades, statusFilter) <==>
      t in trades && t.status.Name() == statusFilter
    ensures forall t :: multiset(FilterByStatus(trades, statusFilter))[t] ==
              if t.status.Name() == statusFilter then multiset(trades)[t] else 0
    ensures IsSubsequence(FilterByStatus(trades, statusFilter), trades)
  {
    var keep := (t: Trade) => if statusFilter != "" then t.status.Name() == statusFilter else true;
    FilterIsSubsequence(trades, keep);
    forall t: Trade
      ensures multiset(FilterByStatus(trades, statusFilter))[t] ==
        if t.status.Name() == statusFilter then multiset(trades)[t] else 0
    {
      FilterCount(trades, keep, t);
    }
    forall t | t in trades && t.status.Name() == statusFilter
      ensures t in FilterByStatus(trades, statusFilter)
    {
      var k :| 0 <= k < |trades| && trades[k] == t;
    }
  }

  /** The "all" choice of the status menu matches no trade at all. */
  lemma AllOptionMatchesNothing(trades: seq<Trade>)
    ensures FilterByStatus(trades, "all") == []
  {
    var keep := (t: Trade) => if "all" != "" then t.status.Name() == "all" else true;
    forall i | 0 <= i < |trades| ensures !keep(trades[i]) {
      var n := trades[i].status.Name();
      assert n[0] != 'a' || n[1] != 'l';
    }
    FilterKeepsNone(trades, keep);
  }

  datatype BadgeVariant = Default | Secondary | Destructive

  /** `getStatusBadgeVariant`. */
  function StatusBadgeVariant(status: string): (r: BadgeVariant)
    ensures r == Destructive <==> status == "rejected"
    ensures r == Default <==> status == "accepted" || status == "completed"
    ensures r == Secondary <==> status != "rejected" && status != "accepted" && status != "completed"
  {
    match status
    case "pending" => Secondary
    case "accepted" => Default
    case "rejected" => Destructive
    case "completed" => Default
    case _ => Secondary
  }

  /** The badge of each of the four statuses. */
  lemma BadgeOfEachStatus()
    ensures StatusBadgeVariant(Pending.Name()) == Secondary
    ensures StatusBadgeVariant(Accepted.Name()) == Default
    ensures StatusBadgeVariant(Rejected.Name()) == Destructive
    ensures StatusBadgeVariant(Completed.Name()) == Default
  {
  }

  /** `status.charAt(0).toUpperCase() + status.slice(1)`. */
  function StatusLabel(status: string): (r: string)
    ensures |r| == |status|
  {
    ToUpperCase(if status == "" then "" else [status[0]]) + SliceFrom(status, 1)
  }

  /** The label is the status with its first character upper-cased and the
      rest unchanged. */
  lemma StatusLabelSpec(status: string)
    ensures |StatusLabel(status)| == |status|
    ensures status != "" ==>
      StatusLabel(status)[0] == UpperChar(status[0]) && StatusLabel(status)[1..] == status[1..]
  {
  }

  /** The labels the four statuses are shown with. */
  lemma StatusLabels()
    ensures StatusLabel(Pending.Name()) == "Pending"
    ensures StatusLabel(Accepted.Name()) == "Accepted"
    ensures StatusLabel(Rejected.Name()) == "Rejected"
    ensures StatusLabel(Completed.Name()) == "Completed"
  {
  }

  /** Accept and Reject buttons are shown for a trade whose status is
      "pending", which is exactly a trade in the Pending state. */
  predicate ShowsActions(t: Trade)
    ensures ShowsActions(t) <==> t.status == Pending
  {
    NameInjective(t.status, Pending);
    t.status.Name() == "pending"
  }

  /** "No items offered" is shown for an offer with no token, no NFT and a
      SOL amount of exactly 0. */
  predicate ShowsNoItems(o: TradeOffer)
    ensures ShowsNoItems(o) ==> !IsNonEmptyOffer(o)
  {
    |o.tokens| == 0 && |o.nfts| == 0 && o.solAmount == 0.0
  }

  /** For a non-negative SOL amount the display agrees with the route's
      notion of an empty offer. */
  lemma ShowsNoItemsIffEmpty(o: TradeOffer)
    requires o.solAmount >= 0.0
    ensures ShowsNoItems(o) <==> !IsNonEmptyOffer(o)
  {
  }

  /** How a request to the server ends: an answer with a value, or a failure
      (network, decoding or non-2xx status) whose `Error` message may be missing. */
  datatype Reply<T> = Resolved(value: T) | Failed(message: Option<string>)

  /** `getTradesByWallet`: `data.trades || []` for a successful answer, and
      `[]` for every failure, which it catches; so it never rejects. */
  function TradesByWallet(reply: Reply<Option<seq<Trade>>>): (r: seq<Trade>)
    ensures reply.Failed? ==> r == []
    ensures reply.Resolved? && reply.value.Some? ==> r == reply.value.value
    ensures reply.Resolved? && reply.value.None? ==> r == []
  {
    match reply
    case Resolved(trades) => trades.GetOr([])
    case Failed(_) => []
  }

  datatype Toast = Toast(title: string, description: string, destructive: bool)

  /** The panel's state. */
  class AdminPanel {
    var wallet: string
    var trades: seq<Trade>
    var statusFilter: string
    var isLoading: bool

    constructor ()
      ensures wallet == "" && trades == [] && statusFilter == "" && !isLoading
    {
      wallet, trades, statusFilter, isLoading := "", [], "", false;
    }

    /** `fetchTrades`: a blank wallet clears the list without asking the
        server; otherwise the list becomes what `getTradesByWallet(wallet)`
        resolves to, given the server's `reply`. Since `getTradesByWallet`
        never rejects, the handler's `catch` and its error toast cannot run:
        a failed request shows an empty list. */
    method FetchTrades(reply: Reply<Option<seq<Trade>>>)
      modifies this`trades, this`isLoading
      ensures IsBlank(wallet) ==> trades == [] && isLoading == old(isLoading)
      ensures !IsBlank(wallet) ==> trades == TradesByWallet(reply) && !isLoading
      ensures !IsBlank(wallet) && reply.Failed? ==> trades == []
    {
      TrimEmptyIffBlank(wallet);
      if Trim(wallet) == "" {
        trades := [];
        return;
      }
      isLoading := true;
      var result := TradesByWallet(reply);
      trades := result;
      isLoading := false;
    }

    /** `updateTrade`. */
    method UpdateTrade(updated: Trade)
      modifies this`trades
      ensures trades == ReplaceById(old(trades), updated)
    {
      trades := ReplaceById(trades, updated);
    }

    /** `handleAccept(id)`; `reply` is what `acceptTrade(id, "admin-wallet")`
        resolved to. */
    method HandleAccept(id: string, reply: Reply<Trade>) returns (toast: Toast)
      modifies this`trades
      ensures reply.Resolved? ==> trades == ReplaceById(old(trades), reply.value) && !toast.destructive
      ensures reply.Failed? ==> trades == old(trades) && toast.destructive
      ensures reply.Failed? ==> toast.description == reply.message.GetOr("Failed to accept trade.")
    {
      match reply
      case Resolved(updated) =>
        UpdateTrade(updated);
        toast := Toast("Trade accepted", "Trade " + id + " has been accepted.", false);
      case Failed(message) =>
        toast := Toast("Error accepting trade", message.GetOr("Failed to accept trade."), true);
    }

    /** `handleReject(id)`; `reply` is what `rejectTrade(id, "admin-wallet")`
        resolved to. */
    method HandleReject(id: string, reply: Reply<Trade>) returns (toast: Toast)
      modifies this`trades
      ensures reply.Resolved? ==> trades == ReplaceById(old(trades), reply.value) && !toast.destructive
      ensures reply.Failed? ==> trades == old(trades) && toast.destructive
      ensures reply.Failed? ==> toast.description == reply.message.GetOr("Failed to reject trade.")
    {
      match reply
      case Resolved(updated) =>
        UpdateTrade(updated);
        toast := Toast("Trade rejected", "Trade " + id + " has been rejected.", false);
      case Failed(message) =>
        toast := Toast("Error rejecting trade", message.GetOr("Failed to reject trade."), true);
    }
  }
}
