/**
 The order processor of the orders package: one handler per message type, each mutating the loaded
 order and queueing replies, and ProcessMessage, which loads the row, runs the handler, retries the
 parked messages in type order and saves. Every method is proved to land where OrderRules says.
 */
module OrderProcessing {
  import opened Common
  import opened OrderModel
  import opened OrderRules

  class OrderProcessor {
    const cfg: Config
    /** The orders table. A row saved before its order got an ID sits under None. */
    var rows: map<Option<OrderID>, OrderState>
    /** Messages handed to the messenger in this database transaction. */
    var queue: seq<Outgoing>

    constructor (cfg: Config)
      ensures this.cfg == cfg && rows == map[] && queue == []
    {
      this.cfg := cfg;
      rows := map[];
      queue := [];
    }

    predicate IsDuplicate(b: Body, slot: Option<OrderMessage>) {
      slot.Some? && slot.value.body == b
    }

    method ReliablySendMessage(to: PeerID, msg: OrderMessage)
      modifies this`queue
      ensures queue == old(queue) + [Outgoing(to, msg)]
    {
      queue := queue + [Outgoing(to, msg)];
    }

    ghost predicate Does(e: Effect, order: Order, err: Error, before: seq<Outgoing>)
      reads order, this
    {
      order.State() == e.st && err == e.err && queue == before + e.sent
    }

    method ProcessOrderOpenMessage(ctx: Context, order: Order, peer: PeerID, m: OrderMessage) returns (err: Error)
      requires m.body.Open?
      modifies order, this`queue
      ensures Does(Handle(cfg, ctx, old(order.State()), peer, m), order, err, old(queue))
    {
      order.id := Some(m.orderID);
      var dup := IsDuplicate(m.body, order.open);
      if order.open.Some? && !dup {
        return ErrChangedMessage;
      } else if dup {
        return NoError;
      }
      err := BeginOrder(ctx, order, peer, m);
    }

    /** Fixes the role, answers an invalid order with a reject, and stores the order. */
    method BeginOrder(ctx: Context, order: Order, peer: PeerID, m: OrderMessage) returns (err: Error)
      requires m.body.Open?
      modifies order, this`queue
      ensures Does(AcceptOpen(cfg, ctx, old(order.State()), peer, m), order, err, old(queue))
    {
      TakeRole(order, m.body.open);
      if order.role == RoleVendor && m.body.open !in cfg.validOpens {
        RejectInvalid(ctx, order, peer, m);
      }
      order.open := Some(m);
      err := if m.body.open.coin in cfg.coins then NoError else ErrOther;
    }

    method TakeRole(order: Order, open: OrderOpen)
      modifies order`role, order`isOpen, order`paymentAddress
      ensures order.State() == old(order.State()).(role := RoleIn(cfg, open), isOpen := true,
                                                   paymentAddress := Some(open.address))
    {
      if cfg.identity == open.buyer {
        order.role := RoleBuyer;
      } else {
        order.role := RoleVendor;
      }
      order.isOpen := true;
      order.paymentAddress := Some(open.address);
    }

    method RejectInvalid(ctx: Context, order: Order, peer: PeerID, m: OrderMessage)
      modifies order`reject, `queue
      ensures order.State() == old(order.State()).(reject := Some(AutoReject(cfg, m.orderID, ctx.stamp)))
      ensures queue == old(queue) + [Outgoing(peer, AutoReject(cfg, m.orderID, ctx.stamp))]
    {
      var auto := AutoReject(cfg, m.orderID, ctx.stamp);
      ReliablySendMessage(peer, auto);
      order.reject := Some(auto);
    }

    method ProcessOrderRejectMessage(ctx: Context, order: Order, peer: PeerID, m: OrderMessage) returns (err: Error)
      requires m.body.Reject?
      modifies order, this`queue
      ensures Does(Handle(cfg, ctx, old(order.State()), peer, m), order, err, old(queue))
    {
      var dup := IsDuplicate(m.body, order.reject);
      if order.reject.Some? && !dup {
        return ErrChangedMessage;
      } else if dup {
        return NoError;
      }
      if order.confirmation.Some? {
        return ErrUnexpectedMessage;
      }
      if OpenOf(order.State()).None? {
        order.ParkMessage(m);
        return NoError;
      }
      err := order.PutMessage(m);
    }

    /** The wallet lookup that ORDER_CANCEL, ORDER_CONFIRMATION and REFUND share. */
    method LookUpSpend(ctx: Context, order: Order, txid: TxID)
      modifies order
      ensures order.State() == RecordSpend(ctx, old(order.State()), txid)
    {
      if txid in ctx.wallet {
        var tx := LookUp(ctx, txid);
        ghost var was := order.State();
        for i := 0 to |tx.from|
          invariant order.State() ==
            if exists from <- tx.from[..i] :: Some(from.address) == was.paymentAddress
            then RecordTransaction(was, tx) else was
        {
          assert tx.from[..i + 1] == tx.from[..i] + [tx.from[i]];
          if Some(tx.from[i].address) == order.paymentAddress {
            ProcessOutgoingPayment(order, tx);
          }
        }
        assert tx.from[..|tx.from|] == tx.from;
      }
    }

    method ProcessOutgoingPayment(order: Order, tx: Transaction)
      modifies order
      ensures order.State() == RecordTransaction(old(order.State()), tx)
      ensures order.State() == RecordTransaction(order.State(), tx)
    {
      var err := order.PutTransaction(tx);
      RecordedOnce(old(order.State()), tx);
    }

    method ProcessOrderCancelMessage(ctx: Context, order: Order, peer: PeerID, m: OrderMessage) returns (err: Error)
      requires m.body.Cancel?
      modifies order, this`queue
      ensures Does(Handle(cfg, ctx, old(order.State()), peer, m), order, err, old(queue))
    {
      var dup := IsDuplicate(m.body, order.cancel);
      if order.cancel.Some? && !dup {
        return ErrChangedMessage;
      } else if dup {
        return NoError;
      }
      if OpenOf(order.State()).None? {
        order.ParkMessage(m);
        return NoError;
      }
      var open := OpenOf(order.State()).value;
      if open.coin !in cfg.coins {
        return ErrOther;
      }
      if m.body.txid.Some? && open.terms.Cancelable? {
        LookUpSpend(ctx, order, m.body.txid.value);
      }
      err := order.PutMessage(m);
    }

    method ProcessOrderConfirmationMessage(ctx: Context, order: Order, peer: PeerID, m: OrderMessage) returns (err: Error)
      requires m.body.Confirmation?
      modifies order, this`queue
      ensures Does(Handle(cfg, ctx, old(order.State()), peer, m), order, err, old(queue))
    {
      var dup := IsDuplicate(m.body, order.confirmation);
      if order.confirmation.Some? && !dup {
        return ErrChangedMessage;
      } else if dup {
        return NoError;
      }
      if order.reject.Some? {
        return ErrUnexpectedMessage;
      }
      if OpenOf(order.State()).None? {
        order.ParkMessage(m);
        return NoError;
      }
      var open := OpenOf(order.State()).value;
      if open.coin !in cfg.coins {
        return ErrOther;
      }
      if m.body.txid.Some? && open.terms.Cancelable? {
        LookUpSpend(ctx, order, m.body.txid.value);
      }
      err := order.PutMessage(m);
    }

    method ProcessRatingSignaturesMessage(ctx: Context, order: Order, peer: PeerID, m: OrderMessage) returns (err: Error)
      requires m.body.RatingSignatures?
      modifies order, this`queue
      ensures Does(Handle(cfg, ctx, old(order.State()), peer, m), order, err, old(queue))
    {
      var dup := IsDuplicate(m.body, order.ratingSignatures);
      if order.ratingSignatures.Some? && !dup {
        return ErrChangedMessage;
      } else if dup {
        return NoError;
      }
      if OpenOf(order.State()).None? {
        order.ParkMessage(m);
        return NoError;
      }
      if m.body.sigs != OpenOf(order.State()).value.ratingKeys || !m.body.genuine {
        return ErrOther;
      }
      err := order.PutMessage(m);
    }

    method ProcessOrderFulfillmentMessage(ctx: Context, order: Order, peer: PeerID, m: OrderMessage) returns (err: Error)
      requires m.body.Fulfillment?
      modifies order, this`queue
      ensures Does(Handle(cfg, ctx, old(order.State()), peer, m), order, err, old(queue))
    {
      if order.reject.Some? {
        return ErrUnexpectedMessage;
      }
      if OpenOf(order.State()).None? {
        order.ParkMessage(m);
        return NoError;
      }
      if order.confirmation.None? {
        order.ParkMessage(m);
        return NoError;
      }
      err := order.PutMessage(m);
    }

    method ProcessOrderCompleteMessage(ctx: Context, order: Order, peer: PeerID, m: OrderMessage) returns (err: Error)
      requires m.body.Complete?
      modifies order, this`queue
      ensures Does(Handle(cfg, ctx, old(order.State()), peer, m), order, err, old(queue))
    {
      var dup := IsDuplicate(m.body, order.complete);
      if order.complete.Some? && !dup {
        return ErrChangedMessage;
      } else if dup {
        return NoError;
      }
      if order.cancel.Some? {
        return ErrUnexpectedMessage;
      }
      if OpenOf(order.State()).None? {
        order.ParkMessage(m);
        return NoError;
      }
      var open := OpenOf(order.State()).value;
      if m.body.ratings != open.items {
        return ErrOther;
      }
      if !m.body.genuine {
        return ErrOther;
      }
      if open.coin !in cfg.coins {
        return ErrOther;
      }
      if order.role == RoleVendor && m.body.hasRelease && open.terms.Moderated? && order.disputeOpen.None? {
        if order.fulfillments == [] {
          return ErrOther;
        }
      }
      err := order.PutMessage(m);
    }

    method ProcessRefundMessage(ctx: Context, order: Order, peer: PeerID, m: OrderMessage) returns (err: Error)
      requires m.body.Refund?
      modifies order, this`queue
      ensures Does(Handle(cfg, ctx, old(order.State()), peer, m), order, err, old(queue))
    {
      if order.cancel.Some? {
        return ErrUnexpectedMessage;
      }
      if OpenOf(order.State()).None? {
        order.ParkMessage(m);
        return NoError;
      }
      var open := OpenOf(order.State()).value;
      err := order.PutMessage(m);
      if err == ErrDuplicateTransaction {
        return NoError;
      }
      if open.coin !in cfg.coins {
        return ErrOther;
      }
      if m.body.info.PaidBy? && open.terms.Direct? {
        LookUpSpend(ctx, order, m.body.info.txid);
      }
    }

    /** Looks the new transaction up and, for the buyer, announces it. */
    method ProcessIncomingPayment(ctx: Context, order: Order, tx: Transaction) returns (err: Error)
      modifies order, this`queue
      ensures Does(IncomingPayment(cfg, ctx, old(order.State()), tx), order, err, old(queue))
    {
      err := order.PutTransaction(tx);
      if err == ErrDuplicateTransaction {
        return NoError;
      }
      var open := OpenOf(order.State());
      if open.None? {
        return ErrOther;
      }
      match order.role {
        case RoleBuyer =>
          var notice := PaymentNotice(cfg, order.State(), tx);
          ReliablySendMessage(open.value.vendor, notice);
          err := order.PutMessage(notice);
        case RoleVendor =>
          var total := order.AddUpPayments();
          if total.value >= open.value.amount {
            var notice := RatingNotice(cfg, ctx, order.State(), open.value);
            ReliablySendMessage(open.value.buyer, notice);
            var _ := order.PutMessage(notice);
          }
        case RoleUnknown =>
      }
    }

    method ProcessPaymentSentMessage(ctx: Context, order: Order, peer: PeerID, m: OrderMessage) returns (err: Error)
      requires m.body.PaymentSent?
      modifies order, this`queue
      ensures Does(Handle(cfg, ctx, old(order.State()), peer, m), order, err, old(queue))
    {
      if OpenOf(order.State()).None? {
        order.ParkMessage(m);
        return NoError;
      }
      var open := OpenOf(order.State()).value;
      err := order.PutMessage(m);
      if err == ErrDuplicateTransaction {
        return NoError;
      }
      if open.coin !in cfg.coins {
        return ErrOther;
      }
      if KnowsTransaction(order.transactions, m.body.paid) {
        return NoError;
      }
      if m.body.paid in ctx.wallet && PaysTo(LookUp(ctx, m.body.paid), order.paymentAddress) {
        err := ProcessIncomingPayment(ctx, order, LookUp(ctx, m.body.paid));
      }
    }

    method ProcessDisputeOpenMessage(ctx: Context, order: Order, peer: PeerID, m: OrderMessage) returns (err: Error)
      requires m.body.DisputeOpen?
      modifies order, this`queue
      ensures Does(Handle(cfg, ctx, old(order.State()), peer, m), order, err, old(queue))
    {
      var dup := IsDuplicate(m.body, order.disputeOpen);
      if order.disputeOpen.Some? && !dup {
        return ErrChangedMessage;
      } else if dup {
        return NoError;
      }
      if order.complete.Some? || order.paymentFinalized.Some? || order.reject.Some? || order.cancel.Some? {
        return ErrUnexpectedMessage;
      }
      if OpenOf(order.State()).None? {
        order.ParkMessage(m);
        return NoError;
      }
      var open := OpenOf(order.State()).value;
      if open.moderator.None? || open.terms != Moderated {
        return ErrOther;
      }
      if !OwnDispute(order.State(), m.body) {
        // The contract cannot be serialised once something was ever parked or errored.
        if order.parked != [] || order.errored != [] {
          return ErrOther;
        }
        var notice := ContractNotice(cfg, ctx, order.State());
        var _ := order.PutMessage(notice);
        ReliablySendMessage(open.moderator.value, notice);
      }
      err := order.PutMessage(m);
    }

    /** Verifies the signature and hands the message to its handler. */
    method Dispatch(ctx: Context, order: Order, peer: PeerID, m: OrderMessage) returns (err: Error)
      modifies order, this`queue
      ensures Does(Verified(cfg, ctx, old(order.State()), peer, m), order, err, old(queue))
    {
      if m.signer != peer {
        return ErrInvalidSignature;
      }
      match m.body {
        case Open(_) => err := ProcessOrderOpenMessage(ctx, order, peer, m);
        case PaymentSent(_) => err := ProcessPaymentSentMessage(ctx, order, peer, m);
        case RatingSignatures(_, _, _) => err := ProcessRatingSignaturesMessage(ctx, order, peer, m);
        case Reject(_, _) => err := ProcessOrderRejectMessage(ctx, order, peer, m);
        case Confirmation(_, _) => err := ProcessOrderConfirmationMessage(ctx, order, peer, m);
        case Cancel(_, _) => err := ProcessOrderCancelMessage(ctx, order, peer, m);
        case Refund(_, _, _) => err := ProcessRefundMessage(ctx, order, peer, m);
        case Fulfillment(_, _) => err := ProcessOrderFulfillmentMessage(ctx, order, peer, m);
        case Complete(_, _, _, _) => err := ProcessOrderCompleteMessage(ctx, order, peer, m);
        case DisputeOpen(_, _) => err := ProcessDisputeOpenMessage(ctx, order, peer, m);
        case _ => err := ErrOther;
      }
    }

    method RetryParked(ctx: Context, order: Order, peer: PeerID, m: OrderMessage, xs: seq<OrderMessage>)
      modifies order, this`queue
      ensures order.State() == Retry(cfg, ctx, old(order.State()), peer, m, xs).st
      ensures queue == old(queue) + Retry(cfg, ctx, old(order.State()), peer, m, xs).sent
    {
      hide RetryOne;
      for i := 0 to |xs|
        invariant order.State() == Retry(cfg, ctx, old(order.State()), peer, m, xs[..i]).st
        invariant queue == old(queue) + Retry(cfg, ctx, old(order.State()), peer, m, xs[..i]).sent
      {
        assert xs[..i + 1][..i] == xs[..i];
        RetryMessage(ctx, order, peer, m, xs[i]);
      }
      assert xs[..|xs|] == xs;
    }

    method RetryMessage(ctx: Context, order: Order, peer: PeerID, m: OrderMessage, x: OrderMessage)
      modifies order, this`queue
      ensures order.State() == RetryOne(cfg, ctx, old(order.State()), peer, m, x).st
      ensures queue == old(queue) + RetryOne(cfg, ctx, old(order.State()), peer, m, x).sent
    {
      if x != m {
        var err := Dispatch(ctx, order, peer, x);
        if err != NoError {
          order.PutErrorMessage(m);
        }
      }
    }

    /** A wallet transaction handed to the order it touches: outputs first, then inputs. */
    method ProcessWalletTransaction(ctx: Context, order: Order, tx: Transaction) returns (err: Error)
      modifies order, this`queue
      ensures err == WalletEvent(cfg, ctx, old(order.State()), tx).err
      ensures err == NoError ==>
        && order.State() == WalletEvent(cfg, ctx, old(order.State()), tx).st
        && queue == old(queue) + WalletEvent(cfg, ctx, old(order.State()), tx).sent
    {
      ghost var was := order.State();
      err := NoError;
      if PaysTo(tx, order.paymentAddress) {
        err := ProcessIncomingPayment(ctx, order, tx);
        if err != NoError {
          return;
        }
      }
      if PaidFrom(tx, order.paymentAddress) {
        ProcessOutgoingPayment(order, tx);
      }
    }

    /** Sets the flag of an acknowledged outgoing message; without a row there is nothing to mark. */
    method ProcessACK(id: OrderID, m: OrderMessage, toModerator: bool)
      modifies `rows
      ensures Some(id) !in old(rows) ==> rows == old(rows)
      ensures Some(id) in old(rows) ==>
        var row := old(rows)[Some(id)];
        rows == old(rows)[Some(id) := row.(acked := row.acked + {AckFlag(m.body, toModerator)})]
    {
      if Some(id) in rows {
        var row := rows[Some(id)];
        var key := if m.body.DisputeOpen? && toModerator then MODERATOR_ACK else TypeNumber(m.body);
        rows := rows[Some(id) := row.(acked := row.acked + {key})];
      }
    }

    /** The database row of an order. */
    ghost function Row(id: OrderID): Option<OrderState>
      reads this
    {
      if Some(id) in rows then Some(rows[Some(id)]) else None
    }

    method ProcessMessage(ctx: Context, peer: PeerID, m: OrderMessage) returns (ghost xs: seq<OrderMessage>)
      modifies this
      ensures RetriesOf(cfg, ctx, old(Row(m.orderID)), peer, m, xs)
      ensures
        var e := Process(cfg, ctx, old(Row(m.orderID)), peer, m, xs);
        rows == old(rows)[e.st.id := e.st] && queue == old(queue) + e.sent
    {
      hide Verified, Retry, BLANK;
      if Some(m.orderID) !in rows && !m.body.Open? {
        ParkPremature(m);
        xs := [];
        return;
      }
      var order := new Order.Load(if Some(m.orderID) in rows then rows[Some(m.orderID)] else BLANK);
      assert order.State() == Loaded(old(Row(m.orderID)));
      xs := ProcessLoaded(ctx, order, peer, m);
      SaveOrder(order);
    }

    method ParkPremature(m: OrderMessage)
      modifies `rows
      ensures rows == old(rows)[Some(m.orderID) := Park(BLANK.(id := Some(m.orderID)), m)]
    {
      var order := new Order.Load(BLANK.(id := Some(m.orderID)));
      order.ParkMessage(m);
      SaveOrder(order);
    }

    method SaveOrder(order: Order)
      modifies this`rows
      ensures rows == old(rows)[order.State().id := order.State()]
    {
      rows := rows[order.id := order.State()];
    }

    method ProcessLoaded(ctx: Context, order: Order, peer: PeerID, m: OrderMessage) returns (ghost xs: seq<OrderMessage>)
      modifies order, this`queue
      ensures SortOf(Verified(cfg, ctx, old(order.State()), peer, m).st.parked, xs)
      ensures
        var e := Verified(cfg, ctx, old(order.State()), peer, m);
        var e' := Retry(cfg, ctx, e.st, peer, m, xs);
        order.State() == e'.st && queue == old(queue) + e.sent + e'.sent
    {
      var err := Dispatch(ctx, order, peer, m);
      var sorted := SortByType(order.parked);
      xs := sorted;
      RetryParked(ctx, order, peer, m, sorted);
    }
  }

  lemma RecordedOnce(st: OrderState, tx: Transaction)
    ensures RecordTransaction(RecordTransaction(st, tx), tx) == RecordTransaction(st, tx)
  {
    var done := RecordTransaction(st, tx);
    if !KnowsTransaction(st.transactions, tx.id) {
      assert tx in done.transactions;
    }
  }

  /** Insertion sort stands in for the library sort; callers learn only what an unstable sort gives. */
  method SortByType(parked: seq<OrderMessage>) returns (xs: seq<OrderMessage>)
    ensures SortOf(parked, xs)
  {
    xs := [];
    for i := 0 to |parked|
      invariant SortOf(parked[..i], xs)
    {
      assert parked[..i + 1] == parked[..i] + [parked[i]];
      xs := InsertByType(xs, parked[i]);
    }
    assert parked[..|parked|] == parked;
  }

  method InsertByType(xs: seq<OrderMessage>, m: OrderMessage) returns (ys: seq<OrderMessage>)
    requires Ordered(xs)
    ensures multiset(ys) == multiset(xs) + multiset{m}
    ensures Ordered(ys)
  {
    var k := 0;
    while k < |xs| && TypeNumber(xs[k].body) <= TypeNumber(m.body)
      invariant k <= |xs|
      invariant forall i | 0 <= i < k :: TypeNumber(xs[i].body) <= TypeNumber(m.body)
    {
      k := k + 1;
    }
    ys := xs[..k] + [m] + xs[k..];
    assert xs == xs[..k] + xs[k..];
    OrderedAround(xs, k, m);
  }
}
