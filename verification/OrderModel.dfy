/**
 The order record of models/orders.go: the messages two parties exchange about one order, the
 record each of them keeps, and the operations that change or inspect the record.

 Signatures, hashes and encodings are opaque: a message carries the peer whose key signed it, and
 two payloads are duplicates exactly when they are equal.
 */
module OrderModel {
  import opened Common

  type PeerID = nat
  type OrderID = nat
  type TxID = nat
  type CoinID = nat
  type Address = nat
  type Currency = nat

  datatype PaymentMethod = Direct | Cancelable | Moderated

  datatype OrderOpen = OrderOpen(
    buyer: PeerID, vendor: PeerID, moderator: Option<PeerID>,
    terms: PaymentMethod, coin: Currency, amount: int,
    address: Address, refundAddress: Address,
    items: nat, ratingKeys: nat)

  datatype RefundInfo = NoInfo | PaidBy(txid: TxID) | Released(release: nat)

  /** The payload of an order message. `stamp` stands for the timestamp and all other free content. */
  datatype Body =
    | Open(open: OrderOpen)
    | Reject(validationError: bool, stamp: nat)
    | Cancel(txid: Option<TxID>, stamp: nat)
    | Confirmation(txid: Option<TxID>, stamp: nat)
    | RatingSignatures(sigs: nat, genuine: bool, stamp: nat)
    | Fulfillment(indices: seq<nat>, stamp: nat)
    | Complete(ratings: nat, genuine: bool, hasRelease: bool, stamp: nat)
    | DisputeOpen(byBuyer: bool, stamp: nat)
    | DisputeUpdate(stamp: nat)
    | DisputeClose(stamp: nat)
    | Refund(info: RefundInfo, amount: int, stamp: nat)
    | PaymentSent(paid: TxID)
    | PaymentFinalized(stamp: nat)

  /** `signer` is the peer under whose key the signature verifies. */
  datatype OrderMessage = OrderMessage(orderID: OrderID, body: Body, signer: PeerID)

  /** The wire number of a message type; parked messages are retried in this order. */
  function TypeNumber(b: Body): nat {
    match b
    case Open(_) => 0
    case Reject(_, _) => 1
    case Cancel(_, _) => 2
    case Confirmation(_, _) => 3
    case RatingSignatures(_, _, _) => 4
    case Fulfillment(_, _) => 5
    case Complete(_, _, _, _) => 6
    case DisputeOpen(_, _) => 7
    case DisputeUpdate(_) => 8
    case DisputeClose(_) => 9
    case Refund(_, _, _) => 10
    case PaymentSent(_) => 11
    case PaymentFinalized(_) => 12
  }

  const MODERATOR_ACK := 13

  /** The flag an acknowledgement sets: one for each type, and a second one for the moderator's copy of a DISPUTE_OPEN. */
  function AckFlag(b: Body, toModerator: bool): nat {
    if b.DisputeOpen? && toModerator then MODERATOR_ACK else TypeNumber(b)
  }

  datatype SpendInfo = SpendInfo(id: CoinID, address: Address, amount: int)
  datatype Transaction = Transaction(id: TxID, from: seq<SpendInfo>, to: seq<SpendInfo>)

  datatype Role = RoleUnknown | RoleBuyer | RoleVendor

  datatype Error =
    | NoError
    | ErrChangedMessage
    | ErrUnexpectedMessage
    | ErrDuplicateTransaction
    | ErrInvalidSignature
    | ErrOther

  /** The value of one database row of the orders table. */
  datatype OrderState = OrderState(
    id: Option<OrderID>,
    role: Role,
    isOpen: bool,
    paymentAddress: Option<Address>,
    transactions: seq<Transaction>,
    open: Option<OrderMessage>,
    reject: Option<OrderMessage>,
    cancel: Option<OrderMessage>,
    confirmation: Option<OrderMessage>,
    ratingSignatures: Option<OrderMessage>,
    complete: Option<OrderMessage>,
    disputeOpen: Option<OrderMessage>,
    disputeUpdate: Option<OrderMessage>,
    disputeClosed: Option<OrderMessage>,
    paymentFinalized: Option<OrderMessage>,
    fulfillments: seq<OrderMessage>,
    refunds: seq<OrderMessage>,
    paymentsSent: seq<OrderMessage>,
    parked: seq<OrderMessage>,
    errored: seq<OrderMessage>,
    acked: set<nat>)

  const BLANK := OrderState(
    None, RoleUnknown, false, None, [], None, None, None, None, None, None, None, None, None, None,
    [], [], [], [], [], {})

  /** The stored ORDER_OPEN payload. Every message in the open slot is an ORDER_OPEN. */
  function OpenOf(st: OrderState): Option<OrderOpen> {
    if st.open.Some? && st.open.value.body.Open? then Some(st.open.value.body.open) else None
  }

  // ---- PutMessage, ParkMessage, PutTransaction -----------------------------------------------

  predicate SharesItem(a: Body, b: Body) {
    a.Fulfillment? && b.Fulfillment? && exists i :: i in a.indices && i in b.indices
  }

  predicate SamePayout(a: Body, b: Body) {
    && a.Refund? && b.Refund?
    && !a.info.NoInfo? && a.info == b.info
  }

  predicate SamePayment(a: Body, b: Body) {
    a.PaymentSent? && b.PaymentSent? && a.paid == b.paid
  }

  /** The list the payload would join already names one of its items, its payout or its payment. */
  predicate AlreadyListed(st: OrderState, b: Body) {
    match b
    case Fulfillment(_, _) => exists m <- st.fulfillments :: SharesItem(m.body, b)
    case Refund(_, _, _) => exists m <- st.refunds :: SamePayout(m.body, b)
    case PaymentSent(_) => exists m <- st.paymentsSent :: SamePayment(m.body, b)
    case _ => false
  }

  /** Where PutMessage leaves the record. */
  function Put(st: OrderState, m: OrderMessage): OrderState {
    if AlreadyListed(st, m.body) then st else Insert(st, m)
  }

  function Insert(st: OrderState, m: OrderMessage): OrderState {
    match m.body
    case Open(_) => st.(open := Some(m))
    case Reject(_, _) => st.(reject := Some(m))
    case Cancel(_, _) => st.(cancel := Some(m))
    case Confirmation(_, _) => st.(confirmation := Some(m))
    case RatingSignatures(_, _, _) => st.(ratingSignatures := Some(m))
    case Complete(_, _, _, _) => st.(complete := Some(m))
    case DisputeOpen(_, _) => st.(disputeOpen := Some(m))
    case DisputeUpdate(_) => st.(disputeUpdate := Some(m))
    case DisputeClose(_) => st.(disputeClosed := Some(m))
    case PaymentFinalized(_) => st.(paymentFinalized := Some(m))
    case Fulfillment(_, _) => st.(fulfillments := st.fulfillments + [m])
    case Refund(_, _, _) => st.(refunds := st.refunds + [m])
    case PaymentSent(_) => st.(paymentsSent := st.paymentsSent + [m])
  }

  function Park(st: OrderState, m: OrderMessage): OrderState {
    st.(parked := st.parked + [m])
  }

  predicate KnowsTransaction(txs: seq<Transaction>, id: TxID) {
    exists tx <- txs :: tx.id == id
  }

  function RecordTransaction(st: OrderState, tx: Transaction): OrderState {
    if KnowsTransaction(st.transactions, tx.id) then st
    else st.(transactions := st.transactions + [tx])
  }

  // ---- totals and guards -----------------------------------------------------------------------

  function PaidTo(outs: seq<SpendInfo>, addr: Address): int {
    if outs == [] then 0
    else PaidTo(outs[..|outs| - 1], addr) +
         (if outs[|outs| - 1].address == addr then outs[|outs| - 1].amount else 0)
  }

  function FundingTotal(txs: seq<Transaction>, addr: Address): int {
    if txs == [] then 0
    else FundingTotal(txs[..|txs| - 1], addr) + PaidTo(txs[|txs| - 1].to, addr)
  }

  predicate IsFunded(st: OrderState) {
    OpenOf(st).Some? && FundingTotal(st.transactions, OpenOf(st).value.address) >= OpenOf(st).value.amount
  }

  predicate Delivered(ms: seq<OrderMessage>, i: nat) {
    exists m <- ms :: m.body.Fulfillment? && i in m.body.indices
  }

  /** Every item of the order is named by some stored fulfilment. */
  predicate IsFulfilled(st: OrderState) {
    OpenOf(st).Some? &&
    forall i: nat | i < OpenOf(st).value.items :: Delivered(st.fulfillments, i)
  }

  predicate UnderActiveDispute(st: OrderState) {
    st.disputeOpen.Some? && st.disputeClosed.None?
  }

  /** Nothing has happened to the order since it was opened. */
  predicate Untouched(st: OrderState) {
    && st.reject.None? && st.cancel.None? && st.confirmation.None? && st.fulfillments == []
    && st.complete.None? && st.disputeOpen.None? && st.disputeUpdate.None?
    && st.disputeClosed.None? && st.refunds == [] && st.paymentFinalized.None?
  }

  predicate CanReject(st: OrderState) {
    OpenOf(st).Some? && st.role.RoleVendor? && Untouched(st)
  }

  predicate CanConfirm(st: OrderState) {
    OpenOf(st).Some? && st.role.RoleVendor? && Untouched(st)
  }

  predicate CanCancel(st: OrderState) {
    OpenOf(st).Some? && st.role.RoleBuyer? && Untouched(st)
  }

  predicate CanRefund(st: OrderState) {
    && OpenOf(st).Some? && st.role.RoleVendor? && !OpenOf(st).value.terms.Cancelable?
    && st.complete.None? && st.paymentFinalized.None? && st.cancel.None?
  }

  predicate CanFulfill(st: OrderState) {
    && OpenOf(st).Some? && st.role.RoleVendor? && st.confirmation.Some?
    && IsFunded(st) && !IsFulfilled(st)
    && st.complete.None? && st.paymentFinalized.None? && st.cancel.None?
  }

  predicate CanComplete(st: OrderState) {
    && OpenOf(st).Some? && st.role.RoleBuyer? && IsFulfilled(st)
    && st.complete.None? && st.paymentFinalized.None? && !UnderActiveDispute(st)
  }

  // ---- the mutable record ----------------------------------------------------------------------

  /** The in-memory order that one database transaction loads, mutates and saves. */
  class Order {
    var id: Option<OrderID>
    var role: Role
    var isOpen: bool
    var paymentAddress: Option<Address>
    var transactions: seq<Transaction>
    var open: Option<OrderMessage>
    var reject: Option<OrderMessage>
    var cancel: Option<OrderMessage>
    var confirmation: Option<OrderMessage>
    var ratingSignatures: Option<OrderMessage>
    var complete: Option<OrderMessage>
    var disputeOpen: Option<OrderMessage>
    var disputeUpdate: Option<OrderMessage>
    var disputeClosed: Option<OrderMessage>
    var paymentFinalized: Option<OrderMessage>
    var fulfillments: seq<OrderMessage>
    var refunds: seq<OrderMessage>
    var paymentsSent: seq<OrderMessage>
    var parked: seq<OrderMessage>
    var errored: seq<OrderMessage>
    var acked: set<nat>

    constructor Load(st: OrderState)
      ensures State() == st
    {
      id, role, isOpen, paymentAddress := st.id, st.role, st.isOpen, st.paymentAddress;
      transactions := st.transactions;
      open, reject, cancel, confirmation := st.open, st.reject, st.cancel, st.confirmation;
      ratingSignatures, complete := st.ratingSignatures, st.complete;
      disputeOpen, disputeUpdate, disputeClosed := st.disputeOpen, st.disputeUpdate, st.disputeClosed;
      paymentFinalized := st.paymentFinalized;
      fulfillments, refunds, paymentsSent := st.fulfillments, st.refunds, st.paymentsSent;
      parked, errored, acked := st.parked, st.errored, st.acked;
    }

    function State(): OrderState
      reads this
    {
      OrderState(id, role, isOpen, paymentAddress, transactions, open, reject, cancel, confirmation,
                 ratingSignatures, complete, disputeOpen, disputeUpdate, disputeClosed, paymentFinalized,
                 fulfillments, refunds, paymentsSent, parked, errored, acked)
    }

    method ListsItem(b: Body) returns (found: bool)
      ensures found <==> exists m <- fulfillments :: SharesItem(m.body, b)
    {
      for k := 0 to |fulfillments|
        invariant forall j | 0 <= j < k :: !SharesItem(fulfillments[j].body, b)
      {
        var stored := fulfillments[k].body;
        if stored.Fulfillment? && b.Fulfillment? {
          for i := 0 to |stored.indices|
            invariant forall j | 0 <= j < i :: stored.indices[j] !in b.indices
          {
            if stored.indices[i] in b.indices {
              assert SharesItem(fulfillments[k].body, b);
              return true;
            }
          }
        }
      }
      found := false;
    }

    method ListsPayout(b: Body) returns (found: bool)
      ensures found <==> exists m <- refunds :: SamePayout(m.body, b)
    {
      for k := 0 to |refunds|
        invariant forall j | 0 <= j < k :: !SamePayout(refunds[j].body, b)
      {
        if SamePayout(refunds[k].body, b) {
          return true;
        }
      }
      found := false;
    }

    method ListsPayment(b: Body) returns (found: bool)
      ensures found <==> exists m <- paymentsSent :: SamePayment(m.body, b)
    {
      for k := 0 to |paymentsSent|
        invariant forall j | 0 <= j < k :: !SamePayment(paymentsSent[j].body, b)
      {
        if SamePayment(paymentsSent[k].body, b) {
          return true;
        }
      }
      found := false;
    }

    method PutMessage(m: OrderMessage) returns (err: Error)
      modifies this
      ensures State() == Put(old(State()), m)
      ensures err == if AlreadyListed(old(State()), m.body) then ErrDuplicateTransaction else NoError
    {
      err := NoError;
      match m.body {
        case Fulfillment(_, _) =>
          var dup := ListsItem(m.body);
          if dup {
            return ErrDuplicateTransaction;
          }
          fulfillments := fulfillments + [m];
        case Refund(_, _, _) =>
          var dup := ListsPayout(m.body);
          if dup {
            return ErrDuplicateTransaction;
          }
          refunds := refunds + [m];
        case PaymentSent(_) =>
          var dup := ListsPayment(m.body);
          if dup {
            return ErrDuplicateTransaction;
          }
          paymentsSent := paymentsSent + [m];
        case Open(_) => SetTradeSlot(m);
        case Reject(_, _) => SetTradeSlot(m);
        case Cancel(_, _) => SetTradeSlot(m);
        case Confirmation(_, _) => SetTradeSlot(m);
        case Complete(_, _, _, _) => SetTradeSlot(m);
        case _ => SetOtherSlot(m);
      }
    }

    method SetTradeSlot(m: OrderMessage)
      requires m.body.Open? || m.body.Reject? || m.body.Cancel? || m.body.Confirmation? || m.body.Complete?
      modifies `open, `reject, `cancel, `confirmation, `complete
      ensures State() == Insert(old(State()), m)
    {
      match m.body {
        case Open(_) => open := Some(m);
        case Reject(_, _) => reject := Some(m);
        case Cancel(_, _) => cancel := Some(m);
        case Confirmation(_, _) => confirmation := Some(m);
        case Complete(_, _, _, _) => complete := Some(m);
      }
    }

    method SetOtherSlot(m: OrderMessage)
      requires m.body.RatingSignatures? || m.body.DisputeOpen? || m.body.DisputeUpdate? || m.body.DisputeClose? ||
               m.body.PaymentFinalized?
      modifies `ratingSignatures, `disputeOpen, `disputeUpdate, `disputeClosed, `paymentFinalized
      ensures State() == Insert(old(State()), m)
    {
      match m.body {
        case RatingSignatures(_, _, _) => ratingSignatures := Some(m);
        case DisputeOpen(_, _) => disputeOpen := Some(m);
        case DisputeUpdate(_) => disputeUpdate := Some(m);
        case DisputeClose(_) => disputeClosed := Some(m);
        case PaymentFinalized(_) => paymentFinalized := Some(m);
      }
    }

    method ParkMessage(m: OrderMessage)
      modifies `parked
      ensures State() == Park(old(State()), m)
    {
      parked := parked + [m];
    }

    method PutErrorMessage(m: OrderMessage)
      modifies `errored
      ensures State() == old(State()).(errored := old(State()).errored + [m])
    {
      errored := errored + [m];
    }

    method PutTransaction(tx: Transaction) returns (err: Error)
      modifies `transactions
      ensures State() == RecordTransaction(old(State()), tx)
      ensures err == if KnowsTransaction(old(State()).transactions, tx.id) then ErrDuplicateTransaction else NoError
    {
      ghost var was := State();
      for k := 0 to |transactions|
        invariant State() == was
        invariant forall j | 0 <= j < k :: transactions[j].id != tx.id
      {
        if transactions[k].id == tx.id {
          return ErrDuplicateTransaction;
        }
      }
      transactions := transactions + [tx];
      err := NoError;
    }

    /** The running sum of the outputs that pay the order's address. */
    method AddUpPayments() returns (total: Option<int>)
      ensures total.Some? <==> OpenOf(State()).Some?
      ensures total.Some? ==> total.value == FundingTotal(transactions, OpenOf(State()).value.address)
    {
      var open := OpenOf(State());
      if open.None? {
        return None;
      }
      var addr := open.value.address;
      var sum := 0;
      for i := 0 to |transactions|
        invariant sum == FundingTotal(transactions[..i], addr)
      {
        var outs := transactions[i].to;
        for j := 0 to |outs|
          invariant sum == FundingTotal(transactions[..i], addr) + PaidTo(outs[..j], addr)
        {
          assert outs[..j + 1][..j] == outs[..j];
          if outs[j].address == addr {
            sum := sum + outs[j].amount;
          }
        }
        assert outs[..|outs|] == outs;
        assert transactions[..i + 1][..i] == transactions[..i];
      }
      assert transactions[..|transactions|] == transactions;
      total := Some(sum);
    }

    /** Deletes every delivered index from the set of items still to deliver. */
    method CheckFulfilled() returns (fulfilled: bool)
      requires OpenOf(State()).Some?
      ensures fulfilled == IsFulfilled(State())
    {
      var open := OpenOf(State()).value;
      var missing: set<nat> := {};
      for i := 0 to open.items
        invariant forall n: nat :: n in missing <==> n < i
      {
        missing := missing + {i};
      }
      for k := 0 to |fulfillments|
        invariant forall i: nat :: i in missing <==> i < open.items && !Delivered(fulfillments[..k], i)
      {
        assert fulfillments[..k + 1] == fulfillments[..k] + [fulfillments[k]];
        ghost var before := missing;
        if fulfillments[k].body.Fulfillment? {
          var indices := fulfillments[k].body.indices;
          for n := 0 to |indices|
            invariant forall i :: i in missing <==> i in before && i !in indices[..n]
          {
            missing := missing - {indices[n]};
          }
          assert indices[..|indices|] == indices;
        }
        forall i: nat
          ensures i in missing <==> i < open.items && !Delivered(fulfillments[..k + 1], i)
        {
          DeliveredAppend(fulfillments[..k], fulfillments[k], i);
        }
      }
      assert fulfillments[..|fulfillments|] == fulfillments;
      fulfilled := missing == {};
      if !fulfilled {
        var i :| i in missing;
        assert !Delivered(fulfillments, i);
      }
    }
  }

  lemma DeliveredAppend(ms: seq<OrderMessage>, m: OrderMessage, i: nat)
    ensures Delivered(ms + [m], i) <==> Delivered(ms, i) || (m.body.Fulfillment? && i in m.body.indices)
  {
    if Delivered(ms, i) {
      var x :| x in ms && x.body.Fulfillment? && i in x.body.indices;
      assert x in ms + [m];
    }
    if m.body.Fulfillment? && i in m.body.indices {
      assert m in ms + [m];
    }
  }
}
