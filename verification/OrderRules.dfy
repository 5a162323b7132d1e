/**
 The rules of the order protocol as functions on the record: what each message type does to an
 order, how parked messages are retried, and where one call of ProcessMessage leaves the row.

 The wallet, the listing database and the clock appear as inputs: `Config` is what a node fixes for
 the whole run, `Context` is what it sees during one database transaction.
 */
module OrderRules {
  import opened Common
  import opened OrderModel

  /** `validOpens` are the ORDER_OPEN payloads that pass validation at this node. */
  datatype Config = Config(identity: PeerID, coins: set<Currency>, validOpens: set<OrderOpen>)

  datatype Flows = Flows(from: seq<SpendInfo>, to: seq<SpendInfo>)

  /** `wallet` holds the transactions the wallet can look up, `stamp` the current time. */
  datatype Context = Context(wallet: map<TxID, Flows>, stamp: nat)

  function LookUp(ctx: Context, txid: TxID): Transaction
    requires txid in ctx.wallet
  {
    Transaction(txid, ctx.wallet[txid].from, ctx.wallet[txid].to)
  }

  datatype Outgoing = Outgoing(to: PeerID, msg: OrderMessage)

  /** The record after a handler, the error it returned and the messages it queued. */
  datatype Effect = Effect(st: OrderState, err: Error, sent: seq<Outgoing>)

  datatype Verdict = Ignore | Refuse(err: Error) | SetAside | Accept

  function Ident(st: OrderState): OrderID {
    if st.id.Some? then st.id.value else 0
  }

  /** The slot of a message type that is stored at most once. */
  function SlotOf(st: OrderState, b: Body): Option<OrderMessage> {
    match b
    case Open(_) => st.open
    case Reject(_, _) => st.reject
    case Cancel(_, _) => st.cancel
    case Confirmation(_, _) => st.confirmation
    case RatingSignatures(_, _, _) => st.ratingSignatures
    case Complete(_, _, _, _) => st.complete
    case DisputeOpen(_, _) => st.disputeOpen
    case _ => None
  }

  /** The message types the processor has a handler for. */
  predicate Handled(b: Body) {
    !b.DisputeUpdate? && !b.DisputeClose? && !b.PaymentFinalized?
  }

  /** What is already stored rules the message type out. */
  predicate Barred(st: OrderState, b: Body) {
    match b
    case Reject(_, _) => st.confirmation.Some?
    case Confirmation(_, _) => st.reject.Some?
    case Fulfillment(_, _) => st.reject.Some?
    case Complete(_, _, _, _) => st.cancel.Some?
    case Refund(_, _, _) => st.cancel.Some?
    case DisputeOpen(_, _) =>
      st.complete.Some? || st.paymentFinalized.Some? || st.reject.Some? || st.cancel.Some?
    case _ => false
  }

  predicate OwnDispute(st: OrderState, b: Body) {
    b.DisputeOpen? && ((st.role.RoleBuyer? && b.byBuyer) || (st.role.RoleVendor? && !b.byBuyer))
  }

  /** Checks of the payload against the opened order. */
  predicate Malformed(cfg: Config, st: OrderState, open: OrderOpen, b: Body) {
    match b
    case Cancel(_, _) => open.coin !in cfg.coins
    case Confirmation(_, _) => open.coin !in cfg.coins
    case RatingSignatures(sigs, genuine, _) => sigs != open.ratingKeys || !genuine
    case Complete(ratings, genuine, hasRelease, _) =>
      || ratings != open.items || !genuine || open.coin !in cfg.coins
      || (st.role.RoleVendor? && hasRelease && open.terms.Moderated? && st.disputeOpen.None? && st.fulfillments == [])
    case DisputeOpen(_, _) =>
      || open.moderator.None? || !open.terms.Moderated?
      || (!OwnDispute(st, b) && (st.parked != [] || st.errored != []))
    case _ => false
  }

  function Judge(cfg: Config, st: OrderState, m: OrderMessage): Verdict {
    if SlotOf(st, m.body).Some? then
      if SlotOf(st, m.body).value.body == m.body then Ignore else Refuse(ErrChangedMessage)
    else if Barred(st, m.body) then Refuse(ErrUnexpectedMessage)
    else if !Handled(m.body) then Refuse(ErrOther)
    else if m.body.Open? then Accept
    else if OpenOf(st).None? then SetAside
    else if m.body.Fulfillment? && st.confirmation.None? then SetAside
    else if Malformed(cfg, st, OpenOf(st).value, m.body) then Refuse(ErrOther)
    else Accept
  }

  // ---- transactions ----------------------------------------------------------------------------

  predicate PaidFrom(tx: Transaction, addr: Option<Address>) {
    exists from <- tx.from :: Some(from.address) == addr
  }

  predicate PaysTo(tx: Transaction, addr: Option<Address>) {
    exists to <- tx.to :: Some(to.address) == addr
  }

  /** Records the wallet's transaction when it spends from the payment address. */
  function RecordSpend(ctx: Context, st: OrderState, txid: TxID): OrderState {
    if txid in ctx.wallet && PaidFrom(LookUp(ctx, txid), st.paymentAddress)
    then RecordTransaction(st, LookUp(ctx, txid))
    else st
  }

  function PaymentNotice(cfg: Config, st: OrderState, tx: Transaction): OrderMessage {
    OrderMessage(Ident(st), PaymentSent(tx.id), cfg.identity)
  }

  function RatingNotice(cfg: Config, ctx: Context, st: OrderState, open: OrderOpen): OrderMessage {
    OrderMessage(Ident(st), RatingSignatures(open.items, true, ctx.stamp), cfg.identity)
  }

  /** A payment into the order's address: the buyer announces it, the vendor signs rating keys. */
  function IncomingPayment(cfg: Config, ctx: Context, st: OrderState, tx: Transaction): Effect {
    if KnowsTransaction(st.transactions, tx.id) then Effect(st, NoError, []) else
    var paid := RecordTransaction(st, tx);
    if OpenOf(st).None? then Effect(paid, ErrOther, []) else
    var open := OpenOf(st).value;
    match st.role
    case RoleBuyer =>
      var notice := PaymentNotice(cfg, st, tx);
      Effect(Put(paid, notice),
             if AlreadyListed(paid, notice.body) then ErrDuplicateTransaction else NoError,
             [Outgoing(open.vendor, notice)])
    case RoleVendor =>
      if IsFunded(paid)
      then var notice := RatingNotice(cfg, ctx, st, open);
           Effect(Put(paid, notice), NoError, [Outgoing(open.buyer, notice)])
      else Effect(paid, NoError, [])
    case RoleUnknown => Effect(paid, NoError, [])
  }

  // ---- what an accepted message does -----------------------------------------------------------

  function RoleIn(cfg: Config, open: OrderOpen): Role {
    if cfg.identity == open.buyer then RoleBuyer else RoleVendor
  }

  /** The vendor answers an order that does not validate with a reject of its own. */
  predicate AutoRejects(cfg: Config, open: OrderOpen) {
    RoleIn(cfg, open).RoleVendor? && open !in cfg.validOpens
  }

  /** It carries the time at which it was written. */
  function AutoReject(cfg: Config, id: OrderID, stamp: nat): OrderMessage {
    OrderMessage(id, Reject(true, stamp), cfg.identity)
  }

  function AcceptOpen(cfg: Config, ctx: Context, st: OrderState, peer: PeerID, m: OrderMessage): Effect
    requires m.body.Open?
  {
    var open := m.body.open;
    var auto := AutoReject(cfg, m.orderID, ctx.stamp);
    var begun := st.(role := RoleIn(cfg, open), isOpen := true, open := Some(m),
                      paymentAddress := Some(open.address),
                      reject := if AutoRejects(cfg, open) then Some(auto) else st.reject);
    Effect(begun,
           if open.coin in cfg.coins then NoError else ErrOther,
           if AutoRejects(cfg, open) then [Outgoing(peer, auto)] else [])
  }

  function AcceptRefund(cfg: Config, ctx: Context, st: OrderState, open: OrderOpen, m: OrderMessage): Effect
    requires m.body.Refund?
  {
    if AlreadyListed(st, m.body) then Effect(st, NoError, [])
    else if open.coin !in cfg.coins then Effect(Put(st, m), ErrOther, [])
    else if m.body.info.PaidBy? && open.terms.Direct?
    then Effect(RecordSpend(ctx, Put(st, m), m.body.info.txid), NoError, [])
    else Effect(Put(st, m), NoError, [])
  }

  function AcceptPaymentSent(cfg: Config, ctx: Context, st: OrderState, open: OrderOpen, m: OrderMessage): Effect
    requires m.body.PaymentSent?
  {
    var txid := m.body.paid;
    if AlreadyListed(st, m.body) then Effect(st, NoError, [])
    else if open.coin !in cfg.coins then Effect(Put(st, m), ErrOther, [])
    else if !KnowsTransaction(st.transactions, txid) && txid in ctx.wallet && PaysTo(LookUp(ctx, txid), st.paymentAddress)
    then IncomingPayment(cfg, ctx, Put(st, m), LookUp(ctx, txid))
    else Effect(Put(st, m), NoError, [])
  }

  /** The message the other party sends the moderator when a dispute reaches it. */
  function ContractNotice(cfg: Config, ctx: Context, st: OrderState): OrderMessage {
    OrderMessage(Ident(st), DisputeUpdate(ctx.stamp), cfg.identity)
  }

  function AcceptDispute(cfg: Config, ctx: Context, st: OrderState, open: OrderOpen, m: OrderMessage): Effect
    requires open.moderator.Some?
  {
    if OwnDispute(st, m.body) then Effect(Put(st, m), NoError, [])
    else var notice := ContractNotice(cfg, ctx, st);
         Effect(Put(Put(st, notice), m), NoError, [Outgoing(open.moderator.value, notice)])
  }

  function AfterAccept(cfg: Config, ctx: Context, st: OrderState, peer: PeerID, m: OrderMessage): Effect
    requires Judge(cfg, st, m).Accept?
  {
    if m.body.Open? then AcceptOpen(cfg, ctx, st, peer, m) else
    var open := OpenOf(st).value;
    match m.body
    case Cancel(txid, _) =>
      Effect(Put(if txid.Some? && open.terms.Cancelable? then RecordSpend(ctx, st, txid.value) else st, m), NoError, [])
    case Confirmation(txid, _) =>
      Effect(Put(if txid.Some? && open.terms.Cancelable? then RecordSpend(ctx, st, txid.value) else st, m), NoError, [])
    case Fulfillment(_, _) =>
      Effect(Put(st, m), if AlreadyListed(st, m.body) then ErrDuplicateTransaction else NoError, [])
    case DisputeOpen(_, _) => AcceptDispute(cfg, ctx, st, open, m)
    case Refund(_, _, _) => AcceptRefund(cfg, ctx, st, open, m)
    case PaymentSent(_) => AcceptPaymentSent(cfg, ctx, st, open, m)
    case _ => Effect(Put(st, m), NoError, [])
  }

  // ---- one message, the retries, one call ------------------------------------------------------

  function Handle(cfg: Config, ctx: Context, st: OrderState, peer: PeerID, m: OrderMessage): Effect {
    var st0 := if m.body.Open? then st.(id := Some(m.orderID)) else st;
    match Judge(cfg, st0, m)
    case Ignore => Effect(st0, NoError, [])
    case Refuse(err) => Effect(st0, err, [])
    case SetAside => Effect(Park(st0, m), NoError, [])
    case Accept => AfterAccept(cfg, ctx, st0, peer, m)
  }

  /** Nothing happens unless the signature verifies under the delivering peer's key. */
  function Verified(cfg: Config, ctx: Context, st: OrderState, peer: PeerID, m: OrderMessage): Effect {
    if m.signer != peer then Effect(st, ErrInvalidSignature, []) else Handle(cfg, ctx, st, peer, m)
  }

  /** One parked message, skipped when it is the message being processed. */
  function RetryOne(cfg: Config, ctx: Context, st: OrderState, peer: PeerID, m: OrderMessage, x: OrderMessage): Effect {
    if x == m then Effect(st, NoError, []) else
    var e := Verified(cfg, ctx, st, peer, x);
    if e.err.NoError? then e else e.(st := e.st.(errored := e.st.errored + [m]))
  }

  function Retry(cfg: Config, ctx: Context, st: OrderState, peer: PeerID, m: OrderMessage, xs: seq<OrderMessage>): Effect {
    if xs == [] then Effect(st, NoError, []) else
    var e := Retry(cfg, ctx, st, peer, m, xs[..|xs| - 1]);
    var e' := RetryOne(cfg, ctx, e.st, peer, m, xs[|xs| - 1]);
    Effect(e'.st, NoError, e.sent + e'.sent)
  }

  ghost predicate Ordered(xs: seq<OrderMessage>) {
    forall i, j | 0 <= i < j < |xs| :: TypeNumber(xs[i].body) <= TypeNumber(xs[j].body)
  }

  /** The unstable sort by type may return any of these. */
  ghost predicate SortOf(parked: seq<OrderMessage>, xs: seq<OrderMessage>) {
    multiset(parked) == multiset(xs) && Ordered(xs)
  }

  lemma OrderedAround(xs: seq<OrderMessage>, k: nat, m: OrderMessage)
    requires Ordered(xs) && k <= |xs|
    requires forall i | 0 <= i < k :: TypeNumber(xs[i].body) <= TypeNumber(m.body)
    requires k < |xs| ==> TypeNumber(m.body) <= TypeNumber(xs[k].body)
    ensures Ordered(xs[..k] + [m] + xs[k..])
  {
    var ys := xs[..k] + [m] + xs[k..];
    forall i, j | 0 <= i < j < |ys|
      ensures TypeNumber(ys[i].body) <= TypeNumber(ys[j].body)
    {
      if i < k && j <= k {
      } else if i < k {
        assert ys[j] == xs[j - 1] && ys[i] == xs[i];
      } else if i == k {
        assert ys[j] == xs[j - 1];
      } else {
        assert ys[j] == xs[j - 1] && ys[i] == xs[i - 1];
      }
    }
  }

  /** The order as loaded: a fresh one when there is no row. */
  function Loaded(row: Option<OrderState>): OrderState {
    if row.Some? then row.value else BLANK
  }

  /** A message for an order that does not exist yet. */
  predicate Premature(row: Option<OrderState>, m: OrderMessage) {
    row.None? && !m.body.Open?
  }

  function FirstPass(cfg: Config, ctx: Context, row: Option<OrderState>, peer: PeerID, m: OrderMessage): Effect {
    if Premature(row, m) then Effect(Park(BLANK.(id := Some(m.orderID)), m), NoError, [])
    else Verified(cfg, ctx, Loaded(row), peer, m)
  }

  /** The saved order after ProcessMessage when the sort returns `xs`. */
  function Process(cfg: Config, ctx: Context, row: Option<OrderState>, peer: PeerID, m: OrderMessage,
                   xs: seq<OrderMessage>): Effect {
    var e := FirstPass(cfg, ctx, row, peer, m);
    if Premature(row, m) then e else
    var e' := Retry(cfg, ctx, e.st, peer, m, xs);
    Effect(e'.st, NoError, e.sent + e'.sent)
  }

  /** What ProcessMessage may retry, given what the first pass left parked. */
  ghost predicate RetriesOf(cfg: Config, ctx: Context, row: Option<OrderState>, peer: PeerID, m: OrderMessage,
                            xs: seq<OrderMessage>) {
    Premature(row, m) || SortOf(FirstPass(cfg, ctx, row, peer, m).st.parked, xs)
  }

  // ---- wallet events ---------------------------------------------------------------------------

  /** A transaction reported by the wallet: an error rolls the whole update back. */
  function WalletEvent(cfg: Config, ctx: Context, st: OrderState, tx: Transaction): Effect {
    var e := if PaysTo(tx, st.paymentAddress) then IncomingPayment(cfg, ctx, st, tx) else Effect(st, NoError, []);
    if !e.err.NoError? then Effect(st, e.err, [])
    else if PaidFrom(tx, st.paymentAddress) then Effect(RecordTransaction(e.st, tx), NoError, e.sent)
    else e
  }

  /** Everything that reaches one row of the orders table. `xs` is what the sort returned. */
  datatype Event =
    | Message(ctx: Context, peer: PeerID, m: OrderMessage, xs: seq<OrderMessage>)
    | Wallet(ctx: Context, tx: Transaction)
    | Acked(typeNumber: nat)

  /** The row after an event; a row saved before the order got its ID is not this order's row. */
  function NextRow(cfg: Config, id: OrderID, row: Option<OrderState>, ev: Event): Option<OrderState> {
    match ev
    case Message(ctx, peer, m, xs) =>
      if m.orderID != id then row else
      var st := Process(cfg, ctx, row, peer, m, xs).st;
      if st.id == Some(id) then Some(st) else row
    case Wallet(ctx, tx) =>
      if row.None? then row else Some(WalletEvent(cfg, ctx, row.value, tx).st)
    case Acked(n) =>
      if row.None? then row else Some(row.value.(acked := row.value.acked + {n}))
  }

  function Rows(cfg: Config, id: OrderID, evs: seq<Event>): Option<OrderState> {
    if evs == [] then None
    else NextRow(cfg, id, Rows(cfg, id, evs[..|evs| - 1]), evs[|evs| - 1])
  }
}
