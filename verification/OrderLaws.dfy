/**
 What each message, wallet notification and local action does to an order, told by the fields of the
 record and the messages sent, one law for each kind.
 */
module OrderLaws {
  import opened Common
  import opened OrderModel
  import opened OrderRules
  import opened OrderInvariants
  import opened OrderConvergence
  import opened OrderMessaging

  /** The handler leaves the record as it was, sends nothing and returns the error. */
  ghost predicate Refused(e: Effect, st: OrderState, err: Error) {
    e == Effect(st, err, [])
  }

  // ---- types and flags -------------------------------------------------------------------------------

  /** Parked messages are retried in the order of the protocol: the order, its answers, ratings, deliveries, the end. */
  lemma TypesInOrder(o: OrderOpen, items: seq<nat>, i: RefundInfo, t: Option<TxID>, n: nat, a: int, x: bool, y: bool)
    ensures
      && TypeNumber(Open(o)) < TypeNumber(Reject(x, n)) < TypeNumber(Cancel(t, n)) < TypeNumber(Confirmation(t, n))
      && TypeNumber(Confirmation(t, n)) < TypeNumber(RatingSignatures(n, x, n)) < TypeNumber(Fulfillment(items, n))
      && TypeNumber(Fulfillment(items, n)) < TypeNumber(Complete(n, x, y, n)) < TypeNumber(DisputeOpen(x, n))
      && TypeNumber(DisputeOpen(x, n)) < TypeNumber(DisputeUpdate(n)) < TypeNumber(DisputeClose(n))
      && TypeNumber(DisputeClose(n)) < TypeNumber(Refund(i, a, n)) < TypeNumber(PaymentSent(n)) < TypeNumber(PaymentFinalized(n))
  {
  }

  /** Two messages set the same acknowledgement flag only when both their types and their recipients agree. */
  lemma FlagsAreDistinct(a: Body, b: Body, toModerator: bool, toModerator': bool)
    requires AckFlag(a, toModerator) == AckFlag(b, toModerator')
    ensures TypeNumber(a) == TypeNumber(b)
    ensures a.DisputeOpen? ==> b.DisputeOpen? && toModerator == toModerator'
  {
  }

  // ---- signatures, copies and messages out of turn -----------------------------------------------------

  lemma ForeignSignature(cfg: Config, ctx: Context, st: OrderState, peer: PeerID, m: OrderMessage)
    requires m.signer != peer
    ensures Refused(Verified(cfg, ctx, st, peer, m), st, ErrInvalidSignature)
  {
  }

  /** What the record holds of a message type it stores once. */
  ghost function Shelf(st: OrderState, b: Body): Option<OrderMessage> {
    if b.Open? then st.open
    else if b.Reject? then st.reject
    else if b.Cancel? then st.cancel
    else if b.Confirmation? then st.confirmation
    else if b.RatingSignatures? then st.ratingSignatures
    else if b.Complete? then st.complete
    else if b.DisputeOpen? then st.disputeOpen
    else None
  }

  /** A copy of a stored message is ignored, and a different message of its type refused; neither changes anything. */
  lemma CopiesAndChanges(cfg: Config, ctx: Context, st: OrderState, peer: PeerID, m: OrderMessage)
    requires Shelf(st, m.body).Some? && (m.body.Open? ==> st.id == Some(m.orderID))
    ensures Refused(Handle(cfg, ctx, st, peer, m), st, if Shelf(st, m.body).value.body == m.body then NoError else ErrChangedMessage)
  {
    assert m.body.Open? ==> st == st.(id := Some(m.orderID));
    hide AfterAccept;
  }

  /** What was stored before rules these messages out. */
  lemma OutOfTurn(cfg: Config, ctx: Context, st: OrderState, peer: PeerID, m: OrderMessage)
    requires Shelf(st, m.body).None?
    requires
      || (m.body.Reject? && st.confirmation.Some?)
      || (m.body.Confirmation? && st.reject.Some?)
      || (m.body.Fulfillment? && st.reject.Some?)
      || (m.body.Complete? && st.cancel.Some?)
      || (m.body.Refund? && st.cancel.Some?)
      || (m.body.DisputeOpen? && (st.complete.Some? || st.paymentFinalized.Some? || st.reject.Some? || st.cancel.Some?))
    ensures Refused(Handle(cfg, ctx, st, peer, m), st, ErrUnexpectedMessage)
  {
    hide AfterAccept;
  }

  /** Before the order everything that has a handler waits, and the rest is refused. */
  lemma BeforeTheOrder(cfg: Config, ctx: Context, st: OrderState, peer: PeerID, m: OrderMessage)
    requires Inv(st) && st.open.None? && !m.body.Open?
    ensures
      if m.body.DisputeUpdate? || m.body.DisputeClose? || m.body.PaymentFinalized?
      then Refused(Handle(cfg, ctx, st, peer, m), st, ErrOther)
      else Handle(cfg, ctx, st, peer, m) == Effect(st.(parked := st.parked + [m]), NoError, [])
  {
    hide AfterAccept, Lists, SlotTypes;
  }

  /** A fulfilment of an order that is neither confirmed nor rejected waits. */
  lemma FulfillmentWaits(cfg: Config, ctx: Context, st: OrderState, peer: PeerID, m: OrderMessage)
    requires m.body.Fulfillment? && st.reject.None? && st.confirmation.None?
    ensures Handle(cfg, ctx, st, peer, m) == Effect(st.(parked := st.parked + [m]), NoError, [])
  {
    hide AfterAccept;
  }

  /** Three message types have no handler and never change an order. */
  lemma NoHandler(cfg: Config, ctx: Context, st: OrderState, peer: PeerID, m: OrderMessage)
    requires m.body.DisputeUpdate? || m.body.DisputeClose? || m.body.PaymentFinalized?
    ensures Refused(Handle(cfg, ctx, st, peer, m), st, ErrOther)
  {
    hide AfterAccept;
  }

  /** Without a row a message of another kind is parked in a new one, whoever delivers it. */
  lemma WithoutARow(cfg: Config, ctx: Context, peer: PeerID, m: OrderMessage, xs: seq<OrderMessage>)
    requires !m.body.Open?
    ensures
      var e := Process(cfg, ctx, None, peer, m, xs);
      e.st == BLANK.(id := Some(m.orderID), parked := [m]) && e.sent == [] && e.err.NoError?
  {
    hide Verified, Retry;
    assert BLANK.parked + [m] == [m];
  }

  /** A retry that fails logs the message being processed; no handler logs anything, and the message itself is not retried. */
  lemma FailedRetryIsLogged(cfg: Config, ctx: Context, st: OrderState, peer: PeerID, m: OrderMessage, x: OrderMessage)
    ensures
      var e, logged := Verified(cfg, ctx, st, peer, x), RetryOne(cfg, ctx, st, peer, m, x).st.errored;
      && e.st.errored == st.errored
      && logged == if x != m && !e.err.NoError? then st.errored + [m] else st.errored
  {
    hide Handle;
    NothingLogged(cfg, ctx, st, peer, x);
  }

  lemma NothingLogged(cfg: Config, ctx: Context, st: OrderState, peer: PeerID, m: OrderMessage)
    ensures Handle(cfg, ctx, st, peer, m).st.errored == st.errored
  {
    hide Judge, AlreadyListed, IsFunded, PaidFrom, PaysTo;
  }

  // ---- the order itself -----------------------------------------------------------------------------------

  /**
   The first ORDER_OPEN fixes ID, role and payment address. Whoever is not the buyer is the vendor, and a
   vendor that finds the order invalid rejects it on the spot.
   */
  lemma OrderOpens(cfg: Config, ctx: Context, st: OrderState, peer: PeerID, m: OrderMessage)
    requires m.body.Open? && st.open.None?
    ensures
      var open, e := m.body.open, Handle(cfg, ctx, st, peer, m);
      var own := OrderMessage(m.orderID, Reject(true, ctx.stamp), cfg.identity);
      var invalid := cfg.identity != open.buyer && open !in cfg.validOpens;
      && e.st.open == Some(m) && e.st.id == Some(m.orderID) && e.st.isOpen
      && e.st.role == (if cfg.identity == open.buyer then RoleBuyer else RoleVendor)
      && e.st.paymentAddress == Some(open.address)
      && e.st.reject == (if invalid then Some(own) else st.reject)
      && e.sent == (if invalid then [Outgoing(peer, own)] else [])
      && (e.err.NoError? <==> open.coin in cfg.coins)
      && e.st.parked == st.parked && e.st.transactions == st.transactions && e.st.cancel == st.cancel
      && e.st.confirmation == st.confirmation && e.st.complete == st.complete
      && e.st.fulfillments == st.fulfillments && e.st.refunds == st.refunds && e.st.paymentsSent == st.paymentsSent
  {
  }

  /** RATING_SIGNATURES are stored exactly when they are genuine and match the rating keys of the order. */
  lemma RatingsAreChecked(cfg: Config, ctx: Context, st: OrderState, peer: PeerID, m: OrderMessage)
    requires m.body.RatingSignatures? && OpenOf(st).Some? && st.ratingSignatures.None?
    ensures
      if m.body.genuine && m.body.sigs == OpenOf(st).value.ratingKeys
      then Handle(cfg, ctx, st, peer, m) == Effect(st.(ratingSignatures := Some(m)), NoError, [])
      else Refused(Handle(cfg, ctx, st, peer, m), st, ErrOther)
  {
  }

  // ---- disputes -----------------------------------------------------------------------------------------------

  /** Only a moderated order with a moderator can be disputed. */
  lemma NoModerator(cfg: Config, ctx: Context, st: OrderState, peer: PeerID, m: OrderMessage)
    requires m.body.DisputeOpen? && OpenOf(st).Some? && st.disputeOpen.None?
    requires st.complete.None? && st.paymentFinalized.None? && st.reject.None? && st.cancel.None?
    requires OpenOf(st).value.moderator.None? || !OpenOf(st).value.terms.Moderated?
    ensures Refused(Handle(cfg, ctx, st, peer, m), st, ErrOther)
  {
    hide AfterAccept;
  }

  /**
   The opener's own node just stores the dispute. The other party's stores it with its own contract, which
   it sends the moderator, unless something was ever parked or logged: then it refuses.
   */
  lemma DisputeOpens(cfg: Config, ctx: Context, st: OrderState, peer: PeerID, m: OrderMessage)
    requires m.body.DisputeOpen? && OpenOf(st).Some? && st.disputeOpen.None? && st.id.Some?
    requires st.complete.None? && st.paymentFinalized.None? && st.reject.None? && st.cancel.None?
    requires OpenOf(st).value.moderator.Some? && OpenOf(st).value.terms.Moderated?
    ensures
      var e := Handle(cfg, ctx, st, peer, m);
      var contract := OrderMessage(st.id.value, DisputeUpdate(ctx.stamp), cfg.identity);
      if (st.role.RoleBuyer? && m.body.byBuyer) || (st.role.RoleVendor? && !m.body.byBuyer)
      then e == Effect(st.(disputeOpen := Some(m)), NoError, [])
      else if st.parked == [] && st.errored == []
      then e == Effect(st.(disputeOpen := Some(m), disputeUpdate := Some(contract)), NoError,
                       [Outgoing(OpenOf(st).value.moderator.value, contract)])
      else Refused(e, st, ErrOther)
  {
  }

  // ---- lists ----------------------------------------------------------------------------------------------------

  /** A fulfilment of a confirmed order joins the list unless a stored one names one of its items. */
  lemma FulfillmentIsListed(cfg: Config, ctx: Context, st: OrderState, peer: PeerID, m: OrderMessage)
    requires m.body.Fulfillment? && OpenOf(st).Some? && st.reject.None? && st.confirmation.Some?
    ensures
      var shared := exists f, i :: f in st.fulfillments && f.body.Fulfillment? && i in f.body.indices && i in m.body.indices;
      if shared then Refused(Handle(cfg, ctx, st, peer, m), st, ErrDuplicateTransaction)
      else Handle(cfg, ctx, st, peer, m) == Effect(st.(fulfillments := st.fulfillments + [m]), NoError, [])
  {
    assert AlreadyListed(st, m.body) <==>
      exists f, i :: f in st.fulfillments && f.body.Fulfillment? && i in f.body.indices && i in m.body.indices;
  }

  /** A refund joins the list unless a stored one names the same transaction or release; one that names nothing always does. */
  lemma RefundJoins(cfg: Config, ctx: Context, st: OrderState, peer: PeerID, m: OrderMessage)
    requires m.body.Refund? && OpenOf(st).Some? && st.cancel.None?
    ensures
      var listed := !m.body.info.NoInfo? && exists r :: r in st.refunds && r.body.Refund? && r.body.info == m.body.info;
      var e := Handle(cfg, ctx, st, peer, m);
      && e.sent == []
      && if listed then Refused(e, st, NoError)
         else e.st.refunds == st.refunds + [m] && e.st.(refunds := st.refunds, transactions := st.transactions) == st
  {
    ListedRefund(st, m.body);
    RefundHandled(cfg, ctx, st, peer, m);
    hide Handle, AlreadyListed;
  }

  lemma ListedRefund(st: OrderState, b: Body)
    requires b.Refund?
    ensures AlreadyListed(st, b) <==> !b.info.NoInfo? && exists r :: r in st.refunds && r.body.Refund? && r.body.info == b.info
  {
  }

  lemma RefundHandled(cfg: Config, ctx: Context, st: OrderState, peer: PeerID, m: OrderMessage)
    requires m.body.Refund? && OpenOf(st).Some? && st.cancel.None?
    ensures
      var e := Handle(cfg, ctx, st, peer, m);
      && e.sent == []
      && if AlreadyListed(st, m.body) then Refused(e, st, NoError)
         else e.st.refunds == st.refunds + [m] && e.st.(refunds := st.refunds, transactions := st.transactions) == st
  {
    hide AlreadyListed, KnowsTransaction, PaidFrom;
  }

  /** A payment notice joins the list unless a stored one names the same transaction; no wallet, no lookup. */
  lemma NoticeJoins(cfg: Config, ctx: Context, st: OrderState, peer: PeerID, m: OrderMessage)
    requires m.body.PaymentSent? && OpenOf(st).Some?
    ensures
      var listed := exists p :: p in st.paymentsSent && p.body.PaymentSent? && p.body.paid == m.body.paid;
      var e := Handle(cfg, ctx, st, peer, m);
      if listed then Refused(e, st, NoError)
      else
        && e.st.paymentsSent == st.paymentsSent + [m]
        && (OpenOf(st).value.coin !in cfg.coins ==>
              e == Effect(st.(paymentsSent := st.paymentsSent + [m]), ErrOther, []))
  {
    assert AlreadyListed(st, m.body) <==> exists p :: p in st.paymentsSent && p.body.PaymentSent? && p.body.paid == m.body.paid;
    PaymentSentEffect(cfg, ctx, st, peer, m);
    hide Handle;
  }

  // ---- answers, and the money they report -----------------------------------------------------------------------

  /** The address the order is paid to is among the spent ones. */
  ghost predicate Spends(from: seq<SpendInfo>, addr: Address) {
    exists c :: c in from && c.address == addr
  }

  ghost predicate Pays(to: seq<SpendInfo>, addr: Address) {
    exists c :: c in to && c.address == addr
  }

  ghost predicate Recorded(txs: seq<Transaction>, id: TxID) {
    exists tx :: tx in txs && tx.id == id
  }

  /** The transactions of the record once the wallet's transaction, which may have been known before, is in it. */
  ghost function With(txs: seq<Transaction>, tx: Transaction): seq<Transaction> {
    if Recorded(txs, tx.id) then txs else txs + [tx]
  }

  /** What the wallet's answer about `txid` adds to an order paid to `addr`: its transaction, if it spends from there. */
  ghost function WithSpend(ctx: Context, txs: seq<Transaction>, txid: TxID, addr: Address): seq<Transaction> {
    if txid in ctx.wallet && Spends(ctx.wallet[txid].from, addr)
    then With(txs, Transaction(txid, ctx.wallet[txid].from, ctx.wallet[txid].to))
    else txs
  }

  lemma RecordIsWith(st: OrderState, tx: Transaction)
    ensures RecordTransaction(st, tx) == st.(transactions := With(st.transactions, tx))
  {
    assert KnowsTransaction(st.transactions, tx.id) <==> Recorded(st.transactions, tx.id);
  }

  lemma SpendIsWith(ctx: Context, st: OrderState, txid: TxID, addr: Address)
    requires st.paymentAddress == Some(addr)
    ensures RecordSpend(ctx, st, txid) == st.(transactions := WithSpend(ctx, st.transactions, txid, addr))
  {
    if txid in ctx.wallet {
      var tx := LookUp(ctx, txid);
      assert PaidFrom(tx, st.paymentAddress) <==> Spends(tx.from, addr);
      RecordIsWith(st, tx);
    }
  }

  /** An open order paid to the address its ORDER_OPEN names. */
  ghost predicate Payable(st: OrderState) {
    OpenOf(st).Some? && st.paymentAddress == Some(OpenOf(st).value.address)
  }

  /**
   A cancellation or confirmation of an order in a supported currency is stored. If the order is cancelable,
   the release it reports is recorded with it.
   */
  lemma AnswerRecordsRelease(cfg: Config, ctx: Context, st: OrderState, peer: PeerID, m: OrderMessage)
    requires Payable(st) && Shelf(st, m.body).None?
    requires m.body.Cancel? || (m.body.Confirmation? && st.reject.None?)
    ensures
      var open, e := OpenOf(st).value, Handle(cfg, ctx, st, peer, m);
      var txs := if open.terms.Cancelable? && m.body.txid.Some?
                 then WithSpend(ctx, st.transactions, m.body.txid.value, open.address) else st.transactions;
      if open.coin !in cfg.coins then Refused(e, st, ErrOther)
      else if m.body.Cancel? then e == Effect(st.(cancel := Some(m), transactions := txs), NoError, [])
      else e == Effect(st.(confirmation := Some(m), transactions := txs), NoError, [])
  {
    if m.body.txid.Some? {
      SpendIsWith(ctx, st, m.body.txid.value, OpenOf(st).value.address);
    }
    hide RecordSpend, WithSpend;
  }

  /** A reject of an open, unconfirmed order is stored. */
  lemma RejectIsStored(cfg: Config, ctx: Context, st: OrderState, peer: PeerID, m: OrderMessage)
    requires OpenOf(st).Some? && m.body.Reject? && st.reject.None? && st.confirmation.None?
    ensures Handle(cfg, ctx, st, peer, m) == Effect(st.(reject := Some(m)), NoError, [])
  {
  }

  /**
   A completion is stored when it rates every item, genuinely, in a supported currency; the vendor of a
   moderated, undisputed order also wants a fulfilment before it accepts a release.
   */
  lemma CompletionIsChecked(cfg: Config, ctx: Context, st: OrderState, peer: PeerID, m: OrderMessage)
    requires OpenOf(st).Some? && m.body.Complete? && st.complete.None? && st.cancel.None?
    ensures
      var open, e := OpenOf(st).value, Handle(cfg, ctx, st, peer, m);
      var early := st.role.RoleVendor? && m.body.hasRelease && open.terms.Moderated? && st.disputeOpen.None? && st.fulfillments == [];
      if m.body.ratings == open.items && m.body.genuine && open.coin in cfg.coins && !early
      then e == Effect(st.(complete := Some(m)), NoError, [])
      else Refused(e, st, ErrOther)
  {
  }

  /** A refund of a direct order that names a transaction records it, if it spends from the order's address. */
  lemma RefundRecordsSpend(cfg: Config, ctx: Context, st: OrderState, peer: PeerID, m: OrderMessage)
    requires Payable(st) && m.body.Refund? && st.cancel.None?
    requires forall r :: r in st.refunds ==> !(r.body.Refund? && r.body.info == m.body.info)
    ensures
      var open, e := OpenOf(st).value, Handle(cfg, ctx, st, peer, m);
      && (e.err.NoError? <==> open.coin in cfg.coins)
      && e.st == st.(refunds := st.refunds + [m],
                     transactions := if open.coin in cfg.coins && open.terms.Direct? && m.body.info.PaidBy?
                                     then WithSpend(ctx, st.transactions, m.body.info.txid, open.address) else st.transactions)
  {
    var put := st.(refunds := st.refunds + [m]);
    assert Put(st, m) == put;
    if m.body.info.PaidBy? {
      SpendIsWith(ctx, put, m.body.info.txid, OpenOf(st).value.address);
    }
    hide RecordSpend, WithSpend;
  }

  /** A payment notice makes the node look the payment up: unknown to it and known to the wallet, it is recorded. */
  lemma NoticeRecordsPayment(cfg: Config, ctx: Context, st: OrderState, peer: PeerID, m: OrderMessage)
    requires Payable(st) && m.body.PaymentSent? && OpenOf(st).value.coin in cfg.coins
    requires forall p :: p in st.paymentsSent ==> !(p.body.PaymentSent? && p.body.paid == m.body.paid)
    ensures
      var open, id := OpenOf(st).value, m.body.paid;
      Handle(cfg, ctx, st, peer, m).st.transactions ==
        if id in ctx.wallet && Pays(ctx.wallet[id].to, open.address)
        then With(st.transactions, Transaction(id, ctx.wallet[id].from, ctx.wallet[id].to)) else st.transactions
  {
    var put, id := st.(paymentsSent := st.paymentsSent + [m]), m.body.paid;
    assert Put(st, m) == put;
    assert KnowsTransaction(st.transactions, id) <==> Recorded(st.transactions, id);
    if id in ctx.wallet {
      var tx := LookUp(ctx, id);
      assert PaysTo(tx, st.paymentAddress) <==> Pays(tx.to, OpenOf(st).value.address);
      IncomingTransactions(cfg, ctx, put, tx);
    }
    hide IncomingPayment, With;
  }

  lemma IncomingTransactions(cfg: Config, ctx: Context, st: OrderState, tx: Transaction)
    requires OpenOf(st).Some?
    ensures IncomingPayment(cfg, ctx, st, tx).st.transactions == With(st.transactions, tx)
  {
    hide RecordTransaction, With;
    RecordIsWith(st, tx);
    KnownStays(st.transactions, tx);
  }

  lemma KnownStays(txs: seq<Transaction>, tx: Transaction)
    ensures KnowsTransaction(txs, tx.id) ==> With(txs, tx) == txs
  {
    assert KnowsTransaction(txs, tx.id) <==> Recorded(txs, tx.id);
  }

  // ---- transactions the wallet reports -------------------------------------------------------------------------

  /** The paid amounts add up output by output and transaction by transaction. */
  lemma FundingAddsUp(txs: seq<Transaction>, tx: Transaction, outs: seq<SpendInfo>, o: SpendInfo, addr: Address)
    ensures FundingTotal([], addr) == 0 && PaidTo([], addr) == 0
    ensures FundingTotal(txs + [tx], addr) == FundingTotal(txs, addr) + PaidTo(tx.to, addr)
    ensures PaidTo(outs + [o], addr) == PaidTo(outs, addr) + if o.address == addr then o.amount else 0
  {
    assert (txs + [tx])[..|txs|] == txs && (outs + [o])[..|outs|] == outs;
  }

  /** Known transactions, and those that neither pay nor spend from the order's address, change nothing. */
  lemma NothingNew(cfg: Config, ctx: Context, st: OrderState, tx: Transaction)
    requires Payable(st)
    requires
      var addr := OpenOf(st).value.address;
      Recorded(st.transactions, tx.id) || !(Pays(tx.to, addr) || Spends(tx.from, addr))
    ensures Refused(WalletEvent(cfg, ctx, st, tx), st, NoError)
  {
    assert PaysTo(tx, st.paymentAddress) <==> Pays(tx.to, OpenOf(st).value.address);
    assert PaidFrom(tx, st.paymentAddress) <==> Spends(tx.from, OpenOf(st).value.address);
    RecordIsWith(st, tx);
    assert KnowsTransaction(st.transactions, tx.id) <==> Recorded(st.transactions, tx.id);
  }

  /** A new transaction that only spends from the order's address is recorded. */
  lemma SpendIsRecorded(cfg: Config, ctx: Context, st: OrderState, tx: Transaction)
    requires Payable(st) && !Recorded(st.transactions, tx.id)
    requires Spends(tx.from, OpenOf(st).value.address) && !Pays(tx.to, OpenOf(st).value.address)
    ensures WalletEvent(cfg, ctx, st, tx) == Effect(st.(transactions := st.transactions + [tx]), NoError, [])
  {
    assert PaysTo(tx, st.paymentAddress) <==> Pays(tx.to, OpenOf(st).value.address);
    assert PaidFrom(tx, st.paymentAddress) <==> Spends(tx.from, OpenOf(st).value.address);
    RecordIsWith(st, tx);
  }

  /**
   The buyer's first report of a payment to the order records it, lists one PAYMENT_SENT with its ID and
   queues it for the vendor. If that ID is listed already, the update fails and changes nothing.
   */
  lemma BuyerAnnounces(cfg: Config, ctx: Context, st: OrderState, tx: Transaction)
    requires Payable(st) && st.role.RoleBuyer? && st.id.Some?
    requires Pays(tx.to, OpenOf(st).value.address) && !Recorded(st.transactions, tx.id)
    ensures
      var e := WalletEvent(cfg, ctx, st, tx);
      var notice := OrderMessage(st.id.value, PaymentSent(tx.id), cfg.identity);
      if exists p :: p in st.paymentsSent && p.body.PaymentSent? && p.body.paid == tx.id
      then Refused(e, st, ErrDuplicateTransaction)
      else
        e == Effect(st.(transactions := st.transactions + [tx], paymentsSent := st.paymentsSent + [notice]), NoError,
                    [Outgoing(OpenOf(st).value.vendor, notice)])
  {
    assert PaysTo(tx, st.paymentAddress);
    RecordIsWith(st, tx);
    var paid := st.(transactions := st.transactions + [tx]);
    var notice := PaymentNotice(cfg, st, tx);
    assert KnowsTransaction(st.transactions, tx.id) <==> Recorded(st.transactions, tx.id);
    assert AlreadyListed(paid, notice.body) <==> exists p :: p in st.paymentsSent && p.body.PaymentSent? && p.body.paid == tx.id;
    var sent := paid.(paymentsSent := paid.paymentsSent + [notice]);
    RecordIsWith(sent, tx);
    assert tx in sent.transactions;
  }

  /** The vendor's first report of a payment records it; once the order is paid in full it signs the ratings for the buyer. */
  lemma VendorSigns(cfg: Config, ctx: Context, st: OrderState, tx: Transaction)
    requires Payable(st) && st.role.RoleVendor? && st.id.Some?
    requires Pays(tx.to, OpenOf(st).value.address) && !Recorded(st.transactions, tx.id)
    ensures
      var open, txs := OpenOf(st).value, st.transactions + [tx];
      var ratings := OrderMessage(st.id.value, RatingSignatures(open.items, true, ctx.stamp), cfg.identity);
      WalletEvent(cfg, ctx, st, tx) ==
        if FundingTotal(txs, open.address) >= open.amount
        then Effect(st.(transactions := txs, ratingSignatures := Some(ratings)), NoError, [Outgoing(open.buyer, ratings)])
        else Effect(st.(transactions := txs), NoError, [])
  {
    hide FundingTotal;
    assert PaysTo(tx, st.paymentAddress);
    RecordIsWith(st, tx);
    var paid := st.(transactions := st.transactions + [tx]);
    assert KnowsTransaction(st.transactions, tx.id) <==> Recorded(st.transactions, tx.id);
    RecordIsWith(paid, tx);
    var ratings := RatingNotice(cfg, ctx, st, OpenOf(st).value);
    RecordIsWith(paid.(ratingSignatures := Some(ratings)), tx);
    assert tx in paid.transactions;
  }

  // ---- what a node may do -----------------------------------------------------------------------------------------

  /** Nobody answered the order, delivered, disputed, refunded or finished it. */
  ghost predicate Fresh(st: OrderState) {
    && st.reject == None && st.cancel == None && st.confirmation == None && st.complete == None
    && st.disputeOpen == None && st.disputeUpdate == None && st.disputeClosed == None && st.paymentFinalized == None
    && |st.fulfillments| == 0 && |st.refunds| == 0
  }

  /** Some stored fulfilment names the item. */
  ghost predicate Named(fs: seq<OrderMessage>, i: nat) {
    exists f :: f in fs && f.body.Fulfillment? && i in f.body.indices
  }

  /** Who may send what, and when. */
  lemma WhoMayAct(st: OrderState, b: Body)
    requires OpenOf(st).Some?
    ensures
      var open := OpenOf(st).value;
      var vendor, buyer := st.role == RoleVendor, st.role == RoleBuyer;
      var finished := st.complete.Some? || st.paymentFinalized.Some?;
      var everything := forall i: nat | i < open.items :: Named(st.fulfillments, i);
      MayAct(Some(st), b) <==>
        || (b.Reject? && vendor && Fresh(st))
        || (b.Confirmation? && vendor && Fresh(st))
        || (b.Cancel? && buyer && Fresh(st) && open.terms.Cancelable?)
        || (b.Refund? && vendor && !finished && st.cancel.None? && !open.terms.Cancelable?)
        || (b.Fulfillment? && vendor && !finished && st.cancel.None? && st.confirmation.Some?
            && FundingTotal(st.transactions, open.address) >= open.amount && !everything)
        || (b.Complete? && buyer && !finished && everything && !(st.disputeOpen.Some? && st.disputeClosed.None?))
  {
    EverythingIsNamed(st);
    hide FundingTotal, IsFulfilled;
  }

  lemma EverythingIsNamed(st: OrderState)
    requires OpenOf(st).Some?
    ensures IsFulfilled(st) <==> forall i: nat | i < OpenOf(st).value.items :: Named(st.fulfillments, i)
  {
    forall i: nat ensures Delivered(st.fulfillments, i) <==> Named(st.fulfillments, i) {
    }
  }

  /** Without a row a node may only place an order. */
  lemma OnlyOrdersAtFirst(b: Body)
    ensures MayAct(None, b) <==> b.Open?
  {
  }
}
