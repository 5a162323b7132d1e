/**
 What every run of the order processor keeps: which slots exclude or need which, that stored messages
 are never replaced, and that the guards of the local actions agree with the handlers.
 */
module OrderInvariants {
  import opened Common
  import opened OrderModel
  import opened OrderRules

  // ---- the invariant ---------------------------------------------------------------------------

  /** REJECT and CONFIRMATION exclude each other; fulfilments need a confirmation; all need an order. */
  ghost predicate Exclusions(st: OrderState) {
    && !(st.reject.Some? && st.confirmation.Some?)
    && (st.fulfillments != [] ==> st.confirmation.Some?)
    && (st.open.None? ==>
          && st.reject.None? && st.cancel.None? && st.confirmation.None? && st.complete.None?
          && st.ratingSignatures.None? && st.disputeOpen.None? && st.disputeUpdate.None? && st.paymentFinalized.None?
          && st.fulfillments == [] && st.refunds == [] && st.paymentsSent == []
          && st.transactions == [] && st.paymentAddress.None? && st.role.RoleUnknown?)
  }

  ghost predicate SlotTypes(st: OrderState) {
    && (st.open.Some? ==> st.open.value.body.Open?)
    && (st.reject.Some? ==> st.reject.value.body.Reject?)
    && (st.cancel.Some? ==> st.cancel.value.body.Cancel?)
    && (st.confirmation.Some? ==> st.confirmation.value.body.Confirmation?)
    && (st.complete.Some? ==> st.complete.value.body.Complete?)
    && (st.open.Some? ==> st.paymentAddress == Some(st.open.value.body.open.address) && !st.role.RoleUnknown?)
  }

  ghost predicate ListTypes(st: OrderState) {
    && (forall m <- st.fulfillments :: m.body.Fulfillment?)
    && (forall m <- st.refunds :: m.body.Refund?)
    && (forall m <- st.paymentsSent :: m.body.PaymentSent?)
  }

  ghost predicate NoSharedItems(ms: seq<OrderMessage>) {
    forall i, j | 0 <= i < j < |ms| :: !SharesItem(ms[i].body, ms[j].body)
  }

  ghost predicate NoSharedPayouts(ms: seq<OrderMessage>) {
    forall i, j | 0 <= i < j < |ms| :: !SamePayout(ms[i].body, ms[j].body)
  }

  ghost predicate NoSharedPayments(ms: seq<OrderMessage>) {
    forall i, j | 0 <= i < j < |ms| :: !SamePayment(ms[i].body, ms[j].body)
  }

  ghost predicate DistinctTransactions(txs: seq<Transaction>) {
    forall i, j | 0 <= i < j < |txs| :: txs[i].id != txs[j].id
  }

  ghost predicate Lists(st: OrderState) {
    && ListTypes(st)
    && NoSharedItems(st.fulfillments)
    && NoSharedPayouts(st.refunds)
    && NoSharedPayments(st.paymentsSent)
    && DistinctTransactions(st.transactions)
  }

  ghost predicate Inv(st: OrderState) {
    Exclusions(st) && SlotTypes(st) && Lists(st)
  }

  // ---- growth ----------------------------------------------------------------------------------

  ghost predicate Kept(a: Option<OrderMessage>, b: Option<OrderMessage>) {
    a.Some? ==> b == a
  }

  /**
   `b` holds everything `a` held, in the same place, and a cancelled order gains no completion and no
   refund. RATING_SIGNATURES is not write-once.
   */
  ghost predicate Extends(a: OrderState, b: OrderState) {
    && Kept(a.open, b.open) && Kept(a.reject, b.reject) && Kept(a.cancel, b.cancel)
    && Kept(a.confirmation, b.confirmation) && Kept(a.complete, b.complete)
    && a.fulfillments <= b.fulfillments && a.refunds <= b.refunds && a.paymentsSent <= b.paymentsSent
    && a.transactions <= b.transactions && a.parked <= b.parked
    && (a.open.Some? ==> b.role == a.role && b.paymentAddress == a.paymentAddress)
    && (a.cancel.Some? ==> b.complete == a.complete && b.refunds == a.refunds)
  }

  lemma ExtendsTransitive(a: OrderState, b: OrderState, c: OrderState)
    requires Extends(a, b) && Extends(b, c)
    ensures Extends(a, c)
  {
  }

  // ---- one operation at a time -----------------------------------------------------------------

  lemma RecordKeeps(st: OrderState, tx: Transaction)
    requires Inv(st) && st.open.Some?
    ensures Inv(RecordTransaction(st, tx)) && Extends(st, RecordTransaction(st, tx))
  {
  }

  lemma ListPutKeeps(st: OrderState, m: OrderMessage)
    requires Inv(st) && st.open.Some?
    requires m.body.Fulfillment? || m.body.Refund? || m.body.PaymentSent?
    requires m.body.Fulfillment? ==> st.confirmation.Some?
    requires m.body.Refund? ==> st.cancel.None?
    ensures Inv(Put(st, m)) && Extends(st, Put(st, m))
  {
    var st' := Put(st, m);
    if !AlreadyListed(st, m.body) {
      match m.body
      case Fulfillment(_, _) =>
        forall i | 0 <= i < |st.fulfillments| ensures !SharesItem(st'.fulfillments[i].body, m.body) {
          assert st.fulfillments[i] in st.fulfillments;
        }
      case Refund(_, _, _) =>
        forall i | 0 <= i < |st.refunds| ensures !SamePayout(st'.refunds[i].body, m.body) {
          assert st.refunds[i] in st.refunds;
        }
      case PaymentSent(_) =>
        forall i | 0 <= i < |st.paymentsSent| ensures !SamePayment(st'.paymentsSent[i].body, m.body) {
          assert st.paymentsSent[i] in st.paymentsSent;
        }
    }
  }

  lemma SameLists(st: OrderState, st': OrderState)
    requires Lists(st)
    requires st'.fulfillments == st.fulfillments && st'.refunds == st.refunds
    requires st'.paymentsSent == st.paymentsSent && st'.transactions == st.transactions
    ensures Lists(st')
  {
  }

  /** A message stored in a slot that was empty and not ruled out. */
  ghost predicate Slottable(st: OrderState, m: OrderMessage) {
    && st.open.Some?
    && !m.body.Open? && !m.body.Fulfillment? && !m.body.Refund? && !m.body.PaymentSent?
    && SlotOf(st, m.body).None? && !Barred(st, m.body)
  }

  lemma SlotPutKeepsExclusions(st: OrderState, m: OrderMessage)
    requires Exclusions(st) && Slottable(st, m)
    ensures Exclusions(Insert(st, m))
  {
  }

  lemma SlotPutKeepsTypes(st: OrderState, m: OrderMessage)
    requires SlotTypes(st) && Slottable(st, m)
    ensures SlotTypes(Insert(st, m))
  {
    match m.body
    case Reject(_, _) => assert Insert(st, m) == st.(reject := Some(m));
    case Cancel(_, _) => assert Insert(st, m) == st.(cancel := Some(m));
    case Confirmation(_, _) => assert Insert(st, m) == st.(confirmation := Some(m));
    case Complete(_, _, _, _) => assert Insert(st, m) == st.(complete := Some(m));
    case _ =>
  }

  lemma SlotPutExtends(st: OrderState, m: OrderMessage)
    requires Slottable(st, m)
    ensures Extends(st, Insert(st, m))
  {
    match m.body
    case Reject(_, _) => assert Insert(st, m) == st.(reject := Some(m));
    case Cancel(_, _) => assert Insert(st, m) == st.(cancel := Some(m));
    case Confirmation(_, _) => assert Insert(st, m) == st.(confirmation := Some(m));
    case Complete(_, _, _, _) => assert Insert(st, m) == st.(complete := Some(m));
    case _ =>
  }

  lemma SlotPutKeeps(st: OrderState, m: OrderMessage)
    requires Inv(st) && Slottable(st, m)
    ensures Put(st, m) == Insert(st, m)
    ensures Inv(Put(st, m)) && Extends(st, Put(st, m))
  {
    hide Lists, Exclusions, SlotTypes, Extends, Put, Insert, Slottable;
    SlotPutKeepsLists(st, m);
    SlotPutKeepsExclusions(st, m);
    SlotPutKeepsTypes(st, m);
    SlotPutExtends(st, m);
  }

  lemma SlotPutKeepsLists(st: OrderState, m: OrderMessage)
    requires Lists(st) && Slottable(st, m)
    ensures Put(st, m) == Insert(st, m) && Lists(Insert(st, m))
  {
    hide Lists, Barred;
    SameLists(st, Insert(st, m));
  }

  lemma SpendKeeps(ctx: Context, st: OrderState, txid: TxID)
    requires Inv(st) && st.open.Some?
    ensures
      var st' := RecordSpend(ctx, st, txid);
      Inv(st') && Extends(st, st') && st' == st.(transactions := st'.transactions)
  {
    if txid in ctx.wallet {
      RecordKeeps(st, LookUp(ctx, txid));
    }
  }

  lemma RatingPutKeeps(st: OrderState, m: OrderMessage)
    requires Inv(st) && st.open.Some? && m.body.RatingSignatures?
    ensures Inv(Put(st, m)) && Extends(st, Put(st, m))
  {
  }

  lemma PaymentKeeps(cfg: Config, ctx: Context, st: OrderState, tx: Transaction)
    requires Inv(st) && st.open.Some?
    ensures Inv(IncomingPayment(cfg, ctx, st, tx).st) && Extends(st, IncomingPayment(cfg, ctx, st, tx).st)
  {
    assert OpenOf(st).Some?;
    hide Inv, Extends, Put, AlreadyListed;
    var paid := RecordTransaction(st, tx);
    RecordKeeps(st, tx);
    if KnowsTransaction(st.transactions, tx.id) {
    } else if st.role.RoleBuyer? {
      ListPutKeeps(paid, PaymentNotice(cfg, st, tx));
      ExtendsTransitive(st, paid, Put(paid, PaymentNotice(cfg, st, tx)));
    } else if st.role.RoleVendor? && IsFunded(paid) {
      var notice := RatingNotice(cfg, ctx, st, OpenOf(st).value);
      RatingPutKeeps(paid, notice);
      ExtendsTransitive(st, paid, Put(paid, notice));
    }
  }

  lemma OpenKeeps(cfg: Config, ctx: Context, st: OrderState, peer: PeerID, m: OrderMessage)
    requires Inv(st) && st.open.None? && m.body.Open?
    ensures Inv(AcceptOpen(cfg, ctx, st, peer, m).st) && Extends(st, AcceptOpen(cfg, ctx, st, peer, m).st)
  {
  }

  lemma RefundKeeps(cfg: Config, ctx: Context, st: OrderState, open: OrderOpen, m: OrderMessage)
    requires Inv(st) && st.open.Some? && m.body.Refund? && st.cancel.None?
    ensures
      var st' := AcceptRefund(cfg, ctx, st, open, m).st;
      Inv(st') && Extends(st, st')
  {
    ListPutKeeps(st, m);
    assert Extends(st, st) && Put(st, m).open.Some?;
    hide Inv, Extends, Put, AlreadyListed;
    if m.body.info.PaidBy? {
      SpendKeeps(ctx, Put(st, m), m.body.info.txid);
      ExtendsTransitive(st, Put(st, m), RecordSpend(ctx, Put(st, m), m.body.info.txid));
    }
  }

  lemma SpendPutKeeps(ctx: Context, st: OrderState, txid: TxID, m: OrderMessage)
    requires Inv(st) && Slottable(st, m)
    requires m.body.Cancel? || m.body.Confirmation?
    ensures
      var st' := Put(RecordSpend(ctx, st, txid), m);
      Inv(st') && Extends(st, st')
  {
    SpendKeeps(ctx, st, txid);
    var mid := RecordSpend(ctx, st, txid);
    assert Slottable(mid, m);
    hide Inv, Extends, Put, Slottable, RecordSpend;
    SlotPutKeeps(mid, m);
    ExtendsTransitive(st, mid, Put(mid, m));
  }

  lemma DisputeKeeps(cfg: Config, ctx: Context, st: OrderState, open: OrderOpen, m: OrderMessage)
    requires Inv(st) && Slottable(st, m) && m.body.DisputeOpen? && open.moderator.Some?
    ensures
      var st' := AcceptDispute(cfg, ctx, st, open, m).st;
      Inv(st') && Extends(st, st')
  {
    var notice := ContractNotice(cfg, ctx, st);
    SlotPutKeeps(st, m);
    assert Slottable(st, notice);
    SlotPutKeeps(st, notice);
    var mid := Put(st, notice);
    assert mid == st.(disputeUpdate := Some(notice));
    assert Slottable(mid, m);
    hide Inv, Extends, Put, Slottable;
    SlotPutKeeps(mid, m);
    ExtendsTransitive(st, mid, Put(mid, m));
  }

  lemma PaymentSentKeeps(cfg: Config, ctx: Context, st: OrderState, open: OrderOpen, m: OrderMessage)
    requires Inv(st) && st.open.Some? && m.body.PaymentSent?
    ensures
      var st' := AcceptPaymentSent(cfg, ctx, st, open, m).st;
      Inv(st') && Extends(st, st')
  {
    ListPutKeeps(st, m);
    assert Extends(st, st) && Put(st, m).open.Some?;
    hide Inv, Extends, Put, AlreadyListed, IncomingPayment;
    if m.body.paid in ctx.wallet {
      var mid := Put(st, m);
      PaymentKeeps(cfg, ctx, mid, LookUp(ctx, m.body.paid));
      ExtendsTransitive(st, mid, IncomingPayment(cfg, ctx, mid, LookUp(ctx, m.body.paid)).st);
    }
  }

  lemma AcceptKeeps(cfg: Config, ctx: Context, st: OrderState, peer: PeerID, m: OrderMessage)
    requires Inv(st) && Judge(cfg, st, m).Accept?
    ensures
      var st' := AfterAccept(cfg, ctx, st, peer, m).st;
      Inv(st') && Extends(st, st')
  {
    hide Inv, Extends, AlreadyListed, PaidFrom, PaysTo;
    if m.body.Open? {
      OpenKeeps(cfg, ctx, st, peer, m);
    } else {
      var open := OpenOf(st).value;
      assert st.open.Some?;
      match m.body
      case Cancel(txid, _) => if txid.Some? { SpendPutKeeps(ctx, st, txid.value, m); } SlotPutKeeps(st, m);
      case Confirmation(txid, _) => if txid.Some? { SpendPutKeeps(ctx, st, txid.value, m); } SlotPutKeeps(st, m);
      case Fulfillment(_, _) => ListPutKeeps(st, m);
      case DisputeOpen(_, _) => DisputeKeeps(cfg, ctx, st, open, m);
      case Refund(_, _, _) => RefundKeeps(cfg, ctx, st, open, m);
      case PaymentSent(_) => PaymentSentKeeps(cfg, ctx, st, open, m);
      case _ => SlotPutKeeps(st, m);
    }
  }

  // ---- what no accepted message touches -----------------------------------------------------------

  /** The order's ID, its acknowledgement flags and its parked messages. */
  ghost predicate SameBooks(a: OrderState, b: OrderState) {
    a.id == b.id && a.acked == b.acked && a.parked == b.parked
  }

  lemma PutKeepsBooks(st: OrderState, m: OrderMessage)
    ensures SameBooks(st, Put(st, m))
  {
  }

  lemma PaymentKeepsBooks(cfg: Config, ctx: Context, st: OrderState, tx: Transaction)
    ensures SameBooks(st, IncomingPayment(cfg, ctx, st, tx).st)
  {
    hide Put, IsFunded;
    var paid := RecordTransaction(st, tx);
    PutKeepsBooks(paid, PaymentNotice(cfg, st, tx));
    if OpenOf(st).Some? {
      PutKeepsBooks(paid, RatingNotice(cfg, ctx, st, OpenOf(st).value));
    }
  }

  lemma WalletKeepsBooks(cfg: Config, ctx: Context, st: OrderState, tx: Transaction)
    ensures SameBooks(st, WalletEvent(cfg, ctx, st, tx).st)
  {
    hide IncomingPayment;
    PaymentKeepsBooks(cfg, ctx, st, tx);
  }

  lemma AcceptKeepsBooks(cfg: Config, ctx: Context, st: OrderState, peer: PeerID, m: OrderMessage)
    requires Judge(cfg, st, m).Accept?
    ensures SameBooks(st, AfterAccept(cfg, ctx, st, peer, m).st)
  {
    hide Put, IncomingPayment;
    PutKeepsBooks(st, m);
    match m.body
    case Cancel(txid, _) => if txid.Some? { PutKeepsBooks(RecordSpend(ctx, st, txid.value), m); }
    case Confirmation(txid, _) => if txid.Some? { PutKeepsBooks(RecordSpend(ctx, st, txid.value), m); }
    case DisputeOpen(_, _) =>
      var notice := ContractNotice(cfg, ctx, st);
      PutKeepsBooks(st, notice);
      PutKeepsBooks(Put(st, notice), m);
    case PaymentSent(txid) =>
      if txid in ctx.wallet {
        PaymentKeepsBooks(cfg, ctx, Put(st, m), LookUp(ctx, txid));
      }
    case _ =>
  }

  /** A handler call may set the order's ID and park its own message, and leaves the rest of the books alone. */
  lemma HandleKeepsBooks(cfg: Config, ctx: Context, st: OrderState, peer: PeerID, m: OrderMessage)
    ensures
      var st' := Handle(cfg, ctx, st, peer, m).st;
      && st'.id == (if m.body.Open? then Some(m.orderID) else st.id)
      && st'.acked == st.acked
      && (st'.parked == st.parked || st'.parked == st.parked + [m])
      && ((OpenOf(st).Some? || m.body.Open?) && !m.body.Fulfillment? ==> st'.parked == st.parked)
  {
    hide AfterAccept;
    var st0 := if m.body.Open? then st.(id := Some(m.orderID)) else st;
    if Judge(cfg, st0, m).Accept? {
      AcceptKeepsBooks(cfg, ctx, st0, peer, m);
    }
  }

  /** One handler call, whatever the message and whoever signed it. */
  lemma HandleKeeps(cfg: Config, ctx: Context, st: OrderState, peer: PeerID, m: OrderMessage)
    requires Inv(st)
    ensures Inv(Handle(cfg, ctx, st, peer, m).st) && Extends(st, Handle(cfg, ctx, st, peer, m).st)
  {
    var st0 := if m.body.Open? then st.(id := Some(m.orderID)) else st;
    assert Inv(st0) && Extends(st, st0) && Inv(Park(st0, m)) && Extends(st0, Park(st0, m));
    hide Inv, Extends, Judge, AfterAccept, Park;
    ExtendsTransitive(st, st0, Park(st0, m));
    if Judge(cfg, st0, m).Accept? {
      AcceptKeeps(cfg, ctx, st0, peer, m);
      ExtendsTransitive(st, st0, AfterAccept(cfg, ctx, st0, peer, m).st);
    }
  }

  lemma VerifiedKeeps(cfg: Config, ctx: Context, st: OrderState, peer: PeerID, m: OrderMessage)
    requires Inv(st)
    ensures Inv(Verified(cfg, ctx, st, peer, m).st) && Extends(st, Verified(cfg, ctx, st, peer, m).st)
  {
    assert Extends(st, st);
    hide Inv, Extends, Handle;
    HandleKeeps(cfg, ctx, st, peer, m);
  }

  lemma RetryOneKeeps(cfg: Config, ctx: Context, st: OrderState, peer: PeerID, m: OrderMessage, x: OrderMessage)
    requires Inv(st)
    ensures Inv(RetryOne(cfg, ctx, st, peer, m, x).st) && Extends(st, RetryOne(cfg, ctx, st, peer, m, x).st)
  {
    var st' := Verified(cfg, ctx, st, peer, x).st;
    VerifiedKeeps(cfg, ctx, st, peer, x);
    var logged := st'.(errored := st'.errored + [m]);
    assert Extends(st, st) && Inv(logged) && Extends(st', logged);
    hide Inv, Extends, Verified;
    ExtendsTransitive(st, st', logged);
  }

  lemma {:induction false} RetryKeeps(cfg: Config, ctx: Context, st: OrderState, peer: PeerID, m: OrderMessage, xs: seq<OrderMessage>)
    requires Inv(st)
    ensures Inv(Retry(cfg, ctx, st, peer, m, xs).st) && Extends(st, Retry(cfg, ctx, st, peer, m, xs).st)
  {
    assert Extends(st, st);
    hide Inv, Extends, RetryOne;
    if xs != [] {
      var mid := Retry(cfg, ctx, st, peer, m, xs[..|xs| - 1]).st;
      RetryKeeps(cfg, ctx, st, peer, m, xs[..|xs| - 1]);
      RetryOneKeeps(cfg, ctx, mid, peer, m, xs[|xs| - 1]);
      ExtendsTransitive(st, mid, RetryOne(cfg, ctx, mid, peer, m, xs[|xs| - 1]).st);
    }
  }

  lemma ProcessKeeps(cfg: Config, ctx: Context, row: Option<OrderState>, peer: PeerID, m: OrderMessage, xs: seq<OrderMessage>)
    requires Inv(Loaded(row))
    ensures Inv(Process(cfg, ctx, row, peer, m, xs).st) && Extends(Loaded(row), Process(cfg, ctx, row, peer, m, xs).st)
  {
    var st := Loaded(row);
    if Premature(row, m) {
    } else {
      hide Inv, Extends, Verified, Retry;
      var mid := Verified(cfg, ctx, st, peer, m).st;
      VerifiedKeeps(cfg, ctx, st, peer, m);
      RetryKeeps(cfg, ctx, mid, peer, m, xs);
      ExtendsTransitive(st, mid, Retry(cfg, ctx, mid, peer, m, xs).st);
    }
  }

  lemma WalletKeeps(cfg: Config, ctx: Context, st: OrderState, tx: Transaction)
    requires Inv(st)
    ensures Inv(WalletEvent(cfg, ctx, st, tx).st) && Extends(st, WalletEvent(cfg, ctx, st, tx).st)
  {
    assert Extends(st, st);
    if st.open.None? {
      assert !PaysTo(tx, st.paymentAddress) && !PaidFrom(tx, st.paymentAddress);
    } else {
      var mid := if PaysTo(tx, st.paymentAddress) then IncomingPayment(cfg, ctx, st, tx).st else st;
      PaymentKeeps(cfg, ctx, st, tx);
      assert mid.open.Some?;
      hide Inv, Extends, IncomingPayment, RecordTransaction;
      RecordKeeps(mid, tx);
      ExtendsTransitive(st, mid, RecordTransaction(mid, tx));
    }
  }

  lemma NextKeeps(cfg: Config, id: OrderID, row: Option<OrderState>, ev: Event)
    requires Inv(Loaded(row))
    ensures
      var row' := NextRow(cfg, id, row, ev);
      Inv(Loaded(row')) && Extends(Loaded(row), Loaded(row'))
  {
    assert Extends(Loaded(row), Loaded(row));
    match ev
    case Message(ctx, peer, m, xs) =>
      hide Inv, Extends, Process;
      ProcessKeeps(cfg, ctx, row, peer, m, xs);
    case Wallet(ctx, tx) =>
      hide Inv, Extends, WalletEvent;
      WalletKeeps(cfg, ctx, Loaded(row), tx);
    case Acked(_) =>
  }

  // ---- whole runs ------------------------------------------------------------------------------

  /** The invariant holds after every run of messages, wallet events and acknowledgements. */
  lemma {:induction false} EveryRunKeepsInvariant(cfg: Config, id: OrderID, evs: seq<Event>)
    ensures Inv(Loaded(Rows(cfg, id, evs)))
  {
    if evs == [] {
      assert Inv(BLANK);
    } else {
      EveryRunKeepsInvariant(cfg, id, evs[..|evs| - 1]);
      NextKeeps(cfg, id, Rows(cfg, id, evs[..|evs| - 1]), evs[|evs| - 1]);
    }
  }

  /** Whatever a run has stored, every longer run still holds: slots are write-once, lists append-only. */
  lemma {:induction false} EveryRunOnlyAdds(cfg: Config, id: OrderID, evs: seq<Event>, n: nat)
    requires n <= |evs|
    ensures Extends(Loaded(Rows(cfg, id, evs[..n])), Loaded(Rows(cfg, id, evs)))
  {
    if n == |evs| {
      assert evs[..n] == evs;
    } else {
      var before := evs[..|evs| - 1];
      assert before[..n] == evs[..n];
      EveryRunOnlyAdds(cfg, id, before, n);
      EveryRunKeepsInvariant(cfg, id, before);
      NextKeeps(cfg, id, Rows(cfg, id, before), evs[|evs| - 1]);
      ExtendsTransitive(Loaded(Rows(cfg, id, evs[..n])), Loaded(Rows(cfg, id, before)), Loaded(Rows(cfg, id, evs)));
    }
  }

  /** The consequences a reader of the order relies on, for every reachable row. */
  lemma ReachableOrders(cfg: Config, id: OrderID, evs: seq<Event>)
    requires Rows(cfg, id, evs).Some?
    ensures
      var st := Rows(cfg, id, evs).value;
      && !(st.reject.Some? && st.confirmation.Some?)
      && (st.fulfillments != [] ==> st.confirmation.Some? && st.open.Some? && st.reject.None?)
      && (st.confirmation.Some? ==> st.open.Some?)
      && NoSharedItems(st.fulfillments)
      && NoSharedPayouts(st.refunds)
      && NoSharedPayments(st.paymentsSent)
      && DistinctTransactions(st.transactions)
  {
    EveryRunKeepsInvariant(cfg, id, evs);
  }

  // ---- guards of the local actions ---------------------------------------------------------------

  lemma RejectGuard(cfg: Config, ctx: Context, st: OrderState, peer: PeerID, m: OrderMessage)
    requires CanReject(st) && m.body.Reject?
    ensures Handle(cfg, ctx, st, peer, m).err == NoError
    ensures Handle(cfg, ctx, st, peer, m).st == st.(reject := Some(m))
  {
  }

  lemma ConfirmGuard(cfg: Config, ctx: Context, st: OrderState, peer: PeerID, m: OrderMessage)
    requires CanConfirm(st) && m.body.Confirmation?
    ensures Handle(cfg, ctx, st, peer, m).err != ErrUnexpectedMessage
    ensures OpenOf(st).value.coin in cfg.coins ==>
      Handle(cfg, ctx, st, peer, m).err == NoError && Handle(cfg, ctx, st, peer, m).st.confirmation == Some(m)
  {
  }

  lemma CancelGuard(cfg: Config, ctx: Context, st: OrderState, peer: PeerID, m: OrderMessage)
    requires CanCancel(st) && m.body.Cancel?
    ensures Handle(cfg, ctx, st, peer, m).err != ErrUnexpectedMessage
    ensures OpenOf(st).value.coin in cfg.coins ==>
      Handle(cfg, ctx, st, peer, m).err == NoError && Handle(cfg, ctx, st, peer, m).st.cancel == Some(m)
  {
  }

  lemma RefundGuard(cfg: Config, ctx: Context, st: OrderState, peer: PeerID, m: OrderMessage)
    requires CanRefund(st) && m.body.Refund?
    ensures Handle(cfg, ctx, st, peer, m).err != ErrUnexpectedMessage
    ensures Handle(cfg, ctx, st, peer, m).st.refunds ==
      if AlreadyListed(st, m.body) then st.refunds else st.refunds + [m]
  {
  }

  /** CanFulfill never looks at the reject slot; the invariant of every run makes up for it. */
  lemma FulfillGuard(cfg: Config, id: OrderID, evs: seq<Event>, ctx: Context, peer: PeerID, m: OrderMessage)
    requires Rows(cfg, id, evs).Some? && CanFulfill(Rows(cfg, id, evs).value) && m.body.Fulfillment?
    ensures
      var st := Rows(cfg, id, evs).value;
      var e := Handle(cfg, ctx, st, peer, m);
      && e.err == (if AlreadyListed(st, m.body) then ErrDuplicateTransaction else NoError)
      && e.st == Put(st, m)
  {
    ReachableOrders(cfg, id, evs);
  }

  /** CanComplete never looks at the cancel slot: after a cancel the handler refuses the node's own message. */
  lemma CompleteGuard(cfg: Config, ctx: Context, st: OrderState, peer: PeerID, m: OrderMessage)
    requires CanComplete(st) && m.body.Complete?
    ensures Handle(cfg, ctx, st, peer, m).err == ErrUnexpectedMessage <==> st.cancel.Some?
    ensures st.cancel.Some? ==> Handle(cfg, ctx, st, peer, m).st == st
  {
  }

  /** One message of a run in which nothing is ever parked. */
  lemma OneDelivery(cfg: Config, evs: seq<Event>, st: Option<OrderState>, m: OrderMessage, st': OrderState)
    requires Feasible(cfg, 0, evs) && Rows(cfg, 0, evs) == st && m.orderID == 0 && !Premature(st, m) && st'.parked == [] && st'.id == Some(0)
    requires Verified(cfg, Context(map[], 0), Loaded(st), m.signer, m).st == st'
    ensures
      var ev := Message(Context(map[], 0), m.signer, m, []);
      Rows(cfg, 0, evs + [ev]) == Some(st') && Feasible(cfg, 0, evs + [ev])
  {
    hide Verified, Rows;
    var ev := Message(Context(map[], 0), m.signer, m, []);
    RowsSnoc(cfg, evs, ev);
    var more := evs + [ev];
    forall i | 0 <= i < |more| && more[i].Message?
      ensures RetriesOf(cfg, more[i].ctx, Rows(cfg, 0, more[..i]), more[i].peer, more[i].m, more[i].xs)
    {
      if i < |evs| {
        assert more[i] == evs[i] && more[..i] == evs[..i];
      } else {
        assert more[..i] == evs;
      }
    }
  }

  lemma RowsSnoc(cfg: Config, evs: seq<Event>, ev: Event)
    ensures Rows(cfg, 0, evs + [ev]) == NextRow(cfg, 0, Rows(cfg, 0, evs), ev)
  {
    hide NextRow;
    assert (evs + [ev])[..|evs|] == evs;
  }

  /** Every message event of the run retries what its first pass left parked. */
  ghost predicate Feasible(cfg: Config, id: OrderID, evs: seq<Event>) {
    forall i {:trigger evs[i]} | 0 <= i < |evs| && evs[i].Message? ::
      RetriesOf(cfg, evs[i].ctx, Rows(cfg, id, evs[..i]), evs[i].peer, evs[i].m, evs[i].xs)
  }

  /** What the four handlers of that run do, the wallet knowing nothing. */
  lemma StoryOpens(cfg: Config, ctx: Context, m: OrderMessage)
    requires m.body.Open? && m.body.open.buyer == cfg.identity
    ensures Verified(cfg, ctx, BLANK, m.signer, m).st ==
      BLANK.(id := Some(m.orderID), role := RoleBuyer, isOpen := true,
             paymentAddress := Some(m.body.open.address), open := Some(m))
  {
  }

  lemma StoryGoesOn(cfg: Config, ctx: Context, st: OrderState, m: OrderMessage)
    requires OpenOf(st).Some? && OpenOf(st).value.coin in cfg.coins && st.reject.None?
    requires
      || (m.body.Cancel? && m.body.txid.None? && st.cancel.None?)
      || (m.body.Confirmation? && m.body.txid.None? && st.confirmation.None?)
      || (m.body.Fulfillment? && st.confirmation.Some? && st.fulfillments == [])
    ensures Verified(cfg, ctx, st, m.signer, m).st == Insert(st, m)
  {
  }

  /**
   A run that ends there: the buyer opens and cancels, and the vendor's confirmation and fulfilment,
   sent before the cancel arrived, come in afterwards.
   */
  lemma CompleteGuardCanMislead(cfg: Config) returns (evs: seq<Event>)
    requires cfg.identity == 1 && 0 in cfg.coins
    ensures Feasible(cfg, 0, evs)
    ensures Rows(cfg, 0, evs).Some? && CanComplete(Rows(cfg, 0, evs).value) && Rows(cfg, 0, evs).value.cancel.Some?
  {
    hide Rows, Verified, Feasible;
    var open := OrderOpen(1, 2, None, Cancelable, 0, 100, 7, 8, 1, 1);
    var om, k := OrderMessage(0, Open(open), 1), OrderMessage(0, Cancel(None, 0), 1);
    var c, f := OrderMessage(0, Confirmation(None, 0), 2), OrderMessage(0, Fulfillment([0], 0), 2);
    var begun := BLANK.(id := Some(0), role := RoleBuyer, isOpen := true, paymentAddress := Some(7), open := Some(om));
    var cancelled := begun.(cancel := Some(k));
    var confirmed := cancelled.(confirmation := Some(c));
    var fulfilled := confirmed.(fulfillments := [f]);
    var ctx := Context(map[], 0);
    StoryOpens(cfg, ctx, om);
    StoryGoesOn(cfg, ctx, begun, k);
    StoryGoesOn(cfg, ctx, cancelled, c);
    StoryGoesOn(cfg, ctx, confirmed, f);
    NoRows(cfg);
    var e0, e1 := Message(ctx, 1, om, []), Message(ctx, 1, k, []);
    var e2, e3 := Message(ctx, 2, c, []), Message(ctx, 2, f, []);
    OneDelivery(cfg, [], None, om, begun);
    OneDelivery(cfg, [] + [e0], Some(begun), k, cancelled);
    OneDelivery(cfg, [] + [e0] + [e1], Some(cancelled), c, confirmed);
    OneDelivery(cfg, [] + [e0] + [e1] + [e2], Some(confirmed), f, fulfilled);
    evs := [] + [e0] + [e1] + [e2] + [e3];
    assert f in fulfilled.fulfillments && Delivered(fulfilled.fulfillments, 0);
  }

  lemma NoRows(cfg: Config)
    ensures Rows(cfg, 0, []).None? && Feasible(cfg, 0, [])
  {
  }
}
