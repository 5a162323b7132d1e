/**
 Delivery and the order rules together: at the end of every disciplined two-party run, whatever the
 network did, buyer and vendor hold the same order.
 */
module OrderAgreement {
  import opened Common
  import opened OrderModel
  import opened OrderRules
  import opened OrderInvariants
  import opened OrderConvergence
  import opened OrderRuns
  import opened OrderMessaging
  import opened OrderDelivery

  /** A buyer and a vendor, an order between them that is not moderated, and a currency both support. */
  ghost predicate Fit(w: World) {
    && w.om.body.Open? && !w.om.body.open.terms.Moderated?
    && w.om.signer == w.buyer.identity == w.om.body.open.buyer
    && w.vendor.identity == w.om.body.open.vendor != w.buyer.identity
    && w.om.body.open.coin in w.buyer.coins && w.om.body.open.coin in w.vendor.coins
  }

  function Msgs(outs: seq<Outgoing>): set<OrderMessage> {
    set o | o in outs :: o.msg
  }

  // ---- what a handler sends ----------------------------------------------------------------------

  /** The order was opened by `om`, in the role this node plays in it. */
  ghost predicate Ripe(cfg: Config, om: OrderMessage, st: OrderState)
    requires om.body.Open?
  {
    && Inv(st) && st.id == Some(om.orderID)
    && (st.open.Some? ==> st.open == Some(om) && st.role == RoleIn(cfg, om.body.open))
  }

  ghost predicate IsRating(w: World, o: Outgoing)
    requires w.om.body.Open?
  {
    && o.to == w.om.body.open.buyer && o.msg.body.RatingSignatures?
    && o.msg.signer == w.vendor.identity && o.msg.orderID == w.om.orderID
  }

  /** The vendor's answer, at the given time, to an order that does not validate. */
  function Refusal(w: World, stamp: nat): Outgoing {
    Outgoing(w.om.signer, AutoReject(w.vendor, w.om.orderID, stamp))
  }

  /** Messages of this order; the buyer never handles a payment notice. */
  ghost predicate Proper(w: World, s: Side, m: OrderMessage) {
    m.orderID == w.om.orderID && (m.body.Open? ==> m == w.om) && (s.Buyer? ==> !m.body.PaymentSent?)
  }

  lemma PaymentReplies(w: World, s: Side, ctx: Context, st: OrderState, m: OrderMessage)
    requires Fit(w) && Ripe(ConfigOf(w, s), w.om, st) && st.open.Some? && m.body.PaymentSent? && s.Vendor?
    ensures forall o <- AcceptPaymentSent(ConfigOf(w, s), ctx, st, w.om.body.open, m).sent :: IsRating(w, o)
  {
  }

  lemma HandleReplies(w: World, s: Side, ctx: Context, st: OrderState, m: OrderMessage)
    requires Fit(w) && Ripe(ConfigOf(w, s), w.om, st) && Proper(w, s, m)
    ensures
      var sent := Handle(ConfigOf(w, s), ctx, st, m.signer, m).sent;
      if m == w.om && st.open.None? && AutoRejects(ConfigOf(w, s), w.om.body.open)
      then s.Vendor? && sent == [Refusal(w, ctx.stamp)]
      else forall o <- sent :: s.Vendor? && IsRating(w, o)
    ensures st.open.None? && !m.body.Open? ==> Handle(ConfigOf(w, s), ctx, st, m.signer, m).sent == []
  {
    if m.body.PaymentSent? && st.open.Some? {
      PaymentReplies(w, s, ctx, st, m);
    }
  }

  lemma HandleRipe(cfg: Config, ctx: Context, om: OrderMessage, st: OrderState, peer: PeerID, m: OrderMessage)
    requires om.body.Open? && Ripe(cfg, om, st) && m.orderID == om.orderID && (m.body.Open? ==> m == om)
    ensures Ripe(cfg, om, Handle(cfg, ctx, st, peer, m).st)
    ensures ParkedGrows(st, Handle(cfg, ctx, st, peer, m).st, m)
    ensures (st.open.Some? || m.body.Open?) && !m.body.Fulfillment? ==> Handle(cfg, ctx, st, peer, m).st.parked == st.parked
  {
    HandleKeeps(cfg, ctx, st, peer, m);
    HandleKeepsBooks(cfg, ctx, st, peer, m);
    if st.open.None? && !m.body.Open? {
      WaitingHandle(cfg, ctx, st, peer, m);
    } else if st.open.None? {
      assert Handle(cfg, ctx, st, peer, m).st == AcceptOpen(cfg, ctx, st.(id := Some(m.orderID)), peer, m).st;
    }
  }

  ghost predicate AllFulfillments(ms: seq<OrderMessage>) {
    forall m <- ms :: m.body.Fulfillment?
  }

  /** A retried message goes through its handler only if the delivering peer signed it. */
  lemma RetryOneStep(w: World, s: Side, ctx: Context, st: OrderState, m: OrderMessage, x: OrderMessage)
    requires Fit(w) && Ripe(ConfigOf(w, s), w.om, st) && Proper(w, s, x)
    requires st.open.None? ==> !x.body.Open?
    ensures
      var e := RetryOne(ConfigOf(w, s), ctx, st, m.signer, m, x);
      && Ripe(ConfigOf(w, s), w.om, e.st)
      && e.st.open == st.open && Kept(st.reject, e.st.reject)
      && ParkedGrows(st, e.st, x)
      && (st.open.Some? && !x.body.Fulfillment? ==> e.st.parked == st.parked)
      && (st.open.None? ==> e.sent == [])
      && forall o <- e.sent :: s.Vendor? && IsRating(w, o)
  {
    hide Handle, Ripe, IsRating;
    var cfg := ConfigOf(w, s);
    HandleReplies(w, s, ctx, st, x);
    HandleRipe(cfg, ctx, w.om, st, m.signer, x);
    HandleOpensNothing(cfg, ctx, w.om, st, m.signer, x);
    ErroredIsRipe(cfg, w.om, Handle(cfg, ctx, st, m.signer, x).st, m);
    ErroredIsRipe(cfg, w.om, st, m);
  }

  lemma HandleOpensNothing(cfg: Config, ctx: Context, om: OrderMessage, st: OrderState, peer: PeerID, x: OrderMessage)
    requires om.body.Open? && Ripe(cfg, om, st) && (st.open.None? ==> !x.body.Open?)
    ensures
      var st' := Handle(cfg, ctx, st, peer, x).st;
      st'.open == st.open && Kept(st.reject, st'.reject)
  {
    HandleKeeps(cfg, ctx, st, peer, x);
    if st.open.None? {
      WaitingHandle(cfg, ctx, st, peer, x);
    }
    hide Handle, Inv;
  }

  lemma ErroredIsRipe(cfg: Config, om: OrderMessage, st: OrderState, m: OrderMessage)
    requires om.body.Open? && Ripe(cfg, om, st)
    ensures Ripe(cfg, om, st.(errored := st.errored + [m]))
  {
    var st' := st.(errored := st.errored + [m]);
    assert Exclusions(st) && SlotTypes(st) && Lists(st) && Exclusions(st') && SlotTypes(st') && Lists(st');
  }

  lemma {:induction false} RetryReplies(w: World, s: Side, ctx: Context, st: OrderState, m: OrderMessage, xs: seq<OrderMessage>)
    requires Fit(w) && Ripe(ConfigOf(w, s), w.om, st)
    requires forall x <- xs :: Proper(w, s, x) && (st.open.None? ==> !x.body.Open?)
    ensures
      var e := Retry(ConfigOf(w, s), ctx, st, m.signer, m, xs);
      && Ripe(ConfigOf(w, s), w.om, e.st) && e.st.open == st.open && Kept(st.reject, e.st.reject)
      && (st.open.Some? && AllFulfillments(st.parked) ==> AllFulfillments(e.st.parked))
      && (st.open.None? ==> e.sent == [])
      && forall o <- e.sent :: s.Vendor? && IsRating(w, o)
  {
    hide RetryOne, Ripe, Fit, Proper, IsRating;
    if xs != [] {
      RetryReplies(w, s, ctx, st, m, xs[..|xs| - 1]);
      RetryOneStep(w, s, ctx, Retry(ConfigOf(w, s), ctx, st, m.signer, m, xs[..|xs| - 1]).st, m, xs[|xs| - 1]);
    }
  }

  /** The replies to one message: ratings, and the reject of an order that does not validate. */
  ghost predicate Replies(w: World, s: Side, opening: bool, stamp: nat, sent: seq<Outgoing>)
    requires w.om.body.Open?
  {
    var refused := opening && AutoRejects(ConfigOf(w, s), w.om.body.open);
    && (forall o <- sent :: s.Vendor? && (IsRating(w, o) || (refused && o == Refusal(w, stamp))))
    && (refused ==> s.Vendor? && Refusal(w, stamp) in sent)
  }

  /** The reject slot keeps what it held, and opening an order that does not validate fills it. */
  ghost predicate RejectAfter(w: World, s: Side, st: OrderState, opening: bool, stamp: nat, st': OrderState)
    requires w.om.body.Open?
  {
    && Kept(st.reject, st'.reject)
    && (opening && AutoRejects(ConfigOf(w, s), w.om.body.open) ==>
          s.Vendor? && st'.reject == Some(AutoReject(w.vendor, w.om.orderID, stamp)))
  }

  lemma OpeningReject(w: World, s: Side, ctx: Context, st: OrderState)
    requires Fit(w) && Ripe(ConfigOf(w, s), w.om, st) && st.open.None?
    ensures RejectAfter(w, s, st, true, ctx.stamp, Handle(ConfigOf(w, s), ctx, st, w.om.signer, w.om).st)
  {
    assert Handle(ConfigOf(w, s), ctx, st, w.om.signer, w.om).st ==
      AcceptOpen(ConfigOf(w, s), ctx, st.(id := Some(w.om.orderID)), w.om.signer, w.om).st;
  }

  lemma FirstReplies(w: World, s: Side, ctx: Context, row: Option<OrderState>, m: OrderMessage)
    requires Fit(w) && (row.Some? ==> Ripe(ConfigOf(w, s), w.om, row.value)) && Proper(w, s, m)
    ensures
      var e := FirstPass(ConfigOf(w, s), ctx, row, m.signer, m);
      && Ripe(ConfigOf(w, s), w.om, e.st)
      && (e.st.open.Some? <==> m == w.om || Loaded(row).open.Some?)
      && Replies(w, s, m == w.om && Loaded(row).open.None?, ctx.stamp, e.sent)
      && RejectAfter(w, s, Loaded(row), m == w.om && Loaded(row).open.None?, ctx.stamp, e.st)
      && (e.st.open.None? ==> e.sent == [])
      && ParkedGrows(Loaded(row), e.st, m)
      && (e.st.open.Some? && !m.body.Fulfillment? ==> e.st.parked == Loaded(row).parked)
  {
    hide Handle;
    var cfg := ConfigOf(w, s);
    if Premature(row, m) {
      assert Ripe(cfg, w.om, FirstPass(cfg, ctx, row, m.signer, m).st);
    } else {
      var st := Loaded(row).(id := Some(w.om.orderID));
      assert Ripe(cfg, w.om, st);
      SameHandling(cfg, ctx, Loaded(row), m);
      HandleReplies(w, s, ctx, st, m);
      HandleRipe(cfg, ctx, w.om, st, m.signer, m);
      HandleKeeps(cfg, ctx, st, m.signer, m);
      OpensOnlyBy(cfg, ctx, w.om, st, m);
      if m == w.om && st.open.None? {
        OpeningReject(w, s, ctx, st);
      }
    }
  }

  lemma SameHandling(cfg: Config, ctx: Context, st: OrderState, m: OrderMessage)
    requires m.body.Open? || st.id == Some(m.orderID)
    ensures Handle(cfg, ctx, st, m.signer, m) == Handle(cfg, ctx, st.(id := Some(m.orderID)), m.signer, m)
  {
    assert st.id == Some(m.orderID) ==> st == st.(id := Some(m.orderID));
  }

  lemma OpensOnlyBy(cfg: Config, ctx: Context, om: OrderMessage, st: OrderState, m: OrderMessage)
    requires om.body.Open? && Ripe(cfg, om, st) && (m.body.Open? ==> m == om)
    ensures Handle(cfg, ctx, st, m.signer, m).st.open.Some? <==> m == om || st.open.Some?
  {
    HandleKeeps(cfg, ctx, st, m.signer, m);
    if st.open.None? && !m.body.Open? {
      WaitingHandle(cfg, ctx, st, m.signer, m);
    }
  }

  // ---- one node -----------------------------------------------------------------------------------

  /** The row is what the messages this node knows make of the order. */
  ghost predicate NodeAgrees(w: World, s: Side, row: Option<OrderState>, known: set<OrderMessage>)
    requires w.om.body.Open?
  {
    var cfg := ConfigOf(w, s);
    && Tracks(cfg, w.om, row, known)
    && (row.Some? ==> Ripe(cfg, w.om, row.value))
    && (w.om in known && AutoRejects(cfg, w.om.body.open) ==>
          row.Some? && row.value.reject.Some? && row.value.reject.value in known)
    && (forall x <- known :: x.orderID == w.om.orderID && (x.body.Open? ==> x == w.om))
    && (s.Buyer? ==> (w.om !in known ==> row.None? && known == {}) && AllFulfillments(Loaded(row).parked))
  }

  /** What the node may be given next. */
  ghost predicate Digestible(w: World, s: Side, known: set<OrderMessage>, m: OrderMessage)
    requires w.om.body.Open?
  {
    && Proper(w, s, m)
    && (w.om !in known + {m} ==> m.signer == w.om.signer && s.Vendor?)
    && ConflictFree(ConfigOf(w, s), w.om.body.open, known + {m})
  }

  lemma OpenIsKnown(w: World, s: Side, row: Option<OrderState>, known: set<OrderMessage>)
    requires w.om.body.Open? && NodeAgrees(w, s, row, known)
    ensures w.om in known <==> Loaded(row).open.Some?
  {
  }

  lemma RetriedMessages(w: World, s: Side, ctx: Context, row: Option<OrderState>, known: set<OrderMessage>, m: OrderMessage,
                        xs: seq<OrderMessage>)
    requires Fit(w) && NodeAgrees(w, s, row, known) && Digestible(w, s, known, m)
    requires !Premature(row, m) && RetriesOf(ConfigOf(w, s), ctx, row, m.signer, m, xs)
    ensures
      var mid := FirstPass(ConfigOf(w, s), ctx, row, m.signer, m).st;
      && (forall x <- xs :: Proper(w, s, x) && (mid.open.None? ==> !x.body.Open?))
      && (s.Buyer? ==> mid.open.Some? && AllFulfillments(mid.parked))
  {
    hide ConflictFree, Absorbed, FirstPass, Inv, Exclusions;
    var mid := FirstPass(ConfigOf(w, s), ctx, row, m.signer, m).st;
    OpenIsKnown(w, s, row, known);
    FirstReplies(w, s, ctx, row, m);
    SortKeepsElems(mid.parked, xs);
    assert forall x <- xs :: x in Elems(xs);
    assert forall x <- Loaded(row).parked :: x in Elems(Loaded(row).parked);
    assert forall x <- mid.parked :: x in Loaded(row).parked || x == m;
    assert row.Some? ==> Elems(row.value.parked) <= known;
    assert s.Buyer? ==> AllFulfillments(mid.parked);
  }

  lemma ProcessReplies(w: World, s: Side, ctx: Context, row: Option<OrderState>, known: set<OrderMessage>, m: OrderMessage,
                       xs: seq<OrderMessage>)
    requires Fit(w) && NodeAgrees(w, s, row, known) && Digestible(w, s, known, m)
    requires RetriesOf(ConfigOf(w, s), ctx, row, m.signer, m, xs)
    ensures
      var e := Process(ConfigOf(w, s), ctx, row, m.signer, m, xs);
      && NextRow(ConfigOf(w, s), w.om.orderID, row, Message(ctx, m.signer, m, xs)) == Some(e.st)
      && Ripe(ConfigOf(w, s), w.om, e.st)
      && Replies(w, s, m == w.om && Loaded(row).open.None?, ctx.stamp, e.sent)
      && RejectAfter(w, s, Loaded(row), m == w.om && Loaded(row).open.None?, ctx.stamp, e.st)
      && (s.Buyer? ==> AllFulfillments(e.st.parked))
      && (w.om !in known + {m} ==> e.sent == [])
  {
    hide ConflictFree, Tracks, FirstPass, Retry, Inv, Replies, RejectAfter, IsRating, AutoRejects, RetriesOf, AllFulfillments;
    var cfg := ConfigOf(w, s);
    var opening := m == w.om && Loaded(row).open.None?;
    var first := FirstPass(cfg, ctx, row, m.signer, m);
    OpenIsKnown(w, s, row, known);
    FirstReplies(w, s, ctx, row, m);
    if !Premature(row, m) {
      RetriedMessages(w, s, ctx, row, known, m, xs);
      RetryReplies(w, s, ctx, first.st, m, xs);
      var e := Retry(cfg, ctx, first.st, m.signer, m, xs);
      MoreRatings(w, s, opening, ctx.stamp, first.sent, e.sent);
      RejectStays(w, s, Loaded(row), opening, ctx.stamp, first.st, e.st);
    }
  }

  lemma MoreRatings(w: World, s: Side, opening: bool, stamp: nat, sent: seq<Outgoing>, more: seq<Outgoing>)
    requires w.om.body.Open? && Replies(w, s, opening, stamp, sent) && forall o <- more :: s.Vendor? && IsRating(w, o)
    ensures Replies(w, s, opening, stamp, sent + more)
  {
    hide IsRating, AutoRejects;
  }

  lemma RejectStays(w: World, s: Side, st: OrderState, opening: bool, stamp: nat, mid: OrderState, st': OrderState)
    requires w.om.body.Open? && RejectAfter(w, s, st, opening, stamp, mid) && Kept(mid.reject, st'.reject)
    ensures RejectAfter(w, s, st, opening, stamp, st')
  {
    hide AutoRejects;
  }

  /** A message that changes nothing that is compared: it is not stored, and no fulfilment waits for it. */
  predicate Idle(cfg: Config, open: OrderOpen, x: OrderMessage) {
    !Counts(cfg, open, x) && !x.body.Open? && !x.body.Fulfillment?
  }

  lemma SettledWithIdle(cfg: Config, om: OrderMessage, row: Option<OrderState>, d: set<OrderMessage>, rs: set<OrderMessage>)
    requires om.body.Open? && Settled(cfg, om, row, d) && forall r <- rs :: Idle(cfg, om.body.open, r)
    ensures Settled(cfg, om, row, d + rs)
  {
    var open := om.body.open;
    assert HasConfirmation(cfg, open, d + rs) <==> HasConfirmation(cfg, open, d) by {
      assert forall c <- d :: c in d + rs;
    }
    assert HasReject(cfg, open, d + rs) <==> HasReject(cfg, open, d) by {
      assert forall c <- d :: c in d + rs;
    }
    assert Ready(cfg, open, d + rs) == Ready(cfg, open, d) + rs;
    hide Absorbed, HasConfirmation, HasReject, Ready;
    AbsorbedMore(cfg, om, row.value, Ready(cfg, open, d), Ready(cfg, open, d) + rs);
  }

  /** After the message and its replies the row still is what the known messages make of the order. */
  lemma NodeProcesses(w: World, s: Side, ctx: Context, row: Option<OrderState>, known: set<OrderMessage>, m: OrderMessage,
                      xs: seq<OrderMessage>)
    requires Fit(w) && NodeAgrees(w, s, row, known) && Digestible(w, s, known, m)
    requires RetriesOf(ConfigOf(w, s), ctx, row, m.signer, m, xs)
    ensures
      var sent := Process(ConfigOf(w, s), ctx, row, m.signer, m, xs).sent;
      NodeAgrees(w, s, NextRow(ConfigOf(w, s), w.om.orderID, row, Message(ctx, m.signer, m, xs)), known + {m} + Msgs(sent))
  {
    hide Process, RetriesOf, ConflictFree, Absorbed, Inv, Exclusions, NextRow, Ripe, FulfillmentsParked, IsRating, Ready,
         Replies, RejectAfter, AutoRejects;
    var cfg := ConfigOf(w, s);
    var row' := NextRow(cfg, w.om.orderID, row, Message(ctx, m.signer, m, xs));
    var e := Process(cfg, ctx, row, m.signer, m, xs);
    var d := known + {m};
    OpenIsKnown(w, s, row, known);
    ProcessReplies(w, s, ctx, row, known, m, xs);
    HeardFollows(cfg, ctx, w.om, Moment(row, known), m.signer, m, xs);
    RepliesAreIdle(w, s, m == w.om && Loaded(row).open.None?, ctx.stamp, e.sent);
    RejectStaysKnown(w, s, Loaded(row), known, m, ctx.stamp, e);
    if w.om in d {
      SettledWithIdle(cfg, w.om, row', d, Msgs(e.sent));
    } else {
      assert d + Msgs(e.sent) == d;
    }
  }

  lemma RepliesAreIdle(w: World, s: Side, opening: bool, stamp: nat, sent: seq<Outgoing>)
    requires w.om.body.Open? && Replies(w, s, opening, stamp, sent)
    ensures forall x <- Msgs(sent) :: Idle(ConfigOf(w, s), w.om.body.open, x) && x.orderID == w.om.orderID
  {
  }

  lemma RejectStaysKnown(w: World, s: Side, st: OrderState, known: set<OrderMessage>, m: OrderMessage, stamp: nat, e: Effect)
    requires w.om.body.Open? && (w.om in known <==> st.open.Some?)
    requires w.om in known && AutoRejects(ConfigOf(w, s), w.om.body.open) ==> st.reject.Some? && st.reject.value in known
    requires Replies(w, s, m == w.om && st.open.None?, stamp, e.sent)
    requires RejectAfter(w, s, st, m == w.om && st.open.None?, stamp, e.st)
    ensures w.om in known + {m} && AutoRejects(ConfigOf(w, s), w.om.body.open) ==>
      e.st.reject.Some? && e.st.reject.value in known + {m} + Msgs(e.sent)
  {
    assert Refusal(w, stamp) in e.sent ==> Refusal(w, stamp).msg in Msgs(e.sent);
  }

  /** What the wallet makes a node send: the buyer announces a payment, the vendor signs ratings. */
  ghost predicate WalletReply(w: World, s: Side, o: Outgoing)
    requires w.om.body.Open?
  {
    if s.Vendor? then IsRating(w, o)
    else o.to == w.om.body.open.vendor && o.msg.body.PaymentSent? &&
         o.msg == OrderMessage(w.om.orderID, PaymentSent(o.msg.body.paid), w.buyer.identity)
  }

  lemma NodePays(w: World, s: Side, ctx: Context, row: Option<OrderState>, known: set<OrderMessage>, tx: Transaction)
    requires Fit(w) && NodeAgrees(w, s, row, known) && row.Some?
    ensures
      var e := WalletEvent(ConfigOf(w, s), ctx, row.value, tx);
      && (forall o <- e.sent :: WalletReply(w, s, o))
      && NodeAgrees(w, s, Some(e.st), known + Msgs(e.sent))
      && (w.om !in known ==> e.sent == [])
  {
    var cfg := ConfigOf(w, s);
    var st := row.value;
    var e := WalletEvent(cfg, ctx, st, tx);
    OpenIsKnown(w, s, row, known);
    WalletKeeps(cfg, ctx, st, tx);
    if w.om in known {
      PayingNode(w, s, ctx, st, known, tx);
    } else {
      assert !PaysTo(tx, st.paymentAddress) && !PaidFrom(tx, st.paymentAddress);
      assert e.st == st && Msgs(e.sent) == {} && known + {} == known;
    }
  }

  lemma PayingNode(w: World, s: Side, ctx: Context, st: OrderState, known: set<OrderMessage>, tx: Transaction)
    requires Fit(w) && NodeAgrees(w, s, Some(st), known) && w.om in known && st.open.Some?
    requires Inv(WalletEvent(ConfigOf(w, s), ctx, st, tx).st) && Extends(st, WalletEvent(ConfigOf(w, s), ctx, st, tx).st)
    ensures
      var e := WalletEvent(ConfigOf(w, s), ctx, st, tx);
      && (forall o <- e.sent :: WalletReply(w, s, o))
      && NodeAgrees(w, s, Some(e.st), known + Msgs(e.sent))
  {
    hide WalletEvent, Absorbed, Exclusions, Lists, SlotTypes, HasConfirmation, HasReject, Ready, SameCore, FulfillmentsParked;
    var cfg := ConfigOf(w, s);
    var e := WalletEvent(cfg, ctx, st, tx);
    var more := known + Msgs(e.sent);
    WalletEffect(cfg, ctx, st, tx);
    if e.sent == [] {
      assert more == known;
      SettledSame(cfg, w.om, st, e.st, known);
    } else if s.Buyer? {
      var notice := PaymentNotice(cfg, st, tx);
      assert more == known + {notice};
      SettledWithPayment(cfg, w.om, st, e.st, known, notice);
    } else {
      SettledSame(cfg, w.om, st, e.st, known);
      SettledWithIdle(cfg, w.om, Some(e.st), known, Msgs(e.sent));
    }
  }

  lemma NodeIsAcked(w: World, s: Side, row: Option<OrderState>, known: set<OrderMessage>, n: nat)
    requires Fit(w) && NodeAgrees(w, s, row, known)
    ensures NodeAgrees(w, s, NextRow(ConfigOf(w, s), w.om.orderID, row, Acked(n)), known)
  {
    hide Absorbed, HasConfirmation, HasReject, Ready;
    if row.Some? {
      var st' := row.value.(acked := row.value.acked + {n});
      assert Inv(st') && Exclusions(row.value) && Exclusions(st');
      if w.om in known {
        SettledSame(ConfigOf(w, s), w.om, row.value, st', known);
      }
    }
  }
}
