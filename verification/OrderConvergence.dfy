/**
 Order insensitivity: the slots of an order are a function of the set of messages it received.

 The documentation of ProcessMessage promises this for every set of messages. That is false, because
 some messages rule each other out; here it is proved for exactly the sets that hold no such pair.
 */
module OrderConvergence {
  import opened Common
  import opened OrderModel
  import opened OrderRules
  import opened OrderInvariants

  // ---- which messages count, and which rule each other out ---------------------------------------

  predicate ValidCompletion(cfg: Config, open: OrderOpen, x: OrderMessage) {
    x.body.Complete? && x.body.ratings == open.items && x.body.genuine && open.coin in cfg.coins
  }

  /** At the vendor of a moderated order a completion that releases the money is stored only after a fulfilment. */
  predicate Gated(cfg: Config, open: OrderOpen, x: OrderMessage) {
    x.body.Complete? && x.body.hasRelease && open.terms.Moderated? && RoleIn(cfg, open).RoleVendor?
  }

  /** The message is stored unless a conflicting one is. */
  predicate Counts(cfg: Config, open: OrderOpen, x: OrderMessage) {
    match x.body
    case Reject(_, _) => !AutoRejects(cfg, open)
    case Confirmation(_, _) => open.coin in cfg.coins && !AutoRejects(cfg, open)
    case Cancel(_, _) => open.coin in cfg.coins
    case Complete(_, _, _, _) => ValidCompletion(cfg, open, x) && !Gated(cfg, open, x)
    case Fulfillment(_, _) => true
    case Refund(_, _, _) => true
    case PaymentSent(_) => true
    case _ => false
  }

  predicate SingleSlot(b: Body) {
    b.Reject? || b.Cancel? || b.Confirmation? || b.Complete?
  }

  /** Whichever of the two is processed first keeps the other out. */
  predicate Conflict(x: OrderMessage, y: OrderMessage) {
    || (SingleSlot(x.body) && TypeNumber(x.body) == TypeNumber(y.body) && x != y)
    || (x.body.Reject? && y.body.Confirmation?)
    || (x.body.Cancel? && y.body.Complete?)
    || (x.body.Cancel? && y.body.Refund?)
    || (x != y && SamePayout(x.body, y.body))
    || (x != y && SamePayment(x.body, y.body))
  }

  ghost predicate IsConfirmation(cfg: Config, open: OrderOpen, x: OrderMessage) {
    x.body.Confirmation? && Counts(cfg, open, x)
  }

  ghost predicate HasConfirmation(cfg: Config, open: OrderOpen, a: set<OrderMessage>) {
    exists c <- a :: IsConfirmation(cfg, open, c)
  }

  /** The order is rejected: by a message of the set, or by this node because it does not validate. */
  ghost predicate HasReject(cfg: Config, open: OrderOpen, a: set<OrderMessage>) {
    AutoRejects(cfg, open) || exists r <- a :: r.body.Reject? && Counts(cfg, open, r)
  }

  ghost predicate PairsAgree(cfg: Config, open: OrderOpen, a: set<OrderMessage>) {
    forall x, y | x in a && y in a && Counts(cfg, open, x) && Counts(cfg, open, y) :: !Conflict(x, y)
  }

  /** No two fulfilments of a confirmed order name the same item. */
  ghost predicate ItemsAgree(cfg: Config, open: OrderOpen, a: set<OrderMessage>) {
    HasConfirmation(cfg, open, a) ==>
      forall f, g | f in a && g in a && f != g :: !SharesItem(f.body, g.body)
  }

  /** Fulfilments come from the peer that confirmed. */
  ghost predicate SignersAgree(cfg: Config, open: OrderOpen, a: set<OrderMessage>) {
    forall c, f | c in a && f in a && IsConfirmation(cfg, open, c) && f.body.Fulfillment? :: c.signer == f.signer
  }

  /** No fulfilment of a confirmed order opens the gate for a completion. */
  ghost predicate GatesAgree(cfg: Config, open: OrderOpen, a: set<OrderMessage>) {
    HasConfirmation(cfg, open, a) ==>
      forall x, f | x in a && f in a && f.body.Fulfillment? && Gated(cfg, open, x) :: !ValidCompletion(cfg, open, x)
  }

  /** A DISPUTE_OPEN of an order that is not moderated changes nothing; those of moderated orders are left out. */
  predicate Undisputed(open: OrderOpen, a: set<OrderMessage>) {
    open.terms.Moderated? ==> forall x <- a :: !x.body.DisputeOpen?
  }

  ghost predicate Agree(cfg: Config, open: OrderOpen, a: set<OrderMessage>) {
    PairsAgree(cfg, open, a) && ItemsAgree(cfg, open, a) && GatesAgree(cfg, open, a) && Undisputed(open, a)
  }

  ghost predicate ConflictFree(cfg: Config, open: OrderOpen, a: set<OrderMessage>) {
    Agree(cfg, open, a) && SignersAgree(cfg, open, a)
  }

  lemma AgreeSubset(cfg: Config, open: OrderOpen, a: set<OrderMessage>, b: set<OrderMessage>)
    requires Agree(cfg, open, b) && a <= b
    ensures Agree(cfg, open, a)
  {
    assert HasConfirmation(cfg, open, a) ==> HasConfirmation(cfg, open, b);
  }

  lemma ConflictFreeSubset(cfg: Config, open: OrderOpen, a: set<OrderMessage>, b: set<OrderMessage>)
    requires ConflictFree(cfg, open, b) && a <= b
    ensures ConflictFree(cfg, open, a)
  {
  }

  // ---- the slots as a function of a set ----------------------------------------------------------

  /** The slot holds the message of the set that belongs there, if there is one. */
  ghost predicate SlotTracks(cfg: Config, open: OrderOpen, a: set<OrderMessage>, slot: Option<OrderMessage>, n: nat) {
    match slot
    case None => forall x | x in a && TypeNumber(x.body) == n :: !Counts(cfg, open, x)
    case Some(m) => m in a && TypeNumber(m.body) == n && Counts(cfg, open, m)
  }

  ghost predicate ListTracks(a: set<OrderMessage>, ms: seq<OrderMessage>, n: nat) {
    forall x :: x in ms <==> x in a && TypeNumber(x.body) == n
  }

  /** The slot holds a reject this node wrote, at whatever time it did. */
  ghost predicate RejectsItself(cfg: Config, om: OrderMessage, slot: Option<OrderMessage>) {
    slot.Some? && slot.value.body.Reject? && slot.value == AutoReject(cfg, om.orderID, slot.value.body.stamp)
  }

  /** What the check of a completion looks at: no dispute, the node's role, no fulfilment before the confirmation. */
  predicate Gatekept(cfg: Config, open: OrderOpen, st: OrderState) {
    open.terms.Moderated? ==>
      st.disputeOpen.None? && st.role == RoleIn(cfg, open) && (st.fulfillments != [] ==> st.confirmation.Some?)
  }

  /** The order was opened by `om` and holds exactly what the messages of `a` put there. */
  ghost predicate Absorbed(cfg: Config, om: OrderMessage, st: OrderState, a: set<OrderMessage>)
    requires om.body.Open?
  {
    var open := om.body.open;
    && st.open == Some(om) && Gatekept(cfg, open, st)
    && (if AutoRejects(cfg, open) then RejectsItself(cfg, om, st.reject) else SlotTracks(cfg, open, a, st.reject, 1))
    && SlotTracks(cfg, open, a, st.cancel, 2)
    && SlotTracks(cfg, open, a, st.confirmation, 3)
    && SlotTracks(cfg, open, a, st.complete, 6)
    && ListTracks(a, st.fulfillments, 5)
    && ListTracks(a, st.refunds, 10)
    && ListTracks(a, st.paymentsSent, 11)
  }

  /** The messages of a set that can be stored already: fulfilments wait for the confirmation. */
  ghost function Ready(cfg: Config, open: OrderOpen, d: set<OrderMessage>): set<OrderMessage> {
    set x | x in d && (x.body.Fulfillment? ==> HasConfirmation(cfg, open, d))
  }

  ghost predicate SameSlots(a: OrderState, b: OrderState) {
    && a.open == b.open && a.reject == b.reject && a.cancel == b.cancel
    && a.confirmation == b.confirmation && a.complete == b.complete
    && Elems(a.fulfillments) == Elems(b.fulfillments)
    && Elems(a.refunds) == Elems(b.refunds)
    && Elems(a.paymentsSent) == Elems(b.paymentsSent)
  }

  /** The same slots, where a reject this node wrote itself may differ in the time it was written. */
  ghost predicate SameButStamp(cfg: Config, om: OrderMessage, a: OrderState, b: OrderState)
    requires om.body.Open?
  {
    && SameSlots(a, b.(reject := a.reject))
    && (a.reject == b.reject ||
        (AutoRejects(cfg, om.body.open) && RejectsItself(cfg, om, a.reject) && RejectsItself(cfg, om, b.reject)))
  }

  lemma SlotIsUnique(cfg: Config, open: OrderOpen, a: set<OrderMessage>, s: Option<OrderMessage>, t: Option<OrderMessage>, n: nat)
    requires PairsAgree(cfg, open, a)
    requires n == 1 || n == 2 || n == 3 || n == 6
    requires SlotTracks(cfg, open, a, s, n) && SlotTracks(cfg, open, a, t, n)
    ensures s == t
  {
    if s.Some? && t.Some? {
      assert !Conflict(s.value, t.value);
    }
  }

  /** Two orders that absorbed the same conflict-free set agree. */
  lemma AbsorbedIsUnique(cfg: Config, om: OrderMessage, s: OrderState, t: OrderState, a: set<OrderMessage>)
    requires om.body.Open? && PairsAgree(cfg, om.body.open, a)
    requires Absorbed(cfg, om, s, a) && Absorbed(cfg, om, t, a)
    ensures SameButStamp(cfg, om, s, t)
  {
    var open := om.body.open;
    if !AutoRejects(cfg, open) {
      SlotIsUnique(cfg, open, a, s.reject, t.reject, 1);
    }
    SlotIsUnique(cfg, open, a, s.cancel, t.cancel, 2);
    SlotIsUnique(cfg, open, a, s.confirmation, t.confirmation, 3);
    SlotIsUnique(cfg, open, a, s.complete, t.complete, 6);
    assert forall x :: x in s.fulfillments <==> x in t.fulfillments;
    assert forall x :: x in s.refunds <==> x in t.refunds;
    assert forall x :: x in s.paymentsSent <==> x in t.paymentsSent;
  }

  // ---- one handler call --------------------------------------------------------------------------

  ghost predicate SameCore(a: OrderState, b: OrderState) {
    && a.open == b.open && a.reject == b.reject && a.cancel == b.cancel
    && a.confirmation == b.confirmation && a.complete == b.complete
    && a.fulfillments == b.fulfillments && a.refunds == b.refunds && a.paymentsSent == b.paymentsSent
    && a.role == b.role && a.disputeOpen == b.disputeOpen
  }

  lemma AbsorbedSame(cfg: Config, om: OrderMessage, st: OrderState, st': OrderState, a: set<OrderMessage>)
    requires om.body.Open? && Absorbed(cfg, om, st, a) && SameCore(st, st')
    ensures Absorbed(cfg, om, st', a)
  {
  }

  /** A message that adds nothing: it does not count and is not listed, or is in the set already. */
  lemma AbsorbedIdle(cfg: Config, om: OrderMessage, st: OrderState, a: set<OrderMessage>, x: OrderMessage)
    requires om.body.Open? && Absorbed(cfg, om, st, a)
    requires x in a || !Counts(cfg, om.body.open, x)
    ensures Absorbed(cfg, om, st, a + {x})
  {
    assert x in a ==> a + {x} == a;
  }

  lemma AbsorbSlot(cfg: Config, om: OrderMessage, st: OrderState, a: set<OrderMessage>, x: OrderMessage)
    requires om.body.Open? && Absorbed(cfg, om, st, a)
    requires SingleSlot(x.body) && Counts(cfg, om.body.open, x)
    ensures Absorbed(cfg, om, Insert(st, x), a + {x})
  {
  }

  lemma AbsorbListed(cfg: Config, om: OrderMessage, st: OrderState, a: set<OrderMessage>, x: OrderMessage)
    requires om.body.Open? && Absorbed(cfg, om, st, a)
    requires x.body.Fulfillment? || x.body.Refund? || x.body.PaymentSent?
    requires x.body.Fulfillment? ==> st.confirmation.Some?
    ensures Absorbed(cfg, om, Insert(st, x), a + {x})
  {
  }

  /** Handling `x` leaves the parked list alone or adds `x` to it. */
  ghost predicate ParkedGrows(st: OrderState, st': OrderState, x: OrderMessage) {
    st'.parked == st.parked || st'.parked == st.parked + [x]
  }

  lemma SlotVerdict(cfg: Config, om: OrderMessage, st: OrderState, a: set<OrderMessage>, x: OrderMessage)
    requires om.body.Open? && Absorbed(cfg, om, st, a) && SingleSlot(x.body)
    requires PairsAgree(cfg, om.body.open, a + {x}) && GatesAgree(cfg, om.body.open, a + {x})
    ensures Judge(cfg, st, x).Accept? ==> Counts(cfg, om.body.open, x)
    ensures !Judge(cfg, st, x).Accept? ==> x in a || !Counts(cfg, om.body.open, x)
    ensures !Judge(cfg, st, x).SetAside?
  {
    var slot := SlotOf(st, x.body);
    assert slot.Some? && slot.value != x ==> Conflict(slot.value, x);
    assert st.reject.Some? && x.body.Confirmation? ==> Conflict(st.reject.value, x);
    assert st.confirmation.Some? && x.body.Reject? ==> Conflict(x, st.confirmation.value);
    assert st.cancel.Some? && x.body.Complete? ==> Conflict(st.cancel.value, x);
    if Gated(cfg, om.body.open, x) && ValidCompletion(cfg, om.body.open, x) {
      GateIsShut(cfg, om, st, a, x);
    }
  }

  lemma GateIsShut(cfg: Config, om: OrderMessage, st: OrderState, a: set<OrderMessage>, x: OrderMessage)
    requires om.body.Open? && Absorbed(cfg, om, st, a) && GatesAgree(cfg, om.body.open, a + {x})
    requires Gated(cfg, om.body.open, x) && ValidCompletion(cfg, om.body.open, x)
    ensures st.fulfillments == []
  {
    MemberOrEmpty(st.fulfillments);
    assert st.confirmation.Some? ==> st.confirmation.value in a + {x} && IsConfirmation(cfg, om.body.open, st.confirmation.value);
    assert forall f <- st.fulfillments :: f in a + {x} && f.body.Fulfillment?;
  }

  lemma SlotEffect(cfg: Config, ctx: Context, st: OrderState, peer: PeerID, x: OrderMessage)
    requires SingleSlot(x.body) && OpenOf(st).Some?
    ensures
      var st' := Handle(cfg, ctx, st, peer, x).st;
      && st'.parked == st.parked
      && (Judge(cfg, st, x).Accept? ==> SameCore(Insert(st, x), st'))
      && (!Judge(cfg, st, x).Accept? ==> st' == st)
  {
    hide AfterAccept, SameCore, Malformed, Barred;
    assert !Judge(cfg, st, x).SetAside?;
    if Judge(cfg, st, x).Accept? {
      AcceptedSlot(cfg, ctx, st, peer, x);
    }
  }

  lemma AcceptedSlot(cfg: Config, ctx: Context, st: OrderState, peer: PeerID, x: OrderMessage)
    requires SingleSlot(x.body) && OpenOf(st).Some? && Judge(cfg, st, x).Accept?
    ensures
      var st' := AfterAccept(cfg, ctx, st, peer, x).st;
      st'.parked == st.parked && SameCore(Insert(st, x), st')
  {
    hide Judge;
    assert !AlreadyListed(st, x.body);
  }

  lemma HandleSlot(cfg: Config, ctx: Context, om: OrderMessage, st: OrderState, a: set<OrderMessage>, peer: PeerID, x: OrderMessage)
    requires om.body.Open? && Absorbed(cfg, om, st, a) && SingleSlot(x.body)
    requires PairsAgree(cfg, om.body.open, a + {x}) && GatesAgree(cfg, om.body.open, a + {x})
    ensures Absorbed(cfg, om, Handle(cfg, ctx, st, peer, x).st, a + {x})
    ensures ParkedGrows(st, Handle(cfg, ctx, st, peer, x).st, x)
  {
    hide Handle, Judge, SameCore, PairsAgree, Counts;
    SlotVerdict(cfg, om, st, a, x);
    SlotEffect(cfg, ctx, st, peer, x);
    var st' := Handle(cfg, ctx, st, peer, x).st;
    if Judge(cfg, st, x).Accept? {
      AbsorbSlot(cfg, om, st, a, x);
      AbsorbedSame(cfg, om, Insert(st, x), st', a + {x});
    } else {
      AbsorbedIdle(cfg, om, st, a, x);
    }
  }

  lemma FulfillmentEffect(cfg: Config, ctx: Context, st: OrderState, peer: PeerID, x: OrderMessage)
    requires x.body.Fulfillment? && OpenOf(st).Some?
    ensures Handle(cfg, ctx, st, peer, x).st ==
      if st.reject.Some? then st else if st.confirmation.None? then Park(st, x) else Put(st, x)
  {
  }

  /** A rejected order lets no confirmation count, and a set with one is not rejected. */
  lemma RejectedOrConfirmed(cfg: Config, om: OrderMessage, st: OrderState, a: set<OrderMessage>)
    requires om.body.Open? && Absorbed(cfg, om, st, a) && PairsAgree(cfg, om.body.open, a)
    ensures st.reject.Some? <==> HasReject(cfg, om.body.open, a)
    ensures st.confirmation.Some? <==> HasConfirmation(cfg, om.body.open, a)
    ensures !(st.reject.Some? && st.confirmation.Some?)
  {
    assert st.reject.Some? && st.confirmation.Some? ==> Conflict(st.reject.value, st.confirmation.value);
  }

  lemma HandleFulfillment(cfg: Config, ctx: Context, om: OrderMessage, st: OrderState, a: set<OrderMessage>, peer: PeerID, x: OrderMessage)
    requires om.body.Open? && Absorbed(cfg, om, st, a) && Agree(cfg, om.body.open, a + {x})
    requires x.body.Fulfillment?
    ensures
      var st' := Handle(cfg, ctx, st, peer, x).st;
      && ParkedGrows(st, st', x)
      && (HasConfirmation(cfg, om.body.open, a) ==> Absorbed(cfg, om, st', a + {x}))
      && (!HasConfirmation(cfg, om.body.open, a) ==>
            Absorbed(cfg, om, st', a) && (HasReject(cfg, om.body.open, a) || x in st'.parked))
  {
    hide Handle, HasReject, Conflict;
    FulfillmentEffect(cfg, ctx, st, peer, x);
    RejectedOrConfirmed(cfg, om, st, a);
    if st.reject.None? && st.confirmation.None? {
      AbsorbedSame(cfg, om, st, Park(st, x), a);
    } else if st.reject.None? {
      assert HasConfirmation(cfg, om.body.open, a + {x});
      FulfillmentJoins(cfg, om, st, a, x);
    }
  }

  lemma FulfillmentJoins(cfg: Config, om: OrderMessage, st: OrderState, a: set<OrderMessage>, x: OrderMessage)
    requires om.body.Open? && Absorbed(cfg, om, st, a) && x.body.Fulfillment? && st.confirmation.Some?
    requires forall f <- a :: f != x ==> !SharesItem(f.body, x.body)
    ensures Absorbed(cfg, om, Put(st, x), a + {x})
  {
    hide SharesItem;
    if AlreadyListed(st, x.body) {
      AbsorbedIdle(cfg, om, st, a, x);
    } else {
      AbsorbListed(cfg, om, st, a, x);
    }
  }

  lemma PaymentNoticeIsStored(cfg: Config, ctx: Context, st: OrderState, open: OrderOpen, x: OrderMessage)
    requires x.body.PaymentSent? && !AlreadyListed(st, x.body)
    ensures
      var st' := AcceptPaymentSent(cfg, ctx, st, open, x).st;
      SameCore(st', Insert(st, x)) && st'.parked == st.parked
  {
    var put := Put(st, x);
    if x.body.paid in ctx.wallet {
      var tx := LookUp(ctx, x.body.paid);
      var paid := RecordTransaction(put, tx);
      assert x in paid.paymentsSent && SamePayment(x.body, PaymentNotice(cfg, put, tx).body);
      assert AlreadyListed(paid, PaymentNotice(cfg, put, tx).body);
    }
  }

  lemma RefundEffect(cfg: Config, ctx: Context, st: OrderState, peer: PeerID, x: OrderMessage)
    requires OpenOf(st).Some? && st.cancel.None? && x.body.Refund?
    ensures
      var st' := Handle(cfg, ctx, st, peer, x).st;
      && st'.parked == st.parked
      && (AlreadyListed(st, x.body) ==> st' == st)
      && (!AlreadyListed(st, x.body) ==> SameCore(st', Insert(st, x)))
  {
  }

  lemma HandleListed(cfg: Config, ctx: Context, om: OrderMessage, st: OrderState, a: set<OrderMessage>, peer: PeerID, x: OrderMessage)
    requires om.body.Open? && Absorbed(cfg, om, st, a) && PairsAgree(cfg, om.body.open, a + {x})
    requires x.body.Refund? || x.body.PaymentSent?
    ensures Absorbed(cfg, om, Handle(cfg, ctx, st, peer, x).st, a + {x})
    ensures ParkedGrows(st, Handle(cfg, ctx, st, peer, x).st, x)
  {
    hide Handle;
    var st' := Handle(cfg, ctx, st, peer, x).st;
    if x.body.PaymentSent? {
      PaymentSentEffect(cfg, ctx, st, peer, x);
    } else {
      assert st.cancel.Some? ==> Conflict(st.cancel.value, x);
      RefundEffect(cfg, ctx, st, peer, x);
    }
    if AlreadyListed(st, x.body) {
      var m :| m in st.refunds + st.paymentsSent && (SamePayout(m.body, x.body) || SamePayment(m.body, x.body));
      assert m in a && !Conflict(m, x);
      AbsorbedIdle(cfg, om, st, a, x);
    } else {
      hide Absorbed, SameCore;
      AbsorbListed(cfg, om, st, a, x);
      AbsorbedSame(cfg, om, Insert(st, x), st', a + {x});
    }
  }

  lemma PaymentSentEffect(cfg: Config, ctx: Context, st: OrderState, peer: PeerID, x: OrderMessage)
    requires OpenOf(st).Some? && x.body.PaymentSent?
    ensures
      var st' := Handle(cfg, ctx, st, peer, x).st;
      && st'.parked == st.parked
      && (AlreadyListed(st, x.body) ==> st' == st)
      && (!AlreadyListed(st, x.body) ==> SameCore(st', Insert(st, x)))
  {
    if !AlreadyListed(st, x.body) {
      PaymentNoticeIsStored(cfg, ctx, st, OpenOf(st).value, x);
    }
  }

  lemma OtherEffect(cfg: Config, ctx: Context, st: OrderState, peer: PeerID, x: OrderMessage)
    requires OpenOf(st).Some? && (OpenOf(st).value.terms.Moderated? ==> !x.body.DisputeOpen?)
    requires x.body.Open? || x.body.RatingSignatures? || x.body.DisputeOpen? || !Handled(x.body)
    ensures SameCore(st, Handle(cfg, ctx, st, peer, x).st)
    ensures Handle(cfg, ctx, st, peer, x).st.parked == st.parked
  {
    if x.body.RatingSignatures? {
      assert Put(st, x) == st.(ratingSignatures := Some(x));
    }
  }

  lemma HandleOther(cfg: Config, ctx: Context, om: OrderMessage, st: OrderState, a: set<OrderMessage>, peer: PeerID, x: OrderMessage)
    requires om.body.Open? && Absorbed(cfg, om, st, a) && Undisputed(om.body.open, {x})
    requires x.body.Open? || x.body.RatingSignatures? || x.body.DisputeOpen? || !Handled(x.body)
    ensures Absorbed(cfg, om, Handle(cfg, ctx, st, peer, x).st, a + {x})
    ensures ParkedGrows(st, Handle(cfg, ctx, st, peer, x).st, x)
  {
    var st' := Handle(cfg, ctx, st, peer, x).st;
    assert OpenOf(st) == Some(om.body.open) && !Counts(cfg, om.body.open, x);
    hide Absorbed, Handle, SameCore, OpenOf;
    OtherEffect(cfg, ctx, st, peer, x);
    AbsorbedSame(cfg, om, st, st', a);
    AbsorbedIdle(cfg, om, st', a, x);
  }

  /** One verified message: it is absorbed, unless it is a fulfilment that has to wait. */
  lemma HandleAbsorbs(cfg: Config, ctx: Context, om: OrderMessage, st: OrderState, a: set<OrderMessage>, peer: PeerID, x: OrderMessage)
    requires om.body.Open? && Absorbed(cfg, om, st, a) && Agree(cfg, om.body.open, a + {x})
    ensures
      var st' := Handle(cfg, ctx, st, peer, x).st;
      && ParkedGrows(st, st', x)
      && if x.body.Fulfillment? && !HasConfirmation(cfg, om.body.open, a)
         then Absorbed(cfg, om, st', a) && (HasReject(cfg, om.body.open, a) || x in st'.parked)
         else Absorbed(cfg, om, st', a + {x})
  {
    hide Absorbed, Handle, HasConfirmation, HasReject, ParkedGrows, PairsAgree, GatesAgree;
    if SingleSlot(x.body) {
      HandleSlot(cfg, ctx, om, st, a, peer, x);
    } else if x.body.Fulfillment? {
      HandleFulfillment(cfg, ctx, om, st, a, peer, x);
    } else if x.body.Refund? || x.body.PaymentSent? {
      HandleListed(cfg, ctx, om, st, a, peer, x);
    } else {
      HandleOther(cfg, ctx, om, st, a, peer, x);
    }
  }

  // ---- the retry loop ----------------------------------------------------------------------------

  /** What retrying the first `i` parked messages for `peer` absorbs. */
  ghost function Taken(cfg: Config, open: OrderOpen, d: set<OrderMessage>, peer: PeerID, m: OrderMessage,
                       xs: seq<OrderMessage>, i: nat): set<OrderMessage>
    requires i <= |xs|
  {
    set x | x in xs[..i] && x != m && x.signer == peer && (x.body.Fulfillment? ==> HasConfirmation(cfg, open, d))
  }

  /** The confirmation is absorbed already, or the sort puts it before every fulfilment. */
  ghost predicate ConfirmationFirst(cfg: Config, open: OrderOpen, a: set<OrderMessage>, d: set<OrderMessage>,
                                    peer: PeerID, m: OrderMessage, xs: seq<OrderMessage>) {
    HasConfirmation(cfg, open, d) ==>
      || HasConfirmation(cfg, open, a)
      || (Ordered(xs) && exists c <- xs :: IsConfirmation(cfg, open, c) && c != m && c.signer == peer)
  }

  lemma FulfillmentsComeLate(cfg: Config, open: OrderOpen, a: set<OrderMessage>, d: set<OrderMessage>,
                             peer: PeerID, m: OrderMessage, xs: seq<OrderMessage>, i: nat)
    requires i < |xs| && xs[i].body.Fulfillment?
    requires HasConfirmation(cfg, open, d) && ConfirmationFirst(cfg, open, a, d, peer, m, xs)
    ensures HasConfirmation(cfg, open, a + Taken(cfg, open, d, peer, m, xs, i))
  {
    var taken := Taken(cfg, open, d, peer, m, xs, i);
    if HasConfirmation(cfg, open, a) {
      var c :| c in a && IsConfirmation(cfg, open, c);
      assert c in a + taken;
    } else {
      var c :| c in xs && IsConfirmation(cfg, open, c) && c != m && c.signer == peer;
      var j :| 0 <= j < |xs| && xs[j] == c;
      assert TypeNumber(xs[j].body) < TypeNumber(xs[i].body);
      assert j < i;
      assert xs[..i][j] == c;
      assert c in a + taken;
    }
  }

  lemma RetryOneAbsorbs(cfg: Config, ctx: Context, om: OrderMessage, st: OrderState, a: set<OrderMessage>, d: set<OrderMessage>,
                        peer: PeerID, m: OrderMessage, x: OrderMessage)
    requires om.body.Open? && Agree(cfg, om.body.open, d)
    requires Absorbed(cfg, om, st, a) && a <= d && x in d
    requires x.body.Fulfillment? && HasConfirmation(cfg, om.body.open, d) ==> HasConfirmation(cfg, om.body.open, a)
    ensures
      var st' := RetryOne(cfg, ctx, st, peer, m, x).st;
      && ParkedGrows(st, st', x)
      && Absorbed(cfg, om, st',
                  if x != m && x.signer == peer && (x.body.Fulfillment? ==> HasConfirmation(cfg, om.body.open, d))
                  then a + {x} else a)
  {
    var open := om.body.open;
    assert HasConfirmation(cfg, open, a) ==> HasConfirmation(cfg, open, d);
    assert a + {x} <= d;
    AgreeSubset(cfg, open, a + {x}, d);
    var e := Verified(cfg, ctx, st, peer, x);
    var logged := e.st.(errored := e.st.errored + [m]);
    assert SameCore(e.st, logged);
    hide Agree, HasConfirmation, HasReject, Handle, SameCore, Absorbed;
    if x != m && x.signer == peer {
      HandleAbsorbs(cfg, ctx, om, st, a, peer, x);
    }
    if x != m && !e.err.NoError? {
      var a' := if x.signer == peer && (x.body.Fulfillment? ==> HasConfirmation(cfg, open, d)) then a + {x} else a;
      assert Absorbed(cfg, om, e.st, a');
      AbsorbedSame(cfg, om, e.st, logged, a');
    }
  }

  lemma NothingTaken(cfg: Config, open: OrderOpen, d: set<OrderMessage>, peer: PeerID, m: OrderMessage, xs: seq<OrderMessage>)
    ensures Taken(cfg, open, d, peer, m, xs, 0) == {}
  {
  }

  lemma TakenStep(cfg: Config, open: OrderOpen, d: set<OrderMessage>, peer: PeerID, m: OrderMessage, xs: seq<OrderMessage>, i: nat)
    requires 0 < i <= |xs| && Elems(xs) <= d
    ensures
      var x := xs[i - 1];
      var before := Taken(cfg, open, d, peer, m, xs, i - 1);
      && before <= d
      && Taken(cfg, open, d, peer, m, xs, i) ==
           if x != m && x.signer == peer && (x.body.Fulfillment? ==> HasConfirmation(cfg, open, d))
           then before + {x} else before
  {
    hide HasConfirmation;
    assert xs[..i] == xs[..i - 1] + [xs[i - 1]];
    assert forall y | y in xs[..i - 1] :: y in Elems(xs);
  }

  lemma {:induction false} RetryAbsorbs(cfg: Config, ctx: Context, om: OrderMessage, st: OrderState, a: set<OrderMessage>, d: set<OrderMessage>,
                                        peer: PeerID, m: OrderMessage, xs: seq<OrderMessage>, i: nat)
    requires om.body.Open? && Agree(cfg, om.body.open, d)
    requires Absorbed(cfg, om, st, a) && a <= d && Elems(xs) <= d && i <= |xs|
    requires ConfirmationFirst(cfg, om.body.open, a, d, peer, m, xs)
    ensures
      var st' := Retry(cfg, ctx, st, peer, m, xs[..i]).st;
      && Absorbed(cfg, om, st', a + Taken(cfg, om.body.open, d, peer, m, xs, i))
      && st.parked <= st'.parked
      && Elems(st'.parked) <= Elems(st.parked) + Elems(xs)
  {
    hide Absorbed, Agree, HasConfirmation, RetryOne, Taken, ConfirmationFirst;
    var open := om.body.open;
    if i == 0 {
      NothingTaken(cfg, open, d, peer, m, xs);
      assert a + {} == a;
    } else {
      RetryAbsorbs(cfg, ctx, om, st, a, d, peer, m, xs, i - 1);
      TakenStep(cfg, open, d, peer, m, xs, i);
      assert xs[..i][..i - 1] == xs[..i - 1];
      var x := xs[i - 1];
      var mid := Retry(cfg, ctx, st, peer, m, xs[..i - 1]).st;
      var before := a + Taken(cfg, open, d, peer, m, xs, i - 1);
      assert x in Elems(xs) && before <= d;
      if x.body.Fulfillment? && HasConfirmation(cfg, open, d) {
        FulfillmentsComeLate(cfg, open, a, d, peer, m, xs, i - 1);
      }
      RetryOneAbsorbs(cfg, ctx, om, mid, before, d, peer, m, x);
      assert (a + Taken(cfg, open, d, peer, m, xs, i - 1)) + {x} == a + (Taken(cfg, open, d, peer, m, xs, i - 1) + {x});
    }
  }

  // ---- the row tracks the set of messages received -------------------------------------------------

  /** Before the order arrives everything is parked, and comes from the peer that will open it. */
  ghost predicate Waiting(om: OrderMessage, row: Option<OrderState>, d: set<OrderMessage>) {
    && om !in d
    && (forall x <- d :: !x.body.Open? && x.signer == om.signer)
    && (row.None? ==> d == {})
    && (row.Some? ==>
          && row.value.id == Some(om.orderID) && row.value.open.None? && Exclusions(row.value)
          && Elems(row.value.parked) <= d
          && (forall x <- d :: Handled(x.body) ==> x in row.value.parked))
  }

  ghost predicate FulfillmentsParked(cfg: Config, open: OrderOpen, st: OrderState, d: set<OrderMessage>) {
    !HasConfirmation(cfg, open, d) && !HasReject(cfg, open, d) ==>
      forall f <- d :: f.body.Fulfillment? ==> f in st.parked
  }

  /** Once it has arrived, everything received is absorbed, except fulfilments that must wait. */
  ghost predicate Settled(cfg: Config, om: OrderMessage, row: Option<OrderState>, d: set<OrderMessage>)
    requires om.body.Open?
  {
    var open := om.body.open;
    && om in d && row.Some? && row.value.id == Some(om.orderID)
    && Absorbed(cfg, om, row.value, Ready(cfg, open, d))
    && Elems(row.value.parked) <= d
    && FulfillmentsParked(cfg, open, row.value, d)
  }

  ghost predicate Tracks(cfg: Config, om: OrderMessage, row: Option<OrderState>, d: set<OrderMessage>)
    requires om.body.Open?
  {
    if om in d then Settled(cfg, om, row, d) else Waiting(om, row, d)
  }

  lemma WaitingHandle(cfg: Config, ctx: Context, st: OrderState, peer: PeerID, m: OrderMessage)
    requires st.open.None? && Exclusions(st) && !m.body.Open?
    ensures Handle(cfg, ctx, st, peer, m).st == if Handled(m.body) then Park(st, m) else st
  {
  }

  /** Still unopened, with nothing parked but what was parked or retried. */
  ghost predicate StillWaiting(st: OrderState, st': OrderState, xs: set<OrderMessage>) {
    && st'.open.None? && Exclusions(st') && st'.id == st.id
    && st.parked <= st'.parked && Elems(st'.parked) <= Elems(st.parked) + xs
  }

  lemma WaitingRetryOne(cfg: Config, ctx: Context, st: OrderState, peer: PeerID, m: OrderMessage, x: OrderMessage)
    requires st.open.None? && Exclusions(st) && !x.body.Open?
    ensures StillWaiting(st, RetryOne(cfg, ctx, st, peer, m, x).st, {x})
  {
    WaitingHandle(cfg, ctx, st, peer, x);
    hide Handle;
  }

  lemma {:induction false} WaitingRetry(cfg: Config, ctx: Context, st: OrderState, peer: PeerID, m: OrderMessage, xs: seq<OrderMessage>)
    requires st.open.None? && Exclusions(st) && (forall x <- xs :: !x.body.Open?)
    ensures StillWaiting(st, Retry(cfg, ctx, st, peer, m, xs).st, Elems(xs))
  {
    hide RetryOne, Exclusions;
    if xs != [] {
      var init := xs[..|xs| - 1];
      var last := xs[|xs| - 1];
      assert xs == init + [last];
      assert Elems(xs) == Elems(init) + {last};
      WaitingRetry(cfg, ctx, st, peer, m, init);
      WaitingRetryOne(cfg, ctx, Retry(cfg, ctx, st, peer, m, init).st, peer, m, last);
    }
  }

  lemma WaitingFirst(cfg: Config, ctx: Context, om: OrderMessage, d: set<OrderMessage>, m: OrderMessage, xs: seq<OrderMessage>)
    requires Waiting(om, None, d) && m != om && !m.body.Open?
    requires m.orderID == om.orderID && m.signer == om.signer
    ensures Waiting(om, Some(Process(cfg, ctx, None, m.signer, m, xs).st), d + {m})
  {
    assert Park(BLANK.(id := Some(m.orderID)), m).parked == [m];
  }

  lemma WaitingStep(cfg: Config, ctx: Context, om: OrderMessage, row: Option<OrderState>, d: set<OrderMessage>,
                    m: OrderMessage, xs: seq<OrderMessage>)
    requires Waiting(om, row, d) && m != om && !m.body.Open?
    requires m.orderID == om.orderID && m.signer == om.signer
    requires RetriesOf(cfg, ctx, row, m.signer, m, xs)
    ensures Waiting(om, Some(Process(cfg, ctx, row, m.signer, m, xs).st), d + {m})
  {
    if row.None? {
      WaitingFirst(cfg, ctx, om, d, m, xs);
    } else {
      var st := row.value;
      WaitingHandle(cfg, ctx, st, m.signer, m);
      var mid := if Handled(m.body) then Park(st, m) else st;
      assert FirstPass(cfg, ctx, row, m.signer, m).st == mid;
      SortKeepsElems(mid.parked, xs);
      WaitingRetries(cfg, ctx, om, st, mid, d, m, xs);
      hide Verified, Retry, Waiting;
    }
  }

  lemma WaitingRetries(cfg: Config, ctx: Context, om: OrderMessage, st: OrderState, mid: OrderState, d: set<OrderMessage>,
                       m: OrderMessage, xs: seq<OrderMessage>)
    requires Waiting(om, Some(st), d) && m != om && !m.body.Open? && m.signer == om.signer
    requires mid == (if Handled(m.body) then Park(st, m) else st) && Elems(xs) == Elems(mid.parked)
    ensures Waiting(om, Some(Retry(cfg, ctx, mid, m.signer, m, xs).st), d + {m})
  {
    hide Retry;
    ParkExclusions(st, m);
    hide Exclusions, Handled;
    assert forall x <- xs :: x in Elems(xs);
    WaitingRetry(cfg, ctx, mid, m.signer, m, xs);
    var st' := Retry(cfg, ctx, mid, m.signer, m, xs).st;
    assert forall x <- mid.parked :: x in st'.parked;
  }

  lemma ParkExclusions(st: OrderState, m: OrderMessage)
    requires Exclusions(st)
    ensures Exclusions(Park(st, m))
  {
  }

  lemma SortKeepsElems(parked: seq<OrderMessage>, xs: seq<OrderMessage>)
    requires SortOf(parked, xs)
    ensures Elems(xs) == Elems(parked)
  {
    forall x ensures x in xs <==> x in parked {
      assert x in multiset(xs) <==> x in multiset(parked);
    }
  }

  lemma AbsorbedMore(cfg: Config, om: OrderMessage, st: OrderState, a: set<OrderMessage>, b: set<OrderMessage>)
    requires om.body.Open? && Absorbed(cfg, om, st, a) && a <= b
    requires forall x <- b - a :: !Counts(cfg, om.body.open, x)
    ensures Absorbed(cfg, om, st, b)
  {
    assert forall x :: x in b && Counts(cfg, om.body.open, x) ==> x in a;
  }

  lemma OpenedState(cfg: Config, ctx: Context, om: OrderMessage, row: Option<OrderState>, d: set<OrderMessage>)
    requires om.body.Open? && Waiting(om, row, d)
    ensures
      var st := FirstPass(cfg, ctx, row, om.signer, om).st;
      && st.id == Some(om.orderID) && st.parked == Loaded(row).parked
      && Absorbed(cfg, om, st, {om})
  {
    var st0 := Loaded(row).(id := Some(om.orderID));
    assert Judge(cfg, st0, om).Accept?;
    assert FirstPass(cfg, ctx, row, om.signer, om).st == AcceptOpen(cfg, ctx, st0, om.signer, om).st;
  }

  lemma OpeningStep(cfg: Config, ctx: Context, om: OrderMessage, row: Option<OrderState>, d: set<OrderMessage>, xs: seq<OrderMessage>)
    requires om.body.Open? && Waiting(om, row, d)
    requires ConflictFree(cfg, om.body.open, d + {om})
    requires RetriesOf(cfg, ctx, row, om.signer, om, xs)
    ensures Settled(cfg, om, Some(Process(cfg, ctx, row, om.signer, om, xs).st), d + {om})
  {
    hide Absorbed, Agree, SignersAgree, FirstPass, Retry, HasReject, HasConfirmation, Taken, ConfirmationFirst, Ready;
    var d' := d + {om};
    var mid := FirstPass(cfg, ctx, row, om.signer, om).st;
    OpenedState(cfg, ctx, om, row, d);
    SortKeepsElems(mid.parked, xs);
    OpeningOrder(cfg, om, d, mid.parked, xs);
    OpeningTotal(cfg, om, d, mid.parked, xs);
    OpeningSets(om, row, d, xs);
    assert {om} <= d';
    assert Elems(xs) <= d';
    RetryKeepsId(cfg, ctx, mid, om.signer, om, xs);
    RetryReaches(cfg, ctx, om, mid, {om}, d', om.signer, om, xs);
    var st' := Retry(cfg, ctx, mid, om.signer, om, xs).st;
    forall f | f in d' && f.body.Fulfillment? ensures f in st'.parked {
      assert f in mid.parked;
    }
  }

  lemma OpeningSets(om: OrderMessage, row: Option<OrderState>, d: set<OrderMessage>, xs: seq<OrderMessage>)
    requires Waiting(om, row, d) && Elems(xs) == Elems(Loaded(row).parked)
    ensures Elems(xs) <= d
    ensures forall x <- xs :: !x.body.Open?
    ensures forall f <- d :: f.body.Fulfillment? ==> f in Loaded(row).parked
  {
    assert forall x <- xs :: x in Elems(xs);
  }

  /** When what is absorbed first and what the retries absorb is all that counts, everything ready is absorbed. */
  lemma RetryReaches(cfg: Config, ctx: Context, om: OrderMessage, mid: OrderState, a: set<OrderMessage>, d: set<OrderMessage>,
                     peer: PeerID, m: OrderMessage, xs: seq<OrderMessage>)
    requires om.body.Open? && Agree(cfg, om.body.open, d)
    requires Absorbed(cfg, om, mid, a) && a <= d && Elems(xs) <= d && Elems(mid.parked) <= d
    requires ConfirmationFirst(cfg, om.body.open, a, d, peer, m, xs)
    requires a + Taken(cfg, om.body.open, d, peer, m, xs, |xs|) <= Ready(cfg, om.body.open, d)
    requires forall x <- Ready(cfg, om.body.open, d) - (a + Taken(cfg, om.body.open, d, peer, m, xs, |xs|)) ::
               !Counts(cfg, om.body.open, x)
    ensures
      var st' := Retry(cfg, ctx, mid, peer, m, xs).st;
      && Absorbed(cfg, om, st', Ready(cfg, om.body.open, d))
      && mid.parked <= st'.parked && Elems(st'.parked) <= d
  {
    assert xs[..|xs|] == xs;
    hide Absorbed, Agree, Retry, HasConfirmation, Taken, ConfirmationFirst, Ready;
    RetryAbsorbs(cfg, ctx, om, mid, a, d, peer, m, xs, |xs|);
    AbsorbedMore(cfg, om, Retry(cfg, ctx, mid, peer, m, xs).st,
                 a + Taken(cfg, om.body.open, d, peer, m, xs, |xs|), Ready(cfg, om.body.open, d));
  }

  lemma OpeningOrder(cfg: Config, om: OrderMessage, d: set<OrderMessage>, parked: seq<OrderMessage>, xs: seq<OrderMessage>)
    requires om.body.Open?
    requires forall x <- d :: !x.body.Open? && x.signer == om.signer && (Handled(x.body) ==> x in parked)
    requires SortOf(parked, xs) && Elems(xs) == Elems(parked)
    ensures ConfirmationFirst(cfg, om.body.open, {om}, d + {om}, om.signer, om, xs)
  {
    var open := om.body.open;
    var d' := d + {om};
    if HasConfirmation(cfg, open, d') {
      var c :| c in d' && IsConfirmation(cfg, open, c);
      assert c in d && c in Elems(parked);
      assert c in xs && IsConfirmation(cfg, open, c) && c != om && c.signer == om.signer;
    }
  }

  lemma HandleKeepsId(cfg: Config, ctx: Context, st: OrderState, peer: PeerID, m: OrderMessage)
    requires m.body.Open? ==> st.id == Some(m.orderID)
    ensures Handle(cfg, ctx, st, peer, m).st.id == st.id
  {
    hide Handle;
    HandleKeepsBooks(cfg, ctx, st, peer, m);
  }

  lemma {:induction false} RetryKeepsId(cfg: Config, ctx: Context, st: OrderState, peer: PeerID, m: OrderMessage, xs: seq<OrderMessage>)
    requires forall x <- xs :: x.body.Open? ==> st.id == Some(x.orderID)
    ensures Retry(cfg, ctx, st, peer, m, xs).st.id == st.id
  {
    hide Handle;
    if xs != [] {
      RetryKeepsId(cfg, ctx, st, peer, m, xs[..|xs| - 1]);
      HandleKeepsId(cfg, ctx, Retry(cfg, ctx, st, peer, m, xs[..|xs| - 1]).st, peer, xs[|xs| - 1]);
    }
  }

  lemma OpeningTotal(cfg: Config, om: OrderMessage, d: set<OrderMessage>, parked: seq<OrderMessage>, xs: seq<OrderMessage>)
    requires om.body.Open? && om !in d
    requires forall x <- d :: !x.body.Open? && x.signer == om.signer && (Handled(x.body) ==> x in parked)
    requires Elems(parked) <= d && Elems(xs) == Elems(parked)
    ensures
      var d' := d + {om};
      var all := {om} + Taken(cfg, om.body.open, d', om.signer, om, xs, |xs|);
      && all <= Ready(cfg, om.body.open, d')
      && forall x <- Ready(cfg, om.body.open, d') - all :: !Counts(cfg, om.body.open, x)
  {
    hide HasConfirmation;
    assert xs[..|xs|] == xs;
    assert forall x :: x in xs <==> x in Elems(parked);
  }

  /** What the first pass absorbs of a message that reaches an opened order. */
  ghost function First(cfg: Config, open: OrderOpen, d: set<OrderMessage>, m: OrderMessage): set<OrderMessage> {
    if m.body.Fulfillment? && !HasConfirmation(cfg, open, d) then Ready(cfg, open, d) else Ready(cfg, open, d) + {m}
  }

  lemma ReadyConfirmation(cfg: Config, open: OrderOpen, d: set<OrderMessage>)
    ensures HasConfirmation(cfg, open, Ready(cfg, open, d)) <==> HasConfirmation(cfg, open, d)
    ensures HasReject(cfg, open, Ready(cfg, open, d)) <==> HasReject(cfg, open, d)
  {
    if HasConfirmation(cfg, open, d) {
      var c :| c in d && IsConfirmation(cfg, open, c);
      assert c in Ready(cfg, open, d);
    }
    if HasReject(cfg, open, d) && !AutoRejects(cfg, open) {
      var r :| r in d && r.body.Reject? && Counts(cfg, open, r);
      assert r in Ready(cfg, open, d);
    }
  }

  lemma SettledFirst(cfg: Config, ctx: Context, om: OrderMessage, row: Option<OrderState>, d: set<OrderMessage>, m: OrderMessage)
    requires om.body.Open? && Settled(cfg, om, row, d)
    requires Agree(cfg, om.body.open, d + {m}) && m.orderID == om.orderID
    ensures
      var mid := FirstPass(cfg, ctx, row, m.signer, m).st;
      && mid.id == Some(om.orderID)
      && Absorbed(cfg, om, mid, First(cfg, om.body.open, d, m))
      && row.value.parked <= mid.parked && Elems(mid.parked) <= d + {m}
      && (m.body.Fulfillment? && !HasConfirmation(cfg, om.body.open, d) && !HasReject(cfg, om.body.open, d) ==> m in mid.parked)
  {
    var open := om.body.open;
    var st := row.value;
    var a := Ready(cfg, open, d);
    assert a + {m} <= d + {m};
    AgreeSubset(cfg, open, a + {m}, d + {m});
    ReadyConfirmation(cfg, open, d);
    HandleKeepsId(cfg, ctx, st, m.signer, m);
    assert FirstPass(cfg, ctx, row, m.signer, m) == Handle(cfg, ctx, st, m.signer, m);
    hide Absorbed, Ready, HasConfirmation, HasReject, Agree, Handle, FirstPass;
    HandleAbsorbs(cfg, ctx, om, st, a, m.signer, m);
  }

  /** A new confirmation releases every parked fulfilment; otherwise the retries find nothing to do. */
  lemma SettledSets(cfg: Config, open: OrderOpen, d: set<OrderMessage>, m: OrderMessage, parked: seq<OrderMessage>, xs: seq<OrderMessage>)
    requires ConflictFree(cfg, open, d + {m})
    requires !HasConfirmation(cfg, open, d) && !HasReject(cfg, open, d) ==> forall f <- d :: f.body.Fulfillment? ==> f in parked
    requires Elems(parked) <= Elems(xs) <= d + {m}
    ensures
      var d' := d + {m};
      var a := First(cfg, open, d, m);
      && a <= d'
      && ConfirmationFirst(cfg, open, a, d', m.signer, m, xs)
      && a + Taken(cfg, open, d', m.signer, m, xs, |xs|) == Ready(cfg, open, d')
  {
    var d' := d + {m};
    var a := First(cfg, open, d, m);
    var taken := Taken(cfg, open, d', m.signer, m, xs, |xs|);
    assert xs[..|xs|] == xs;
    assert forall x :: x in xs <==> x in Elems(xs);
    if HasConfirmation(cfg, open, d') {
      var c :| c in d' && IsConfirmation(cfg, open, c);
      assert c in a;
      if !HasConfirmation(cfg, open, d) {
        assert c == m;
        NoRejectBeside(cfg, open, d, c);
        forall f | f in d && f.body.Fulfillment? ensures f in a + taken {
          assert f in parked && f in Elems(parked);
          assert f.signer == c.signer;
        }
      }
    } else {
      assert forall c <- d :: c in d' ==> !IsConfirmation(cfg, open, c);
    }
  }

  lemma NoRejectBeside(cfg: Config, open: OrderOpen, d: set<OrderMessage>, c: OrderMessage)
    requires PairsAgree(cfg, open, d + {c}) && IsConfirmation(cfg, open, c)
    ensures !HasReject(cfg, open, d)
  {
    forall r | r in d && r.body.Reject? ensures !Counts(cfg, open, r) {
      assert Conflict(r, c) && r in d + {c} && c in d + {c};
    }
  }

  lemma SettledStep(cfg: Config, ctx: Context, om: OrderMessage, row: Option<OrderState>, d: set<OrderMessage>,
                    m: OrderMessage, xs: seq<OrderMessage>)
    requires om.body.Open? && Settled(cfg, om, row, d)
    requires ConflictFree(cfg, om.body.open, d + {m}) && m.orderID == om.orderID
    requires forall x <- d + {m} :: x.orderID == om.orderID
    requires RetriesOf(cfg, ctx, row, m.signer, m, xs)
    ensures Settled(cfg, om, Some(Process(cfg, ctx, row, m.signer, m, xs).st), d + {m})
  {
    var open := om.body.open;
    var d' := d + {m};
    var mid := FirstPass(cfg, ctx, row, m.signer, m).st;
    SettledFirst(cfg, ctx, om, row, d, m);
    SortKeepsElems(mid.parked, xs);
    assert Elems(row.value.parked) <= Elems(xs) by {
      assert forall x <- row.value.parked :: x in mid.parked;
    }
    SettledSets(cfg, open, d, m, row.value.parked, xs);
    assert Process(cfg, ctx, row, m.signer, m, xs).st == Retry(cfg, ctx, mid, m.signer, m, xs).st;
    assert forall x <- xs :: x in Elems(xs);
    SettledCloses(cfg, open, row.value, mid, d, m);
    hide Absorbed, Agree, SignersAgree, FirstPass, Retry, Process, HasReject, HasConfirmation, Taken, ConfirmationFirst, Ready, First, FulfillmentsParked;
    RetryKeepsId(cfg, ctx, mid, m.signer, m, xs);
    RetryReaches(cfg, ctx, om, mid, First(cfg, open, d, m), d', m.signer, m, xs);
    ParkedFulfillmentsStay(cfg, open, mid, Retry(cfg, ctx, mid, m.signer, m, xs).st, d');
  }

  lemma SettledCloses(cfg: Config, open: OrderOpen, st: OrderState, mid: OrderState, d: set<OrderMessage>, m: OrderMessage)
    requires FulfillmentsParked(cfg, open, st, d) && st.parked <= mid.parked
    requires m.body.Fulfillment? && !HasConfirmation(cfg, open, d) && !HasReject(cfg, open, d) ==> m in mid.parked
    ensures FulfillmentsParked(cfg, open, mid, d + {m})
  {
    assert HasConfirmation(cfg, open, d) ==> HasConfirmation(cfg, open, d + {m});
    assert HasReject(cfg, open, d) ==> HasReject(cfg, open, d + {m});
    hide HasConfirmation, HasReject;
    assert forall f <- st.parked :: f in mid.parked;
  }

  lemma ParkedFulfillmentsStay(cfg: Config, open: OrderOpen, mid: OrderState, st: OrderState, d: set<OrderMessage>)
    requires FulfillmentsParked(cfg, open, mid, d) && mid.parked <= st.parked
    ensures FulfillmentsParked(cfg, open, st, d)
  {
    assert forall f <- mid.parked :: f in st.parked;
  }

  // ---- wallet events and retries that deliver nothing ---------------------------------------------

  /** What an incoming payment sends and stores. */
  ghost predicate PaymentEffect(cfg: Config, ctx: Context, st: OrderState, tx: Transaction, e: Effect)
    requires OpenOf(st).Some?
  {
    && e.st.parked == st.parked && e.st.id == st.id
    && (e.sent == [] ==> SameCore(st, e.st))
    && (e.sent != [] && st.role.RoleBuyer? ==>
          && e.sent == [Outgoing(OpenOf(st).value.vendor, PaymentNotice(cfg, st, tx))]
          && SameCore(Insert(st, PaymentNotice(cfg, st, tx)), e.st))
    && (e.sent != [] && !st.role.RoleBuyer? ==>
          && st.role.RoleVendor? && SameCore(st, e.st)
          && e.sent == [Outgoing(OpenOf(st).value.buyer, RatingNotice(cfg, ctx, st, OpenOf(st).value))])
  }

  lemma IncomingEffect(cfg: Config, ctx: Context, st: OrderState, tx: Transaction)
    requires OpenOf(st).Some? && IncomingPayment(cfg, ctx, st, tx).err.NoError?
    ensures PaymentEffect(cfg, ctx, st, tx, IncomingPayment(cfg, ctx, st, tx))
  {
  }

  lemma WalletEffect(cfg: Config, ctx: Context, st: OrderState, tx: Transaction)
    requires OpenOf(st).Some?
    ensures PaymentEffect(cfg, ctx, st, tx, WalletEvent(cfg, ctx, st, tx))
  {
    hide IncomingPayment;
    if IncomingPayment(cfg, ctx, st, tx).err.NoError? {
      IncomingEffect(cfg, ctx, st, tx);
    }
  }

  lemma SettledWithPayment(cfg: Config, om: OrderMessage, st: OrderState, st': OrderState, d: set<OrderMessage>, x: OrderMessage)
    requires om.body.Open? && Settled(cfg, om, Some(st), d) && x.body.PaymentSent?
    requires SameCore(Insert(st, x), st') && st'.parked == st.parked && st'.id == st.id
    ensures Settled(cfg, om, Some(st'), d + {x})
  {
    hide Absorbed, HasConfirmation, HasReject, SameCore;
    assert HasConfirmation(cfg, om.body.open, d + {x}) <==> HasConfirmation(cfg, om.body.open, d) by {
      AddedElsewhere(cfg, om.body.open, d, x);
    }
    assert HasReject(cfg, om.body.open, d + {x}) <==> HasReject(cfg, om.body.open, d) by {
      AddedElsewhere(cfg, om.body.open, d, x);
    }
    var a := Ready(cfg, om.body.open, d);
    assert Ready(cfg, om.body.open, d + {x}) == a + {x};
    AbsorbListed(cfg, om, st, a, x);
    AbsorbedSame(cfg, om, Insert(st, x), st', a + {x});
  }

  lemma AddedElsewhere(cfg: Config, open: OrderOpen, d: set<OrderMessage>, x: OrderMessage)
    requires !x.body.Confirmation? && !x.body.Reject?
    ensures HasConfirmation(cfg, open, d + {x}) <==> HasConfirmation(cfg, open, d)
    ensures HasReject(cfg, open, d + {x}) <==> HasReject(cfg, open, d)
  {
    assert forall c <- d :: c in d + {x};
  }

  lemma SettledSame(cfg: Config, om: OrderMessage, st: OrderState, st': OrderState, d: set<OrderMessage>)
    requires om.body.Open? && Settled(cfg, om, Some(st), d)
    requires SameCore(st, st') && st'.parked == st.parked && st'.id == st.id
    ensures Settled(cfg, om, Some(st'), d)
  {
    hide HasConfirmation, HasReject, Ready;
    AbsorbedSame(cfg, om, st, st', Ready(cfg, om.body.open, d));
  }

  /** The announcements of payments among what was sent; this node stores them itself. */
  function Announced(sent: seq<Outgoing>): set<OrderMessage> {
    set o | o in sent && o.msg.body.PaymentSent? :: o.msg
  }

  lemma WalletTracks(cfg: Config, ctx: Context, om: OrderMessage, st: OrderState, d: set<OrderMessage>, tx: Transaction)
    requires om.body.Open? && Tracks(cfg, om, Some(st), d)
    ensures
      var e := WalletEvent(cfg, ctx, st, tx);
      && Tracks(cfg, om, Some(e.st), d + Announced(e.sent))
      && (forall x <- Announced(e.sent) :: x.orderID == om.orderID)
      && (om !in d ==> e.sent == [])
  {
    var e := WalletEvent(cfg, ctx, st, tx);
    if om in d {
      assert OpenOf(st).Some?;
      WalletSettles(cfg, ctx, om, st, d, tx);
    } else {
      assert !PaysTo(tx, st.paymentAddress) && !PaidFrom(tx, st.paymentAddress);
      assert e.st == st && Announced(e.sent) == {} && d + {} == d;
    }
  }

  lemma WalletSettles(cfg: Config, ctx: Context, om: OrderMessage, st: OrderState, d: set<OrderMessage>, tx: Transaction)
    requires om.body.Open? && Settled(cfg, om, Some(st), d) && OpenOf(st).Some?
    ensures
      var e := WalletEvent(cfg, ctx, st, tx);
      && Settled(cfg, om, Some(e.st), d + Announced(e.sent))
      && (forall x <- Announced(e.sent) :: x.orderID == om.orderID)
      && om in d + Announced(e.sent)
  {
    hide WalletEvent, Absorbed, HasConfirmation, HasReject, Ready, SameCore, FulfillmentsParked;
    var e := WalletEvent(cfg, ctx, st, tx);
    WalletEffect(cfg, ctx, st, tx);
    if e.sent != [] && st.role.RoleBuyer? {
      var notice := PaymentNotice(cfg, st, tx);
      assert Announced(e.sent) == {notice};
      SettledWithPayment(cfg, om, st, e.st, d, notice);
    } else {
      assert Announced(e.sent) == {} && d + {} == d;
      SettledSame(cfg, om, st, e.st, d);
    }
  }

  /** Retrying the parked messages for any peer, after a message that was not accepted from it, stores nothing new. */
  lemma IdleRetryTracks(cfg: Config, ctx: Context, om: OrderMessage, st: OrderState, d: set<OrderMessage>,
                        peer: PeerID, m: OrderMessage, xs: seq<OrderMessage>)
    requires om.body.Open? && Tracks(cfg, om, Some(st), d)
    requires ConflictFree(cfg, om.body.open, d) && Elems(xs) == Elems(st.parked)
    requires forall x <- d :: x.orderID == om.orderID
    ensures Tracks(cfg, om, Some(Retry(cfg, ctx, st, peer, m, xs).st), d)
  {
    hide Retry, ConflictFree, Exclusions;
    assert forall x <- xs :: x in Elems(xs);
    if om in d {
      IdleRetrySettles(cfg, ctx, om, st, d, peer, m, xs);
    } else {
      WaitingRetry(cfg, ctx, st, peer, m, xs);
      var st' := Retry(cfg, ctx, st, peer, m, xs).st;
      assert forall x <- st.parked :: x in st'.parked;
    }
  }

  lemma IdleRetrySettles(cfg: Config, ctx: Context, om: OrderMessage, st: OrderState, d: set<OrderMessage>,
                         peer: PeerID, m: OrderMessage, xs: seq<OrderMessage>)
    requires om.body.Open? && Settled(cfg, om, Some(st), d)
    requires ConflictFree(cfg, om.body.open, d) && Elems(xs) == Elems(st.parked)
    requires forall x <- d :: x.orderID == om.orderID
    ensures
      var st' := Retry(cfg, ctx, st, peer, m, xs).st;
      && Settled(cfg, om, Some(st'), d)
      && Absorbed(cfg, om, st', Ready(cfg, om.body.open, d))
  {
    hide Retry, Absorbed, Agree, SignersAgree, HasConfirmation, HasReject, Taken, ConfirmationFirst, Ready, FulfillmentsParked;
    var open := om.body.open;
    assert forall x <- xs :: x in Elems(xs);
    ReadyConfirmation(cfg, open, d);
    ReadyIsConfirmed(cfg, open, d, peer, m, xs);
    TakenIsReady(cfg, open, d, peer, m, xs);
    assert xs[..|xs|] == xs;
    RetryKeepsId(cfg, ctx, st, peer, m, xs);
    RetryAbsorbs(cfg, ctx, om, st, Ready(cfg, open, d), d, peer, m, xs, |xs|);
    ParkedFulfillmentsStay(cfg, open, st, Retry(cfg, ctx, st, peer, m, xs).st, d);
  }

  lemma ReadyIsConfirmed(cfg: Config, open: OrderOpen, d: set<OrderMessage>, peer: PeerID, m: OrderMessage, xs: seq<OrderMessage>)
    ensures Ready(cfg, open, d) <= d
    ensures ConfirmationFirst(cfg, open, Ready(cfg, open, d), d, peer, m, xs)
  {
    ReadyConfirmation(cfg, open, d);
  }

  lemma TakenIsReady(cfg: Config, open: OrderOpen, d: set<OrderMessage>, peer: PeerID, m: OrderMessage, xs: seq<OrderMessage>)
    ensures Elems(xs) <= d ==> Ready(cfg, open, d) + Taken(cfg, open, d, peer, m, xs, |xs|) == Ready(cfg, open, d)
  {
    assert xs[..|xs|] == xs;
    assert forall x <- xs :: x in Elems(xs);
  }

  /**
   Why a gated completion and a fulfilment conflict: the completion is refused, not parked, until a
   fulfilment is stored, so the two do not commute.
   */
  lemma ModeratedCompletionDependsOnOrder(cfg: Config, ctx: Context, st: OrderState, f: OrderMessage, k: OrderMessage)
    requires OpenOf(st).Some? && OpenOf(st).value.terms.Moderated? && st.role.RoleVendor?
    requires st.reject.None? && st.cancel.None? && st.complete.None? && st.disputeOpen.None?
    requires st.confirmation.Some? && st.fulfillments == []
    requires f.body.Fulfillment? && k.body.Complete? && k.body.hasRelease && ValidCompletion(cfg, OpenOf(st).value, k)
    ensures
      var early := Handle(cfg, ctx, Handle(cfg, ctx, st, k.signer, k).st, f.signer, f).st;
      early.complete.None? && early.parked == st.parked
    ensures
      var late := Handle(cfg, ctx, Handle(cfg, ctx, st, f.signer, f).st, k.signer, k).st;
      late.complete == Some(k)
  {
    assert Handle(cfg, ctx, st, k.signer, k).st == st;
    var fulfilled := Handle(cfg, ctx, st, f.signer, f).st;
    assert fulfilled == st.(fulfillments := [f]);
    assert Handle(cfg, ctx, fulfilled, k.signer, k).st == fulfilled.(complete := Some(k));
  }
}
