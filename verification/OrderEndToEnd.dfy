/**
 End-to-end agreement. The discipline asked of the two parties is what their nodes do not check
 themselves: no completion after a cancel, no item fulfilled twice, no refund listed twice.

 From it follows that the messages of a run never conflict, and so, whatever the network does, both
 nodes hold the same order as soon as both outboxes are empty.
 */
module OrderEndToEnd {
  import opened Common
  import opened OrderModel
  import opened OrderRules
  import opened OrderInvariants
  import opened OrderConvergence
  import opened OrderRuns
  import opened OrderMessaging
  import opened OrderDelivery
  import opened OrderAgreement

  ghost predicate Disciplined(w: World, row: Option<OrderState>, m: OrderMessage) {
    && (m.body.Open? ==> m == w.om)
    && (m.body.Complete? ==> Loaded(row).cancel.None?)
    && (m.body.Fulfillment? || m.body.Refund? ==> !AlreadyListed(Loaded(row), m.body))
  }

  /** The nodes talk about one order: its ID is the hash of its ORDER_OPEN. */
  ghost predicate OneOrder(w: World, steps: seq<Step>) {
    forall i {:trigger steps[i]} | 0 <= i < |steps| && steps[i].Act? && steps[i].m.body.Open? :: steps[i].m == w.om
  }

  ghost predicate Orderly(w: World, steps: seq<Step>, states: seq<System>)
    requires |states| == |steps| + 1
  {
    forall i {:trigger steps[i]} | 0 <= i < |steps| && steps[i].Act? ::
      Disciplined(w, NodeOf(states[i], steps[i].side).row, steps[i].m)
  }

  // ---- which messages a side posts ---------------------------------------------------------------

  ghost predicate MsgKind(w: World, s: Side, x: OrderMessage)
    requires w.om.body.Open?
  {
    && x.orderID == w.om.orderID && x.signer == PeerOf(w, s)
    && match x.body
       case Open(_) => s.Buyer? && x == w.om
       case Cancel(_, _) => s.Buyer? && w.om.body.open.terms.Cancelable?
       case Complete(_, _, _, _) => s.Buyer?
       case PaymentSent(_) => s.Buyer?
       case Reject(_, _) => s.Vendor?
       case Confirmation(_, _) => s.Vendor? && !AutoRejects(w.vendor, w.om.body.open)
       case Refund(_, _, _) => s.Vendor? && !w.om.body.open.terms.Cancelable?
       case Fulfillment(_, _) => s.Vendor?
       case RatingSignatures(_, _, _) => s.Vendor?
       case _ => false
  }

  ghost predicate Kinds(w: World, a: set<OrderMessage>)
    requires w.om.body.Open?
  {
    forall x <- a :: MsgKind(w, Buyer, x) || MsgKind(w, Vendor, x)
  }

  /** What counts at either node counts at the buyer, and only the vendor's own reject of the order counts there alone. */
  lemma BuyerCounts(w: World, s: Side, a: set<OrderMessage>)
    requires Fit(w) && Kinds(w, a)
    ensures forall x <- a :: Counts(ConfigOf(w, s), w.om.body.open, x) ==> Counts(w.buyer, w.om.body.open, x)
    ensures forall x <- a :: Counts(w.buyer, w.om.body.open, x) ==>
      Counts(ConfigOf(w, s), w.om.body.open, x) || (x.body.Reject? && AutoRejects(ConfigOf(w, s), w.om.body.open))
  {
  }

  lemma ConflictFreeFor(w: World, s: Side, a: set<OrderMessage>)
    requires Fit(w) && Kinds(w, a) && ConflictFree(w.buyer, w.om.body.open, a)
    ensures ConflictFree(ConfigOf(w, s), w.om.body.open, a)
  {
    hide Counts, Conflict, SharesItem, AutoRejects, MsgKind;
    BuyerCounts(w, s, a);
    assert HasConfirmation(ConfigOf(w, s), w.om.body.open, a) ==> HasConfirmation(w.buyer, w.om.body.open, a);
  }

  /** When a message can join a conflict-free set. */
  lemma AddOne(cfg: Config, open: OrderOpen, a: set<OrderMessage>, m: OrderMessage)
    requires ConflictFree(cfg, open, a) && !open.terms.Moderated?
    requires Counts(cfg, open, m) ==> forall y <- a :: Counts(cfg, open, y) ==> !Conflict(m, y) && !Conflict(y, m)
    requires m.body.Fulfillment? ==> forall g <- a :: g != m ==> !SharesItem(m.body, g.body)
    requires m.body.Fulfillment? ==> forall c <- a :: IsConfirmation(cfg, open, c) ==> c.signer == m.signer
    requires IsConfirmation(cfg, open, m) ==> forall f <- a :: !f.body.Fulfillment?
    ensures ConflictFree(cfg, open, a + {m})
  {
    assert !Conflict(m, m);
    AddOneItems(cfg, open, a, m);
    hide Conflict, Counts, SharesItem, ItemsAgree, HasConfirmation;
  }

  lemma AddOneItems(cfg: Config, open: OrderOpen, a: set<OrderMessage>, m: OrderMessage)
    requires ItemsAgree(cfg, open, a)
    requires m.body.Fulfillment? ==> forall g <- a :: g != m ==> !SharesItem(m.body, g.body)
    requires IsConfirmation(cfg, open, m) ==> forall f <- a :: !f.body.Fulfillment?
    ensures ItemsAgree(cfg, open, a + {m})
  {
    if HasConfirmation(cfg, open, a + {m}) && !IsConfirmation(cfg, open, m) {
      var c :| c in a + {m} && IsConfirmation(cfg, open, c);
      assert c in a && HasConfirmation(cfg, open, a);
      forall f, g | f in a + {m} && g in a + {m} && f != g ensures !SharesItem(f.body, g.body) {
        assert SharesItem(f.body, g.body) <==> SharesItem(g.body, f.body);
      }
    }
  }

  lemma AddRatings(cfg: Config, open: OrderOpen, a: set<OrderMessage>, rs: set<OrderMessage>)
    requires ConflictFree(cfg, open, a) && forall r <- rs :: r.body.RatingSignatures?
    ensures ConflictFree(cfg, open, a + rs)
  {
    assert HasConfirmation(cfg, open, a + rs) ==> HasConfirmation(cfg, open, a);
  }

  // ---- what a node holds ---------------------------------------------------------------------------

  /** Everything a node knows that counts is stored, fulfilments once the order is confirmed. */
  lemma KnownIsHeld(w: World, s: Side, row: Option<OrderState>, known: set<OrderMessage>, x: OrderMessage)
    requires Fit(w) && NodeAgrees(w, s, row, known) && w.om in known && Kinds(w, known)
    requires ConflictFree(w.buyer, w.om.body.open, known)
    requires x in known && Counts(w.buyer, w.om.body.open, x)
    requires x.body.Fulfillment? ==> row.Some? && row.value.confirmation.Some?
    ensures row.Some? && Holds(row.value, x)
  {
    hide Ready, SharesItem;
    var cfg, open := ConfigOf(w, s), w.om.body.open;
    BuyerCounts(w, s, known);
    ConflictFreeFor(w, s, known);
    if x.body.Reject? && AutoRejects(cfg, open) {
      assert !Conflict(row.value.reject.value, x);
    } else {
      CountedIsHeld(cfg, w.om, row, known, x);
    }
  }

  lemma CountedIsHeld(cfg: Config, om: OrderMessage, row: Option<OrderState>, known: set<OrderMessage>, x: OrderMessage)
    requires om.body.Open? && Settled(cfg, om, row, known) && PairsAgree(cfg, om.body.open, known)
    requires x in known && Counts(cfg, om.body.open, x)
    requires x.body.Fulfillment? ==> row.value.confirmation.Some?
    ensures Holds(row.value, x)
  {
    var a := Ready(cfg, om.body.open, known);
    if x.body.Fulfillment? {
      var c := row.value.confirmation.value;
      assert c in a && IsConfirmation(cfg, om.body.open, c);
      assert HasConfirmation(cfg, om.body.open, known);
    }
    assert x in a && PairsAgree(cfg, om.body.open, a);
    AbsorbedHolds(cfg, om, row.value, a, x);
  }

  lemma ActingNode(w: World, s: Side, row: Option<OrderState>, known: set<OrderMessage>, m: OrderMessage)
    requires Fit(w) && NodeAgrees(w, s, row, known) && MayAct(row, m.body) && (m.body.Open? ==> m == w.om)
    requires m.signer == PeerOf(w, s) && m.orderID == w.om.orderID
    ensures MsgKind(w, s, m) && w.om in known + {m} && (!m.body.Open? ==> w.om in known && row.Some? && row.value.open == Some(w.om))
    ensures row.Some? ==> Exclusions(row.value)
  {
    hide ConflictFree, HasConfirmation, HasReject, Lists, IsFunded, IsFulfilled, Ready;
    OpenIsKnown(w, s, row, known);
    assert row.Some? && w.om in known ==> Absorbed(ConfigOf(w, s), w.om, row.value, Ready(ConfigOf(w, s), w.om.body.open, known));
  }

  /** A counted message of this side that conflicts with `m` would be stored, and the guard would have failed. */
  lemma NoOwnConflict(w: World, s: Side, row: Option<OrderState>, known: set<OrderMessage>, m: OrderMessage, y: OrderMessage)
    requires Fit(w) && NodeAgrees(w, s, row, known) && MayAct(row, m.body) && Disciplined(w, row, m) && !m.body.Open?
    requires m.signer == PeerOf(w, s) && m.orderID == w.om.orderID && w.om in known
    requires Kinds(w, known) && ConflictFree(w.buyer, w.om.body.open, known)
    requires y in known && MsgKind(w, s, y) && MsgKind(w, s, m) && Counts(w.buyer, w.om.body.open, y)
    requires y.body.Fulfillment? ==> row.Some? && row.value.confirmation.Some?
    ensures !Conflict(m, y) && !Conflict(y, m)
    ensures m.body.Fulfillment? && y != m ==> !SharesItem(m.body, y.body)
    ensures m.body.Confirmation? ==> !y.body.Fulfillment?
  {
    hide NodeAgrees, ConflictFree, Counts, Kinds, IsFunded, IsFulfilled, Holds, Conflict, SharesItem, MayAct;
    KnownIsHeld(w, s, row, known, y);
    HeldExcludes(row.value, m, y, w);
  }

  lemma HeldExcludes(st: OrderState, m: OrderMessage, y: OrderMessage, w: World)
    requires w.om.body.Open? && MayAct(Some(st), m.body) && Disciplined(w, Some(st), m) && !m.body.Open? && Holds(st, y)
    requires m.signer == y.signer && m.orderID == y.orderID
    ensures !Conflict(m, y) && !Conflict(y, m)
    ensures m.body.Fulfillment? && y != m ==> !SharesItem(m.body, y.body)
    ensures m.body.Confirmation? ==> !y.body.Fulfillment?
  {
    assert SharesItem(m.body, y.body) <==> SharesItem(y.body, m.body);
  }

  /** A message an orderly node posts conflicts with nothing posted so far. */
  lemma ActConflictFree(w: World, s: Side, row: Option<OrderState>, known: set<OrderMessage>, log: set<OrderMessage>, m: OrderMessage)
    requires Fit(w) && NodeAgrees(w, s, row, known) && MayAct(row, m.body) && Disciplined(w, row, m)
    requires m.signer == PeerOf(w, s) && m.orderID == w.om.orderID
    requires known <= log && (forall x <- log :: MsgKind(w, s, x) ==> x in known)
    requires Kinds(w, log) && ConflictFree(w.buyer, w.om.body.open, log)
    requires s.Vendor? ==> forall x <- log :: x.body.Fulfillment? ==> row.Some? && row.value.confirmation.Some?
    ensures MsgKind(w, s, m)
    ensures ConflictFree(w.buyer, w.om.body.open, log + {m})
  {
    hide NodeAgrees, ConflictFree, IsFunded, IsFulfilled, PairsAgree, Counts, Conflict, SharesItem, MsgKind;
    var open := w.om.body.open;
    ActingNode(w, s, row, known, m);
    ConflictFreeSubset(w.buyer, open, known, log);
    forall y | y in log && Counts(w.buyer, open, y)
      ensures !m.body.Open? ==> !Conflict(m, y) && !Conflict(y, m)
      ensures m.body.Fulfillment? && y != m ==> !SharesItem(m.body, y.body)
      ensures m.body.Confirmation? ==> !y.body.Fulfillment?
    {
      if m.body.Open? {
      } else if MsgKind(w, s, y) {
        FulfilledMeansConfirmed(w, s, y);
        NoOwnConflict(w, s, row, known, m, y);
      } else {
        OtherSideNeverConflicts(w, s, m, y);
      }
    }
    Finish(w, s, log, m);
  }

  lemma FulfilledMeansConfirmed(w: World, s: Side, y: OrderMessage)
    requires w.om.body.Open? && MsgKind(w, s, y)
    ensures y.body.Fulfillment? ==> s.Vendor?
  {
  }

  /** What buyers post and what vendors post never conflict. */
  lemma OtherSideNeverConflicts(w: World, s: Side, m: OrderMessage, y: OrderMessage)
    requires w.om.body.Open? && MsgKind(w, s, m) && MsgKind(w, Other(s), y)
    ensures !Conflict(m, y) && !Conflict(y, m) && !SharesItem(m.body, y.body)
    ensures m.body.Confirmation? ==> !y.body.Fulfillment?
  {
  }

  lemma Finish(w: World, s: Side, log: set<OrderMessage>, m: OrderMessage)
    requires Fit(w) && MsgKind(w, s, m) && Kinds(w, log) && ConflictFree(w.buyer, w.om.body.open, log)
    requires forall y | y in log && Counts(w.buyer, w.om.body.open, y) ::
      && (!m.body.Open? ==> !Conflict(m, y) && !Conflict(y, m))
      && (m.body.Fulfillment? && y != m ==> !SharesItem(m.body, y.body))
      && (m.body.Confirmation? ==> !y.body.Fulfillment?)
    ensures ConflictFree(w.buyer, w.om.body.open, log + {m})
  {
    hide Conflict, AutoRejects;
    var open := w.om.body.open;
    assert m.body.Fulfillment? ==> forall g <- log :: g != m ==> !SharesItem(m.body, g.body);
    assert m.body.Fulfillment? ==> forall c <- log :: IsConfirmation(w.buyer, open, c) ==> c.signer == m.signer;
    AddOne(w.buyer, open, log, m);
  }

  // ---- the system ----------------------------------------------------------------------------------

  ghost predicate LogFits(w: World, log: seq<Posted>)
    requires w.om.body.Open?
  {
    forall p <- log :: Addressed(w, p) && MsgKind(w, p.from, p.out.msg)
  }

  /** The vendor speaks only about an order it received, and fulfils only what it confirmed. */
  ghost predicate VendorFollows(w: World, sys: System) {
    && (w.om !in Known(sys, Vendor) ==> forall p <- sys.log :: p.from.Buyer?)
    && (forall p <- sys.log :: p.out.msg.body.Fulfillment? ==>
          sys.vendor.row.Some? && sys.vendor.row.value.confirmation.Some?)
  }

  ghost predicate Agreed(w: World, sys: System)
    requires w.om.body.Open?
  {
    && LogFits(w, sys.log) && VendorFollows(w, sys)
    && ConflictFree(w.buyer, w.om.body.open, Log(sys))
    && NodeAgrees(w, Buyer, sys.buyer.row, Known(sys, Buyer))
    && NodeAgrees(w, Vendor, sys.vendor.row, Known(sys, Vendor))
  }

  ghost function MsgsOf(log: seq<Posted>, ids: set<MsgID>): set<OrderMessage> {
    set id | id in ids && id < |log| :: log[id].out.msg
  }

  lemma MovedLog(sys: System, s: Side, row: Option<OrderState>, ids: set<MsgID>, outs: seq<Outgoing>)
    ensures
      var sys' := Moved(sys, s, row, ids, outs);
      && (forall id | 0 <= id < |sys.log| :: sys'.log[id] == sys.log[id])
      && (forall id | |sys.log| <= id < |sys'.log| :: sys'.log[id].from == s && sys'.log[id].out.msg in Msgs(outs))
      && Log(sys') == Log(sys) + Msgs(outs)
  {
    hide Enqueue;
    var sys' := Moved(sys, s, row, ids, outs);
    forall id | |sys.log| <= id < |sys'.log| ensures sys'.log[id].from == s && sys'.log[id].out.msg in Msgs(outs) {
      assert sys'.log[id] == Posted(s, outs[id - |sys.log|]);
    }
    forall x | x in Msgs(outs) ensures x in Log(sys') {
      var i :| 0 <= i < |outs| && outs[i].msg == x;
      assert sys'.log[|sys.log| + i] == Posted(s, outs[i]);
    }
    assert forall id | 0 <= id < |sys.log| :: sys'.log[id].out.msg == sys.log[id].out.msg;
  }

  lemma MovedKnownHere(sys: System, s: Side, row: Option<OrderState>, ids: set<MsgID>, outs: seq<Outgoing>)
    requires NodeFits(sys.log, s, NodeOf(sys, s)) && forall id <- ids :: id < |sys.log|
    ensures Known(Moved(sys, s, row, ids, outs), s) == Known(sys, s) + MsgsOf(sys.log, ids) + Msgs(outs)
  {
    hide Enqueue;
    var sys' := Moved(sys, s, row, ids, outs);
    MovedLog(sys, s, row, ids, outs);
    forall x | x in Msgs(outs) ensures x in Known(sys', s) {
      var i :| 0 <= i < |outs| && outs[i].msg == x;
      assert sys'.log[|sys.log| + i] == Posted(s, outs[i]);
    }
    assert forall id | 0 <= id < |sys.log| :: sys'.log[id].out.msg == sys.log[id].out.msg;
  }

  lemma MovedKnownThere(sys: System, s: Side, row: Option<OrderState>, ids: set<MsgID>, outs: seq<Outgoing>)
    requires NodeFits(sys.log, Other(s), NodeOf(sys, Other(s)))
    ensures Known(Moved(sys, s, row, ids, outs), Other(s)) == Known(sys, Other(s))
  {
    hide Enqueue;
    MovedLog(sys, s, row, ids, outs);
    assert forall id | 0 <= id < |sys.log| :: Moved(sys, s, row, ids, outs).log[id].out.msg == sys.log[id].out.msg;
  }

  /** A move keeps agreement when its node agrees, its messages have the right kind, and none conflicts. */
  lemma MovedAgrees(w: World, sys: System, s: Side, row: Option<OrderState>, ids: set<MsgID>, outs: seq<Outgoing>)
    requires w.om.body.Open? && Agreed(w, sys) && Reliable(sys)
    requires forall id <- ids :: id < |sys.log| && sys.log[id].from == Other(s)
    requires forall o <- outs :: Addressed(w, Posted(s, o)) && MsgKind(w, s, o.msg)
    requires forall o <- outs :: o.msg.body.Fulfillment? ==> Loaded(row).confirmation.Some?
    requires ConflictFree(w.buyer, w.om.body.open, Log(sys) + Msgs(outs))
    requires NodeAgrees(w, s, row, Known(sys, s) + MsgsOf(sys.log, ids) + Msgs(outs))
    requires Kept(Loaded(NodeOf(sys, s).row).confirmation, Loaded(row).confirmation)
    requires s.Vendor? && outs != [] ==> w.om in Known(sys, s) + MsgsOf(sys.log, ids)
    ensures Agreed(w, Moved(sys, s, row, ids, outs))
  {
    hide NodeAgrees, ConflictFree, MsgKind, Known, Enqueue;
    var sys' := Moved(sys, s, row, ids, outs);
    MovedLog(sys, s, row, ids, outs);
    MovedKnownHere(sys, s, row, ids, outs);
    MovedKnownThere(sys, s, row, ids, outs);
    MovedLogFits(w, sys, s, row, ids, outs);
    assert NodeOf(sys', s).row == row && NodeOf(sys', Other(s)).row == NodeOf(sys, Other(s)).row;
    MovedVendorFollows(w, sys, s, row, ids, outs);
  }

  lemma MovedLogFits(w: World, sys: System, s: Side, row: Option<OrderState>, ids: set<MsgID>, outs: seq<Outgoing>)
    requires w.om.body.Open? && LogFits(w, sys.log)
    requires forall o <- outs :: Addressed(w, Posted(s, o)) && MsgKind(w, s, o.msg)
    ensures LogFits(w, Moved(sys, s, row, ids, outs).log)
  {
    hide Enqueue, MsgKind;
  }

  lemma MovedVendorFollows(w: World, sys: System, s: Side, row: Option<OrderState>, ids: set<MsgID>, outs: seq<Outgoing>)
    requires w.om.body.Open? && VendorFollows(w, sys)
    requires forall o <- outs :: MsgKind(w, s, o.msg)
    requires forall o <- outs :: o.msg.body.Fulfillment? ==> Loaded(row).confirmation.Some?
    requires Known(Moved(sys, s, row, ids, outs), s) == Known(sys, s) + MsgsOf(sys.log, ids) + Msgs(outs)
    requires Known(Moved(sys, s, row, ids, outs), Other(s)) == Known(sys, Other(s))
    requires Kept(Loaded(NodeOf(sys, s).row).confirmation, Loaded(row).confirmation)
    requires s.Vendor? && outs != [] ==> w.om in Known(sys, s) + MsgsOf(sys.log, ids)
    ensures VendorFollows(w, Moved(sys, s, row, ids, outs))
  {
    hide Enqueue, Known;
    var sys' := Moved(sys, s, row, ids, outs);
    forall p | p in sys'.log && p.out.msg.body.Fulfillment?
      ensures sys'.vendor.row.Some? && sys'.vendor.row.value.confirmation.Some?
    {
      if p !in sys.log {
        assert p in Post(s, outs);
        assert p.out in outs && s.Vendor?;
      }
    }
    forall p | p in sys'.log && w.om !in Known(sys', Vendor) ensures p.from.Buyer? {
      if p !in sys.log {
        assert p in Post(s, outs);
        assert p.out in outs && p.from == s;
      }
    }
  }

  // ---- steps ---------------------------------------------------------------------------------------

  lemma RepliesFit(w: World, s: Side, opening: bool, stamp: nat, sent: seq<Outgoing>)
    requires Fit(w) && Replies(w, s, opening, stamp, sent)
    ensures forall o <- sent :: Addressed(w, Posted(s, o)) && MsgKind(w, s, o.msg) && !o.msg.body.Fulfillment?
  {
  }

  lemma RepliesConflictFree(w: World, s: Side, opening: bool, stamp: nat, a: set<OrderMessage>, sent: seq<Outgoing>)
    requires Fit(w) && Replies(w, s, opening, stamp, sent) && ConflictFree(w.buyer, w.om.body.open, a)
    requires opening && s.Vendor? ==> forall x <- a :: !x.body.Reject? && !x.body.Confirmation?
    ensures ConflictFree(w.buyer, w.om.body.open, a + Msgs(sent))
  {
    hide ConflictFree, AutoRejects;
    var open := w.om.body.open;
    var rs := set x | x in Msgs(sent) && x.body.RatingSignatures?;
    var base := if opening && AutoRejects(ConfigOf(w, s), open) then a + {Refusal(w, stamp).msg} else a;
    if opening && AutoRejects(ConfigOf(w, s), open) {
      AddOne(w.buyer, open, a, Refusal(w, stamp).msg);
    }
    AddRatings(w.buyer, open, base, rs);
    assert a + Msgs(sent) <= base + rs;
    ConflictFreeSubset(w.buyer, open, a + Msgs(sent), base + rs);
  }

  /** Until the order reaches the vendor nothing it posts is in the log. */
  lemma VendorIsSilent(w: World, sys: System)
    requires w.om.body.Open? && LogFits(w, sys.log) && VendorFollows(w, sys) && w.om !in Known(sys, Vendor)
    ensures forall x <- Log(sys) :: !x.body.Reject? && !x.body.Confirmation?
  {
    hide Known;
    forall x | x in Log(sys) ensures !x.body.Reject? && !x.body.Confirmation? {
      var id :| 0 <= id < |sys.log| && sys.log[id].out.msg == x;
      assert sys.log[id] in sys.log;
    }
  }

  lemma LogIsKind(w: World, sys: System)
    requires w.om.body.Open? && LogFits(w, sys.log)
    ensures Kinds(w, Log(sys)) && forall x <- Log(sys) :: x.orderID == w.om.orderID
    ensures forall s :: Known(sys, s) <= Log(sys)
  {
    hide Counts, AutoRejects;
    forall x | x in Log(sys) ensures MsgKind(w, Buyer, x) || MsgKind(w, Vendor, x) {
      var id :| 0 <= id < |sys.log| && sys.log[id].out.msg == x;
      assert sys.log[id] in sys.log;
    }
  }

  lemma OwnIsKnown(w: World, sys: System, s: Side)
    requires Fit(w) && LogFits(w, sys.log)
    ensures forall x <- Log(sys) :: MsgKind(w, s, x) ==> x in Known(sys, s)
  {
    hide AutoRejects;
    forall x | x in Log(sys) && MsgKind(w, s, x) ensures x in Known(sys, s) {
      var id :| 0 <= id < |sys.log| && sys.log[id].out.msg == x;
      assert sys.log[id] in sys.log && sys.log[id].from == s;
    }
  }

  lemma FulfilledLog(w: World, sys: System)
    requires VendorFollows(w, sys)
    ensures forall x <- Log(sys) :: x.body.Fulfillment? ==> sys.vendor.row.Some? && sys.vendor.row.value.confirmation.Some?
  {
    hide Known;
    forall x | x in Log(sys) && x.body.Fulfillment? ensures sys.vendor.row.Some? && sys.vendor.row.value.confirmation.Some? {
      var id :| 0 <= id < |sys.log| && sys.log[id].out.msg == x;
      assert sys.log[id] in sys.log;
    }
  }

  lemma MsgsSnoc(sent: seq<Outgoing>, o: Outgoing)
    ensures Msgs(sent + [o]) == Msgs(sent) + {o.msg}
  {
    assert o in sent + [o];
  }

  /** The row after a message: what it stored before it still stores. */
  lemma RowGrows(w: World, s: Side, ctx: Context, row: Option<OrderState>, known: set<OrderMessage>, m: OrderMessage, xs: seq<OrderMessage>)
    requires w.om.body.Open? && NodeAgrees(w, s, row, known) && m.orderID == w.om.orderID
    ensures
      var row' := NextRow(ConfigOf(w, s), m.orderID, row, Message(ctx, m.signer, m, xs));
      Kept(Loaded(row).confirmation, Loaded(row').confirmation)
  {
    hide Process, NextRow, Settled, Waiting;
    assert Inv(BLANK);
    NextKeeps(ConfigOf(w, s), m.orderID, row, Message(ctx, m.signer, m, xs));
  }

  lemma DigestibleAct(w: World, s: Side, known: set<OrderMessage>, log: set<OrderMessage>, m: OrderMessage)
    requires Fit(w) && MsgKind(w, s, m) && Kinds(w, log) && known <= log && w.om in known + {m}
    requires ConflictFree(w.buyer, w.om.body.open, log + {m})
    ensures Digestible(w, s, known, m) || m.body.PaymentSent?
  {
    hide ConflictFree;
    assert Kinds(w, log + {m});
    ConflictFreeFor(w, s, log + {m});
    ConflictFreeSubset(ConfigOf(w, s), w.om.body.open, known + {m}, log + {m});
  }

  /** In an orderly run the message posted conflicts with nothing posted so far. */
  lemma ActStaysConflictFree(w: World, sys: System, step: Step)
    requires Fit(w) && Agreed(w, sys) && Enabled(w, sys, step) && step.Act?
    requires Disciplined(w, NodeOf(sys, step.side).row, step.m)
    ensures ConflictFree(w.buyer, w.om.body.open, Log(sys) + {step.m})
  {
    hide NodeAgrees, ConflictFree, MsgKind, Known, Log, RetriesOf, MayAct, Kinds, Disciplined;
    LogIsKind(w, sys);
    OwnIsKnown(w, sys, step.side);
    FulfilledLog(w, sys);
    ActConflictFree(w, step.side, NodeOf(sys, step.side).row, Known(sys, step.side), Log(sys), step.m);
  }

  lemma ActAgrees(w: World, sys: System, step: Step)
    requires Fit(w) && Agreed(w, sys) && Reliable(sys) && Enabled(w, sys, step) && step.Act?
    requires step.m.body.Open? ==> step.m == w.om
    requires ConflictFree(w.buyer, w.om.body.open, Log(sys) + {step.m})
    ensures Agreed(w, Next(w, sys, step))
  {
    hide NodeAgrees, ConflictFree, MsgKind, Known, Log, RetriesOf, Process, NextRow, MayAct, Digestible, Replies, Kinds;
    var s, m := step.side, step.m;
    var row, known := NodeOf(sys, s).row, Known(sys, s);
    var sent := Process(ConfigOf(w, s), step.ctx, row, m.signer, m, step.xs).sent;
    LogIsKind(w, sys);
    ActingNode(w, s, row, known, m);
    ActingFacts(w, s, row, known, m);
    DigestibleAct(w, s, known, Log(sys), m);
    OpenIsKnown(w, s, row, known);
    ProcessReplies(w, s, step.ctx, row, known, m, step.xs);
    NodeProcesses(w, s, step.ctx, row, known, m, step.xs);
    RowGrows(w, s, step.ctx, row, known, m, step.xs);
    RepliesFit(w, s, m == w.om && Loaded(row).open.None?, step.ctx.stamp, sent);
    RepliesConflictFree(w, s, m == w.om && Loaded(row).open.None?, step.ctx.stamp, Log(sys) + {m}, sent);
    ActMoves(w, sys, step, sent);
  }

  lemma ActingFacts(w: World, s: Side, row: Option<OrderState>, known: set<OrderMessage>, m: OrderMessage)
    requires Fit(w) && NodeAgrees(w, s, row, known) && MayAct(row, m.body) && (m.body.Open? ==> m == w.om)
    requires m.signer == PeerOf(w, s) && m.orderID == w.om.orderID
    ensures s.Vendor? ==> w.om in known
    ensures !m.body.PaymentSent? && (m.body.Fulfillment? ==> Loaded(row).confirmation.Some?)
  {
    ActingNode(w, s, row, known, m);
  }

  /** The pieces put together: the node's move as one step of the system. */
  lemma ActMoves(w: World, sys: System, step: Step, sent: seq<Outgoing>)
    requires Fit(w) && Agreed(w, sys) && Reliable(sys) && Enabled(w, sys, step) && step.Act?
    requires
      var s, m := step.side, step.m;
      var row := NodeOf(sys, s).row;
      var row' := NextRow(ConfigOf(w, s), w.om.orderID, row, Message(step.ctx, m.signer, m, step.xs));
      && sent == Process(ConfigOf(w, s), step.ctx, row, m.signer, m, step.xs).sent
      && MsgKind(w, s, m)
      && (forall o <- sent :: Addressed(w, Posted(s, o)) && MsgKind(w, s, o.msg) && !o.msg.body.Fulfillment?)
      && ConflictFree(w.buyer, w.om.body.open, Log(sys) + {m} + Msgs(sent))
      && NodeAgrees(w, s, row', Known(sys, s) + {m} + Msgs(sent))
      && Kept(Loaded(row).confirmation, Loaded(row').confirmation)
      && (m.body.Fulfillment? ==> Loaded(row).confirmation.Some?)
      && (s.Vendor? ==> w.om in Known(sys, s))
    ensures Agreed(w, Next(w, sys, step))
  {
    hide NodeAgrees, ConflictFree, MsgKind, Known, Log, RetriesOf, Process, NextRow, MayAct, Enqueue, Reliable, Agreed;
    var s, m := step.side, step.m;
    var o := Outgoing(PeerOf(w, Other(s)), m);
    MsgsSnoc(sent, o);
    ActShape(w, sys, step);
    assert Sends(w, sys, step) == sent + [o];
    assert MsgsOf(sys.log, {}) == {};
    assert Known(sys, s) + {} + Msgs(sent + [o]) == Known(sys, s) + {m} + Msgs(sent);
    assert Log(sys) + Msgs(sent + [o]) == Log(sys) + {m} + Msgs(sent);
    MovedAgrees(w, sys, s, NodeAfter(w, sys, step).row, {}, sent + [o]);
  }

  lemma MsgsOfOne(log: seq<Posted>, id: MsgID)
    requires id < |log|
    ensures MsgsOf(log, {id}) == {log[id].out.msg}
  {
  }

  lemma DigestibleDelivery(w: World, sys: System, id: MsgID)
    requires Fit(w) && Agreed(w, sys) && id < |sys.log|
    ensures Digestible(w, Other(sys.log[id].from), Known(sys, Other(sys.log[id].from)), sys.log[id].out.msg)
  {
    hide NodeAgrees, ConflictFree, AutoRejects, Absorbed;
    var p := sys.log[id];
    var s, m := Other(p.from), p.out.msg;
    var cfg, known := ConfigOf(w, s), Known(sys, s);
    assert p in sys.log;
    LogIsKind(w, sys);
    assert m in Log(sys) && known + {m} <= Log(sys);
    ConflictFreeFor(w, s, Log(sys));
    ConflictFreeSubset(cfg, w.om.body.open, known + {m}, Log(sys));
    if s.Buyer? && w.om !in known {
      assert w.om in Known(sys, Vendor);
      OwnIsKnown(w, sys, Buyer);
      OrderIsBuyers(w, sys);
    }
  }

  lemma OrderIsBuyers(w: World, sys: System)
    requires Fit(w) && LogFits(w, sys.log) && w.om in Known(sys, Vendor)
    ensures w.om in Known(sys, Buyer)
  {
    var id :| 0 <= id < |sys.log| && (sys.log[id].from == Vendor || id in sys.vendor.incoming) && sys.log[id].out.msg == w.om;
    assert sys.log[id] in sys.log;
  }

  lemma DeliverAgrees(w: World, sys: System, step: Step)
    requires Fit(w) && Agreed(w, sys) && Reliable(sys) && Enabled(w, sys, step) && step.Deliver?
    requires step.id !in NodeOf(sys, SideOf(sys, step)).incoming
    ensures Agreed(w, Next(w, sys, step))
  {
    hide NodeAgrees, ConflictFree, Known, Log, RetriesOf, Process, NextRow, Digestible, Replies, Kinds, Enqueue, Reliable;
    var id := step.id;
    var s, m := SideOf(sys, step), sys.log[step.id].out.msg;
    var row, known := NodeOf(sys, s).row, Known(sys, s);
    var sent := Sends(w, sys, step);
    assert sys.log[id] in sys.log && m.signer == PeerOf(w, Other(s));
    assert sent == Process(ConfigOf(w, s), step.ctx, row, m.signer, m, step.xs).sent;
    assert NodeAfter(w, sys, step).row == NextRow(ConfigOf(w, s), w.om.orderID, row, Message(step.ctx, m.signer, m, step.xs));
    LogIsKind(w, sys);
    DigestibleDelivery(w, sys, id);
    ProcessReplies(w, s, step.ctx, row, known, m, step.xs);
    NodeProcesses(w, s, step.ctx, row, known, m, step.xs);
    RowGrows(w, s, step.ctx, row, known, m, step.xs);
    RepliesFit(w, s, m == w.om && Loaded(row).open.None?, step.ctx.stamp, sent);
    LoggedIs(sys, id);
    MsgsOfOne(sys.log, id);
    OpenIsKnown(w, s, row, known);
    if s.Vendor? && w.om !in known {
      VendorIsSilent(w, sys);
    }
    RepliesConflictFree(w, s, m == w.om && Loaded(row).open.None?, step.ctx.stamp, Log(sys), sent);
    DeliverShape(w, sys, step);
    MovedAgrees(w, sys, s, NodeAfter(w, sys, step).row, {id}, sent);
    SameForBoth(w, Moved(sys, s, NodeAfter(w, sys, step).row, {id}, sent), Next(w, sys, step));
  }

  lemma LoggedIs(sys: System, id: MsgID)
    requires id < |sys.log|
    ensures sys.log[id].out.msg in Log(sys)
  {
  }

  /** Agreement is about the nodes and the log alone. */
  lemma SameForBoth(w: World, a: System, b: System)
    requires w.om.body.Open? && Agreed(w, a)
    requires b == a.(acks := b.acks, handled := b.handled)
    ensures Agreed(w, b)
  {
    hide NodeAgrees, ConflictFree, MsgKind;
    assert forall s :: Known(a, s) == Known(b, s);
    assert Log(a) == Log(b);
  }

  lemma WalletRepliesFit(w: World, s: Side, a: set<OrderMessage>, sent: seq<Outgoing>)
    requires Fit(w) && (forall o <- sent :: WalletReply(w, s, o))
    requires Kinds(w, a) && ConflictFree(w.buyer, w.om.body.open, a)
    ensures forall o <- sent :: Addressed(w, Posted(s, o)) && MsgKind(w, s, o.msg) && !o.msg.body.Fulfillment?
    ensures |sent| <= 1 ==> ConflictFree(w.buyer, w.om.body.open, a + Msgs(sent))
  {
    hide ConflictFree;
    if sent == [] {
      assert a + Msgs(sent) == a;
    } else if s.Vendor? {
      AddRatings(w.buyer, w.om.body.open, a, Msgs(sent));
    } else if |sent| == 1 {
      assert sent == [] + [sent[0]];
      MsgsSnoc([], sent[0]);
      assert Msgs(sent) == {sent[0].msg};
      assert sent[0] in sent;
      AddPayment(w, a, sent[0].msg);
    }
  }

  /** Two announcements of one payment are the same message. */
  lemma AddPayment(w: World, a: set<OrderMessage>, x: OrderMessage)
    requires Fit(w) && Kinds(w, a) && ConflictFree(w.buyer, w.om.body.open, a)
    requires x.body.PaymentSent? && x == OrderMessage(w.om.orderID, PaymentSent(x.body.paid), w.buyer.identity)
    ensures ConflictFree(w.buyer, w.om.body.open, a + {x})
  {
    AddOne(w.buyer, w.om.body.open, a, x);
  }

  lemma PayAgrees(w: World, sys: System, step: Step)
    requires Fit(w) && Agreed(w, sys) && Reliable(sys) && step.Pay?
    ensures Agreed(w, Next(w, sys, step))
  {
    hide NodeAgrees, ConflictFree, Known, Log, Kinds, Enqueue, Reliable, WalletEvent, MsgKind;
    var s, row := step.side, NodeOf(sys, step.side).row;
    var known, sent := Known(sys, s), Sends(w, sys, step);
    LogIsKind(w, sys);
    assert MsgsOf(sys.log, {}) == {};
    if row.Some? {
      NodePays(w, s, step.ctx, row, known, step.tx);
      WalletSendsOne(ConfigOf(w, s), step.ctx, row.value, step.tx);
      PayingRowGrows(w, s, step.ctx, row, known, step.tx);
    } else {
      assert known + {} + Msgs(sent) == known;
    }
    WalletRepliesFit(w, s, Log(sys), sent);
    assert known + {} + Msgs(sent) == known + Msgs(sent);
    ActShape(w, sys, step);
    MovedAgrees(w, sys, s, NodeAfter(w, sys, step).row, {}, sent);
  }

  lemma WalletSendsOne(cfg: Config, ctx: Context, st: OrderState, tx: Transaction)
    ensures |WalletEvent(cfg, ctx, st, tx).sent| <= 1
  {
  }

  lemma PayingRowGrows(w: World, s: Side, ctx: Context, row: Option<OrderState>, known: set<OrderMessage>, tx: Transaction)
    requires w.om.body.Open? && NodeAgrees(w, s, row, known) && row.Some?
    ensures Kept(row.value.confirmation, WalletEvent(ConfigOf(w, s), ctx, row.value, tx).st.confirmation)
  {
    hide WalletEvent, Absorbed;
    WalletKeeps(ConfigOf(w, s), ctx, row.value, tx);
  }

  lemma AckAgrees(w: World, sys: System, step: Step)
    requires Fit(w) && Agreed(w, sys) && Reliable(sys) && Enabled(w, sys, step) && step.DeliverAck?
    ensures Agreed(w, Next(w, sys, step))
  {
    hide NodeAgrees, ConflictFree, MsgKind, NextRow, Known, Log;
    var id, sys' := step.id, Next(w, sys, step);
    var s := sys.log[id].from;
    assert sys.log[id] in sys.log;
    var n := NodeOf(sys, s);
    AckMovesRow(w, sys, id);
    if id in n.outbox {
      NodeIsAcked(w, s, n.row, Known(sys, s), TypeNumber(sys.log[id].out.msg.body));
    }
    AckKeepsSlots(ConfigOf(w, s), w.om.orderID, n.row, TypeNumber(sys.log[id].out.msg.body));
    SameKnowledge(sys, sys');
  }

  lemma AckMovesRow(w: World, sys: System, id: MsgID)
    requires Reliable(sys) && id < |sys.log| && sys.log[id].out.msg.orderID == w.om.orderID
    ensures
      var s, sys' := sys.log[id].from, Next(w, sys, DeliverAck(id));
      && sys'.log == sys.log && NodeOf(sys', Other(s)) == NodeOf(sys, Other(s))
      && NodeOf(sys', s).incoming == NodeOf(sys, s).incoming
      && NodeOf(sys', s).row ==
           if id in NodeOf(sys, s).outbox
           then NextRow(ConfigOf(w, s), w.om.orderID, NodeOf(sys, s).row, Acked(TypeNumber(sys.log[id].out.msg.body)))
           else NodeOf(sys, s).row
  {
    hide NextRow, NoLoss, HandledOnce, AcksAreTrue, FlagsAreTrue;
    assert sys.log + Post(sys.log[id].from, []) == sys.log;
  }

  lemma SameKnowledge(a: System, b: System)
    requires a.log == b.log && a.buyer.incoming == b.buyer.incoming && a.vendor.incoming == b.vendor.incoming
    ensures Log(a) == Log(b) && forall s :: Known(a, s) == Known(b, s)
  {
  }

  lemma AckKeepsSlots(cfg: Config, id: OrderID, row: Option<OrderState>, k: nat)
    ensures NextRow(cfg, id, row, Acked(k)).Some? <==> row.Some?
    ensures row.Some? ==> NextRow(cfg, id, row, Acked(k)).value.confirmation == row.value.confirmation
  {
  }

  lemma StartAgrees(w: World)
    requires Fit(w)
    ensures Agreed(w, START)
  {
    assert Known(START, Buyer) == {} && Known(START, Vendor) == {} && Log(START) == {};
  }

  lemma {:induction false} EveryRunAgrees(w: World, steps: seq<Step>, states: seq<System>)
    requires Fit(w) && Execution(w, steps, states) && Orderly(w, steps, states)
    ensures Agreed(w, states[|steps|])
    decreases steps
  {
    hide Reliable, Agreed, Enabled, Next, Disciplined;
    if steps == [] {
      StartAgrees(w);
    } else {
      var n := |steps| - 1;
      LastStep(w, steps, states);
      LastIsOrderly(w, steps, states);
      EveryRunAgrees(w, steps[..n], states[..n + 1]);
      EveryRunIsReliable(w, steps[..n], states[..n + 1]);
      if steps[n].Act? {
        ActStaysConflictFree(w, states[n], steps[n]);
        DisciplinedOpens(w, NodeOf(states[n], steps[n].side).row, steps[n].m);
      }
      StepAgrees(w, states[n], steps[n]);
    }
  }

  lemma DisciplinedOpens(w: World, row: Option<OrderState>, m: OrderMessage)
    requires Disciplined(w, row, m)
    ensures m.body.Open? ==> m == w.om
  {
  }

  /** What a step posts stays posted, an action's own message included. */
  lemma LogGrows(w: World, sys: System, step: Step)
    ensures Log(sys) <= Log(Next(w, sys, step))
    ensures step.Act? ==> Log(sys) + {step.m} <= Log(Next(w, sys, step))
  {
    hide NodeAfter, Process;
    var sys' := Next(w, sys, step);
    assert sys'.log == sys.log + Post(SideOf(sys, step), Sends(w, sys, step));
    assert forall id | 0 <= id < |sys.log| :: sys'.log[id] == sys.log[id];
    if step.Act? {
      assert sys'.log[|sys'.log| - 1].out.msg == step.m;
    }
  }

  /** Whatever the parties do: at every moment of a run whose messages do not conflict, the nodes agree. */
  lemma {:induction false} ConflictFreeRunsAgree(w: World, steps: seq<Step>, states: seq<System>)
    requires Fit(w) && Execution(w, steps, states) && OneOrder(w, steps)
    requires ConflictFree(w.buyer, w.om.body.open, Log(states[|steps|]))
    ensures Agreed(w, states[|steps|])
    decreases steps
  {
    hide Reliable, Agreed, Enabled, Next, ConflictFree, Log;
    if steps == [] {
      StartAgrees(w);
    } else {
      var n := |steps| - 1;
      LastStep(w, steps, states);
      LogGrows(w, states[n], steps[n]);
      ConflictFreeSubset(w.buyer, w.om.body.open, Log(states[n]), Log(states[n + 1]));
      if steps[n].Act? {
        ConflictFreeSubset(w.buyer, w.om.body.open, Log(states[n]) + {steps[n].m}, Log(states[n + 1]));
      }
      ConflictFreeRunsAgree(w, steps[..n], states[..n + 1]);
      EveryRunIsReliable(w, steps[..n], states[..n + 1]);
      StepAgrees(w, states[n], steps[n]);
    }
  }

  lemma LastIsOrderly(w: World, steps: seq<Step>, states: seq<System>)
    requires |states| == |steps| + 1 && Orderly(w, steps, states) && steps != []
    ensures
      var n := |steps| - 1;
      && Orderly(w, steps[..n], states[..n + 1])
      && (steps[n].Act? ==> Disciplined(w, NodeOf(states[n], steps[n].side).row, steps[n].m))
  {
    hide Disciplined;
    var n := |steps| - 1;
    forall i | 0 <= i < n && steps[..n][i].Act?
      ensures Disciplined(w, NodeOf(states[..n + 1][i], steps[..n][i].side).row, steps[..n][i].m)
    {
      assert steps[..n][i] == steps[i] && states[..n + 1][i] == states[i];
    }
  }

  lemma StepAgrees(w: World, sys: System, step: Step)
    requires Fit(w) && Agreed(w, sys) && Reliable(sys) && Enabled(w, sys, step)
    requires step.Act? ==>
      (step.m.body.Open? ==> step.m == w.om) && ConflictFree(w.buyer, w.om.body.open, Log(sys) + {step.m})
    ensures Agreed(w, Next(w, sys, step))
  {
    hide Reliable, Agreed, Enabled, Next, ConflictFree;
    match step
    case Act(_, _, _, _) => ActAgrees(w, sys, step);
    case Pay(_, _, _) => PayAgrees(w, sys, step);
    case DeliverAck(_) => AckAgrees(w, sys, step);
    case Deliver(_, _, _) => AnyDelivery(w, sys, step);
  }

  lemma AnyDelivery(w: World, sys: System, step: Step)
    requires Fit(w) && Agreed(w, sys) && Reliable(sys) && Enabled(w, sys, step) && step.Deliver?
    ensures Agreed(w, Next(w, sys, step))
  {
    hide Reliable, Agreed, Enabled, Next;
    if step.id in NodeOf(sys, SideOf(sys, step)).incoming {
      RedeliveryIsIdle(w, sys, step);
      SameForBoth(w, sys, Next(w, sys, step));
    } else {
      DeliverAgrees(w, sys, step);
    }
  }

  // ---- the results -----------------------------------------------------------------------------------

  /** What the vendor's row absorbed, its own reject included, is what the buyer's rules make of the set. */
  lemma AbsorbedByBoth(w: World, row: Option<OrderState>, d: set<OrderMessage>)
    requires Fit(w) && Kinds(w, d) && NodeAgrees(w, Vendor, row, d) && w.om in d
    ensures row.Some? && Absorbed(w.buyer, w.om, row.value, Ready(w.buyer, w.om.body.open, d))
  {
    hide Counts, MsgKind, AutoRejects;
    var open := w.om.body.open;
    BuyerCounts(w, Vendor, d);
    assert HasConfirmation(w.buyer, open, d) <==> HasConfirmation(w.vendor, open, d);
    assert Ready(w.vendor, open, d) == Ready(w.buyer, open, d);
    BuyerNeverRefuses(w);
    if AutoRejects(w.vendor, open) {
      RefusalCounts(w, d, row.value.reject);
    }
  }

  lemma BuyerNeverRefuses(w: World)
    requires Fit(w)
    ensures !AutoRejects(w.buyer, w.om.body.open)
  {
  }

  lemma RefusalCounts(w: World, d: set<OrderMessage>, slot: Option<OrderMessage>)
    requires Fit(w) && RejectsItself(w.vendor, w.om, slot) && slot.value in d
    ensures SlotTracks(w.buyer, w.om.body.open, Ready(w.buyer, w.om.body.open, d), slot, 1)
  {
  }

  /** Nothing is posted before the order. */
  lemma OrderComesFirst(w: World, sys: System)
    requires Fit(w) && Agreed(w, sys) && sys.log != []
    ensures w.om in Log(sys)
  {
    hide Tracks, ConflictFree, AutoRejects;
    var p := sys.log[0];
    LogIsKind(w, sys);
    if w.om !in Known(sys, Vendor) {
      assert p in sys.log && p.from.Buyer?;
      assert p.out.msg in Known(sys, Buyer);
      assert w.om in Known(sys, Buyer);
    }
  }

  /** No message posted in an orderly run rules another one out. */
  lemma OrderlyRunsNeverConflict(w: World, steps: seq<Step>, states: seq<System>)
    requires Fit(w) && Execution(w, steps, states) && Orderly(w, steps, states)
    ensures ConflictFree(w.buyer, w.om.body.open, Log(states[|steps|]))
    ensures ConflictFree(w.vendor, w.om.body.open, Log(states[|steps|]))
  {
    EveryRunAgrees(w, steps, states);
    LogIsKind(w, states[|steps|]);
    ConflictFreeFor(w, Vendor, Log(states[|steps|]));
  }

  /** Two nodes that agree with the log and know all of it hold the same order. */
  lemma SameLogSameOrder(w: World, sys: System)
    requires Fit(w) && Agreed(w, sys) && sys.log != []
    requires Known(sys, Buyer) == Log(sys) == Known(sys, Vendor)
    ensures sys.buyer.row.Some? && sys.vendor.row.Some? && SameSlots(sys.buyer.row.value, sys.vendor.row.value)
  {
    hide ConflictFree, Absorbed, Log, Known, Ready, SameSlots, LogFits, Kinds;
    var d := Log(sys);
    OrderComesFirst(w, sys);
    LogIsKind(w, sys);
    ConflictFreeFor(w, Vendor, d);
    AbsorbedByBoth(w, sys.vendor.row, d);
    ReadyAgrees(w.buyer, w.om.body.open, d);
    AbsorbedIsUnique(w.buyer, w.om, sys.buyer.row.value, sys.vendor.row.value, Ready(w.buyer, w.om.body.open, d));
  }

  /**
   End-to-end agreement: when nothing is left in either outbox, buyer and vendor hold the same slots and
   the same sets of fulfilments, refunds and payment notices.
   */
  lemma BothPartiesHoldTheSameOrder(w: World, steps: seq<Step>, states: seq<System>)
    requires Fit(w) && Execution(w, steps, states) && Orderly(w, steps, states) && states[|steps|].log != []
    requires states[|steps|].buyer.outbox == map[] && states[|steps|].vendor.outbox == map[]
    ensures
      var sys := states[|steps|];
      sys.buyer.row.Some? && sys.vendor.row.Some? && SameSlots(sys.buyer.row.value, sys.vendor.row.value)
  {
    hide Enabled, Next, Orderly, Agreed, SameSlots, Known, Log;
    EveryRunAgrees(w, steps, states);
    QuietNodesKnowTheSame(w, steps, states);
    SameLogSameOrder(w, states[|steps|]);
  }

  /** The same for parties that keep to no discipline, as long as what they posted does not conflict. */
  lemma ConflictFreeRunsEndEqual(w: World, steps: seq<Step>, states: seq<System>)
    requires Fit(w) && Execution(w, steps, states) && OneOrder(w, steps) && states[|steps|].log != []
    requires ConflictFree(w.buyer, w.om.body.open, Log(states[|steps|]))
    requires states[|steps|].buyer.outbox == map[] && states[|steps|].vendor.outbox == map[]
    ensures
      var sys := states[|steps|];
      sys.buyer.row.Some? && sys.vendor.row.Some? && SameSlots(sys.buyer.row.value, sys.vendor.row.value)
  {
    hide Enabled, Next, OneOrder, Agreed, SameSlots, Known, Log, ConflictFree;
    ConflictFreeRunsAgree(w, steps, states);
    QuietNodesKnowTheSame(w, steps, states);
    SameLogSameOrder(w, states[|steps|]);
  }

  lemma ReadyAgrees(cfg: Config, open: OrderOpen, d: set<OrderMessage>)
    requires ConflictFree(cfg, open, d)
    ensures PairsAgree(cfg, open, Ready(cfg, open, d))
  {
  }

  /** A fulfilment in the log means a confirmation, and so no reject, in every part of it. */
  lemma FulfilledIsNotRejected(w: World, sys: System, s: Side, f: OrderMessage)
    requires Fit(w) && Agreed(w, sys) && f in Log(sys) && f.body.Fulfillment?
    ensures !HasReject(ConfigOf(w, s), w.om.body.open, Known(sys, s))
  {
    hide Conflict, Known;
    var cfg, open := ConfigOf(w, s), w.om.body.open;
    LogIsKind(w, sys);
    FulfilledLog(w, sys);
    ConflictFreeFor(w, s, Log(sys));
    var c := VendorConfirmation(w, sys.vendor.row, Known(sys, Vendor));
    assert c in Log(sys) && MsgKind(w, Vendor, c) && IsConfirmation(cfg, open, c);
    assert Log(sys) + {c} == Log(sys);
    NoRejectBeside(cfg, open, Log(sys), c);
  }

  lemma VendorConfirmation(w: World, row: Option<OrderState>, known: set<OrderMessage>) returns (c: OrderMessage)
    requires Fit(w) && NodeAgrees(w, Vendor, row, known) && row.Some? && row.value.confirmation.Some?
    ensures c in known && c.body.Confirmation? && Counts(w.vendor, w.om.body.open, c)
  {
    OpenIsKnown(w, Vendor, row, known);
    assert row.value.open.Some?;
    c := row.value.confirmation.value;
  }

  /**
   At every moment of an orderly run a node stores every message it knows that counts, even when two of
   them crossed; only fulfilments wait, parked, until the confirmation is there.
   */
  lemma WhatIsKnownIsStored(w: World, steps: seq<Step>, states: seq<System>, s: Side, x: OrderMessage)
    requires Fit(w) && Execution(w, steps, states) && Orderly(w, steps, states)
    requires w.om in Known(states[|steps|], s) && x in Known(states[|steps|], s)
    requires Counts(w.buyer, w.om.body.open, x)
    ensures
      var row := NodeOf(states[|steps|], s).row;
      && row.Some?
      && (if x.body.Fulfillment? && row.value.confirmation.None? then x in row.value.parked else Holds(row.value, x))
  {
    hide Enabled, Next, Orderly, Agreed;
    EveryRunAgrees(w, steps, states);
    KnownIsStored(w, states[|steps|], s, x);
  }

  lemma KnownIsStored(w: World, sys: System, s: Side, x: OrderMessage)
    requires Fit(w) && Agreed(w, sys) && w.om in Known(sys, s) && x in Known(sys, s) && Counts(w.buyer, w.om.body.open, x)
    ensures
      var row := NodeOf(sys, s).row;
      && row.Some?
      && (if x.body.Fulfillment? && row.value.confirmation.None? then x in row.value.parked else Holds(row.value, x))
  {
    hide ConflictFree, Known, Log, Counts, Holds, LogFits, Kinds, MsgKind, VendorFollows, HasReject, HasConfirmation, Absorbed, Ripe;
    var cfg, open := ConfigOf(w, s), w.om.body.open;
    var row, known := NodeOf(sys, s).row, Known(sys, s);
    LogIsKind(w, sys);
    PartIsKind(w, known, Log(sys));
    ConflictFreeSubset(w.buyer, open, known, Log(sys));
    if x.body.Fulfillment? && row.value.confirmation.None? {
      FulfilledIsNotRejected(w, sys, s, x);
      ConflictFreeFor(w, s, known);
      ReadyAgrees(cfg, open, known);
      ReadyConfirmation(cfg, open, known);
      RejectedOrConfirmed(cfg, w.om, row.value, Ready(cfg, open, known));
    } else {
      KnownIsHeld(w, s, row, known, x);
    }
  }

  lemma PartIsKind(w: World, a: set<OrderMessage>, b: set<OrderMessage>)
    requires w.om.body.Open? && Kinds(w, b) && a <= b
    ensures Kinds(w, a)
  {
    hide MsgKind;
  }

  /** The order's own message, a message in its slot or list, or a parked one. */
  ghost predicate Has(st: OrderState, x: OrderMessage) {
    st.open == Some(x) || Holds(st, x) || x in st.parked
  }

  /** An acknowledged flag means the recipient's row has such a message, unless it is one no row stores. */
  lemma AckedIsStored(w: World, steps: seq<Step>, states: seq<System>, s: Side, n: nat) returns (id: MsgID)
    requires Fit(w) && Execution(w, steps, states) && Orderly(w, steps, states)
    requires n in Loaded(NodeOf(states[|steps|], s).row).acked
    ensures
      var sys := states[|steps|];
      && id < |sys.log| && sys.log[id].from == s && id in NodeOf(sys, Other(s)).incoming
      && var x, row := sys.log[id].out.msg, NodeOf(sys, Other(s)).row;
         && TypeNumber(x.body) == n
         && (x == w.om || Counts(w.buyer, w.om.body.open, x) ==> row.Some? && Has(row.value, x))
  {
    hide Enabled, Next, Orderly, Agreed, Reliable, Has;
    var sys := states[|steps|];
    EveryRunAgrees(w, steps, states);
    AtMostOnceAndAcksTrue(w, steps, states);
    assert Reached(sys, s, n);
    id :| id in NodeOf(sys, Other(s)).incoming && id < |sys.log| && sys.log[id].from == s && TypeNumber(sys.log[id].out.msg.body) == n;
    IncomingIsKnown(sys, Other(s), id);
    if sys.log[id].out.msg == w.om || Counts(w.buyer, w.om.body.open, sys.log[id].out.msg) {
      HandledIsStored(w, sys, Other(s), sys.log[id].out.msg);
    }
  }

  lemma IncomingIsKnown(sys: System, s: Side, id: MsgID)
    requires id in NodeOf(sys, s).incoming && id < |sys.log|
    ensures sys.log[id].out.msg in Known(sys, s)
  {
  }

  lemma HandledIsStored(w: World, sys: System, s: Side, x: OrderMessage)
    requires Fit(w) && Agreed(w, sys) && x in Known(sys, s)
    requires x == w.om || Counts(w.buyer, w.om.body.open, x)
    ensures NodeOf(sys, s).row.Some? && Has(NodeOf(sys, s).row.value, x)
  {
    hide LogFits, VendorFollows, ConflictFree, Known, Log, Ready, HasConfirmation, HasReject, FulfillmentsParked;
    if w.om in Known(sys, s) {
      if x != w.om {
        KnownIsStored(w, sys, s, x);
      }
    } else {
      assert Handled(x.body);
    }
  }

  /** A cancel and a confirmation that crossed: in the end both parties hold both. */
  lemma CrossingMessagesAreBothKept(w: World, steps: seq<Step>, states: seq<System>, i: MsgID, j: MsgID)
    requires Fit(w) && Execution(w, steps, states) && Orderly(w, steps, states)
    requires states[|steps|].buyer.outbox == map[] && states[|steps|].vendor.outbox == map[]
    requires i < |states[|steps|].log| && states[|steps|].log[i].out.msg.body.Cancel?
    requires j < |states[|steps|].log| && states[|steps|].log[j].out.msg.body.Confirmation?
    ensures forall s ::
      var sys := states[|steps|];
      var row := NodeOf(sys, s).row;
      row.Some? && row.value.cancel == Some(sys.log[i].out.msg) && row.value.confirmation == Some(sys.log[j].out.msg)
  {
    hide Enabled, Next, Orderly, Log, Known, Agreed;
    var sys := states[|steps|];
    var k, c := sys.log[i].out.msg, sys.log[j].out.msg;
    EveryRunAgrees(w, steps, states);
    QuietNodesKnowTheSame(w, steps, states);
    OrderComesFirst(w, sys);
    LoggedIs(sys, i);
    LoggedIs(sys, j);
    CrossingCounts(w, sys, k, c);
    forall s ensures
      var row := NodeOf(sys, s).row;
      row.Some? && row.value.cancel == Some(k) && row.value.confirmation == Some(c)
    {
      assert s == Buyer || s == Vendor;
      assert Known(sys, s) == Log(sys);
      WhatIsKnownIsStored(w, steps, states, s, k);
      WhatIsKnownIsStored(w, steps, states, s, c);
    }
  }

  lemma CrossingCounts(w: World, sys: System, k: OrderMessage, c: OrderMessage)
    requires Fit(w) && Agreed(w, sys) && k in Log(sys) && c in Log(sys) && k.body.Cancel? && c.body.Confirmation?
    ensures Counts(w.buyer, w.om.body.open, k) && Counts(w.buyer, w.om.body.open, c)
  {
    hide Log, NodeAgrees, ConflictFree;
    LogIsKind(w, sys);
  }
}
