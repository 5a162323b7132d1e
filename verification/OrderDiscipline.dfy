/**
 Why the end-to-end results ask the parties for discipline, or for messages that do not conflict. The
 buyer's own check lets it complete an order it has cancelled; its row refuses the completion, which is
 sent all the same. If it overtakes the cancellation, the parties disagree for good.
 */
module OrderDiscipline {
  import opened Common
  import opened OrderModel
  import opened OrderRules
  import opened OrderInvariants
  import opened OrderConvergence
  import opened OrderRuns
  import opened OrderMessaging
  import opened OrderDelivery
  import opened OrderAgreement
  import opened OrderEndToEnd

  /** A moment at which the wallet knows nothing. */
  const NOW := Context(map[], 0)

  function RowOf(st: System, s: Side): Option<OrderState> {
    NodeOf(st, s).row
  }

  /** The rows, what was posted, and what was delivered and acknowledged. */
  ghost predicate Stands(sys: System, b: Option<OrderState>, v: Option<OrderState>, log: seq<Posted>, got: set<MsgID>) {
    && sys.buyer.row == b && sys.vendor.row == v && sys.log == log
    && sys.acks == got && sys.buyer.incoming + sys.vendor.incoming == got
  }

  /** A run that got there. */
  ghost predicate Story(w: World, steps: seq<Step>, states: seq<System>, b: Option<OrderState>, v: Option<OrderState>,
                        log: seq<Posted>, got: set<MsgID>) {
    Execution(w, steps, states) && Stands(states[|steps|], b, v, log, got)
  }

  lemma Goes(w: World, steps: seq<Step>, states: seq<System>, step: Step)
    requires Execution(w, steps, states) && Enabled(w, states[|steps|], step)
    ensures Execution(w, steps + [step], states + [Next(w, states[|steps|], step)])
  {
    hide Enabled, Next;
    var more, after := steps + [step], states + [Next(w, states[|steps|], step)];
    forall i | 0 <= i < |more| ensures Enabled(w, after[i], more[i]) && after[i + 1] == Next(w, after[i], more[i]) {
      if i < |steps| {
        assert more[i] == steps[i] && after[i] == states[i] && after[i + 1] == states[i + 1];
      }
    }
  }

  /** The message is handled with nothing parked, before or after, and nothing to answer. */
  ghost predicate Quietly(cfg: Config, row: Option<OrderState>, m: OrderMessage, st: OrderState) {
    && !Premature(row, m)
    && FirstPass(cfg, NOW, row, m.signer, m).st == st && FirstPass(cfg, NOW, row, m.signer, m).sent == []
    && st.parked == [] && st.id == Some(m.orderID)
  }

  lemma QuietRow(cfg: Config, row: Option<OrderState>, m: OrderMessage, st: OrderState)
    requires Quietly(cfg, row, m, st)
    ensures RetriesOf(cfg, NOW, row, m.signer, m, [])
    ensures Process(cfg, NOW, row, m.signer, m, []).sent == []
    ensures NextRow(cfg, m.orderID, row, Message(NOW, m.signer, m, [])) == Some(st)
  {
    hide FirstPass;
    var e := Retry(cfg, NOW, st, m.signer, m, []);
    assert e == Effect(st, NoError, []);
  }

  /** One side sends a message of its own. */
  lemma Acts(w: World, steps: seq<Step>, states: seq<System>, b: Option<OrderState>, v: Option<OrderState>,
             log: seq<Posted>, got: set<MsgID>, s: Side, m: OrderMessage, st: OrderState)
    returns (steps': seq<Step>, states': seq<System>)
    requires Story(w, steps, states, b, v, log, got)
    requires
      var row := if s.Buyer? then b else v;
      && m.orderID == w.om.orderID && m.signer == PeerOf(w, s)
      && MayAct(row, m.body) && Quietly(ConfigOf(w, s), row, m, st)
    ensures Story(w, steps', states', if s.Buyer? then Some(st) else b, if s.Buyer? then v else Some(st),
                  log + [Posted(s, Outgoing(PeerOf(w, Other(s)), m))], got)
  {
    hide Quietly, MayAct, Process, NextRow, RetriesOf, Enqueue;
    var sys, step := states[|steps|], Act(s, NOW, m, []);
    QuietRow(ConfigOf(w, s), RowOf(sys, s), m, st);
    assert Sends(w, sys, step) == [Outgoing(PeerOf(w, Other(s)), m)];
    assert Post(s, Sends(w, sys, step)) == [Posted(s, Outgoing(PeerOf(w, Other(s)), m))];
    Goes(w, steps, states, step);
    steps', states' := steps + [step], states + [Next(w, sys, step)];
  }

  /** The wallet of the vendor of an unfunded order reports a payment, and the ratings are signed. */
  lemma Pays(w: World, steps: seq<Step>, states: seq<System>, b: Option<OrderState>, v: OrderState,
             log: seq<Posted>, got: set<MsgID>, tx: Transaction, st: OrderState, notice: Outgoing)
    returns (steps': seq<Step>, states': seq<System>)
    requires Story(w, steps, states, b, Some(v), log, got)
    requires WalletEvent(w.vendor, NOW, v, tx) == Effect(st, NoError, [notice])
    ensures Story(w, steps', states', b, Some(st), log + [Posted(Vendor, notice)], got)
  {
    hide WalletEvent, Enqueue;
    var sys, step := states[|steps|], Pay(Vendor, NOW, tx);
    assert Sends(w, sys, step) == [notice];
    assert Post(Vendor, Sends(w, sys, step)) == [Posted(Vendor, notice)];
    Goes(w, steps, states, step);
    steps', states' := steps + [step], states + [Next(w, sys, step)];
  }

  /** A posted message reaches the other side. */
  lemma Arrives(w: World, steps: seq<Step>, states: seq<System>, b: Option<OrderState>, v: Option<OrderState>,
                log: seq<Posted>, got: set<MsgID>, id: MsgID, st: OrderState)
    returns (steps': seq<Step>, states': seq<System>)
    requires Story(w, steps, states, b, v, log, got)
    requires id < |log| && id !in got && Addressed(w, log[id])
    requires
      var to, m := Other(log[id].from), log[id].out.msg;
      m.signer == PeerOf(w, log[id].from) && Quietly(ConfigOf(w, to), if to.Buyer? then b else v, m, st)
    ensures
      var to := Other(log[id].from);
      Story(w, steps', states', if to.Buyer? then Some(st) else b, if to.Buyer? then v else Some(st), log, got + {id})
  {
    hide Quietly, Process, NextRow, RetriesOf;
    var sys, step := states[|steps|], Deliver(id, NOW, []);
    var to, m := Other(log[id].from), log[id].out.msg;
    QuietRow(ConfigOf(w, to), RowOf(sys, to), m, st);
    assert id !in NodeOf(sys, to).incoming;
    assert Sends(w, sys, step) == [];
    assert sys.log + Post(to, []) == sys.log;
    Goes(w, steps, states, step);
    steps', states' := steps + [step], states + [Next(w, sys, step)];
    assert (sys.buyer.incoming + sys.vendor.incoming) + {id} == got + {id};
  }

  /** Rows that differ in acknowledged flags only. */
  ghost predicate SameButFlags(a: Option<OrderState>, b: Option<OrderState>) {
    a.Some? && b.Some? && a.value.(acked := b.value.acked) == b.value
  }

  /** Once all of its messages were delivered, acknowledgements empty a side's outbox and change no slot. */
  lemma {:induction false} AckAll(w: World, steps: seq<Step>, states: seq<System>, s: Side)
    returns (steps': seq<Step>, states': seq<System>)
    requires Execution(w, steps, states) && forall id | 0 <= id < |states[|steps|].log| :: id in states[|steps|].acks
    requires forall p <- states[|steps|].log :: p.out.msg.orderID == w.om.orderID
    requires states[|steps|].buyer.row.Some? && states[|steps|].vendor.row.Some?
    ensures Execution(w, steps', states')
    ensures
      var sys, sys' := states[|steps|], states'[|steps'|];
      && sys'.log == sys.log && sys'.acks == sys.acks
      && SameButFlags(sys.buyer.row, sys'.buyer.row) && SameButFlags(sys.vendor.row, sys'.vendor.row)
      && NodeOf(sys', s).outbox == map[] && NodeOf(sys', Other(s)).outbox == NodeOf(sys, Other(s)).outbox
    decreases |NodeOf(states[|steps|], s).outbox|
  {
    hide Enabled, Next;
    var sys := states[|steps|];
    var outbox := NodeOf(sys, s).outbox;
    if outbox.Keys == {} {
      return steps, states;
    }
    var id :| id in outbox;
    EveryRunIsReliable(w, steps, states);
    AckOne(w, sys, s, id);
    Goes(w, steps, states, DeliverAck(id));
    assert |outbox - {id}| < |outbox| by {
      assert (outbox - {id}).Keys == outbox.Keys - {id};
      assert |(outbox - {id}).Keys| == |outbox - {id}| && |outbox.Keys| == |outbox|;
    }
    steps', states' := AckAll(w, steps + [DeliverAck(id)], states + [Next(w, sys, DeliverAck(id))], s);
  }

  lemma AckOne(w: World, sys: System, s: Side, id: MsgID)
    requires Reliable(sys) && id in NodeOf(sys, s).outbox && NodeOf(sys, s).row.Some?
    requires forall i | 0 <= i < |sys.log| :: i in sys.acks
    ensures
      var sys' := Next(w, sys, DeliverAck(id));
      && Enabled(w, sys, DeliverAck(id)) && sys'.log == sys.log && sys'.acks == sys.acks
      && SameButFlags(NodeOf(sys, s).row, NodeOf(sys', s).row) && NodeOf(sys', Other(s)) == NodeOf(sys, Other(s))
      && NodeOf(sys', s).outbox == NodeOf(sys, s).outbox - {id}
  {
    assert sys.log + Post(s, []) == sys.log;
  }

  // ---- the rows of the story ---------------------------------------------------------------------

  /** The order as each side opens it. */
  function Begun(w: World, s: Side): OrderState
    requires w.om.body.Open?
  {
    BLANK.(id := Some(w.om.orderID), role := RoleIn(ConfigOf(w, s), w.om.body.open), isOpen := true,
           open := Some(w.om), paymentAddress := Some(w.om.body.open.address))
  }

  lemma Opens(w: World, s: Side)
    requires Fit(w) && !AutoRejects(w.vendor, w.om.body.open)
    ensures Quietly(ConfigOf(w, s), None, w.om, Begun(w, s))
  {
  }

  /** A row of the order on which nothing waits. */
  ghost predicate Running(w: World, s: Side, st: OrderState)
    requires w.om.body.Open?
  {
    && st.open == Some(w.om) && st.id == Some(w.om.orderID) && st.role == RoleIn(ConfigOf(w, s), w.om.body.open)
    && st.parked == [] && st.reject.None?
  }

  lemma Stores(w: World, s: Side, st: OrderState, m: OrderMessage)
    requires Fit(w) && Running(w, s, st) && m.orderID == w.om.orderID
    requires
      || (m.body.Cancel? && m.body.txid.None? && st.cancel.None?)
      || (m.body.Confirmation? && m.body.txid.None? && st.confirmation.None?)
      || (m.body.Fulfillment? && st.confirmation.Some? && st.fulfillments == [])
      || (m.body.Complete? && ValidCompletion(ConfigOf(w, s), w.om.body.open, m) && st.complete.None? && st.cancel.None?)
    ensures Quietly(ConfigOf(w, s), Some(st), m, Insert(st, m)) && Running(w, s, Insert(st, m))
  {
  }

  /** A cancelled order refuses the completion. */
  lemma Refuses(w: World, s: Side, st: OrderState, m: OrderMessage)
    requires Fit(w) && Running(w, s, st) && m.orderID == w.om.orderID
    requires m.body.Complete? && st.complete.None? && st.cancel.Some?
    ensures Quietly(ConfigOf(w, s), Some(st), m, st)
  {
  }

  lemma Rates(w: World, s: Side, st: OrderState, m: OrderMessage) returns (st': OrderState)
    requires Fit(w) && Running(w, s, st) && m.orderID == w.om.orderID && m.body.RatingSignatures? && st.ratingSignatures.None?
    ensures Quietly(ConfigOf(w, s), Some(st), m, st') && st'.complete == st.complete
  {
    st' := FirstPass(ConfigOf(w, s), NOW, Some(st), m.signer, m).st;
  }

  /** The whole amount in one output. */
  function Payment(open: OrderOpen): Transaction {
    Transaction(0, [], [SpendInfo(0, open.address, open.amount)])
  }

  function Ratings(w: World): OrderMessage
    requires w.om.body.Open?
  {
    OrderMessage(w.om.orderID, RatingSignatures(w.om.body.open.items, true, 0), w.vendor.identity)
  }

  lemma LonePayment(open: OrderOpen)
    ensures FundingTotal([Payment(open)], open.address) == open.amount
    ensures PaysTo(Payment(open), Some(open.address)) && !PaidFrom(Payment(open), Some(open.address))
  {
    var tx := Payment(open);
    var outs := tx.to;
    assert outs[0] in tx.to;
    assert outs[..|outs| - 1] == [] && [tx][..|[tx]| - 1] == [];
    assert PaidTo(outs[..|outs| - 1], open.address) == 0 && FundingTotal([tx][..|[tx]| - 1], open.address) == 0;
    assert PaidTo(outs, open.address) == open.amount;
  }

  lemma IsPaid(w: World)
    requires Fit(w)
    ensures
      var open, st := w.om.body.open, Begun(w, Vendor);
      var paid := st.(transactions := [Payment(open)], ratingSignatures := Some(Ratings(w)));
      && WalletEvent(w.vendor, NOW, st, Payment(open)) == Effect(paid, NoError, [Outgoing(open.buyer, Ratings(w))])
      && Running(w, Vendor, paid) && IsFunded(paid)
  {
    var open, st := w.om.body.open, Begun(w, Vendor);
    var tx := Payment(open);
    var recorded := st.(transactions := [tx]);
    assert RecordTransaction(st, tx) == recorded;
    LonePayment(open);
    assert Put(recorded, Ratings(w)) == recorded.(ratingSignatures := Some(Ratings(w)));
  }

  function AllItems(open: OrderOpen): seq<nat> {
    seq(open.items, i => i)
  }

  lemma NamesAllItems(open: OrderOpen)
    ensures forall i: nat :: i in AllItems(open) <==> i < open.items
  {
    var all := AllItems(open);
    forall i: nat ensures i in all <==> i < open.items {
      if i < open.items {
        assert all[i] == i;
      }
      if i in all {
        var j :| 0 <= j < |all| && all[j] == i;
      }
    }
  }

  lemma Delivers(w: World, s: Side, st: OrderState, f: OrderMessage)
    requires Fit(w) && Running(w, s, st) && w.om.body.open.items > 0
    requires f.body.Fulfillment? && f.body.indices == AllItems(w.om.body.open)
    ensures st.fulfillments == [] ==> !IsFulfilled(st)
    ensures st.fulfillments == [f] ==> IsFulfilled(st)
  {
    NamesAllItems(w.om.body.open);
    if st.fulfillments == [] {
      assert !Delivered(st.fulfillments, 0);
    }
    if st.fulfillments == [f] {
      assert f in st.fulfillments;
    }
  }

  // ---- the story -----------------------------------------------------------------------------------

  /** The messages of the story. */
  function Cancellation(w: World): OrderMessage {
    OrderMessage(w.om.orderID, Cancel(None, 0), w.buyer.identity)
  }

  function Confirming(w: World): OrderMessage {
    OrderMessage(w.om.orderID, Confirmation(None, 0), w.vendor.identity)
  }

  function Fulfilling(w: World): OrderMessage
    requires w.om.body.Open?
  {
    OrderMessage(w.om.orderID, Fulfillment(AllItems(w.om.body.open), 0), w.vendor.identity)
  }

  function Completing(w: World): OrderMessage
    requires w.om.body.Open?
  {
    OrderMessage(w.om.orderID, Complete(w.om.body.open.items, true, false, 0), w.buyer.identity)
  }

  function ByBuyer(w: World, m: OrderMessage): Posted {
    Posted(Buyer, Outgoing(w.vendor.identity, m))
  }

  function ByVendor(w: World, m: OrderMessage): Posted {
    Posted(Vendor, Outgoing(w.buyer.identity, m))
  }

  ghost predicate Possible(w: World) {
    && Fit(w) && !AutoRejects(w.vendor, w.om.body.open)
    && w.om.body.open.terms.Cancelable? && w.om.body.open.items > 0
  }

  function PaidRow(w: World): OrderState
    requires w.om.body.Open?
  {
    Begun(w, Vendor).(transactions := [Payment(w.om.body.open)], ratingSignatures := Some(Ratings(w)))
  }

  lemma Starting(w: World) returns (steps: seq<Step>, states: seq<System>)
    ensures Story(w, steps, states, None, None, [], {})
  {
    steps, states := [], [START];
  }

  lemma MayConfirm(w: World)
    requires Possible(w)
    ensures MayAct(Some(PaidRow(w)), Confirming(w).body)
    ensures MayAct(Some(Begun(w, Buyer)), Cancellation(w).body)
  {
  }

  /** The order is placed and paid. */
  lemma Beginning(w: World) returns (steps: seq<Step>, states: seq<System>)
    requires Possible(w)
    ensures Story(w, steps, states, Some(Begun(w, Buyer)), Some(PaidRow(w)), [ByBuyer(w, w.om)] + [ByVendor(w, Ratings(w))], {0})
  {
    hide Story, Quietly, WalletEvent, AutoRejects;
    var b, v := Begun(w, Buyer), Begun(w, Vendor);
    Opens(w, Buyer);
    Opens(w, Vendor);
    IsPaid(w);
    steps, states := Starting(w);
    steps, states := Acts(w, steps, states, None, None, [], {}, Buyer, w.om, b);
    var log := [ByBuyer(w, w.om)];
    assert [] + log == log && {} + {0} == {0};
    steps, states := Arrives(w, steps, states, Some(b), None, log, {}, 0, v);
    steps, states := Pays(w, steps, states, Some(b), v, log, {0}, Payment(w.om.body.open), PaidRow(w), Outgoing(w.buyer.identity, Ratings(w)));
  }

  /** The vendor confirms; before it hears of that the buyer cancels. */
  lemma Crossing(w: World) returns (steps: seq<Step>, states: seq<System>, b: OrderState, v: OrderState, log: seq<Posted>)
    requires Possible(w)
    ensures Story(w, steps, states, Some(b), Some(v), log, {0})
    ensures log == [ByBuyer(w, w.om)] + [ByVendor(w, Ratings(w))] + [ByVendor(w, Confirming(w))] + [ByBuyer(w, Cancellation(w))]
    ensures b == Insert(Begun(w, Buyer), Cancellation(w)) && v == Insert(PaidRow(w), Confirming(w))
    ensures Running(w, Buyer, b) && Running(w, Vendor, v) && IsFunded(v)
  {
    hide Story, Quietly, AutoRejects, MayAct, IsFunded;
    IsPaid(w);
    MayConfirm(w);
    Stores(w, Vendor, PaidRow(w), Confirming(w));
    Stores(w, Buyer, Begun(w, Buyer), Cancellation(w));
    StillFunded(PaidRow(w), Confirming(w));
    steps, states := Beginning(w);
    log := [ByBuyer(w, w.om)] + [ByVendor(w, Ratings(w))];
    b, v := Begun(w, Buyer), PaidRow(w);
    steps, states := Acts(w, steps, states, Some(b), Some(v), log, {0}, Vendor, Confirming(w), Insert(v, Confirming(w)));
    v, log := Insert(v, Confirming(w)), log + [ByVendor(w, Confirming(w))];
    steps, states := Acts(w, steps, states, Some(b), Some(v), log, {0}, Buyer, Cancellation(w), Insert(b, Cancellation(w)));
    b, log := Insert(b, Cancellation(w)), log + [ByBuyer(w, Cancellation(w))];
  }

  lemma StillFunded(st: OrderState, c: OrderMessage)
    requires IsFunded(st) && c.body.Confirmation?
    ensures IsFunded(Insert(st, c))
  {
  }

  /** The vendor fulfils, and the buyer hears of both. */
  lemma Fulfilled(w: World) returns (steps: seq<Step>, states: seq<System>, b: OrderState, v: OrderState, log: seq<Posted>)
    requires Possible(w)
    ensures Story(w, steps, states, Some(b), Some(v), log, {0, 2, 4})
    ensures log == [ByBuyer(w, w.om)] + [ByVendor(w, Ratings(w))] + [ByVendor(w, Confirming(w))] + [ByBuyer(w, Cancellation(w))]
                   + [ByVendor(w, Fulfilling(w))]
    ensures Running(w, Buyer, b) && Running(w, Vendor, v)
    ensures b.cancel.Some? && b.fulfillments == [Fulfilling(w)] && b.complete.None? && b.disputeOpen.None? && b.paymentFinalized.None?
    ensures b.ratingSignatures.None? && v.cancel.None? && v.complete.None?
  {
    hide Story, Quietly, AutoRejects, MayAct, IsFunded, Running;
    steps, states, b, v, log := Crossing(w);
    MayFulfill(w, v);
    Stores(w, Vendor, v, Fulfilling(w));
    steps, states := Acts(w, steps, states, Some(b), Some(v), log, {0}, Vendor, Fulfilling(w), Insert(v, Fulfilling(w)));
    v, log := Insert(v, Fulfilling(w)), log + [ByVendor(w, Fulfilling(w))];
    Stores(w, Buyer, b, Confirming(w));
    steps, states := Arrives(w, steps, states, Some(b), Some(v), log, {0}, 2, Insert(b, Confirming(w)));
    b := Insert(b, Confirming(w));
    Stores(w, Buyer, b, Fulfilling(w));
    steps, states := Arrives(w, steps, states, Some(b), Some(v), log, {0} + {2}, 4, Insert(b, Fulfilling(w)));
    b := Insert(b, Fulfilling(w));
    assert {0} + {2} + {4} == {0, 2, 4};
  }

  lemma MayFulfill(w: World, v: OrderState)
    requires Possible(w) && v == Insert(PaidRow(w), Confirming(w)) && IsFunded(v) && Running(w, Vendor, v)
    ensures MayAct(Some(v), Fulfilling(w).body)
  {
    hide IsFunded, IsFulfilled;
    Delivers(w, Vendor, v, Fulfilling(w));
  }

  lemma MayComplete(w: World, b: OrderState)
    requires Possible(w) && Running(w, Buyer, b) && b.fulfillments == [Fulfilling(w)]
    requires b.complete.None? && b.disputeOpen.None? && b.paymentFinalized.None?
    ensures MayAct(Some(b), Completing(w).body)
  {
    hide IsFulfilled;
    Delivers(w, Buyer, b, Fulfilling(w));
  }

  /** The buyer completes what it cancelled, and the completion arrives first. */
  lemma Overtaking(w: World) returns (steps: seq<Step>, states: seq<System>, b: OrderState, v: OrderState, log: seq<Posted>)
    requires Possible(w)
    ensures Story(w, steps, states, Some(b), Some(v), log, {0, 2, 4} + {5})
    ensures log == [ByBuyer(w, w.om)] + [ByVendor(w, Ratings(w))] + [ByVendor(w, Confirming(w))] + [ByBuyer(w, Cancellation(w))]
                   + [ByVendor(w, Fulfilling(w))] + [ByBuyer(w, Completing(w))]
    ensures Running(w, Buyer, b) && Running(w, Vendor, v)
    ensures b.complete.None? && b.ratingSignatures.None? && v.cancel.None? && v.complete == Some(Completing(w))
  {
    hide Story, Quietly, AutoRejects, MayAct, Running;
    steps, states, b, v, log := Fulfilled(w);
    MayComplete(w, b);
    Refuses(w, Buyer, b, Completing(w));
    Stores(w, Vendor, v, Completing(w));
    steps, states := Acts(w, steps, states, Some(b), Some(v), log, {0, 2, 4}, Buyer, Completing(w), b);
    log := log + [ByBuyer(w, Completing(w))];
    steps, states := Arrives(w, steps, states, Some(b), Some(v), log, {0, 2, 4}, 5, Insert(v, Completing(w)));
    v := Insert(v, Completing(w));
  }

  lemma Ending(w: World) returns (steps: seq<Step>, states: seq<System>, b: OrderState, v: OrderState, log: seq<Posted>)
    requires Possible(w)
    ensures Story(w, steps, states, Some(b), Some(v), log, {0, 1, 2, 3, 4, 5}) && |log| == 6
    ensures forall p <- log :: p.out.msg.orderID == w.om.orderID
    ensures b.complete.None? && v.complete == Some(Completing(w))
  {
    hide Story, Quietly, AutoRejects, Running;
    steps, states, b, v, log := Overtaking(w);
    Stores(w, Vendor, v, Cancellation(w));
    var b' := Rates(w, Buyer, b, Ratings(w));
    steps, states := Arrives(w, steps, states, Some(b), Some(v), log, {0, 2, 4} + {5}, 3, Insert(v, Cancellation(w)));
    v := Insert(v, Cancellation(w));
    steps, states := Arrives(w, steps, states, Some(b), Some(v), log, {0, 2, 4} + {5} + {3}, 1, b');
    b := b';
    AllSix();
    SameOrder(w, log);
  }

  lemma AllSix()
    ensures {0, 2, 4} + {5} + {3} + {1} == {0, 1, 2, 3, 4, 5}
  {
  }

  lemma SameOrder(w: World, log: seq<Posted>)
    requires w.om.body.Open?
    requires log == [ByBuyer(w, w.om)] + [ByVendor(w, Ratings(w))] + [ByVendor(w, Confirming(w))] + [ByBuyer(w, Cancellation(w))]
                    + [ByVendor(w, Fulfilling(w))] + [ByBuyer(w, Completing(w))]
    ensures |log| == 6 && forall p <- log :: p.out.msg.orderID == w.om.orderID
  {
  }

  /**
   For every cancelable order the vendor accepts there is a run, with the nodes' own checks all met, after
   which both outboxes are empty and the two rows differ: the completion is held by the vendor only.
   */
  lemma UndisciplinedRunsCanDisagree(w: World) returns (steps: seq<Step>, states: seq<System>)
    requires Fit(w) && !AutoRejects(w.vendor, w.om.body.open) && w.om.body.open.terms.Cancelable? && w.om.body.open.items > 0
    ensures Execution(w, steps, states)
    ensures
      var sys := states[|steps|];
      && sys.buyer.outbox == map[] && sys.vendor.outbox == map[]
      && sys.buyer.row.Some? && sys.vendor.row.Some?
      && sys.buyer.row.value.complete.None? && sys.vendor.row.value.complete.Some?
      && !SameSlots(sys.buyer.row.value, sys.vendor.row.value)
  {
    assert Possible(w);
    hide Fit, AutoRejects, Enabled, Next, Possible;
    var b, v, log;
    steps, states, b, v, log := Ending(w);
    var mid, between := AckAll(w, steps, states, Buyer);
    steps, states := AckAll(w, mid, between, Vendor);
  }
}
