/**
 One node's side of reliable delivery: an outbox row is saved in the transaction that processes the
 message, sent on commit and resent until it is acknowledged; the receiver processes each message ID
 once and acknowledges every copy.

 Message IDs are random; here the caller supplies them as `first`, `first + 1`, … . A handler and the
 saving of the incoming message ID count as one atomic step.
 */
module OrderMessaging {
  import opened Common
  import opened OrderModel
  import opened OrderRules
  import opened OrderProcessing

  type MsgID = nat

  datatype Packet =
    | OrderPacket(id: MsgID, to: PeerID, msg: OrderMessage)
    | AckPacket(id: MsgID, to: PeerID)

  /** What a node's database says about one order and about the messages in flight. */
  datatype NodeState = NodeState(row: Option<OrderState>, outbox: map<MsgID, Outgoing>, incoming: set<MsgID>)

  function Enqueue(outbox: map<MsgID, Outgoing>, first: MsgID, outs: seq<Outgoing>): map<MsgID, Outgoing> {
    if outs == [] then outbox
    else Enqueue(outbox, first, outs[..|outs| - 1])[first + |outs| - 1 := outs[|outs| - 1]]
  }

  function Packets(first: MsgID, outs: seq<Outgoing>): seq<Packet> {
    if outs == [] then []
    else Packets(first, outs[..|outs| - 1]) + [OrderPacket(first + |outs| - 1, outs[|outs| - 1].to, outs[|outs| - 1].msg)]
  }

  /**
   Every packet sent since `before` is the first send of an outbox row: the k-th has the ID `first + k`, and
   its recipient and message are those of the row with that ID.
   */
  ghost predicate FirstSends(before: seq<Packet>, wire: seq<Packet>, outbox: map<MsgID, Outgoing>, first: MsgID) {
    && before <= wire
    && forall k {:trigger wire[k]} | |before| <= k < |wire| ::
      && wire[k].OrderPacket? && wire[k].id == first + k - |before|
      && wire[k].id in outbox && outbox[wire[k].id] == Outgoing(wire[k].to, wire[k].msg)
  }

  lemma {:induction false} Enqueued(outbox: map<MsgID, Outgoing>, first: MsgID, outs: seq<Outgoing>)
    ensures forall id :: id in Enqueue(outbox, first, outs) <==> id in outbox || first <= id < first + |outs|
    ensures forall id :: first <= id < first + |outs| ==> Enqueue(outbox, first, outs)[id] == outs[id - first]
    ensures forall id :: id in outbox && !(first <= id < first + |outs|) ==> Enqueue(outbox, first, outs)[id] == outbox[id]
  {
    if outs != [] {
      Enqueued(outbox, first, outs[..|outs| - 1]);
    }
  }

  lemma {:induction false} PacketsAre(first: MsgID, outs: seq<Outgoing>)
    ensures |Packets(first, outs)| == |outs|
    ensures forall k | 0 <= k < |outs| :: Packets(first, outs)[k] == OrderPacket(first + k, outs[k].to, outs[k].msg)
  {
    if outs != [] {
      PacketsAre(first, outs[..|outs| - 1]);
    }
  }

  /** The k-th queued message is the k-th packet sent since `before`, and has an outbox row under that packet's ID. */
  ghost predicate InOrder(before: seq<Packet>, wire: seq<Packet>, outbox: map<MsgID, Outgoing>, first: MsgID, outs: seq<Outgoing>) {
    && |wire| == |before| + |outs|
    && forall k {:trigger outs[k]} | 0 <= k < |outs| ::
      && wire[|before| + k] == OrderPacket(first + k, outs[k].to, outs[k].msg)
      && first + k in outbox && outbox[first + k] == outs[k]
  }

  /** The packets are those of the due outbox rows outside `rest`. */
  ghost predicate Resends(sent: seq<Packet>, outbox: map<MsgID, Outgoing>, due: set<MsgID>, rest: set<MsgID>) {
    forall p :: p in sent <==>
      p.OrderPacket? && p.id in outbox && p.id in due && p.id !in rest && outbox[p.id] == Outgoing(p.to, p.msg)
  }

  ghost function DueOutside(outbox: map<MsgID, Outgoing>, due: set<MsgID>, rest: set<MsgID>): set<MsgID> {
    (outbox.Keys - rest) * due
  }

  lemma NothingResent(outbox: map<MsgID, Outgoing>, due: set<MsgID>)
    ensures Resends([], outbox, due, outbox.Keys) && DueOutside(outbox, due, outbox.Keys) == {}
    ensures DueOutside(outbox, due, {}) == outbox.Keys * due
  {
  }

  lemma OneMoreResent(sent: seq<Packet>, outbox: map<MsgID, Outgoing>, due: set<MsgID>, rest: set<MsgID>, id: MsgID)
    requires Resends(sent, outbox, due, rest) && id in rest && rest <= outbox.Keys
    ensures
      var more := if id in due then sent + [OrderPacket(id, outbox[id].to, outbox[id].msg)] else sent;
      && Resends(more, outbox, due, rest - {id})
      && |DueOutside(outbox, due, rest - {id})| == |DueOutside(outbox, due, rest)| + |more| - |sent|
  {
    var done := DueOutside(outbox, due, rest);
    assert id !in done;
    assert DueOutside(outbox, due, rest - {id}) == if id in due then done + {id} else done;
  }

  ghost predicate LastIs(wire: seq<Packet>, to: PeerID, m: OrderMessage) {
    wire != [] && wire[|wire| - 1].OrderPacket? && wire[|wire| - 1].to == to && wire[|wire| - 1].msg == m
  }

  lemma NothingQueued(outbox: map<MsgID, Outgoing>, first: MsgID)
    ensures Enqueue(outbox, first, []) == outbox && Packets(first, []) == []
  {
  }

  lemma NothingSent(wire: seq<Packet>, outbox: map<MsgID, Outgoing>, first: MsgID)
    ensures FirstSends(wire, wire, outbox, first)
  {
  }

  lemma QueueStep(outbox: map<MsgID, Outgoing>, first: MsgID, outs: seq<Outgoing>, i: nat)
    requires i < |outs|
    ensures Enqueue(outbox, first, outs[..i + 1]) == Enqueue(outbox, first, outs[..i])[first + i := outs[i]]
    ensures Packets(first, outs[..i + 1]) == Packets(first, outs[..i]) + [OrderPacket(first + i, outs[i].to, outs[i].msg)]
  {
    assert outs[..i + 1][..i] == outs[..i];
  }

  /** What is queued is sent, in order, under the IDs of its outbox rows. */
  lemma SentAsQueued(before: seq<Packet>, outbox: map<MsgID, Outgoing>, first: MsgID, outs: seq<Outgoing>)
    ensures
      var wire, after := before + Packets(first, outs), Enqueue(outbox, first, outs);
      FirstSends(before, wire, after, first) && InOrder(before, wire, after, first, outs)
  {
    hide Packets, Enqueue;
    PacketsAre(first, outs);
    Enqueued(outbox, first, outs);
    var wire, after := before + Packets(first, outs), Enqueue(outbox, first, outs);
    forall k | 0 <= k < |outs|
      ensures wire[|before| + k] == OrderPacket(first + k, outs[k].to, outs[k].msg) && first + k in after && after[first + k] == outs[k]
    {
      assert after[first + k] == outs[first + k - first];
    }
    forall k | |before| <= k < |wire|
      ensures wire[k] == OrderPacket(first + k - |before|, outs[k - |before|].to, outs[k - |before|].msg)
      ensures first + k - |before| in after && after[first + k - |before|] == outs[k - |before|]
    {
      var n := k - |before|;
      assert wire[|before| + n] == OrderPacket(first + n, outs[n].to, outs[n].msg);
    }
  }

  /** An order message with ID `id` arrives. */
  function Received(cfg: Config, n: NodeState, id: MsgID, ctx: Context, peer: PeerID, m: OrderMessage,
                    xs: seq<OrderMessage>, first: MsgID): NodeState {
    if id in n.incoming then n else
    NodeState(NextRow(cfg, m.orderID, n.row, Message(ctx, peer, m, xs)),
              Enqueue(n.outbox, first, Process(cfg, ctx, n.row, peer, m, xs).sent),
              n.incoming + {id})
  }

  /** The messages an action of this node queues: what its handler sends, then the message itself. */
  function ActionSends(cfg: Config, n: NodeState, ctx: Context, m: OrderMessage, xs: seq<OrderMessage>, to: PeerID): seq<Outgoing> {
    Process(cfg, ctx, n.row, cfg.identity, m, xs).sent + [Outgoing(to, m)]
  }

  /** The node processes a message of its own and queues it for the other party. */
  function Acted(cfg: Config, n: NodeState, ctx: Context, m: OrderMessage, xs: seq<OrderMessage>, to: PeerID, first: MsgID): NodeState {
    NodeState(NextRow(cfg, m.orderID, n.row, Message(ctx, cfg.identity, m, xs)),
              Enqueue(n.outbox, first, ActionSends(cfg, n, ctx, m, xs, to)),
              n.incoming)
  }

  function Acknowledged(cfg: Config, n: NodeState, id: MsgID): NodeState {
    if id !in n.outbox then n else
    NodeState(NextRow(cfg, n.outbox[id].msg.orderID, n.row, Acked(TypeNumber(n.outbox[id].msg.body))), n.outbox - {id}, n.incoming)
  }

  function WalletSends(cfg: Config, n: NodeState, ctx: Context, tx: Transaction): seq<Outgoing> {
    if n.row.None? then [] else WalletEvent(cfg, ctx, n.row.value, tx).sent
  }

  function Paid(cfg: Config, n: NodeState, ctx: Context, id: OrderID, tx: Transaction, first: MsgID): NodeState {
    NodeState(NextRow(cfg, id, n.row, Wallet(ctx, tx)), Enqueue(n.outbox, first, WalletSends(cfg, n, ctx, tx)), n.incoming)
  }

  /** Whether the node's own checks let it send a message of this kind now. */
  predicate MayAct(row: Option<OrderState>, b: Body) {
    match b
    case Open(_) => row.None?
    case Reject(_, _) => row.Some? && CanReject(row.value)
    case Confirmation(_, _) => row.Some? && CanConfirm(row.value)
    case Cancel(_, _) => row.Some? && CanCancel(row.value) && OpenOf(row.value).value.terms.Cancelable?
    case Refund(_, _, _) => row.Some? && CanRefund(row.value)
    case Fulfillment(_, _) => row.Some? && CanFulfill(row.value)
    case Complete(_, _, _, _) => row.Some? && CanComplete(row.value)
    case _ => false
  }

  /** The vendor returns the money of a funded order when it rejects it; a cancelable one needs no refund. */
  predicate NeedsRefund(row: Option<OrderState>) {
    row.Some? && IsFunded(row.value) && !OpenOf(row.value).value.terms.Cancelable?
  }

  /** What a reject and its refund queue when they share a transaction. */
  function BothSends(cfg: Config, n: NodeState, ctx: Context, m: OrderMessage, refund: OrderMessage,
                     xs: seq<OrderMessage>, ys: seq<OrderMessage>, to: PeerID): seq<Outgoing> {
    var mid := NextRow(cfg, m.orderID, n.row, Message(ctx, cfg.identity, m, xs));
    Process(cfg, ctx, n.row, cfg.identity, m, xs).sent + Process(cfg, ctx, mid, cfg.identity, refund, ys).sent +
    [Outgoing(to, m), Outgoing(to, refund)]
  }

  function RejectedAndRefunded(cfg: Config, n: NodeState, ctx: Context, m: OrderMessage, refund: OrderMessage,
                               xs: seq<OrderMessage>, ys: seq<OrderMessage>, to: PeerID, first: MsgID): NodeState {
    var mid := NextRow(cfg, m.orderID, n.row, Message(ctx, cfg.identity, m, xs));
    NodeState(NextRow(cfg, refund.orderID, mid, Message(ctx, cfg.identity, refund, ys)),
              Enqueue(n.outbox, first, BothSends(cfg, n, ctx, m, refund, xs, ys, to)), n.incoming)
  }

  /** One transaction for the two is two actions in a row: the same order row, the same messages in another order. */
  lemma OneTransactionIsTwoActions(cfg: Config, n: NodeState, ctx: Context, m: OrderMessage, refund: OrderMessage,
                                   xs: seq<OrderMessage>, ys: seq<OrderMessage>, to: PeerID, first: MsgID)
    ensures
      var mid := Acted(cfg, n, ctx, m, xs, to, first);
      var first' := first + |ActionSends(cfg, n, ctx, m, xs, to)|;
      && RejectedAndRefunded(cfg, n, ctx, m, refund, xs, ys, to, first).row == Acted(cfg, mid, ctx, refund, ys, to, first').row
      && multiset(BothSends(cfg, n, ctx, m, refund, xs, ys, to)) ==
           multiset(ActionSends(cfg, n, ctx, m, xs, to)) + multiset(ActionSends(cfg, mid, ctx, refund, ys, to))
  {
    hide Process, NextRow;
  }

  // ---- what a reject leaves ----------------------------------------------------------------------

  /** The node knows the order under its ID, and nothing it wrote itself waits to be retried. */
  ghost predicate OwnOrder(cfg: Config, row: Option<OrderState>, id: OrderID) {
    row.Some? && row.value.id == Some(id) && forall x <- row.value.parked :: x.signer != cfg.identity
  }

  /** Retrying other peers' messages under this peer's key only logs failures. */
  lemma {:induction false} RetryOfOthers(cfg: Config, ctx: Context, st: OrderState, peer: PeerID, m: OrderMessage,
                                         xs: seq<OrderMessage>)
    requires forall x <- xs :: x.signer != peer
    ensures
      var e := Retry(cfg, ctx, st, peer, m, xs);
      e.st == st.(errored := e.st.errored) && e.sent == []
  {
    hide Handle;
    if xs != [] {
      RetryOfOthers(cfg, ctx, st, peer, m, xs[..|xs| - 1]);
    }
  }

  lemma OthersRetried(cfg: Config, ctx: Context, row: Option<OrderState>, m: OrderMessage, xs: seq<OrderMessage>, mid: OrderState)
    requires row.Some? && RetriesOf(cfg, ctx, row, cfg.identity, m, xs) && FirstPass(cfg, ctx, row, cfg.identity, m).st == mid
    requires OwnOrder(cfg, Some(mid), m.orderID)
    ensures
      var row' := NextRow(cfg, m.orderID, row, Message(ctx, cfg.identity, m, xs));
      row'.Some? && row'.value == mid.(errored := row'.value.errored)
  {
    hide FirstPass, Retry;
    forall x ensures x in xs ==> x.signer != cfg.identity {
      assert x in multiset(xs) <==> x in multiset(mid.parked);
    }
    RetryOfOthers(cfg, ctx, mid, cfg.identity, m, xs);
  }

  lemma OwnReject(cfg: Config, ctx: Context, row: Option<OrderState>, m: OrderMessage, xs: seq<OrderMessage>)
    requires OwnOrder(cfg, row, m.orderID) && m.body.Reject? && m.signer == cfg.identity && CanReject(row.value)
    requires RetriesOf(cfg, ctx, row, cfg.identity, m, xs)
    ensures
      var row' := NextRow(cfg, m.orderID, row, Message(ctx, cfg.identity, m, xs));
      && OwnOrder(cfg, row', m.orderID)
      && row'.value == row.value.(reject := Some(m), errored := row'.value.errored)
  {
    hide RetriesOf, NextRow;
    assert FirstPass(cfg, ctx, row, cfg.identity, m).st == row.value.(reject := Some(m));
    OthersRetried(cfg, ctx, row, m, xs, row.value.(reject := Some(m)));
  }

  lemma OwnRefund(cfg: Config, ctx: Context, row: Option<OrderState>, m: OrderMessage, xs: seq<OrderMessage>)
    requires OwnOrder(cfg, row, m.orderID) && m.body.Refund? && m.signer == cfg.identity
    requires OpenOf(row.value).Some? && row.value.cancel.None? && row.value.refunds == []
    requires RetriesOf(cfg, ctx, row, cfg.identity, m, xs)
    ensures
      var row' := NextRow(cfg, m.orderID, row, Message(ctx, cfg.identity, m, xs));
      && row'.Some? && row'.value.refunds == [m] && row'.value.reject == row.value.reject
  {
    hide RetriesOf, NextRow;
    var mid := FirstPass(cfg, ctx, row, cfg.identity, m).st;
    RefundIsListed(cfg, ctx, row.value, m);
    OthersRetried(cfg, ctx, row, m, xs, mid);
  }

  lemma RefundIsListed(cfg: Config, ctx: Context, st: OrderState, m: OrderMessage)
    requires m.body.Refund? && OpenOf(st).Some? && st.cancel.None? && st.refunds == []
    ensures
      var st' := Handle(cfg, ctx, st, m.signer, m).st;
      && st'.refunds == [m] && st'.reject == st.reject && st'.id == st.id && st'.parked == st.parked
      && Handle(cfg, ctx, st, m.signer, m).sent == []
  {
    assert !AlreadyListed(st, m.body);
  }

  /** No handler answers with a refund. */
  lemma NoRefundIsAnswered(cfg: Config, ctx: Context, st: OrderState, peer: PeerID, m: OrderMessage)
    ensures forall o <- Handle(cfg, ctx, st, peer, m).sent :: !o.msg.body.Refund?
  {
    hide Judge, AlreadyListed, IsFunded, PaidFrom, PaysTo, RecordSpend;
  }

  lemma {:induction false} NoRefundIsRetried(cfg: Config, ctx: Context, st: OrderState, peer: PeerID, m: OrderMessage,
                                             xs: seq<OrderMessage>)
    ensures forall o <- Retry(cfg, ctx, st, peer, m, xs).sent :: !o.msg.body.Refund?
  {
    hide Handle;
    if xs != [] {
      NoRefundIsRetried(cfg, ctx, st, peer, m, xs[..|xs| - 1]);
      NoRefundIsAnswered(cfg, ctx, Retry(cfg, ctx, st, peer, m, xs[..|xs| - 1]).st, peer, xs[|xs| - 1]);
    }
  }

  lemma NoRefundIsSent(cfg: Config, ctx: Context, row: Option<OrderState>, peer: PeerID, m: OrderMessage, xs: seq<OrderMessage>)
    ensures forall o <- Process(cfg, ctx, row, peer, m, xs).sent :: !o.msg.body.Refund?
  {
    hide Handle, Retry;
    NoRefundIsAnswered(cfg, ctx, Loaded(row), peer, m);
    NoRefundIsRetried(cfg, ctx, FirstPass(cfg, ctx, row, peer, m).st, peer, m, xs);
  }

  /** The reject is the last message sent, but for the refund when it is due; nothing else is a refund. */
  ghost predicate SentReject(before: seq<Packet>, wire: seq<Packet>, to: PeerID, m: OrderMessage, refund: Option<OrderMessage>) {
    && |before| < |wire|
    && (if refund.Some?
        then |before| + 1 < |wire| && LastIs(wire, to, refund.value) && LastIs(wire[..|wire| - 1], to, m)
        else LastIs(wire, to, m) && forall k | |before| <= k < |wire| :: wire[k].OrderPacket? && !wire[k].msg.body.Refund?)
  }

  lemma RejectIsSent(before: seq<Packet>, first: MsgID, answers: seq<Outgoing>, to: PeerID, m: OrderMessage)
    requires !m.body.Refund? && forall o <- answers :: !o.msg.body.Refund?
    ensures SentReject(before, before + Packets(first, answers + [Outgoing(to, m)]), to, m, None)
  {
    hide Packets;
    var sends := answers + [Outgoing(to, m)];
    var wire := before + Packets(first, sends);
    PacketsAre(first, sends);
    forall k | |before| <= k < |wire| ensures wire[k].OrderPacket? && !wire[k].msg.body.Refund? {
      assert wire[k] == Packets(first, sends)[k - |before|];
    }
  }

  lemma BothAreSent(before: seq<Packet>, first: MsgID, answers: seq<Outgoing>, to: PeerID, m: OrderMessage, refund: OrderMessage)
    ensures SentReject(before, before + Packets(first, answers + [Outgoing(to, m), Outgoing(to, refund)]), to, m, Some(refund))
  {
    hide Packets;
    var sends := answers + [Outgoing(to, m), Outgoing(to, refund)];
    var wire := before + Packets(first, sends);
    PacketsAre(first, sends);
    assert wire[|wire| - 1] == Packets(first, sends)[|sends| - 1];
    assert wire[|wire| - 2] == Packets(first, sends)[|sends| - 2];
  }

  lemma RejectedRow(cfg: Config, n: NodeState, ctx: Context, m: OrderMessage, xs: seq<OrderMessage>, to: PeerID, first: MsgID)
    requires OwnOrder(cfg, n.row, m.orderID) && m.body.Reject? && m.signer == cfg.identity && CanReject(n.row.value)
    requires RetriesOf(cfg, ctx, n.row, cfg.identity, m, xs)
    ensures
      var row := Acted(cfg, n, ctx, m, xs, to, first).row;
      row.Some? && row.value.reject == Some(m) && row.value.refunds == []
  {
    OwnReject(cfg, ctx, n.row, m, xs);
    hide NextRow;
  }

  lemma RefundedRow(cfg: Config, n: NodeState, ctx: Context, m: OrderMessage, refund: OrderMessage,
                    xs: seq<OrderMessage>, ys: seq<OrderMessage>, to: PeerID, first: MsgID)
    requires OwnOrder(cfg, n.row, m.orderID) && m.body.Reject? && m.signer == cfg.identity && CanReject(n.row.value)
    requires refund.orderID == m.orderID && refund.body.Refund? && refund.signer == cfg.identity
    requires RetriesOf(cfg, ctx, n.row, cfg.identity, m, xs)
    requires RetriesOf(cfg, ctx, NextRow(cfg, m.orderID, n.row, Message(ctx, cfg.identity, m, xs)), cfg.identity, refund, ys)
    ensures
      var row := RejectedAndRefunded(cfg, n, ctx, m, refund, xs, ys, to, first).row;
      row.Some? && row.value.reject == Some(m) && row.value.refunds == [refund]
  {
    OwnReject(cfg, ctx, n.row, m, xs);
    OwnRefund(cfg, ctx, NextRow(cfg, m.orderID, n.row, Message(ctx, cfg.identity, m, xs)), refund, ys);
    hide NextRow, RetriesOf, OwnOrder;
  }

  /** The two outcomes of a reject, told by what was paid and the terms. */
  lemma RefundWhenDue(cfg: Config, n: NodeState, ctx: Context, m: OrderMessage, refund: OrderMessage,
                      xs: seq<OrderMessage>, ys: seq<OrderMessage>, to: PeerID, first: MsgID, before: seq<Packet>)
    requires m.body.Reject? && refund.body.Refund? && refund.orderID == m.orderID && MayAct(n.row, m.body)
    requires RetriesOf(cfg, ctx, n.row, cfg.identity, m, xs)
    requires NeedsRefund(n.row) ==>
      RetriesOf(cfg, ctx, NextRow(cfg, m.orderID, n.row, Message(ctx, cfg.identity, m, xs)), cfg.identity, refund, ys)
    ensures
      var st := n.row.value;
      var open := OpenOf(st).value;
      var due := FundingTotal(st.transactions, open.address) >= open.amount && (open.terms.Direct? || open.terms.Moderated?);
      var sends := if NeedsRefund(n.row) then BothSends(cfg, n, ctx, m, refund, xs, ys, to) else ActionSends(cfg, n, ctx, m, xs, to);
      var row := if NeedsRefund(n.row) then RejectedAndRefunded(cfg, n, ctx, m, refund, xs, ys, to, first).row
                 else Acted(cfg, n, ctx, m, xs, to, first).row;
      && SentReject(before, before + Packets(first, sends), to, m, if due then Some(refund) else None)
      && (OwnOrder(cfg, n.row, m.orderID) && m.signer == cfg.identity == refund.signer ==>
            row.Some? && row.value.reject == Some(m) && row.value.refunds == if due then [refund] else [])
  {
    hide Process, NextRow, RetriesOf, Packets, Enqueue, SentReject, OwnOrder;
    NoRefundIsSent(cfg, ctx, n.row, cfg.identity, m, xs);
    var mid := NextRow(cfg, m.orderID, n.row, Message(ctx, cfg.identity, m, xs));
    var answers := Process(cfg, ctx, n.row, cfg.identity, m, xs).sent;
    RejectIsSent(before, first, answers, to, m);
    BothAreSent(before, first, answers + Process(cfg, ctx, mid, cfg.identity, refund, ys).sent, to, m, refund);
    if OwnOrder(cfg, n.row, m.orderID) && m.signer == cfg.identity == refund.signer {
      if NeedsRefund(n.row) {
        RefundedRow(cfg, n, ctx, m, refund, xs, ys, to, first);
      } else {
        RejectedRow(cfg, n, ctx, m, xs, to, first);
      }
    }
  }

  class OpenBazaarNode {
    const processor: OrderProcessor
    var outbox: map<MsgID, Outgoing>
    var incoming: set<MsgID>
    /** Everything handed to the network so far. */
    var wire: seq<Packet>

    constructor (cfg: Config)
      ensures fresh(processor) && processor.cfg == cfg && Idle()
      ensures processor.rows == map[] && outbox == map[] && incoming == {} && wire == []
    {
      processor := new OrderProcessor(cfg);
      outbox, incoming, wire := map[], {}, [];
    }

    /** Between transactions nothing waits to be queued. */
    ghost predicate Idle()
      reads processor
    {
      processor.queue == []
    }

    ghost function View(id: OrderID): NodeState
      reads this, processor
    {
      NodeState(processor.Row(id), outbox, incoming)
    }

    method ReliablySendMessage(id: MsgID, o: Outgoing)
      modifies `outbox, `wire
      ensures outbox == old(outbox)[id := o]
      ensures wire == old(wire) + [OrderPacket(id, o.to, o.msg)]
    {
      outbox := outbox[id := o];
      wire := wire + [OrderPacket(id, o.to, o.msg)];
    }

    /** Commits what the handlers queued: every message gets an outbox row and a first send. */
    method Flush(first: MsgID)
      modifies `outbox, `wire, processor`queue
      ensures Idle()
      ensures outbox == Enqueue(old(outbox), first, old(processor.queue))
      ensures wire == old(wire) + Packets(first, old(processor.queue))
      ensures FirstSends(old(wire), wire, outbox, first)
      ensures InOrder(old(wire), wire, outbox, first, old(processor.queue))
    {
      hide Packets, Enqueue, FirstSends, InOrder;
      var outs := processor.queue;
      assert outs[..0] == [];
      NothingQueued(outbox, first);
      for i := 0 to |outs|
        invariant processor.queue == outs
        invariant outbox == Enqueue(old(outbox), first, outs[..i])
        invariant wire == old(wire) + Packets(first, outs[..i])
      {
        QueueStep(old(outbox), first, outs, i);
        ReliablySendMessage(first + i, outs[i]);
      }
      assert outs[..|outs|] == outs;
      processor.queue := [];
      SentAsQueued(old(wire), old(outbox), first, outs);
    }

    method SendAck(id: MsgID, to: PeerID)
      modifies `wire
      ensures wire == old(wire) + [AckPacket(id, to)]
    {
      wire := wire + [AckPacket(id, to)];
    }

    /** Processes a message ID once; acknowledges every copy. */
    method HandleOrderMessage(ctx: Context, id: MsgID, peer: PeerID, m: OrderMessage, first: MsgID)
      returns (ghost xs: seq<OrderMessage>)
      requires Idle()
      modifies this, processor
      ensures Idle()
      ensures id !in old(incoming) ==> RetriesOf(processor.cfg, ctx, old(View(m.orderID)).row, peer, m, xs)
      ensures View(m.orderID) == Received(processor.cfg, old(View(m.orderID)), id, ctx, peer, m, xs, first)
      ensures id in old(incoming) ==> processor.rows == old(processor.rows)
      ensures wire != [] && wire[|wire| - 1] == AckPacket(id, peer)
      ensures FirstSends(old(wire), wire[..|wire| - 1], outbox, first)
      ensures id in old(incoming) ==> wire == old(wire) + [AckPacket(id, peer)]
      ensures id !in old(incoming) ==>
        wire == old(wire) + Packets(first, Process(processor.cfg, ctx, old(View(m.orderID)).row, peer, m, xs).sent) + [AckPacket(id, peer)]
    {
      hide Process, RetriesOf, Packets, Enqueue, FirstSends;
      xs := [];
      if id !in incoming {
        xs := processor.ProcessMessage(ctx, peer, m);
        assert processor.queue == Process(processor.cfg, ctx, old(processor.Row(m.orderID)), peer, m, xs).sent;
        Flush(first);
        incoming := incoming + {id};
      } else {
        NothingSent(wire, outbox, first);
      }
      ghost var sent := wire;
      SendAck(id, peer);
      assert wire[..|wire| - 1] == sent;
    }

    /** CONFIRM, REJECT, CANCEL, REFUND, FULFILL, COMPLETE and PURCHASE: check, process, queue. */
    method SubmitOrderMessage(ctx: Context, m: OrderMessage, to: PeerID, first: MsgID)
      returns (ok: bool, ghost xs: seq<OrderMessage>)
      requires Idle()
      modifies this, processor
      ensures Idle()
      ensures ok == MayAct(old(View(m.orderID)).row, m.body)
      ensures !ok ==> View(m.orderID) == old(View(m.orderID)) && wire == old(wire)
      ensures ok ==>
        && RetriesOf(processor.cfg, ctx, old(View(m.orderID)).row, processor.cfg.identity, m, xs)
        && View(m.orderID) == Acted(processor.cfg, old(View(m.orderID)), ctx, m, xs, to, first)
        && wire == old(wire) + Packets(first, ActionSends(processor.cfg, old(View(m.orderID)), ctx, m, xs, to))
      ensures ok ==> FirstSends(old(wire), wire, outbox, first)
      ensures ok ==> LastIs(wire, to, m)
    {
      hide Process, RetriesOf, Packets, Enqueue, MayAct, FirstSends;
      xs := [];
      var row := if Some(m.orderID) in processor.rows then Some(processor.rows[Some(m.orderID)]) else None;
      ok := MayAct(row, m.body);
      if ok {
        xs := processor.ProcessMessage(ctx, processor.cfg.identity, m);
        processor.ReliablySendMessage(to, m);
        assert processor.queue == ActionSends(processor.cfg, old(View(m.orderID)), ctx, m, xs, to);
        ghost var k := |processor.queue| - 1;
        assert processor.queue[k] == Outgoing(to, m);
        Flush(first);
        assert wire[|old(wire)| + k] == OrderPacket(first + k, to, m);
      }
    }

    /**
     REJECT with the refund of a funded order: both are processed, then both queued, in one transaction.
     The refund is due when what was paid covers the amount and the order is not cancelable.
     */
    method RejectOrder(ctx: Context, m: OrderMessage, refund: OrderMessage, to: PeerID, first: MsgID)
      returns (ok: bool, ghost xs: seq<OrderMessage>, ghost ys: seq<OrderMessage>)
      requires Idle() && m.body.Reject? && refund.body.Refund? && refund.orderID == m.orderID
      modifies this, processor
      ensures Idle()
      ensures ok == MayAct(old(View(m.orderID)).row, m.body)
      ensures !ok ==> View(m.orderID) == old(View(m.orderID)) && wire == old(wire)
      ensures ok ==>
        var cfg, n := processor.cfg, old(View(m.orderID));
        && RetriesOf(cfg, ctx, n.row, cfg.identity, m, xs)
        && if NeedsRefund(n.row)
           then
             && RetriesOf(cfg, ctx, NextRow(cfg, m.orderID, n.row, Message(ctx, cfg.identity, m, xs)), cfg.identity, refund, ys)
             && View(m.orderID) == RejectedAndRefunded(cfg, n, ctx, m, refund, xs, ys, to, first)
             && wire == old(wire) + Packets(first, BothSends(cfg, n, ctx, m, refund, xs, ys, to))
           else
             && View(m.orderID) == Acted(cfg, n, ctx, m, xs, to, first)
             && wire == old(wire) + Packets(first, ActionSends(cfg, n, ctx, m, xs, to))
      ensures ok ==> FirstSends(old(wire), wire, outbox, first)
      ensures ok ==>
        var st := old(View(m.orderID)).row.value;
        var open := OpenOf(st).value;
        var due := FundingTotal(st.transactions, open.address) >= open.amount && (open.terms.Direct? || open.terms.Moderated?);
        && SentReject(old(wire), wire, to, m, if due then Some(refund) else None)
        && (OwnOrder(processor.cfg, old(View(m.orderID)).row, m.orderID) && m.signer == processor.cfg.identity == refund.signer ==>
              var row := View(m.orderID).row;
              row.Some? && row.value.reject == Some(m) && row.value.refunds == if due then [refund] else [])
    {
      hide Process, NextRow, RetriesOf, Packets, MayAct, NeedsRefund, FirstSends, SentReject, OwnOrder, FundingTotal,
           Acted, RejectedAndRefunded, BothSends, ActionSends;
      xs, ys := [], [];
      var row := if Some(m.orderID) in processor.rows then Some(processor.rows[Some(m.orderID)]) else None;
      ok := MayAct(row, m.body);
      if ok {
        xs, ys := RejectAdmitted(ctx, row, m, refund, to, first);
        RefundWhenDue(processor.cfg, old(View(m.orderID)), ctx, m, refund, xs, ys, to, first, old(wire));
      }
    }

    /** The transaction of an admitted reject; `row` is the order as loaded before it. */
    method RejectAdmitted(ctx: Context, row: Option<OrderState>, m: OrderMessage, refund: OrderMessage, to: PeerID, first: MsgID)
      returns (ghost xs: seq<OrderMessage>, ghost ys: seq<OrderMessage>)
      requires Idle() && refund.orderID == m.orderID && row == View(m.orderID).row
      modifies this, processor
      ensures Idle()
      ensures FirstSends(old(wire), wire, outbox, first)
      ensures
        var cfg, n := processor.cfg, old(View(m.orderID));
        && RetriesOf(cfg, ctx, n.row, cfg.identity, m, xs)
        && if NeedsRefund(n.row)
           then
             && RetriesOf(cfg, ctx, NextRow(cfg, m.orderID, n.row, Message(ctx, cfg.identity, m, xs)), cfg.identity, refund, ys)
             && View(m.orderID) == RejectedAndRefunded(cfg, n, ctx, m, refund, xs, ys, to, first)
             && wire == old(wire) + Packets(first, BothSends(cfg, n, ctx, m, refund, xs, ys, to))
           else
             && View(m.orderID) == Acted(cfg, n, ctx, m, xs, to, first)
             && wire == old(wire) + Packets(first, ActionSends(cfg, n, ctx, m, xs, to))
    {
      hide Process, RetriesOf, Packets, Enqueue, NeedsRefund, FirstSends;
      xs := processor.ProcessMessage(ctx, processor.cfg.identity, m);
      ys := [];
      if NeedsRefund(row) {
        ys := processor.ProcessMessage(ctx, processor.cfg.identity, refund);
        processor.ReliablySendMessage(to, m);
        processor.ReliablySendMessage(to, refund);
        assert processor.queue == BothSends(processor.cfg, old(View(m.orderID)), ctx, m, refund, xs, ys, to);
      } else {
        processor.ReliablySendMessage(to, m);
        assert processor.queue == ActionSends(processor.cfg, old(View(m.orderID)), ctx, m, xs, to);
      }
      Flush(first);
    }

    /** An acknowledgement marks the order and deletes the outbox row; a second one finds no row. */
    method HandleAckMessage(id: MsgID)
      modifies `outbox, processor`rows
      ensures outbox == old(outbox) - {id}
      ensures id in old(outbox) ==>
        View(old(outbox)[id].msg.orderID) == Acknowledged(processor.cfg, old(View(outbox[id].msg.orderID)), id)
      ensures id !in old(outbox) ==> processor.rows == old(processor.rows)
    {
      if id in outbox {
        processor.ProcessACK(outbox[id].msg.orderID, outbox[id].msg, false);
        outbox := outbox - {id};
      }
    }

    /** Every row still in the outbox whose back-off has run out, `due`, is sent again, once. */
    method RetryAllMessages(due: set<MsgID>)
      modifies `wire
      ensures old(wire) <= wire && Resends(wire[|old(wire)|..], outbox, due, {})
      ensures |wire| == |old(wire)| + |outbox.Keys * due|
    {
      hide Resends, DueOutside;
      var rest := outbox.Keys;
      ghost var sent: seq<Packet> := [];
      NothingResent(outbox, due);
      while rest != {}
        invariant rest <= outbox.Keys && wire == old(wire) + sent
        invariant Resends(sent, outbox, due, rest) && |sent| == |DueOutside(outbox, due, rest)|
        decreases rest
      {
        var id :| id in rest;
        OneMoreResent(sent, outbox, due, rest, id);
        rest := rest - {id};
        if id in due {
          wire := wire + [OrderPacket(id, outbox[id].to, outbox[id].msg)];
          sent := sent + [OrderPacket(id, outbox[id].to, outbox[id].msg)];
        }
      }
      assert wire[|old(wire)|..] == sent;
    }

    /** A transaction the wallet reports for an order; a failed update leaves everything as it was. */
    method ReportTransaction(ctx: Context, id: OrderID, tx: Transaction, first: MsgID)
      requires Idle() && Some(id) in processor.rows && processor.rows[Some(id)].id == Some(id)
      modifies this, processor
      ensures Idle()
      ensures View(id) == Paid(processor.cfg, old(View(id)), ctx, id, tx, first)
      ensures FirstSends(old(wire), wire, outbox, first)
      ensures wire == old(wire) + Packets(first, WalletSends(processor.cfg, old(View(id)), ctx, tx))
    {
      var cfg, was := processor.cfg, processor.rows[Some(id)];
      assert WalletEvent(cfg, ctx, was, tx).err != NoError ==> WalletEvent(cfg, ctx, was, tx) == Effect(was, WalletEvent(cfg, ctx, was, tx).err, []);
      assert Enqueue(outbox, first, []) == outbox;
      hide WalletEvent, Enqueue, Packets, FirstSends;
      NothingSent(wire, outbox, first);
      NothingQueued(outbox, first);
      var order := new Order.Load(processor.rows[Some(id)]);
      var err := processor.ProcessWalletTransaction(ctx, order, tx);
      if err == NoError {
        assert processor.queue == WalletEvent(cfg, ctx, was, tx).sent;
        processor.rows := processor.rows[Some(id) := order.State()];
        Flush(first);
      } else {
        processor.queue := [];
      }
    }
  }
}
