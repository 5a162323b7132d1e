/**
 Two nodes and the network between them. The network may lose, repeat and reorder packets: any posted
 message, and any acknowledgement, may be delivered at any later time, any number of times, or never.
 Resending an outbox row therefore adds no behaviour of its own.

 Main results, for every run: no message is lost, each takes effect at most once, an acknowledged flag
 is the truth, and when both outboxes are empty both nodes know the same messages.
 */
module OrderDelivery {
  import opened Common
  import opened OrderModel
  import opened OrderRules
  import opened OrderInvariants
  import opened OrderMessaging

  datatype Side = Buyer | Vendor

  function Other(s: Side): Side {
    if s.Buyer? then Vendor else Buyer
  }

  /** The order two nodes talk about, and what each of them fixes for the whole run. */
  datatype World = World(om: OrderMessage, buyer: Config, vendor: Config)

  function ConfigOf(w: World, s: Side): Config {
    if s.Buyer? then w.buyer else w.vendor
  }

  function PeerOf(w: World, s: Side): PeerID {
    ConfigOf(w, s).identity
  }

  /** A message that entered the outbox of `from`; its ID is its place in the log. */
  datatype Posted = Posted(from: Side, out: Outgoing)

  /** `acks` are the IDs acknowledged so far, `handled` the IDs whose handler ran, in that order. */
  datatype System = System(buyer: NodeState, vendor: NodeState, log: seq<Posted>, acks: set<MsgID>, handled: seq<MsgID>)

  const START := System(NodeState(None, map[], {}), NodeState(None, map[], {}), [], {}, [])

  function NodeOf(sys: System, s: Side): NodeState {
    if s.Buyer? then sys.buyer else sys.vendor
  }

  function WithNode(sys: System, s: Side, n: NodeState): System {
    if s.Buyer? then sys.(buyer := n) else sys.(vendor := n)
  }

  function Post(s: Side, outs: seq<Outgoing>): seq<Posted> {
    seq(|outs|, i requires 0 <= i < |outs| => Posted(s, outs[i]))
  }

  datatype Step =
    | Act(side: Side, ctx: Context, m: OrderMessage, xs: seq<OrderMessage>)
    | Pay(side: Side, ctx: Context, tx: Transaction)
    | Deliver(id: MsgID, ctx: Context, xs: seq<OrderMessage>)
    | DeliverAck(id: MsgID)

  predicate Addressed(w: World, p: Posted) {
    p.out.to == PeerOf(w, Other(p.from)) && p.out.msg.orderID == w.om.orderID
  }

  ghost predicate Enabled(w: World, sys: System, step: Step) {
    match step
    case Act(side, ctx, m, xs) =>
      && m.orderID == w.om.orderID && m.signer == PeerOf(w, side)
      && MayAct(NodeOf(sys, side).row, m.body)
      && RetriesOf(ConfigOf(w, side), ctx, NodeOf(sys, side).row, PeerOf(w, side), m, xs)
    case Pay(_, _, _) => true
    case Deliver(id, ctx, xs) =>
      && id < |sys.log| && Addressed(w, sys.log[id])
      && var to := Other(sys.log[id].from);
         RetriesOf(ConfigOf(w, to), ctx, NodeOf(sys, to).row, PeerOf(w, sys.log[id].from), sys.log[id].out.msg, xs)
    case DeliverAck(id) => id in sys.acks && id < |sys.log|
  }

  function Sends(w: World, sys: System, step: Step): seq<Outgoing> {
    match step
    case Act(side, ctx, m, xs) => ActionSends(ConfigOf(w, side), NodeOf(sys, side), ctx, m, xs, PeerOf(w, Other(side)))
    case Pay(side, ctx, tx) => WalletSends(ConfigOf(w, side), NodeOf(sys, side), ctx, tx)
    case Deliver(id, ctx, xs) =>
      if id >= |sys.log| then [] else
      var from := sys.log[id].from;
      if id in NodeOf(sys, Other(from)).incoming then []
      else Process(ConfigOf(w, Other(from)), ctx, NodeOf(sys, Other(from)).row, PeerOf(w, from), sys.log[id].out.msg, xs).sent
    case DeliverAck(_) => []
  }

  /** The node a step takes place at. */
  function SideOf(sys: System, step: Step): Side {
    match step
    case Act(side, _, _, _) => side
    case Pay(side, _, _) => side
    case Deliver(id, _, _) => if id < |sys.log| then Other(sys.log[id].from) else Buyer
    case DeliverAck(id) => if id < |sys.log| then sys.log[id].from else Buyer
  }

  function NodeAfter(w: World, sys: System, step: Step): NodeState {
    var side := SideOf(sys, step);
    var cfg, n := ConfigOf(w, side), NodeOf(sys, side);
    match step
    case Act(_, ctx, m, xs) => Acted(cfg, n, ctx, m, xs, PeerOf(w, Other(side)), |sys.log|)
    case Pay(_, ctx, tx) => Paid(cfg, n, ctx, w.om.orderID, tx, |sys.log|)
    case Deliver(id, ctx, xs) =>
      if id >= |sys.log| then n
      else Received(cfg, n, id, ctx, PeerOf(w, Other(side)), sys.log[id].out.msg, xs, |sys.log|)
    case DeliverAck(id) => Acknowledged(cfg, n, id)
  }

  function Next(w: World, sys: System, step: Step): System {
    var side := SideOf(sys, step);
    var moved := WithNode(sys, side, NodeAfter(w, sys, step)).(log := sys.log + Post(side, Sends(w, sys, step)));
    match step
    case Deliver(id, _, _) =>
      moved.(acks := sys.acks + {id},
             handled := if id in NodeOf(sys, side).incoming then sys.handled else sys.handled + [id])
    case _ => moved
  }

  /** A run of the two nodes: the steps taken, and the states before, between and after them. */
  ghost predicate Execution(w: World, steps: seq<Step>, states: seq<System>) {
    && |states| == |steps| + 1 && states[0] == START
    && forall i {:trigger steps[i]} | 0 <= i < |steps| ::
      Enabled(w, states[i], steps[i]) && states[i + 1] == Next(w, states[i], steps[i])
  }

  lemma LastStep(w: World, steps: seq<Step>, states: seq<System>)
    requires Execution(w, steps, states) && steps != []
    ensures
      var n := |steps| - 1;
      && Execution(w, steps[..n], states[..n + 1])
      && Enabled(w, states[n], steps[n]) && states[n + 1] == Next(w, states[n], steps[n])
  {
    hide Enabled, Next;
    var n := |steps| - 1;
    forall i | 0 <= i < n
      ensures Enabled(w, states[..n + 1][i], steps[..n][i]) && states[..n + 1][i + 1] == Next(w, states[..n + 1][i], steps[..n][i])
    {
      assert Enabled(w, states[i], steps[i]);
    }
  }

  // ---- the invariant of delivery -----------------------------------------------------------------

  ghost predicate NodeFits(log: seq<Posted>, s: Side, n: NodeState) {
    && (forall id <- n.outbox :: id < |log| && log[id] == Posted(s, n.outbox[id]))
    && (forall id <- n.incoming :: id < |log| && log[id].from == Other(s))
  }

  /** Every message is still in its sender's outbox or has reached the recipient. */
  ghost predicate NoLoss(sys: System) {
    forall id | 0 <= id < |sys.log| ::
      id in NodeOf(sys, sys.log[id].from).outbox || id in NodeOf(sys, Other(sys.log[id].from)).incoming
  }

  ghost predicate HandledOnce(sys: System) {
    && (forall i, j | 0 <= i < j < |sys.handled| :: sys.handled[i] != sys.handled[j])
    && (forall id :: id in sys.handled <==> id in sys.buyer.incoming + sys.vendor.incoming)
  }

  ghost predicate AcksAreTrue(sys: System) {
    forall id <- sys.acks :: id < |sys.log| && id in NodeOf(sys, Other(sys.log[id].from)).incoming
  }

  /** The other node has handled a message of this type from `s`. */
  ghost predicate Reached(sys: System, s: Side, n: nat) {
    exists id <- NodeOf(sys, Other(s)).incoming ::
      id < |sys.log| && sys.log[id].from == s && TypeNumber(sys.log[id].out.msg.body) == n
  }

  ghost predicate FlagsAreTrue(sys: System) {
    forall s, n :: n in Loaded(NodeOf(sys, s).row).acked ==> Reached(sys, s, n)
  }

  ghost predicate Reliable(sys: System) {
    && NodeFits(sys.log, Buyer, sys.buyer) && NodeFits(sys.log, Vendor, sys.vendor)
    && NoLoss(sys) && HandledOnce(sys) && AcksAreTrue(sys) && FlagsAreTrue(sys)
  }

  // ---- steps keep it -----------------------------------------------------------------------------

  lemma {:induction false} RetryKeepsAcked(cfg: Config, ctx: Context, st: OrderState, peer: PeerID, m: OrderMessage, xs: seq<OrderMessage>)
    ensures Retry(cfg, ctx, st, peer, m, xs).st.acked == st.acked
  {
    hide Handle;
    if xs != [] {
      RetryKeepsAcked(cfg, ctx, st, peer, m, xs[..|xs| - 1]);
      HandleKeepsBooks(cfg, ctx, Retry(cfg, ctx, st, peer, m, xs[..|xs| - 1]).st, peer, xs[|xs| - 1]);
    }
  }

  /** Only an acknowledgement sets a flag. */
  lemma RowKeepsAcked(cfg: Config, id: OrderID, row: Option<OrderState>, ev: Event)
    requires !ev.Acked?
    ensures Loaded(NextRow(cfg, id, row, ev)).acked == Loaded(row).acked
  {
    hide Handle, Retry, WalletEvent;
    match ev
    case Message(ctx, peer, m, xs) =>
      HandleKeepsBooks(cfg, ctx, Loaded(row), peer, m);
      RetryKeepsAcked(cfg, ctx, FirstPass(cfg, ctx, row, peer, m).st, peer, m, xs);
    case Wallet(ctx, tx) =>
      WalletKeepsBooks(cfg, ctx, Loaded(row), tx);
  }

  /** A node handles the messages `ids`, moves to `row` and posts `outs`. */
  function Moved(sys: System, s: Side, row: Option<OrderState>, ids: set<MsgID>, outs: seq<Outgoing>): System {
    var n := NodeOf(sys, s);
    WithNode(sys, s, NodeState(row, Enqueue(n.outbox, |sys.log|, outs), n.incoming + ids)).(log := sys.log + Post(s, outs))
  }

  lemma MovedFits(sys: System, s: Side, row: Option<OrderState>, ids: set<MsgID>, outs: seq<Outgoing>)
    requires Reliable(sys) && forall id <- ids :: id < |sys.log| && sys.log[id].from == Other(s)
    ensures
      var sys' := Moved(sys, s, row, ids, outs);
      NodeFits(sys'.log, Buyer, sys'.buyer) && NodeFits(sys'.log, Vendor, sys'.vendor)
  {
    Enqueued(NodeOf(sys, s).outbox, |sys.log|, outs);
    hide Enqueue;
  }

  lemma MovedLosesNothing(sys: System, s: Side, row: Option<OrderState>, ids: set<MsgID>, outs: seq<Outgoing>)
    requires Reliable(sys)
    ensures NoLoss(Moved(sys, s, row, ids, outs)) && AcksAreTrue(Moved(sys, s, row, ids, outs))
  {
    Enqueued(NodeOf(sys, s).outbox, |sys.log|, outs);
    hide Enqueue;
  }

  lemma MovedKeepsFlags(sys: System, s: Side, row: Option<OrderState>, ids: set<MsgID>, outs: seq<Outgoing>)
    requires Reliable(sys) && Loaded(row).acked == Loaded(NodeOf(sys, s).row).acked
    ensures FlagsAreTrue(Moved(sys, s, row, ids, outs))
  {
    var sys' := Moved(sys, s, row, ids, outs);
    forall t, n | n in Loaded(NodeOf(sys', t).row).acked ensures Reached(sys', t, n) {
      assert Reached(sys, t, n);
      var id :| id in NodeOf(sys, Other(t)).incoming &&
        id < |sys.log| && sys.log[id].from == t && TypeNumber(sys.log[id].out.msg.body) == n;
      assert id in NodeOf(sys', Other(t)).incoming;
    }
  }

  lemma ActShape(w: World, sys: System, step: Step)
    requires step.Act? || step.Pay?
    ensures
      var side := SideOf(sys, step);
      var row := NodeAfter(w, sys, step).row;
      && Next(w, sys, step) == Moved(sys, side, row, {}, Sends(w, sys, step))
      && Loaded(row).acked == Loaded(NodeOf(sys, side).row).acked
  {
    var n := NodeOf(sys, SideOf(sys, step));
    assert n.incoming + {} == n.incoming;
    hide Process, WalletEvent, Enqueue;
    match step
    case Act(side, ctx, m, xs) => RowKeepsAcked(ConfigOf(w, side), m.orderID, n.row, Message(ctx, PeerOf(w, side), m, xs));
    case Pay(side, ctx, tx) => RowKeepsAcked(ConfigOf(w, side), w.om.orderID, n.row, Wallet(ctx, tx));
  }

  lemma ActKeeps(w: World, sys: System, step: Step)
    requires Reliable(sys) && (step.Act? || step.Pay?)
    ensures Reliable(Next(w, sys, step))
  {
    var side := SideOf(sys, step);
    var row, outs := NodeAfter(w, sys, step).row, Sends(w, sys, step);
    ActShape(w, sys, step);
    assert HandledOnce(Moved(sys, side, row, {}, outs));
    MovedFits(sys, side, row, {}, outs);
    MovedLosesNothing(sys, side, row, {}, outs);
    MovedKeepsFlags(sys, side, row, {}, outs);
  }

  /** The second copy of a message changes nothing but earns another acknowledgement. */
  lemma RedeliveryIsIdle(w: World, sys: System, step: Step)
    requires Enabled(w, sys, step) && step.Deliver? && step.id in NodeOf(sys, SideOf(sys, step)).incoming
    ensures Next(w, sys, step) == sys.(acks := sys.acks + {step.id})
  {
    assert sys.log + Post(SideOf(sys, step), []) == sys.log;
    hide Process, RetriesOf;
  }

  lemma DeliverShape(w: World, sys: System, step: Step)
    requires Enabled(w, sys, step) && step.Deliver? && step.id !in NodeOf(sys, SideOf(sys, step)).incoming
    ensures
      var side := SideOf(sys, step);
      var row := NodeAfter(w, sys, step).row;
      && Next(w, sys, step) ==
           Moved(sys, side, row, {step.id}, Sends(w, sys, step)).(acks := sys.acks + {step.id}, handled := sys.handled + [step.id])
      && Loaded(row).acked == Loaded(NodeOf(sys, side).row).acked
  {
    var side := SideOf(sys, step);
    var m := sys.log[step.id].out.msg;
    hide Process, Enqueue, RetriesOf;
    RowKeepsAcked(ConfigOf(w, side), m.orderID, NodeOf(sys, side).row, Message(step.ctx, PeerOf(w, Other(side)), m, step.xs));
  }

  lemma DeliverKeeps(w: World, sys: System, step: Step)
    requires Reliable(sys) && Enabled(w, sys, step) && step.Deliver?
    ensures Reliable(Next(w, sys, step))
  {
    hide RetriesOf, NodeAfter, Sends, FlagsAreTrue, NoLoss, Enqueue, Process;
    var side, id := SideOf(sys, step), step.id;
    if id in NodeOf(sys, side).incoming {
      RedeliveryIsIdle(w, sys, step);
      SameNodes(sys, Next(w, sys, step));
    } else {
      var row, outs := NodeAfter(w, sys, step).row, Sends(w, sys, step);
      DeliverShape(w, sys, step);
      assert id !in sys.handled;
      var moved := Moved(sys, side, row, {id}, outs);
      MovedFits(sys, side, row, {id}, outs);
      MovedLosesNothing(sys, side, row, {id}, outs);
      MovedKeepsFlags(sys, side, row, {id}, outs);
      SameNodes(moved, Next(w, sys, step));
    }
  }

  lemma SameNodes(a: System, b: System)
    requires a.buyer == b.buyer && a.vendor == b.vendor && a.log == b.log
    ensures NoLoss(a) ==> NoLoss(b)
    ensures FlagsAreTrue(a) ==> FlagsAreTrue(b)
  {
    assert forall s, n :: Reached(a, s, n) ==> Reached(b, s, n);
  }

  /** What an acknowledgement changes: one outbox row goes, and one flag may be set. */
  lemma AckShape(w: World, sys: System, id: MsgID)
    requires NodeFits(sys.log, Buyer, sys.buyer) && NodeFits(sys.log, Vendor, sys.vendor) && id < |sys.log|
    ensures
      var p := sys.log[id];
      var n, n' := NodeOf(sys, p.from), NodeAfter(w, sys, DeliverAck(id));
      && Next(w, sys, DeliverAck(id)) == WithNode(sys, p.from, n')
      && n'.outbox == n.outbox - {id} && n'.incoming == n.incoming
      && Loaded(n'.row).acked <= Loaded(n.row).acked + {TypeNumber(p.out.msg.body)}
  {
    assert sys.log + Post(sys.log[id].from, []) == sys.log;
  }

  lemma AckKeepsFlags(sys: System, s: Side, n': NodeState, id: MsgID)
    requires FlagsAreTrue(sys) && id < |sys.log| && sys.log[id].from == s && id in NodeOf(sys, Other(s)).incoming
    requires n'.incoming == NodeOf(sys, s).incoming
    requires Loaded(n'.row).acked <= Loaded(NodeOf(sys, s).row).acked + {TypeNumber(sys.log[id].out.msg.body)}
    ensures FlagsAreTrue(WithNode(sys, s, n'))
  {
    var sys' := WithNode(sys, s, n');
    assert Reached(sys, s, TypeNumber(sys.log[id].out.msg.body));
    forall t, k | k in Loaded(NodeOf(sys', t).row).acked ensures Reached(sys', t, k) {
      assert Reached(sys, t, k);
      SameReach(sys, sys', t, k);
    }
  }

  lemma SameReach(a: System, b: System, s: Side, n: nat)
    requires Reached(a, s, n) && b.log == a.log && NodeOf(b, Other(s)).incoming == NodeOf(a, Other(s)).incoming
    ensures Reached(b, s, n)
  {
  }

  lemma AckKeeps(w: World, sys: System, step: Step)
    requires Reliable(sys) && Enabled(w, sys, step) && step.DeliverAck?
    ensures Reliable(Next(w, sys, step))
  {
    hide NodeAfter, Next, FlagsAreTrue;
    var id := step.id;
    var s, n' := sys.log[id].from, NodeAfter(w, sys, step);
    AckShape(w, sys, id);
    AckKeepsFlags(sys, s, n', id);
    AckKeepsRest(sys, s, n', id);
  }

  lemma AckKeepsRest(sys: System, s: Side, n': NodeState, id: MsgID)
    requires Reliable(sys) && id in sys.acks && id < |sys.log| && sys.log[id].from == s
    requires n'.outbox == NodeOf(sys, s).outbox - {id} && n'.incoming == NodeOf(sys, s).incoming
    ensures
      var sys' := WithNode(sys, s, n');
      && NodeFits(sys'.log, Buyer, sys'.buyer) && NodeFits(sys'.log, Vendor, sys'.vendor)
      && NoLoss(sys') && HandledOnce(sys') && AcksAreTrue(sys')
  {
    hide FlagsAreTrue;
  }

  lemma {:induction false} EveryRunIsReliable(w: World, steps: seq<Step>, states: seq<System>)
    requires Execution(w, steps, states)
    ensures Reliable(states[|steps|])
    decreases steps
  {
    hide Reliable, Enabled, Next;
    if steps == [] {
      StartIsReliable(w, states);
    } else {
      var n := |steps| - 1;
      LastStep(w, steps, states);
      EveryRunIsReliable(w, steps[..n], states[..n + 1]);
      match steps[n]
      case Act(_, _, _, _) => ActKeeps(w, states[n], steps[n]);
      case Pay(_, _, _) => ActKeeps(w, states[n], steps[n]);
      case Deliver(_, _, _) => DeliverKeeps(w, states[n], steps[n]);
      case DeliverAck(_) => AckKeeps(w, states[n], steps[n]);
    }
  }

  lemma StartIsReliable(w: World, states: seq<System>)
    requires Execution(w, [], states)
    ensures |states| == 1 && states[0] == START && Reliable(START)
  {
    assert forall s :: Loaded(NodeOf(START, s).row).acked == {};
  }

  // ---- what a reader relies on -------------------------------------------------------------------

  /** The messages a node has processed: its own and those it received. */
  ghost function Known(sys: System, s: Side): set<OrderMessage> {
    set id | 0 <= id < |sys.log| && (sys.log[id].from == s || id in NodeOf(sys, s).incoming) :: sys.log[id].out.msg
  }

  ghost function Log(sys: System): set<OrderMessage> {
    set id | 0 <= id < |sys.log| :: sys.log[id].out.msg
  }

  /** In every reachable state each posted message is still queued by its sender or handled by its recipient. */
  lemma NothingIsLost(w: World, steps: seq<Step>, states: seq<System>, id: MsgID)
    requires Execution(w, steps, states) && id < |states[|steps|].log|
    ensures
      var sys := states[|steps|];
      var p := sys.log[id];
      && (id in NodeOf(sys, p.from).outbox ==> NodeOf(sys, p.from).outbox[id] == p.out)
      && (id !in NodeOf(sys, p.from).outbox ==> id in NodeOf(sys, Other(p.from)).incoming)
  {
    EveryRunIsReliable(w, steps, states);
  }

  /** No run handles the same message ID twice, and a flag means the recipient handled such a message. */
  lemma AtMostOnceAndAcksTrue(w: World, steps: seq<Step>, states: seq<System>)
    requires Execution(w, steps, states)
    ensures
      var sys := states[|steps|];
      && (forall i, j | 0 <= i < j < |sys.handled| :: sys.handled[i] != sys.handled[j])
      && (forall s, n :: n in Loaded(NodeOf(sys, s).row).acked ==> Reached(sys, s, n))
  {
    EveryRunIsReliable(w, steps, states);
  }

  /** When both outboxes are empty both nodes have processed exactly what was posted. */
  lemma QuietNodesKnowTheSame(w: World, steps: seq<Step>, states: seq<System>)
    requires Execution(w, steps, states)
    requires states[|steps|].buyer.outbox == map[] && states[|steps|].vendor.outbox == map[]
    ensures Known(states[|steps|], Buyer) == Log(states[|steps|]) == Known(states[|steps|], Vendor)
  {
    EveryRunIsReliable(w, steps, states);
    var sys := states[|steps|];
    assert forall id | 0 <= id < |sys.log| ::
      sys.log[id].from == Buyer || id in sys.buyer.incoming;
    assert forall id | 0 <= id < |sys.log| ::
      sys.log[id].from == Vendor || id in sys.vendor.incoming;
  }
}
