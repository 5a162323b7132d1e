/**
 Agreement is always within reach: whatever an orderly run has done so far, delivering what is still
 queued, and the acknowledgements, empties both outboxes. So the end-to-end result is never about nothing.
 */
module OrderProgress {
  import opened Common
  import opened OrderModel
  import opened OrderRules
  import opened OrderInvariants
  import opened OrderConvergence
  import opened OrderRuns
  import opened OrderMessaging
  import opened OrderDelivery
  import opened OrderAgreement
  import opened OrderEndToEnd

  ghost predicate Proceeds(w: World, steps: seq<Step>, states: seq<System>) {
    Execution(w, steps, states) && Orderly(w, steps, states)
  }

  /** Only the network moved. */
  ghost predicate NetworkOnly(steps: seq<Step>, steps': seq<Step>) {
    steps <= steps' && forall i | |steps| <= i < |steps'| :: steps'[i].Deliver? || steps'[i].DeliverAck?
  }

  lemma Append(w: World, steps: seq<Step>, states: seq<System>, step: Step)
    requires Proceeds(w, steps, states) && Enabled(w, states[|steps|], step) && !step.Act?
    ensures Proceeds(w, steps + [step], states + [Next(w, states[|steps|], step)])
  {
    hide Enabled, Next, Disciplined;
    var next := Next(w, states[|steps|], step);
    var more, after := steps + [step], states + [next];
    forall i | 0 <= i < |more| ensures Enabled(w, after[i], more[i]) && after[i + 1] == Next(w, after[i], more[i]) {
      if i < |steps| {
        assert more[i] == steps[i] && after[i] == states[i] && after[i + 1] == states[i + 1];
      }
    }
    forall i | 0 <= i < |more| && more[i].Act? ensures Disciplined(w, NodeOf(after[i], more[i].side).row, more[i].m) {
      assert more[i] == steps[i] && after[i] == states[i];
    }
  }

  lemma DeliverEnabled(w: World, sys: System, s: Side, id: MsgID) returns (step: Step)
    requires Fit(w) && Agreed(w, sys) && Reliable(sys) && id in NodeOf(sys, s).outbox
    ensures step.Deliver? && step.id == id && Enabled(w, sys, step)
    ensures id < |sys.log| && sys.log[id].from == s
  {
    hide NodeAgrees, ConflictFree, VendorFollows, FirstPass;
    assert sys.log[id] in sys.log;
    var ctx := Context(map[], 0);
    var to := Other(s);
    var m := sys.log[id].out.msg;
    var xs := SortExists(FirstPass(ConfigOf(w, to), ctx, NodeOf(sys, to).row, PeerOf(w, s), m).st.parked);
    step := Deliver(id, ctx, xs);
  }

  /** A buyer answers nothing it receives. */
  lemma BuyerStaysSilent(w: World, sys: System, step: Step)
    requires Fit(w) && Agreed(w, sys) && Reliable(sys) && Enabled(w, sys, step) && step.Deliver?
    requires SideOf(sys, step).Buyer?
    ensures Sends(w, sys, step) == []
  {
    hide NodeAgrees, ConflictFree, Known, RetriesOf, Process, Digestible, NextRow;
    var id := step.id;
    var row, m := sys.buyer.row, sys.log[id].out.msg;
    assert sys.log[id] in sys.log && m.signer == PeerOf(w, Vendor);
    if id !in sys.buyer.incoming {
      DigestibleDelivery(w, sys, id);
      ProcessReplies(w, Buyer, step.ctx, row, Known(sys, Buyer), m, step.xs);
      MemberOrEmpty(Sends(w, sys, step));
    }
  }

  lemma DeliverLeaves(w: World, sys: System, step: Step)
    requires Enabled(w, sys, step) && step.Deliver?
    ensures
      var s := Other(SideOf(sys, step));
      var sys' := Next(w, sys, step);
      && NodeOf(sys', s) == NodeOf(sys, s) && step.id in sys'.acks && sys.log <= sys'.log
      && (Sends(w, sys, step) == [] ==> NodeOf(sys', Other(s)).outbox == NodeOf(sys, Other(s)).outbox)
  {
    hide Process, RetriesOf, NextRow;
  }

  lemma AckLeaves(w: World, sys: System, id: MsgID)
    requires id in sys.acks && id < |sys.log|
    ensures
      var s := sys.log[id].from;
      var sys' := Next(w, sys, DeliverAck(id));
      && NodeOf(sys', s).outbox == NodeOf(sys, s).outbox - {id}
      && NodeOf(sys', Other(s)) == NodeOf(sys, Other(s)) && sys'.log == sys.log
  {
    hide NextRow;
    assert sys.log + Post(sys.log[id].from, []) == sys.log;
  }

  /** One queued message is delivered and acknowledged. */
  lemma DeliverOne(w: World, steps: seq<Step>, states: seq<System>, s: Side, id: MsgID)
    returns (steps': seq<Step>, states': seq<System>)
    requires Fit(w) && Proceeds(w, steps, states) && id in NodeOf(states[|steps|], s).outbox
    ensures Proceeds(w, steps', states') && NetworkOnly(steps, steps') && states[|steps|].log <= states'[|steps'|].log
    ensures NodeOf(states'[|steps'|], s).outbox == NodeOf(states[|steps|], s).outbox - {id}
    ensures s.Vendor? ==> states'[|steps'|].buyer.outbox == states[|steps|].buyer.outbox
  {
    hide Agreed, Reliable, Next, Sends, Orderly;
    var sys := states[|steps|];
    EveryRunAgrees(w, steps, states);
    EveryRunIsReliable(w, steps, states);
    var step := DeliverEnabled(w, sys, s, id);
    Append(w, steps, states, step);
    DeliverLeaves(w, sys, step);
    if s.Vendor? {
      BuyerStaysSilent(w, sys, step);
    }
    var mid := Next(w, sys, step);
    AckLeaves(w, mid, id);
    Append(w, steps + [step], states + [mid], DeliverAck(id));
    steps' := steps + [step] + [DeliverAck(id)];
    states' := states + [mid] + [Next(w, mid, DeliverAck(id))];
  }

  /** Everything one side has queued is delivered and acknowledged. */
  lemma {:induction false} DeliverAll(w: World, steps: seq<Step>, states: seq<System>, s: Side)
    returns (steps': seq<Step>, states': seq<System>)
    requires Fit(w) && Proceeds(w, steps, states)
    ensures Proceeds(w, steps', states') && NetworkOnly(steps, steps') && states[|steps|].log <= states'[|steps'|].log
    ensures NodeOf(states'[|steps'|], s).outbox == map[]
    ensures s.Vendor? ==> states'[|steps'|].buyer.outbox == states[|steps|].buyer.outbox
    decreases |NodeOf(states[|steps|], s).outbox|
  {
    hide Orderly, Fit, Enabled, Next;
    var outbox := NodeOf(states[|steps|], s).outbox;
    if outbox.Keys == {} {
      steps', states' := steps, states;
    } else {
      var id :| id in outbox;
      var mid, between := DeliverOne(w, steps, states, s, id);
      assert |outbox - {id}| < |outbox| by {
        assert (outbox - {id}).Keys == outbox.Keys - {id};
        assert |(outbox - {id}).Keys| == |outbox - {id}| && |outbox.Keys| == |outbox|;
      }
      steps', states' := DeliverAll(w, mid, between, s);
    }
  }

  /** Any orderly run in which the order was placed can be continued, by the network alone, to agreement. */
  lemma EveryRunCanSettle(w: World, steps: seq<Step>, states: seq<System>) returns (steps': seq<Step>, states': seq<System>)
    requires Fit(w) && Execution(w, steps, states) && Orderly(w, steps, states) && states[|steps|].log != []
    ensures Execution(w, steps', states') && Orderly(w, steps', states') && NetworkOnly(steps, steps')
    ensures
      var sys := states'[|steps'|];
      && sys.buyer.outbox == map[] && sys.vendor.outbox == map[]
      && sys.buyer.row.Some? && sys.vendor.row.Some? && SameSlots(sys.buyer.row.value, sys.vendor.row.value)
  {
    hide Orderly, Fit, SameSlots, Enabled, Next;
    var mid, between := DeliverAll(w, steps, states, Buyer);
    steps', states' := DeliverAll(w, mid, between, Vendor);
    BothPartiesHoldTheSameOrder(w, steps', states');
  }
}
