/**
 Runs of one node: messages delivered by any peer, in any order and with any repeats, between wallet
 events and acknowledgements.

 Main results: two runs over the same conflict-free set of messages end in the same slots, and a set
 on which all runs agree is conflict-free. A reject the node writes itself carries the time of writing,
 so the agreement is up to that time, and exact when the node does not reject the order itself.
 */
module OrderRuns {
  import opened Common
  import opened OrderModel
  import opened OrderRules
  import opened OrderInvariants
  import opened OrderConvergence

  /** The order's row, and the messages this node received from their signers or wrote itself. */
  datatype Moment = Moment(row: Option<OrderState>, known: set<OrderMessage>)

  /** A message for an order that does not exist yet is parked whoever delivers it. */
  predicate Heard(now: Moment, peer: PeerID, m: OrderMessage) {
    peer == m.signer || Premature(now.row, m)
  }

  /**
   An event of the order opened by `om`. What is heard before the order comes from the peer that opens
   it: a parked message is verified again under the key of whoever triggers the retry.
   */
  ghost predicate Fits(cfg: Config, om: OrderMessage, now: Moment, ev: Event) {
    match ev
    case Message(ctx, peer, m, xs) =>
      && m.orderID == om.orderID && (m.body.Open? ==> m == om)
      && (Heard(now, peer, m) && om !in now.known + {m} ==> m.signer == om.signer)
      && RetriesOf(cfg, ctx, now.row, peer, m, xs)
    case Wallet(_, _) => true
    case Acked(_) => true
  }

  function Learned(cfg: Config, now: Moment, ev: Event): set<OrderMessage> {
    match ev
    case Message(_, peer, m, _) => if Heard(now, peer, m) then {m} else {}
    case Wallet(ctx, tx) => if now.row.Some? then Announced(WalletEvent(cfg, ctx, now.row.value, tx).sent) else {}
    case Acked(_) => {}
  }

  function Then(cfg: Config, om: OrderMessage, now: Moment, ev: Event): Moment {
    Moment(NextRow(cfg, om.orderID, now.row, ev), now.known + Learned(cfg, now, ev))
  }

  /** A run: the events, and the moments before, between and after them. */
  ghost predicate Course(cfg: Config, om: OrderMessage, evs: seq<Event>, ts: seq<Moment>) {
    && |ts| == |evs| + 1 && ts[0] == Moment(None, {})
    && forall i {:trigger evs[i]} | 0 <= i < |evs| :: Fits(cfg, om, ts[i], evs[i]) && ts[i + 1] == Then(cfg, om, ts[i], evs[i])
  }

  lemma CoursePrefix(cfg: Config, om: OrderMessage, evs: seq<Event>, ts: seq<Moment>, n: nat)
    requires Course(cfg, om, evs, ts) && n <= |evs|
    ensures Course(cfg, om, evs[..n], ts[..n + 1])
  {
    hide Fits, Then;
    forall i | 0 <= i < n
      ensures Fits(cfg, om, ts[..n + 1][i], evs[..n][i]) && ts[..n + 1][i + 1] == Then(cfg, om, ts[..n + 1][i], evs[..n][i])
    {
      assert Fits(cfg, om, ts[i], evs[i]);
    }
  }

  lemma LastEvent(cfg: Config, om: OrderMessage, evs: seq<Event>, ts: seq<Moment>)
    requires Course(cfg, om, evs, ts) && evs != []
    ensures
      var n := |evs| - 1;
      && Course(cfg, om, evs[..n], ts[..n + 1])
      && Fits(cfg, om, ts[n], evs[n]) && ts[n + 1] == Then(cfg, om, ts[n], evs[n])
  {
    hide Fits, Then;
    CoursePrefix(cfg, om, evs, ts, |evs| - 1);
    assert Fits(cfg, om, ts[|evs| - 1], evs[|evs| - 1]);
  }

  /** The node tracks the messages it knows, all of them of this order. */
  ghost predicate Follows(cfg: Config, om: OrderMessage, now: Moment)
    requires om.body.Open?
  {
    && Tracks(cfg, om, now.row, now.known)
    && forall x <- now.known :: x.orderID == om.orderID && (x.body.Open? ==> x == om)
  }

  lemma HeardFollows(cfg: Config, ctx: Context, om: OrderMessage, now: Moment, peer: PeerID, m: OrderMessage, xs: seq<OrderMessage>)
    requires om.body.Open? && Follows(cfg, om, now)
    requires Fits(cfg, om, now, Message(ctx, peer, m, xs)) && Heard(now, peer, m)
    requires ConflictFree(cfg, om.body.open, now.known + {m})
    ensures Follows(cfg, om, Moment(NextRow(cfg, om.orderID, now.row, Message(ctx, peer, m, xs)), now.known + {m}))
  {
    hide FirstPass, Retry, Absorbed, ConflictFree, Exclusions, HasConfirmation, HasReject, SortOf;
    if om in now.known {
      SettledStep(cfg, ctx, om, now.row, now.known, m, xs);
    } else if m == om {
      OpeningStep(cfg, ctx, om, now.row, now.known, xs);
    } else if Premature(now.row, m) {
      WaitingFirst(cfg, ctx, om, now.known, m, xs);
      PrematureForAnyPeer(cfg, ctx, peer, m, xs);
    } else {
      WaitingStep(cfg, ctx, om, now.row, now.known, m, xs);
    }
  }

  lemma PrematureForAnyPeer(cfg: Config, ctx: Context, peer: PeerID, m: OrderMessage, xs: seq<OrderMessage>)
    requires !m.body.Open?
    ensures Process(cfg, ctx, None, peer, m, xs) == Process(cfg, ctx, None, m.signer, m, xs)
  {
    hide Verified, Retry;
  }

  lemma UnheardFollows(cfg: Config, ctx: Context, om: OrderMessage, now: Moment, peer: PeerID, m: OrderMessage, xs: seq<OrderMessage>)
    requires om.body.Open? && Follows(cfg, om, now)
    requires Fits(cfg, om, now, Message(ctx, peer, m, xs)) && !Heard(now, peer, m)
    requires ConflictFree(cfg, om.body.open, now.known)
    ensures Follows(cfg, om, Moment(NextRow(cfg, om.orderID, now.row, Message(ctx, peer, m, xs)), now.known))
  {
    hide Handle, Retry, Absorbed, ConflictFree, Exclusions, HasConfirmation, HasReject, SortOf;
    assert FirstPass(cfg, ctx, now.row, peer, m) == Effect(Loaded(now.row), ErrInvalidSignature, []);
    SortKeepsElems(Loaded(now.row).parked, xs);
    if now.row.Some? {
      IdleRetryTracks(cfg, ctx, om, now.row.value, now.known, peer, m, xs);
    } else {
      NothingToRetry(cfg, ctx, peer, m, xs);
    }
  }

  lemma NothingToRetry(cfg: Config, ctx: Context, peer: PeerID, m: OrderMessage, xs: seq<OrderMessage>)
    requires Elems(xs) == {}
    ensures xs == [] && Retry(cfg, ctx, BLANK, peer, m, xs).st == BLANK
  {
    MemberOrEmpty(xs);
    assert forall x <- xs :: x in Elems(xs);
  }

  lemma EventFollows(cfg: Config, om: OrderMessage, now: Moment, ev: Event)
    requires om.body.Open? && Follows(cfg, om, now) && Fits(cfg, om, now, ev)
    requires ConflictFree(cfg, om.body.open, now.known + Learned(cfg, now, ev))
    ensures Follows(cfg, om, Then(cfg, om, now, ev))
  {
    hide Process, WalletEvent, RetriesOf, Tracks, ConflictFree, Fits;
    assert now.known + {} == now.known;
    match ev
    case Message(ctx, peer, m, xs) =>
      if Heard(now, peer, m) {
        FitsOrder(cfg, om, now, ev);
        HeardFollows(cfg, ctx, om, now, peer, m, xs);
      } else {
        UnheardFollows(cfg, ctx, om, now, peer, m, xs);
      }
    case Wallet(ctx, tx) =>
      if now.row.Some? {
        WalletTracks(cfg, ctx, om, now.row.value, now.known, tx);
      }
    case Acked(n) =>
      if now.row.Some? {
        AckTracks(cfg, om, now.row.value, now.known, n);
      }
  }

  lemma FitsOrder(cfg: Config, om: OrderMessage, now: Moment, ev: Event)
    requires Fits(cfg, om, now, ev) && ev.Message?
    ensures ev.m.orderID == om.orderID && (ev.m.body.Open? ==> ev.m == om)
    ensures RetriesOf(cfg, ev.ctx, now.row, ev.peer, ev.m, ev.xs)
  {
  }

  lemma AckTracks(cfg: Config, om: OrderMessage, st: OrderState, d: set<OrderMessage>, n: nat)
    requires om.body.Open? && Tracks(cfg, om, Some(st), d)
    ensures Tracks(cfg, om, Some(st.(acked := st.acked + {n})), d)
  {
    var st' := st.(acked := st.acked + {n});
    if om in d {
      SettledSame(cfg, om, st, st', d);
    } else {
      assert Exclusions(st) ==> Exclusions(st');
    }
  }

  lemma {:induction false} RunFollows(cfg: Config, om: OrderMessage, evs: seq<Event>, ts: seq<Moment>)
    requires om.body.Open?
    requires Course(cfg, om, evs, ts) && ConflictFree(cfg, om.body.open, ts[|evs|].known)
    ensures Follows(cfg, om, ts[|evs|])
    decreases evs
  {
    hide Fits, NextRow, ConflictFree, Follows, Learned;
    if evs == [] {
      NothingYet(cfg, om);
    } else {
      var n := |evs| - 1;
      LastEvent(cfg, om, evs, ts);
      ConflictFreeSubset(cfg, om.body.open, ts[n].known, ts[n + 1].known);
      RunFollows(cfg, om, evs[..n], ts[..n + 1]);
      EventFollows(cfg, om, ts[n], evs[n]);
    }
  }

  lemma NothingYet(cfg: Config, om: OrderMessage)
    requires om.body.Open?
    ensures Follows(cfg, om, Moment(None, {}))
  {
  }

  /** The slots after any run are what the set of messages received says, whatever the order and repeats. */
  lemma SlotsAreAFunctionOfTheSet(cfg: Config, om: OrderMessage, evs: seq<Event>, ts: seq<Moment>)
    requires om.body.Open?
    requires Course(cfg, om, evs, ts) && om in ts[|evs|].known && ConflictFree(cfg, om.body.open, ts[|evs|].known)
    ensures
      var now := ts[|evs|];
      now.row.Some? && Absorbed(cfg, om, now.row.value, Ready(cfg, om.body.open, now.known))
  {
    hide Fits, Then, ConflictFree, Absorbed, Ready;
    RunFollows(cfg, om, evs, ts);
  }

  /** Both rows exist and hold the same slots, up to the time of a reject the node wrote itself. */
  ghost predicate SameRows(cfg: Config, om: OrderMessage, a: Option<OrderState>, b: Option<OrderState>)
    requires om.body.Open?
  {
    a.Some? && b.Some? && SameButStamp(cfg, om, a.value, b.value)
  }

  /** Any two runs over the same conflict-free set agree on every slot. */
  lemma SameMessagesSameSlots(cfg: Config, om: OrderMessage, evs: seq<Event>, ts: seq<Moment>, fvs: seq<Event>, us: seq<Moment>)
    requires om.body.Open?
    requires Course(cfg, om, evs, ts) && Course(cfg, om, fvs, us) && ts[|evs|].known == us[|fvs|].known
    requires om in ts[|evs|].known && ConflictFree(cfg, om.body.open, ts[|evs|].known)
    ensures SameRows(cfg, om, ts[|evs|].row, us[|fvs|].row)
  {
    hide Absorbed, Fits, Then, ConflictFree, Ready, SameButStamp;
    var open, d := om.body.open, ts[|evs|].known;
    SlotsAreAFunctionOfTheSet(cfg, om, evs, ts);
    SlotsAreAFunctionOfTheSet(cfg, om, fvs, us);
    ReadySubset(cfg, open, d);
    AbsorbedIsUnique(cfg, om, ts[|evs|].row.value, us[|fvs|].row.value, Ready(cfg, open, d));
  }

  lemma ReadySubset(cfg: Config, open: OrderOpen, d: set<OrderMessage>)
    requires ConflictFree(cfg, open, d)
    ensures Ready(cfg, open, d) <= d && PairsAgree(cfg, open, Ready(cfg, open, d)) && Agree(cfg, open, d)
  {
  }

  /** Along a run the invariant holds and the row only grows. */
  lemma {:induction false} RunKeeps(cfg: Config, om: OrderMessage, evs: seq<Event>, ts: seq<Moment>, n: nat)
    requires Course(cfg, om, evs, ts) && n <= |evs|
    ensures Inv(Loaded(ts[|evs|].row))
    ensures Extends(Loaded(ts[n].row), Loaded(ts[|evs|].row))
    ensures ts[n].row.Some? ==> ts[|evs|].row.Some?
    decreases |evs|
  {
    hide Fits, Process, WalletEvent, Learned, Extends, Inv;
    if evs == [] {
      BlankIsFine();
    } else {
      var k := |evs| - 1;
      LastEvent(cfg, om, evs, ts);
      RunKeeps(cfg, om, evs[..k], ts[..k + 1], if n < |evs| then n else k);
      NextKeeps(cfg, om.orderID, ts[k].row, evs[k]);
      if n < |evs| {
        ExtendsTransitive(Loaded(ts[n].row), Loaded(ts[k].row), Loaded(ts[k + 1].row));
      } else {
        ExtendsItself(Loaded(ts[n].row));
      }
    }
  }

  lemma BlankIsFine()
    ensures Inv(BLANK) && Extends(BLANK, BLANK)
  {
  }

  lemma ExtendsItself(st: OrderState)
    ensures Extends(st, st)
  {
  }

  /** A reject that is kept is the same reject. */
  lemma KeptIsSame(cfg: Config, om: OrderMessage, a: OrderState, b: OrderState)
    requires om.body.Open? && SameButStamp(cfg, om, a, b) && Extends(a, b)
    ensures SameSlots(a, b)
  {
    assert a.reject.Some? ==> b.reject == a.reject;
  }

  /** Delivering received messages again, by anyone, in any order and any number of times, changes no slot. */
  lemma RedeliveryChangesNothing(cfg: Config, om: OrderMessage, evs: seq<Event>, ts: seq<Moment>, n: nat)
    requires om.body.Open?
    requires Course(cfg, om, evs, ts) && n <= |evs| && ts[|evs|].known == ts[n].known
    requires om in ts[n].known && ConflictFree(cfg, om.body.open, ts[n].known)
    ensures ts[n].row.Some? && ts[|evs|].row.Some? && SameSlots(ts[n].row.value, ts[|evs|].row.value)
  {
    hide Fits, Then, ConflictFree, SameButStamp, SameSlots, Extends, Inv;
    CoursePrefix(cfg, om, evs, ts, n);
    SameMessagesSameSlots(cfg, om, evs[..n], ts[..n + 1], evs, ts);
    RunKeeps(cfg, om, evs, ts, n);
    KeptIsSame(cfg, om, ts[n].row.value, ts[|evs|].row.value);
  }

  /** One sorted pass is enough: retrying the parked messages again, for any peer, changes no slot. */
  lemma SecondPassChangesNothing(cfg: Config, ctx: Context, om: OrderMessage, evs: seq<Event>, ts: seq<Moment>,
                                 peer: PeerID, m: OrderMessage, xs: seq<OrderMessage>)
    requires om.body.Open?
    requires Course(cfg, om, evs, ts) && om in ts[|evs|].known && ConflictFree(cfg, om.body.open, ts[|evs|].known)
    requires ts[|evs|].row.Some? && Elems(xs) == Elems(ts[|evs|].row.value.parked)
    ensures SameSlots(ts[|evs|].row.value, Retry(cfg, ctx, ts[|evs|].row.value, peer, m, xs).st)
  {
    hide Fits, Then, Retry, ConflictFree, Absorbed, Ready, SameButStamp, SameSlots, Extends, Inv, FulfillmentsParked;
    var open, d, st := om.body.open, ts[|evs|].known, ts[|evs|].row.value;
    RunFollows(cfg, om, evs, ts);
    RunKeeps(cfg, om, evs, ts, |evs|);
    IdleRetrySettles(cfg, ctx, om, st, d, peer, m, xs);
    RetryKeeps(cfg, ctx, st, peer, m, xs);
    ReadySubset(cfg, open, d);
    AbsorbedIsUnique(cfg, om, st, Retry(cfg, ctx, st, peer, m, xs).st, Ready(cfg, open, d));
    KeptIsSame(cfg, om, st, Retry(cfg, ctx, st, peer, m, xs).st);
  }

  // ---- the condition is exact ------------------------------------------------------------------

  /** A run over exactly the set. */
  ghost predicate Over(cfg: Config, om: OrderMessage, evs: seq<Event>, ts: seq<Moment>, ms: set<OrderMessage>) {
    Course(cfg, om, evs, ts) && ts[|evs|].known == ms
  }

  /** Every two runs over the set end in the same slots, up to the time of a reject the node wrote itself. */
  ghost predicate ConvergesButForStamp(cfg: Config, om: OrderMessage, ms: set<OrderMessage>)
    requires om.body.Open?
  {
    forall evs: seq<Event>, ts: seq<Moment>, fvs: seq<Event>, us: seq<Moment> |
      Over(cfg, om, evs, ts, ms) && Over(cfg, om, fvs, us, ms) :: SameRows(cfg, om, ts[|evs|].row, us[|fvs|].row)
  }

  /** Every two runs over the set end in the same slots. */
  ghost predicate Converges(cfg: Config, om: OrderMessage, ms: set<OrderMessage>) {
    forall evs: seq<Event>, ts: seq<Moment>, fvs: seq<Event>, us: seq<Moment> |
      Over(cfg, om, evs, ts, ms) && Over(cfg, om, fvs, us, ms) :: Equal(ts[|evs|].row, us[|fvs|].row)
  }

  ghost predicate Equal(a: Option<OrderState>, b: Option<OrderState>) {
    a.Some? && b.Some? && SameSlots(a.value, b.value)
  }

  /** The messages of one order, opened by `om`. */
  ghost predicate OfOrder(om: OrderMessage, ms: set<OrderMessage>) {
    && om.body.Open? && om in ms
    && forall x <- ms :: x.orderID == om.orderID && (x.body.Open? ==> x == om)
  }

  lemma {:induction false} SortExists(parked: seq<OrderMessage>) returns (xs: seq<OrderMessage>)
    ensures SortOf(parked, xs)
  {
    if parked == [] {
      xs := [];
    } else {
      var m := parked[|parked| - 1];
      var ys := SortExists(parked[..|parked| - 1]);
      assert parked == parked[..|parked| - 1] + [m];
      var k := 0;
      while k < |ys| && TypeNumber(ys[k].body) <= TypeNumber(m.body)
        invariant k <= |ys|
        invariant forall i | 0 <= i < k :: TypeNumber(ys[i].body) <= TypeNumber(m.body)
      {
        k := k + 1;
      }
      xs := ys[..k] + [m] + ys[k..];
      assert ys == ys[..k] + ys[k..];
      OrderedAround(ys, k, m);
    }
  }

  /** A run can always be extended by one more message, at any time, from its signer. */
  lemma PlayOne(cfg: Config, om: OrderMessage, evs: seq<Event>, ts: seq<Moment>, m: OrderMessage, stamp: nat) returns (ev: Event)
    requires Course(cfg, om, evs, ts) && m.orderID == om.orderID && (m.body.Open? ==> m == om)
    requires om in ts[|evs|].known + {m}
    ensures ev.Message? && ev == Message(Context(map[], stamp), m.signer, m, ev.xs)
    ensures RetriesOf(cfg, ev.ctx, ts[|evs|].row, m.signer, m, ev.xs)
    ensures Course(cfg, om, evs + [ev], ts + [Then(cfg, om, ts[|evs|], ev)])
    ensures Then(cfg, om, ts[|evs|], ev).known == ts[|evs|].known + {m}
  {
    hide FirstPass, NextRow;
    var ctx := Context(map[], stamp);
    var now := ts[|evs|];
    var xs := SortExists(FirstPass(cfg, ctx, now.row, m.signer, m).st.parked);
    ev := Message(ctx, m.signer, m, xs);
    assert Fits(cfg, om, now, ev);
    CourseSnoc(cfg, om, evs, ts, ev);
  }

  lemma CourseSnoc(cfg: Config, om: OrderMessage, evs: seq<Event>, ts: seq<Moment>, ev: Event)
    requires Course(cfg, om, evs, ts) && Fits(cfg, om, ts[|evs|], ev)
    ensures Course(cfg, om, evs + [ev], ts + [Then(cfg, om, ts[|evs|], ev)])
  {
    hide Fits, Then;
    var evs', ts' := evs + [ev], ts + [Then(cfg, om, ts[|evs|], ev)];
    forall i | 0 <= i < |evs'| ensures Fits(cfg, om, ts'[i], evs'[i]) && ts'[i + 1] == Then(cfg, om, ts'[i], evs'[i]) {
      if i < |evs| {
        assert evs'[i] == evs[i] && ts'[i] == ts[i] && ts'[i + 1] == ts[i + 1];
      }
    }
  }

  /** Once the order is there, any list of its messages can be delivered in turn. */
  lemma {:induction false} Play(cfg: Config, om: OrderMessage, evs: seq<Event>, ts: seq<Moment>, ms: seq<OrderMessage>)
    returns (evs': seq<Event>, ts': seq<Moment>)
    requires Course(cfg, om, evs, ts) && om in ts[|evs|].known
    requires forall x <- ms :: x.orderID == om.orderID && (x.body.Open? ==> x == om)
    ensures Course(cfg, om, evs', ts') && evs <= evs' && ts <= ts'
    ensures ts'[|evs'|].known == ts[|evs|].known + Elems(ms)
    ensures forall i | |evs| <= i < |evs'| :: evs'[i].Message? && evs'[i].m in ms
  {
    hide Course, Fits, Then;
    if ms == [] {
      evs', ts' := evs, ts;
      assert Elems(ms) == {};
    } else {
      var init, m := ms[..|ms| - 1], ms[|ms| - 1];
      assert ms == init + [m];
      assert Elems(ms) == Elems(init) + {m};
      assert forall x <- init :: x in ms;
      evs', ts' := Play(cfg, om, evs, ts, init);
      CourseLength(cfg, om, evs', ts');
      CourseLength(cfg, om, evs, ts);
      var d := PlayOne(cfg, om, evs', ts', m, 0);
      evs', ts' := evs' + [d], ts' + [Then(cfg, om, ts'[|evs'|], d)];
    }
  }

  lemma CourseLength(cfg: Config, om: OrderMessage, evs: seq<Event>, ts: seq<Moment>)
    requires Course(cfg, om, evs, ts)
    ensures |ts| == |evs| + 1
  {
  }

  /** A run that consists of the order's arrival. */
  lemma Opened(cfg: Config, om: OrderMessage, stamp: nat) returns (evs: seq<Event>, ts: seq<Moment>)
    requires om.body.Open?
    ensures Course(cfg, om, evs, ts) && |evs| == 1 && ts[1].known == {om}
    ensures ts[1].row.Some? && (AutoRejects(cfg, om.body.open) ==> ts[1].row.value.reject == Some(AutoReject(cfg, om.orderID, stamp)))
    ensures ts[1].row.value.open == Some(om) && ts[1].row.value.parked == []
  {
    hide Then, RetriesOf, Fits;
    var start := Moment(None, {});
    assert Course(cfg, om, [], [start]);
    var ev := PlayOne(cfg, om, [], [start], om, stamp);
    evs, ts := [] + [ev], [start] + [Then(cfg, om, start, ev)];
    OpenedRow(cfg, om, ev);
  }

  lemma OpenedRow(cfg: Config, om: OrderMessage, ev: Event)
    requires om.body.Open? && ev.Message? && ev.m == om && ev.peer == om.signer
    requires RetriesOf(cfg, ev.ctx, None, om.signer, om, ev.xs)
    ensures
      var row := Then(cfg, om, Moment(None, {}), ev).row;
      && row.Some? && row.value.open == Some(om) && row.value.parked == []
      && (AutoRejects(cfg, om.body.open) ==> row.value.reject == Some(AutoReject(cfg, om.orderID, ev.ctx.stamp)))
  {
    hide Retry, SortOf;
    var mid := AcceptOpen(cfg, ev.ctx, BLANK.(id := Some(om.orderID)), om.signer, om).st;
    assert FirstPass(cfg, ev.ctx, None, om.signer, om).st == mid;
    SortKeepsElems(mid.parked, ev.xs);
    NoneToRetry(ev.xs);
    assert Retry(cfg, ev.ctx, mid, om.signer, om, []).st == mid by {
      NoRetry(cfg, ev.ctx, mid, om);
    }
  }

  lemma NoneToRetry(xs: seq<OrderMessage>)
    requires Elems(xs) == {}
    ensures xs == []
  {
    MemberOrEmpty(xs);
    assert forall x <- xs :: x in Elems(xs);
  }

  lemma NoRetry(cfg: Config, ctx: Context, st: OrderState, m: OrderMessage)
    ensures Retry(cfg, ctx, st, m.signer, m, []).st == st
  {
  }

  lemma NoRetryFor(cfg: Config, ctx: Context, st: OrderState, peer: PeerID, m: OrderMessage)
    ensures Retry(cfg, ctx, st, peer, m, []).st == st
  {
  }

  /** The message sits in its slot or list. */
  ghost predicate Holds(st: OrderState, x: OrderMessage) {
    match x.body
    case Reject(_, _) => st.reject == Some(x)
    case Cancel(_, _) => st.cancel == Some(x)
    case Confirmation(_, _) => st.confirmation == Some(x)
    case Complete(_, _, _, _) => st.complete == Some(x)
    case Fulfillment(_, _) => x in st.fulfillments
    case Refund(_, _, _) => x in st.refunds
    case PaymentSent(_) => x in st.paymentsSent
    case _ => false
  }

  lemma SameSlotsHoldTheSame(a: OrderState, b: OrderState, x: OrderMessage)
    requires SameSlots(a, b) && Holds(a, x)
    ensures Holds(b, x)
  {
    assert x in a.fulfillments ==> x in Elems(a.fulfillments);
    assert x in a.refunds ==> x in Elems(a.refunds);
    assert x in a.paymentsSent ==> x in Elems(a.paymentsSent);
  }

  lemma AbsorbedHolds(cfg: Config, om: OrderMessage, st: OrderState, a: set<OrderMessage>, x: OrderMessage)
    requires om.body.Open? && Absorbed(cfg, om, st, a) && PairsAgree(cfg, om.body.open, a)
    requires x in a && Counts(cfg, om.body.open, x)
    ensures Holds(st, x)
  {
    if SingleSlot(x.body) {
      var slot := SlotOf(st, x.body);
      assert slot.Some?;
      assert !Conflict(slot.value, x);
    }
  }

  lemma HoldsOn(a: OrderState, b: OrderState, x: OrderMessage)
    requires Extends(a, b) && Holds(a, x)
    ensures Holds(b, x)
  {
  }

  lemma StoredByStep(cfg: Config, ctx: Context, om: OrderMessage, row: Option<OrderState>, d: set<OrderMessage>,
                     x: OrderMessage, xs: seq<OrderMessage>)
    requires om.body.Open? && Settled(cfg, om, row, d) && Inv(row.value)
    requires x.orderID == om.orderID && (forall y <- d + {x} :: y.body.Open? ==> y.orderID == om.orderID)
    requires Counts(cfg, om.body.open, x) && Agree(cfg, om.body.open, d + {x})
    requires x.body.Fulfillment? ==> HasConfirmation(cfg, om.body.open, d)
    requires RetriesOf(cfg, ctx, row, x.signer, x, xs)
    ensures
      var row' := NextRow(cfg, om.orderID, row, Message(ctx, x.signer, x, xs));
      row'.Some? && Holds(row'.value, x)
  {
    var open := om.body.open;
    var mid := FirstPass(cfg, ctx, row, x.signer, x).st;
    SettledFirst(cfg, ctx, om, row, d, x);
    assert First(cfg, open, d, x) == Ready(cfg, open, d) + {x} <= d + {x};
    AgreeSubset(cfg, open, Ready(cfg, open, d) + {x}, d + {x});
    AbsorbedHolds(cfg, om, mid, Ready(cfg, open, d) + {x}, x);
    assert Process(cfg, ctx, row, x.signer, x, xs).st == Retry(cfg, ctx, mid, x.signer, x, xs).st;
    hide FirstPass, Retry, Process, Absorbed, Inv, Extends, Holds, Agree, RetriesOf;
    FirstPassKeeps(cfg, ctx, row, x.signer, x);
    RetryKeeps(cfg, ctx, mid, x.signer, x, xs);
    RetryKeepsRow(cfg, ctx, om, row, d, x, xs);
    HoldsOn(mid, Retry(cfg, ctx, mid, x.signer, x, xs).st, x);
  }

  lemma FirstPassKeeps(cfg: Config, ctx: Context, row: Option<OrderState>, peer: PeerID, m: OrderMessage)
    requires row.Some? && Inv(Loaded(row))
    ensures Inv(FirstPass(cfg, ctx, row, peer, m).st)
  {
    hide Verified, Inv;
    VerifiedKeeps(cfg, ctx, row.value, peer, m);
  }

  lemma RetryKeepsRow(cfg: Config, ctx: Context, om: OrderMessage, row: Option<OrderState>, d: set<OrderMessage>,
                      m: OrderMessage, xs: seq<OrderMessage>)
    requires om.body.Open? && Settled(cfg, om, row, d) && m.orderID == om.orderID
    requires forall x <- d + {m} :: x.body.Open? ==> x.orderID == om.orderID
    requires RetriesOf(cfg, ctx, row, m.signer, m, xs)
    requires FirstPass(cfg, ctx, row, m.signer, m).st.id == Some(om.orderID)
    requires Elems(FirstPass(cfg, ctx, row, m.signer, m).st.parked) <= d + {m}
    ensures NextRow(cfg, om.orderID, row, Message(ctx, m.signer, m, xs)) == Some(Process(cfg, ctx, row, m.signer, m, xs).st)
  {
    var mid := FirstPass(cfg, ctx, row, m.signer, m).st;
    hide FirstPass, Retry, Absorbed;
    SortKeepsElems(mid.parked, xs);
    assert forall x <- xs :: x in Elems(xs);
    RetryKeepsId(cfg, ctx, mid, m.signer, m, xs);
  }

  lemma Enumerate(ms: set<OrderMessage>) returns (xs: seq<OrderMessage>)
    ensures Elems(xs) == ms
  {
    xs := [];
    var rest := ms;
    while rest != {}
      invariant Elems(xs) + rest == ms
      decreases rest
    {
      var x :| x in rest;
      xs := xs + [x];
      rest := rest - {x};
    }
  }

  /** A run over exactly `ms` that goes on from the given one. */
  lemma PlayFrom(cfg: Config, om: OrderMessage, ms: set<OrderMessage>, evs: seq<Event>, ts: seq<Moment>)
    returns (evs': seq<Event>, ts': seq<Moment>)
    requires OfOrder(om, ms) && Course(cfg, om, evs, ts) && om in ts[|evs|].known && ts[|evs|].known <= ms
    ensures Over(cfg, om, evs', ts', ms) && evs <= evs' && ts <= ts'
  {
    hide Course;
    var rest := Enumerate(ms);
    assert forall x <- rest :: x in Elems(rest);
    CourseLength(cfg, om, evs, ts);
    evs', ts' := Play(cfg, om, evs, ts, rest);
  }

  /** A set diverges as soon as one run over it holds a message that counts and another does not. */
  lemma Differ(cfg: Config, om: OrderMessage, ms: set<OrderMessage>, evs: seq<Event>, ts: seq<Moment>,
               fvs: seq<Event>, us: seq<Moment>, y: OrderMessage)
    requires om.body.Open? && Over(cfg, om, evs, ts, ms) && Over(cfg, om, fvs, us, ms)
    requires y.body.Reject? ==> !AutoRejects(cfg, om.body.open)
    requires ts[|evs|].row.Some? && Holds(ts[|evs|].row.value, y)
    requires us[|fvs|].row.Some? && !Holds(us[|fvs|].row.value, y)
    ensures !ConvergesButForStamp(cfg, om, ms)
  {
    hide Fits, Then, Holds, SameButStamp, AutoRejects;
    DifferentRows(cfg, om, ts[|evs|].row.value, us[|fvs|].row.value, y);
    assert !SameRows(cfg, om, ts[|evs|].row, us[|fvs|].row);
  }

  lemma DifferentRows(cfg: Config, om: OrderMessage, a: OrderState, b: OrderState, y: OrderMessage)
    requires om.body.Open? && Holds(a, y) && !Holds(b, y) && (y.body.Reject? ==> !AutoRejects(cfg, om.body.open))
    ensures !SameButStamp(cfg, om, a, b)
  {
    if SameSlots(a, b.(reject := a.reject)) {
      SameSlotsHoldTheSame(a, b.(reject := a.reject), y);
    }
  }

  lemma LoneConflictFree(cfg: Config, om: OrderMessage, x: OrderMessage)
    requires om.body.Open? && !x.body.DisputeOpen? && !x.body.Fulfillment?
    ensures ConflictFree(cfg, om.body.open, {om, x})
  {
    NoFulfillmentsAgree(cfg, om.body.open, {om, x});
  }

  lemma NoFulfillmentsAgree(cfg: Config, open: OrderOpen, a: set<OrderMessage>)
    requires forall f <- a :: !f.body.Fulfillment?
    ensures ItemsAgree(cfg, open, a) && GatesAgree(cfg, open, a) && SignersAgree(cfg, open, a)
  {
  }

  lemma LoneState(cfg: Config, om: OrderMessage, st: OrderState, x: OrderMessage)
    requires om.body.Open? && x.orderID == om.orderID && Counts(cfg, om.body.open, x) && !x.body.Fulfillment?
    requires Absorbed(cfg, om, st, Ready(cfg, om.body.open, {om, x}))
    ensures Holds(st, x)
    ensures x.body.Cancel? ==> st.complete.None? && st.refunds == []
  {
    var open := om.body.open;
    var a := {om, x};
    var r := Ready(cfg, open, a);
    LoneConflictFree(cfg, om, x);
    assert x in r && r <= a;
    AgreeSubset(cfg, open, r, a);
    AbsorbedHolds(cfg, om, st, r, x);
    if x.body.Cancel? {
      MemberOrEmpty(st.refunds);
    }
  }

  lemma PayoutListedOnce(ms: seq<OrderMessage>, x: OrderMessage, y: OrderMessage)
    requires NoSharedPayouts(ms) && x in ms && x != y && SamePayout(x.body, y.body)
    ensures y !in ms
  {
    var i :| 0 <= i < |ms| && ms[i] == x;
    assert SamePayout(y.body, x.body);
  }

  lemma PaymentListedOnce(ms: seq<OrderMessage>, x: OrderMessage, y: OrderMessage)
    requires NoSharedPayments(ms) && x in ms && x != y && SamePayment(x.body, y.body)
    ensures y !in ms
  {
    var i :| 0 <= i < |ms| && ms[i] == x;
    assert SamePayment(y.body, x.body);
  }

  lemma ItemListedOnce(ms: seq<OrderMessage>, x: OrderMessage, y: OrderMessage)
    requires NoSharedItems(ms) && x in ms && x != y && SharesItem(x.body, y.body)
    ensures y !in ms
  {
    var i :| 0 <= i < |ms| && ms[i] == x;
    assert SharesItem(y.body, x.body);
  }

  lemma HoldsExcludes(st: OrderState, x: OrderMessage, y: OrderMessage)
    requires Inv(st) && Holds(st, x) && Conflict(x, y)
    requires x.body.Cancel? ==> st.complete.None? && st.refunds == []
    ensures !Holds(st, y)
  {
    hide NoSharedPayouts, NoSharedPayments, NoSharedItems;
    if x != y && SamePayout(x.body, y.body) {
      PayoutListedOnce(st.refunds, x, y);
    }
    if x != y && SamePayment(x.body, y.body) {
      PaymentListedOnce(st.paymentsSent, x, y);
    }
  }

  /** A run over `ms` that starts with the order and `x` holds `x` for good; after a lone cancel nothing else counts. */
  lemma RunStartingWith(cfg: Config, om: OrderMessage, ms: set<OrderMessage>, x: OrderMessage)
    returns (evs: seq<Event>, ts: seq<Moment>)
    requires OfOrder(om, ms) && x in ms
    requires Counts(cfg, om.body.open, x) && !x.body.Fulfillment?
    ensures Over(cfg, om, evs, ts, ms)
    ensures ts[|evs|].row.Some? && Holds(ts[|evs|].row.value, x) && Inv(ts[|evs|].row.value)
    ensures x.body.Cancel? ==> ts[|evs|].row.value.complete.None? && ts[|evs|].row.value.refunds == []
  {
    hide Fits, NextRow, Counts, Holds, Absorbed, Inv, Ready, ConflictFree, AutoRejects;
    WhatCounts(cfg, om.body.open, x);
    var ds1, ts1 := Opened(cfg, om, 0);
    var d := PlayOne(cfg, om, ds1, ts1, x, 0);
    var ds2, ts2 := ds1 + [d], ts1 + [Then(cfg, om, ts1[|ds1|], d)];
    assert ts2[2].known == {om, x};
    LoneConflictFree(cfg, om, x);
    SlotsAreAFunctionOfTheSet(cfg, om, ds2, ts2);
    LoneState(cfg, om, ts2[2].row.value, x);
    evs, ts := PlayFrom(cfg, om, ms, ds2, ts2);
    assert ts[2] == ts2[2];
    RunKeeps(cfg, om, evs, ts, 2);
    HoldsOn(ts[2].row.value, ts[|evs|].row.value, x);
  }

  /** Two messages that rule each other out: whichever arrives first wins. */
  lemma ConflictDiverges(cfg: Config, om: OrderMessage, ms: set<OrderMessage>, x: OrderMessage, y: OrderMessage)
    requires OfOrder(om, ms) && x in ms && y in ms
    requires Counts(cfg, om.body.open, x) && Counts(cfg, om.body.open, y) && Conflict(x, y)
    ensures !ConvergesButForStamp(cfg, om, ms)
  {
    NoFulfillments(x, y);
    WhatCounts(cfg, om.body.open, y);
    hide Holds, Inv, Fits, Then, Conflict, Counts, ConvergesButForStamp;
    var evs, ts := RunStartingWith(cfg, om, ms, x);
    var fvs, us := RunStartingWith(cfg, om, ms, y);
    HoldsExcludes(ts[|evs|].row.value, x, y);
    Differ(cfg, om, ms, fvs, us, evs, ts, y);
  }

  lemma WhatCounts(cfg: Config, open: OrderOpen, y: OrderMessage)
    requires Counts(cfg, open, y)
    ensures !y.body.DisputeOpen? && (y.body.Reject? ==> !AutoRejects(cfg, open))
  {
  }

  lemma NoFulfillments(x: OrderMessage, y: OrderMessage)
    requires Conflict(x, y)
    ensures !x.body.Fulfillment? && !y.body.Fulfillment?
  {
  }

  lemma ConfirmedAgree(cfg: Config, om: OrderMessage, c: OrderMessage, f: OrderMessage)
    requires om.body.Open? && IsConfirmation(cfg, om.body.open, c) && f.body.Fulfillment?
    ensures ConflictFree(cfg, om.body.open, {om, c})
    ensures HasConfirmation(cfg, om.body.open, {om, c})
    ensures Agree(cfg, om.body.open, {om, c} + {f})
  {
    hide HasConfirmation;
    assert HasConfirmation(cfg, om.body.open, {om, c}) by {
      ConfirmedBy(cfg, om.body.open, {om, c}, c);
    }
    NoFulfillmentsAgree(cfg, om.body.open, {om, c});
  }

  lemma ConfirmedBy(cfg: Config, open: OrderOpen, a: set<OrderMessage>, c: OrderMessage)
    requires c in a && IsConfirmation(cfg, open, c)
    ensures HasConfirmation(cfg, open, a)
  {
  }

  lemma SlotsSettle(cfg: Config, om: OrderMessage, evs: seq<Event>, ts: seq<Moment>)
    requires om.body.Open?
    requires Course(cfg, om, evs, ts) && om in ts[|evs|].known && ConflictFree(cfg, om.body.open, ts[|evs|].known)
    ensures Settled(cfg, om, ts[|evs|].row, ts[|evs|].known)
  {
    hide Fits, Then, ConflictFree, Settled, Waiting;
    RunFollows(cfg, om, evs, ts);
  }

  /** The order, then its confirmation. */
  lemma Confirmed(cfg: Config, om: OrderMessage, c: OrderMessage) returns (evs: seq<Event>, ts: seq<Moment>)
    requires om.body.Open?
    requires IsConfirmation(cfg, om.body.open, c) && c.orderID == om.orderID
    ensures Course(cfg, om, evs, ts) && |evs| == 2 && ts[2].known == {om, c}
    ensures Settled(cfg, om, ts[2].row, {om, c}) && Inv(Loaded(ts[2].row))
  {
    hide Fits, NextRow, Agree, ConflictFree, Inv, Settled, HasConfirmation, Counts;
    var none: OrderMessage := OrderMessage(om.orderID, Fulfillment([], 0), 0);
    ConfirmedAgree(cfg, om, c, none);
    var ds1, ts1 := Opened(cfg, om, 0);
    var d := PlayOne(cfg, om, ds1, ts1, c, 0);
    evs, ts := ds1 + [d], ts1 + [Then(cfg, om, ts1[|ds1|], d)];
    assert ts[2].known == {om, c};
    SlotsSettle(cfg, om, evs, ts);
    RunKeeps(cfg, om, evs, ts, 2);
  }

  /** A fulfilment delivered right after the confirmation is stored. */
  lemma ConfirmThenFulfill(cfg: Config, om: OrderMessage, ms: set<OrderMessage>, c: OrderMessage, f: OrderMessage)
    returns (evs: seq<Event>, ts: seq<Moment>)
    requires OfOrder(om, ms) && c in ms && f in ms
    requires IsConfirmation(cfg, om.body.open, c) && f.body.Fulfillment?
    ensures Over(cfg, om, evs, ts, ms)
    ensures ts[|evs|].row.Some? && Holds(ts[|evs|].row.value, f) && Inv(ts[|evs|].row.value)
  {
    hide Fits, NextRow, Holds, HasConfirmation, Agree, ConflictFree, Inv, Absorbed, RetriesOf, Settled;
    ConfirmedAgree(cfg, om, c, f);
    var ds2, ts2 := Confirmed(cfg, om, c);
    SettledHasRow(cfg, om, ts2[2].row, {om, c});
    var d := PlayOne(cfg, om, ds2, ts2, f, 0);
    var ds3, ts3 := ds2 + [d], ts2 + [Then(cfg, om, ts2[|ds2|], d)];
    StoredByStep(cfg, d.ctx, om, ts2[2].row, {om, c}, f, d.xs);
    evs, ts := PlayFrom(cfg, om, ms, ds3, ts3);
    assert ts[3] == ts3[3];
    RunKeeps(cfg, om, evs, ts, 3);
    HoldsOn(ts[3].row.value, ts[|evs|].row.value, f);
  }

  lemma SettledHasRow(cfg: Config, om: OrderMessage, row: Option<OrderState>, d: set<OrderMessage>)
    requires om.body.Open? && Settled(cfg, om, row, d)
    ensures row.Some?
  {
  }

  lemma SharedItemsDiverge(cfg: Config, om: OrderMessage, ms: set<OrderMessage>, c: OrderMessage, f: OrderMessage, g: OrderMessage)
    requires OfOrder(om, ms) && c in ms && f in ms && g in ms
    requires IsConfirmation(cfg, om.body.open, c) && f != g && SharesItem(f.body, g.body)
    ensures !ConvergesButForStamp(cfg, om, ms)
  {
    hide Fits, Then, ConvergesButForStamp, IsConfirmation, NoSharedItems;
    var evs, ts := ConfirmThenFulfill(cfg, om, ms, c, f);
    var fvs, us := ConfirmThenFulfill(cfg, om, ms, c, g);
    ItemListedOnce(ts[|evs|].row.value.fulfillments, f, g);
    Differ(cfg, om, ms, fvs, us, evs, ts, g);
  }

  /** Until the confirmation arrives, a fulfilment of another signer only waits; then the retry refuses it. */
  lemma ConfirmationLast(cfg: Config, ctx: Context, om: OrderMessage, row: Option<OrderState>, d: set<OrderMessage>,
                         c: OrderMessage, f: OrderMessage, xs: seq<OrderMessage>)
    requires om.body.Open? && Settled(cfg, om, row, d)
    requires forall x <- d + {c} :: x.orderID == om.orderID
    requires Agree(cfg, om.body.open, d + {c}) && c !in d
    requires IsConfirmation(cfg, om.body.open, c) && f.body.Fulfillment? && c.signer != f.signer
    requires RetriesOf(cfg, ctx, row, c.signer, c, xs)
    ensures
      var row' := NextRow(cfg, om.orderID, row, Message(ctx, c.signer, c, xs));
      row'.Some? && !Holds(row'.value, f)
  {
    hide Agree, FirstPass, Retry, Process, HasConfirmation, Taken, ConfirmationFirst, Ready, First, Absorbed, FulfillmentsParked,
         IsConfirmation, Holds;
    var open := om.body.open;
    var mid := FirstPass(cfg, ctx, row, c.signer, c).st;
    var a := First(cfg, open, d, c);
    SettledFirst(cfg, ctx, om, row, d, c);
    SortKeepsElems(mid.parked, xs);
    assert forall x <- xs :: x in Elems(xs);
    ConfirmationSets(cfg, open, d, c, f, xs);
    assert xs[..|xs|] == xs;
    RetryKeepsId(cfg, ctx, mid, c.signer, c, xs);
    RetryAbsorbs(cfg, ctx, om, mid, a, d + {c}, c.signer, c, xs, |xs|);
    NotAbsorbed(cfg, om, Retry(cfg, ctx, mid, c.signer, c, xs).st, a + Taken(cfg, open, d + {c}, c.signer, c, xs, |xs|), f);
    ProcessIsRetry(cfg, ctx, row, c.signer, c, xs);
  }

  lemma ProcessIsRetry(cfg: Config, ctx: Context, row: Option<OrderState>, peer: PeerID, m: OrderMessage, xs: seq<OrderMessage>)
    requires row.Some?
    ensures Process(cfg, ctx, row, peer, m, xs).st == Retry(cfg, ctx, FirstPass(cfg, ctx, row, peer, m).st, peer, m, xs).st
  {
    hide FirstPass, Retry;
  }

  /** What a new confirmation absorbs, before and after the retries, has no fulfilment of another signer. */
  lemma ConfirmationSets(cfg: Config, open: OrderOpen, d: set<OrderMessage>, c: OrderMessage, f: OrderMessage, xs: seq<OrderMessage>)
    requires Agree(cfg, open, d + {c}) && c !in d
    requires IsConfirmation(cfg, open, c) && f.body.Fulfillment? && c.signer != f.signer
    ensures
      var a := First(cfg, open, d, c);
      && a <= d + {c}
      && ConfirmationFirst(cfg, open, a, d + {c}, c.signer, c, xs)
      && f !in a + Taken(cfg, open, d + {c}, c.signer, c, xs, |xs|)
  {
    NoOtherConfirmation(cfg, open, d, c);
    assert c in First(cfg, open, d, c);
  }

  lemma NoOtherConfirmation(cfg: Config, open: OrderOpen, d: set<OrderMessage>, c: OrderMessage)
    requires PairsAgree(cfg, open, d + {c}) && c !in d && IsConfirmation(cfg, open, c)
    ensures !HasConfirmation(cfg, open, d)
  {
    forall x | x in d ensures !IsConfirmation(cfg, open, x) {
      assert x in d + {c} && c in d + {c};
      assert x.body.Confirmation? ==> Conflict(x, c);
    }
  }

  lemma NotAbsorbed(cfg: Config, om: OrderMessage, st: OrderState, a: set<OrderMessage>, f: OrderMessage)
    requires om.body.Open? && Absorbed(cfg, om, st, a) && f !in a && f.body.Fulfillment?
    ensures !Holds(st, f)
  {
  }

  lemma UnconfirmedPart(cfg: Config, om: OrderMessage, ms: set<OrderMessage>, c: OrderMessage)
    requires om.body.Open? && Agree(cfg, om.body.open, ms) && c in ms && IsConfirmation(cfg, om.body.open, c)
    ensures ConflictFree(cfg, om.body.open, ms - {c})
    ensures (ms - {c}) + {c} == ms
  {
    assert (ms - {c}) + {c} == ms;
    NoOtherConfirmation(cfg, om.body.open, ms - {c}, c);
    AgreeSubset(cfg, om.body.open, ms - {c}, ms);
  }

  /** A run in which the confirmation comes last never stores another signer's fulfilment. */
  lemma FulfillThenConfirm(cfg: Config, om: OrderMessage, ms: set<OrderMessage>, c: OrderMessage, f: OrderMessage)
    returns (fvs: seq<Event>, us: seq<Moment>)
    requires OfOrder(om, ms) && c in ms && f in ms
    requires Agree(cfg, om.body.open, ms)
    requires IsConfirmation(cfg, om.body.open, c) && f.body.Fulfillment? && c.signer != f.signer
    ensures Over(cfg, om, fvs, us, ms)
    ensures us[|fvs|].row.Some? && !Holds(us[|fvs|].row.value, f)
  {
    hide Fits, NextRow, Learned, Absorbed, ConflictFree, Agree, Holds, RetriesOf, Counts;
    var d := ms - {c};
    UnconfirmedPart(cfg, om, ms, c);
    var ds1, ts1 := Opened(cfg, om, 0);
    var evs, ts := PlayFrom(cfg, om, d, ds1, ts1);
    SlotsSettle(cfg, om, evs, ts);
    var last := PlayOne(cfg, om, evs, ts, c, 0);
    ConfirmationLast(cfg, last.ctx, om, ts[|evs|].row, d, c, f, last.xs);
    fvs, us := evs + [last], ts + [Then(cfg, om, ts[|evs|], last)];
  }

  lemma SignersDiverge(cfg: Config, om: OrderMessage, ms: set<OrderMessage>, c: OrderMessage, f: OrderMessage)
    requires OfOrder(om, ms) && c in ms && f in ms
    requires Agree(cfg, om.body.open, ms)
    requires IsConfirmation(cfg, om.body.open, c) && f.body.Fulfillment? && c.signer != f.signer
    ensures !ConvergesButForStamp(cfg, om, ms)
  {
    hide Fits, Then, ConvergesButForStamp, IsConfirmation, Holds, Agree;
    var evs, ts := ConfirmThenFulfill(cfg, om, ms, c, f);
    var fvs, us := FulfillThenConfirm(cfg, om, ms, c, f);
    Differ(cfg, om, ms, evs, ts, fvs, us, f);
  }

  // ---- a completion that waits behind a gate -------------------------------------------------------

  /** The completion is neither stored nor parked. */
  ghost predicate Out(row: Option<OrderState>, x: OrderMessage) {
    row.Some? && row.value.complete != Some(x) && x !in row.value.parked
  }

  lemma HandleKeepsOut(cfg: Config, ctx: Context, st: OrderState, peer: PeerID, m: OrderMessage, x: OrderMessage)
    requires Out(Some(st), x) && m != x
    ensures Out(Some(Handle(cfg, ctx, st, peer, m).st), x)
  {
    HandleKeepsBooks(cfg, ctx, st, peer, m);
    HandleCompletes(cfg, ctx, st, peer, m);
    hide Handle;
  }

  lemma HandleCompletes(cfg: Config, ctx: Context, st: OrderState, peer: PeerID, m: OrderMessage)
    ensures
      var st' := Handle(cfg, ctx, st, peer, m).st;
      st'.complete == st.complete || st'.complete == Some(m)
  {
    hide AfterAccept, Judge;
    var st0 := if m.body.Open? then st.(id := Some(m.orderID)) else st;
    if Judge(cfg, st0, m).Accept? {
      AcceptCompletes(cfg, ctx, st0, peer, m);
    }
  }

  lemma AcceptCompletes(cfg: Config, ctx: Context, st: OrderState, peer: PeerID, m: OrderMessage)
    requires Judge(cfg, st, m).Accept?
    ensures
      var st' := AfterAccept(cfg, ctx, st, peer, m).st;
      st'.complete == st.complete || st'.complete == Some(m)
  {
    hide Judge, AlreadyListed, IncomingPayment, RecordSpend;
    PartsKeepCompletion(cfg, ctx, st, m);
  }

  lemma PartsKeepCompletion(cfg: Config, ctx: Context, st: OrderState, m: OrderMessage)
    ensures forall id :: RecordSpend(ctx, st, id).complete == st.complete
    ensures forall id :: RecordSpend(ctx, Put(st, m), id).complete == Put(st, m).complete
    ensures forall tx :: IncomingPayment(cfg, ctx, Put(st, m), tx).st.complete == Put(st, m).complete
  {
    hide AlreadyListed, Insert, PaidFrom, IsFunded;
    NoticesKeepCompletion();
  }

  lemma NoticesKeepCompletion()
    ensures forall st: OrderState, m: OrderMessage :: m.body.PaymentSent? || m.body.RatingSignatures? ==> Insert(st, m).complete == st.complete
  {
  }

  lemma {:induction false} RetryKeepsOut(cfg: Config, ctx: Context, st: OrderState, peer: PeerID, m: OrderMessage,
                                         xs: seq<OrderMessage>, x: OrderMessage)
    requires Out(Some(st), x) && x !in xs
    ensures Out(Some(Retry(cfg, ctx, st, peer, m, xs).st), x)
  {
    hide Handle;
    if xs != [] {
      RetryKeepsOut(cfg, ctx, st, peer, m, xs[..|xs| - 1], x);
      HandleKeepsOut(cfg, ctx, Retry(cfg, ctx, st, peer, m, xs[..|xs| - 1]).st, peer, xs[|xs| - 1], x);
    }
  }

  lemma MessageKeepsOut(cfg: Config, om: OrderMessage, now: Moment, ev: Event, x: OrderMessage)
    requires Fits(cfg, om, now, ev) && ev.Message? && ev.m != x && Out(now.row, x)
    ensures Out(Then(cfg, om, now, ev).row, x)
  {
    hide Handle, Retry, Ordered;
    var mid := FirstPass(cfg, ev.ctx, now.row, ev.peer, ev.m).st;
    HandleKeepsOut(cfg, ev.ctx, now.row.value, ev.peer, ev.m, x);
    SortKeepsElems(mid.parked, ev.xs);
    assert forall y <- ev.xs :: y in Elems(ev.xs);
    assert x !in Elems(mid.parked);
    RetryKeepsOut(cfg, ev.ctx, mid, ev.peer, ev.m, ev.xs, x);
  }

  /** A completion that is out stays out while only other messages arrive. */
  lemma {:induction false} StaysOut(cfg: Config, om: OrderMessage, evs: seq<Event>, ts: seq<Moment>, n: nat, x: OrderMessage)
    requires Course(cfg, om, evs, ts) && n <= |evs| && Out(ts[n].row, x)
    requires forall i | n <= i < |evs| :: evs[i].Message? && evs[i].m != x
    ensures Out(ts[|evs|].row, x)
    decreases |evs|
  {
    hide Fits, Then, Out;
    if n < |evs| {
      var k := |evs| - 1;
      LastEvent(cfg, om, evs, ts);
      StaysOut(cfg, om, evs[..k], ts[..k + 1], n, x);
      MessageKeepsOut(cfg, om, ts[k], evs[k], x);
    }
  }

  lemma NothingParked(cfg: Config, om: OrderMessage, now: Moment, ev: Event)
    requires Fits(cfg, om, now, ev) && ev.Message? && ev.m.body.Complete?
    requires now.row.Some? && OpenOf(now.row.value).Some? && now.row.value.parked == []
    ensures Then(cfg, om, now, ev).row.Some? && Then(cfg, om, now, ev).row.value.parked == []
  {
    hide Handle, Retry, Ordered;
    HandleKeepsBooks(cfg, ev.ctx, now.row.value, ev.peer, ev.m);
    var mid := FirstPass(cfg, ev.ctx, now.row, ev.peer, ev.m).st;
    assert mid.parked == [];
    SortKeepsElems(mid.parked, ev.xs);
    NoneToRetry(ev.xs);
    assert Retry(cfg, ev.ctx, mid, ev.peer, ev.m, []).st == mid by {
      NoRetryFor(cfg, ev.ctx, mid, ev.peer, ev.m);
    }
  }

  /** The gated completion arrives right after the order and is lost. */
  lemma GatedFirst(cfg: Config, om: OrderMessage, ms: set<OrderMessage>, x: OrderMessage)
    returns (evs: seq<Event>, ts: seq<Moment>)
    requires OfOrder(om, ms) && x in ms && Gated(cfg, om.body.open, x)
    ensures Over(cfg, om, evs, ts, ms) && Out(ts[|evs|].row, x)
  {
    hide Fits, NextRow, Counts, Absorbed, Ready, ConflictFree, Learned;
    var ds1, ts1 := Opened(cfg, om, 0);
    var d := PlayOne(cfg, om, ds1, ts1, x, 0);
    var ds2, ts2 := ds1 + [d], ts1 + [Then(cfg, om, ts1[|ds1|], d)];
    assert ts2[2].known == {om, x};
    LastEvent(cfg, om, ds2, ts2);
    NothingParked(cfg, om, ts1[1], d);
    LoneConflictFree(cfg, om, x);
    SlotsAreAFunctionOfTheSet(cfg, om, ds2, ts2);
    GatedIsNotAbsorbed(cfg, om, ts2[2].row.value, Ready(cfg, om.body.open, {om, x}), x);
    var rest := Enumerate(ms - {x});
    assert forall y <- rest :: y in Elems(rest);
    evs, ts := Play(cfg, om, ds2, ts2, rest);
    assert ts[2] == ts2[2];
    StaysOut(cfg, om, evs, ts, 2, x);
  }

  lemma GatedIsNotAbsorbed(cfg: Config, om: OrderMessage, st: OrderState, a: set<OrderMessage>, x: OrderMessage)
    requires om.body.Open? && Absorbed(cfg, om, st, a) && Gated(cfg, om.body.open, x)
    ensures st.complete != Some(x)
  {
  }

  /** After the order, the confirmation and a fulfilment nothing but these is stored. */
  lemma FulfilledOrder(cfg: Config, om: OrderMessage, c: OrderMessage, f: OrderMessage)
    returns (evs: seq<Event>, ts: seq<Moment>, a: set<OrderMessage>)
    requires om.body.Open? && c.orderID == om.orderID && f.orderID == om.orderID
    requires IsConfirmation(cfg, om.body.open, c) && f.body.Fulfillment?
    ensures Course(cfg, om, evs, ts) && |evs| == 3 && ts[3].known == {om, c, f}
    ensures ts[3].row.Some? && Inv(ts[3].row.value) && f in ts[3].row.value.fulfillments
    ensures ts[3].row.value.id == Some(om.orderID) && Elems(ts[3].row.value.parked) <= {om, c, f}
    ensures a <= {om, c, f} && Absorbed(cfg, om, ts[3].row.value, a)
  {
    hide Fits, NextRow, Holds, HasConfirmation, Agree, ConflictFree, Inv, Absorbed, RetriesOf, Settled, IsConfirmation;
    ConfirmedAgree(cfg, om, c, f);
    var ds2, ts2 := Confirmed(cfg, om, c);
    SettledHasRow(cfg, om, ts2[2].row, {om, c});
    CountsAsConfirmation(cfg, om.body.open, c);
    var d := PlayOne(cfg, om, ds2, ts2, f, 0);
    evs, ts := ds2 + [d], ts2 + [Then(cfg, om, ts2[|ds2|], d)];
    StoredByStep(cfg, d.ctx, om, ts2[2].row, {om, c}, f, d.xs);
    a := AbsorbedByFulfilling(cfg, d.ctx, om, ts2[2].row, {om, c}, f, d.xs);
    assert {om, c} + {f} == {om, c, f};
    RunKeeps(cfg, om, evs, ts, 3);
    HeldFulfillment(ts[3].row.value, f);
  }

  lemma CountsAsConfirmation(cfg: Config, open: OrderOpen, c: OrderMessage)
    requires IsConfirmation(cfg, open, c)
    ensures c.body.Confirmation?
  {
  }

  lemma HeldFulfillment(st: OrderState, f: OrderMessage)
    requires f.body.Fulfillment? && Holds(st, f)
    ensures f in st.fulfillments
  {
  }

  lemma AbsorbedByFulfilling(cfg: Config, ctx: Context, om: OrderMessage, row: Option<OrderState>, d: set<OrderMessage>,
                             f: OrderMessage, xs: seq<OrderMessage>) returns (a: set<OrderMessage>)
    requires om.body.Open? && Settled(cfg, om, row, d) && HasConfirmation(cfg, om.body.open, d)
    requires f.orderID == om.orderID && (forall y <- d :: y.body.Open? ==> y.orderID == om.orderID)
    requires f.body.Fulfillment? && Agree(cfg, om.body.open, d + {f})
    requires RetriesOf(cfg, ctx, row, f.signer, f, xs)
    ensures
      var row' := NextRow(cfg, om.orderID, row, Message(ctx, f.signer, f, xs));
      && row'.Some? && row'.value.id == Some(om.orderID) && Elems(row'.value.parked) <= d + {f}
      && a <= d + {f} && Absorbed(cfg, om, row'.value, a)
  {
    hide FirstPass, Retry, Process, NextRow, Absorbed, Agree, Taken, Ready, HasConfirmation, ConfirmationFirst, SortOf, FulfillmentsParked;
    var open := om.body.open;
    var mid := FirstPass(cfg, ctx, row, f.signer, f).st;
    var b := Ready(cfg, open, d) + {f};
    SettledFirst(cfg, ctx, om, row, d, f);
    ConfirmedAlready(cfg, open, d, f, xs);
    SortKeepsElems(mid.parked, xs);
    assert xs[..|xs|] == xs;
    assert forall x <- xs :: x in Elems(xs);
    RetryKeepsRow(cfg, ctx, om, row, d, f, xs);
    RetryKeepsId(cfg, ctx, mid, f.signer, f, xs);
    RetryAbsorbs(cfg, ctx, om, mid, b, d + {f}, f.signer, f, xs, |xs|);
    a := b + Taken(cfg, open, d + {f}, f.signer, f, xs, |xs|);
    TakenIsPart(cfg, open, d + {f}, f.signer, f, xs);
    ProcessIsRetry(cfg, ctx, row, f.signer, f, xs);
  }

  lemma ConfirmedAlready(cfg: Config, open: OrderOpen, d: set<OrderMessage>, f: OrderMessage, xs: seq<OrderMessage>)
    requires HasConfirmation(cfg, open, d)
    ensures
      var b := Ready(cfg, open, d) + {f};
      First(cfg, open, d, f) == b <= d + {f} && ConfirmationFirst(cfg, open, b, d + {f}, f.signer, f, xs)
  {
    ReadyConfirmation(cfg, open, d);
    var c :| c in Ready(cfg, open, d) && IsConfirmation(cfg, open, c);
    assert c in Ready(cfg, open, d) + {f};
  }

  lemma TakenIsPart(cfg: Config, open: OrderOpen, d: set<OrderMessage>, peer: PeerID, m: OrderMessage, xs: seq<OrderMessage>)
    requires Elems(xs) <= d
    ensures Taken(cfg, open, d, peer, m, xs, |xs|) <= d
  {
    assert xs[..|xs|] == xs;
    assert forall x <- xs :: x in Elems(xs);
  }

  /** Behind the fulfilment the completion is stored. */
  lemma GatedLast(cfg: Config, om: OrderMessage, ms: set<OrderMessage>, c: OrderMessage, f: OrderMessage, x: OrderMessage)
    returns (evs: seq<Event>, ts: seq<Moment>)
    requires OfOrder(om, ms) && c in ms && f in ms && x in ms
    requires IsConfirmation(cfg, om.body.open, c) && f.body.Fulfillment?
    requires Gated(cfg, om.body.open, x) && ValidCompletion(cfg, om.body.open, x)
    ensures Over(cfg, om, evs, ts, ms)
    ensures ts[|evs|].row.Some? && ts[|evs|].row.value.complete == Some(x)
  {
    hide Fits, NextRow, Learned, Inv, Absorbed, RetriesOf, IsConfirmation, Gated;
    var ds3, ts3, a := FulfilledOrder(cfg, om, c, f);
    var d := PlayOne(cfg, om, ds3, ts3, x, 0);
    var ds4, ts4 := ds3 + [d], ts3 + [Then(cfg, om, ts3[|ds3|], d)];
    CountsAsConfirmation(cfg, om.body.open, c);
    GateOpens(cfg, d.ctx, om, ts3[3].row, a, f, x, d.xs);
    evs, ts := PlayFrom(cfg, om, ms, ds4, ts4);
    assert ts[4] == ts4[4];
    RunKeeps(cfg, om, evs, ts, 4);
  }

  lemma GateOpens(cfg: Config, ctx: Context, om: OrderMessage, row: Option<OrderState>, a: set<OrderMessage>,
                  f: OrderMessage, x: OrderMessage, xs: seq<OrderMessage>)
    requires om.body.Open? && row.Some? && Inv(row.value) && Absorbed(cfg, om, row.value, a) && f in row.value.fulfillments
    requires forall y <- a :: !y.body.Cancel? && !y.body.Complete?
    requires ValidCompletion(cfg, om.body.open, x) && x.orderID == om.orderID
    requires row.value.id == Some(om.orderID) && forall y <- Elems(row.value.parked) :: y.orderID == om.orderID
    requires RetriesOf(cfg, ctx, row, x.signer, x, xs)
    ensures
      var row' := NextRow(cfg, om.orderID, row, Message(ctx, x.signer, x, xs));
      row'.Some? && row'.value.complete == Some(x)
  {
    var st := row.value;
    assert st.complete.None? && st.cancel.None?;
    assert Judge(cfg, st, x).Accept?;
    var mid := st.(complete := Some(x));
    assert Handle(cfg, ctx, st, x.signer, x).st == mid;
    hide Handle, Retry, Absorbed, Inv, Extends, Ordered;
    assert FirstPass(cfg, ctx, row, x.signer, x).st == mid;
    SortKeepsElems(st.parked, xs);
    assert forall y <- xs :: y in Elems(xs);
    HandleKeeps(cfg, ctx, st, x.signer, x);
    RetryKeeps(cfg, ctx, mid, x.signer, x, xs);
    RetryKeepsId(cfg, ctx, mid, x.signer, x, xs);
    KeptCompletion(mid, Retry(cfg, ctx, mid, x.signer, x, xs).st, x);
  }

  lemma KeptCompletion(a: OrderState, b: OrderState, x: OrderMessage)
    requires Extends(a, b) && a.complete == Some(x)
    ensures b.complete == Some(x)
  {
  }

  /** A gated completion is lost or stored, depending on what came first. */
  lemma GatedDiverges(cfg: Config, om: OrderMessage, ms: set<OrderMessage>, c: OrderMessage, f: OrderMessage, x: OrderMessage)
    requires OfOrder(om, ms) && c in ms && f in ms && x in ms
    requires IsConfirmation(cfg, om.body.open, c) && f.body.Fulfillment?
    requires Gated(cfg, om.body.open, x) && ValidCompletion(cfg, om.body.open, x)
    ensures !ConvergesButForStamp(cfg, om, ms)
  {
    hide Fits, Then, ConvergesButForStamp, IsConfirmation, AutoRejects;
    var evs, ts := GatedLast(cfg, om, ms, c, f, x);
    var fvs, us := GatedFirst(cfg, om, ms, x);
    Differ(cfg, om, ms, evs, ts, fvs, us, x);
  }

  lemma ConflictFreeConverges(cfg: Config, om: OrderMessage, ms: set<OrderMessage>)
    requires OfOrder(om, ms) && ConflictFree(cfg, om.body.open, ms)
    ensures ConvergesButForStamp(cfg, om, ms)
  {
    hide Fits, Then, ConflictFree, SameRows;
    forall evs: seq<Event>, ts: seq<Moment>, fvs: seq<Event>, us: seq<Moment> | Over(cfg, om, evs, ts, ms) && Over(cfg, om, fvs, us, ms)
      ensures SameRows(cfg, om, ts[|evs|].row, us[|fvs|].row)
    {
      SameMessagesSameSlots(cfg, om, evs, ts, fvs, us);
    }
  }

  lemma NotConflictFreeDiverges(cfg: Config, om: OrderMessage, ms: set<OrderMessage>)
    requires OfOrder(om, ms) && Undisputed(om.body.open, ms) && !ConflictFree(cfg, om.body.open, ms)
    ensures !ConvergesButForStamp(cfg, om, ms)
  {
    var open := om.body.open;
    hide ConvergesButForStamp, Conflict, Counts, SharesItem, Gated, ValidCompletion;
    if !PairsAgree(cfg, open, ms) {
      var x, y :| x in ms && y in ms && Counts(cfg, open, x) && Counts(cfg, open, y) && Conflict(x, y);
      ConflictDiverges(cfg, om, ms, x, y);
    } else if !ItemsAgree(cfg, open, ms) {
      var c :| c in ms && IsConfirmation(cfg, open, c);
      var f, g :| f in ms && g in ms && f != g && SharesItem(f.body, g.body);
      SharedItemsDiverge(cfg, om, ms, c, f, g);
    } else if !GatesAgree(cfg, open, ms) {
      var c :| c in ms && IsConfirmation(cfg, open, c);
      var x, f :| x in ms && f in ms && f.body.Fulfillment? && Gated(cfg, open, x) && ValidCompletion(cfg, open, x);
      GatedDiverges(cfg, om, ms, c, f, x);
    } else {
      assert !SignersAgree(cfg, open, ms);
      var c, f :| c in ms && f in ms && IsConfirmation(cfg, open, c) && f.body.Fulfillment? && c.signer != f.signer;
      SignersDiverge(cfg, om, ms, c, f);
    }
  }

  /** Up to the time of a reject the node wrote itself, arrival order is immaterial for exactly the conflict-free sets. */
  lemma ConvergesUpToStampExactly(cfg: Config, om: OrderMessage, ms: set<OrderMessage>)
    requires OfOrder(om, ms) && Undisputed(om.body.open, ms)
    ensures ConvergesButForStamp(cfg, om, ms) <==> ConflictFree(cfg, om.body.open, ms)
  {
    hide ConvergesButForStamp, ConflictFree;
    if ConflictFree(cfg, om.body.open, ms) {
      ConflictFreeConverges(cfg, om, ms);
    } else {
      NotConflictFreeDiverges(cfg, om, ms);
    }
  }

  /** A node that rejects the order itself stores a different reject at every other time. */
  lemma OwnRejectsDiffer(cfg: Config, om: OrderMessage, ms: set<OrderMessage>)
    requires OfOrder(om, ms) && AutoRejects(cfg, om.body.open)
    ensures !Converges(cfg, om, ms)
  {
    hide Fits, Then, Inv, AutoRejects;
    var evs, ts := OpenedAt(cfg, om, ms, 0);
    var fvs, us := OpenedAt(cfg, om, ms, 1);
    assert AutoReject(cfg, om.orderID, 0).body.stamp != AutoReject(cfg, om.orderID, 1).body.stamp;
    assert !Equal(ts[|evs|].row, us[|fvs|].row);
  }

  /** A run over the set in which the order arrives at the given time. */
  lemma OpenedAt(cfg: Config, om: OrderMessage, ms: set<OrderMessage>, stamp: nat) returns (evs: seq<Event>, ts: seq<Moment>)
    requires OfOrder(om, ms) && AutoRejects(cfg, om.body.open)
    ensures Over(cfg, om, evs, ts, ms)
    ensures ts[|evs|].row.Some? && ts[|evs|].row.value.reject == Some(AutoReject(cfg, om.orderID, stamp))
  {
    hide Fits, Then, Inv, AutoRejects;
    var ds, ts1 := Opened(cfg, om, stamp);
    evs, ts := PlayFrom(cfg, om, ms, ds, ts1);
    assert ts[1] == ts1[1];
    RunKeeps(cfg, om, evs, ts, 1);
  }

  /** Every two runs agree for exactly the conflict-free sets of an order this node does not reject itself. */
  lemma ConvergesExactly(cfg: Config, om: OrderMessage, ms: set<OrderMessage>)
    requires OfOrder(om, ms) && Undisputed(om.body.open, ms)
    ensures Converges(cfg, om, ms) <==> ConflictFree(cfg, om.body.open, ms) && !AutoRejects(cfg, om.body.open)
  {
    hide ConflictFree, AutoRejects, Over, SameSlots, RejectsItself;
    ConvergesUpToStampExactly(cfg, om, ms);
    if AutoRejects(cfg, om.body.open) {
      OwnRejectsDiffer(cfg, om, ms);
    } else {
      NoStampNoDifference(cfg, om, ms);
    }
  }

  lemma NoStampNoDifference(cfg: Config, om: OrderMessage, ms: set<OrderMessage>)
    requires om.body.Open? && !AutoRejects(cfg, om.body.open)
    ensures Converges(cfg, om, ms) <==> ConvergesButForStamp(cfg, om, ms)
  {
    hide Converges, ConvergesButForStamp;
    if Converges(cfg, om, ms) {
      EqualIsSame(cfg, om, ms);
    }
    if ConvergesButForStamp(cfg, om, ms) {
      SameIsEqual(cfg, om, ms);
    }
  }

  lemma EqualIsSame(cfg: Config, om: OrderMessage, ms: set<OrderMessage>)
    requires om.body.Open? && !AutoRejects(cfg, om.body.open) && Converges(cfg, om, ms)
    ensures ConvergesButForStamp(cfg, om, ms)
  {
    hide Fits, Then, SameRows, Equal, AutoRejects;
    forall evs: seq<Event>, ts: seq<Moment>, fvs: seq<Event>, us: seq<Moment> | Over(cfg, om, evs, ts, ms) && Over(cfg, om, fvs, us, ms)
      ensures SameRows(cfg, om, ts[|evs|].row, us[|fvs|].row)
    {
      SameRowsAreEqual(cfg, om, ts[|evs|].row, us[|fvs|].row);
    }
  }

  lemma SameIsEqual(cfg: Config, om: OrderMessage, ms: set<OrderMessage>)
    requires om.body.Open? && !AutoRejects(cfg, om.body.open) && ConvergesButForStamp(cfg, om, ms)
    ensures Converges(cfg, om, ms)
  {
    hide Fits, Then, SameRows, Equal, AutoRejects;
    forall evs: seq<Event>, ts: seq<Moment>, fvs: seq<Event>, us: seq<Moment> | Over(cfg, om, evs, ts, ms) && Over(cfg, om, fvs, us, ms)
      ensures Equal(ts[|evs|].row, us[|fvs|].row)
    {
      SameRowsAreEqual(cfg, om, ts[|evs|].row, us[|fvs|].row);
    }
  }

  lemma SameRowsAreEqual(cfg: Config, om: OrderMessage, a: Option<OrderState>, b: Option<OrderState>)
    requires om.body.Open? && !AutoRejects(cfg, om.body.open)
    ensures SameRows(cfg, om, a, b) <==> Equal(a, b)
  {
    hide SameButStamp, SameSlots, AutoRejects;
    if a.Some? && b.Some? {
      SameStamp(cfg, om, a.value, b.value);
    }
  }

  lemma SameStamp(cfg: Config, om: OrderMessage, a: OrderState, b: OrderState)
    requires om.body.Open? && !AutoRejects(cfg, om.body.open)
    ensures SameButStamp(cfg, om, a, b) <==> SameSlots(a, b)
  {
    if a.reject == b.reject {
      assert b.(reject := a.reject) == b;
    }
  }
}
