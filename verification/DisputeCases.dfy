/**
 A moderator's case: one party's DISPUTE_OPEN carries its contract, the other's DISPUTE_UPDATE answers
 with its own, and the two may arrive in either order and more than once.
 */
module DisputeCases {
  import opened Common

  type Contract = nat

  datatype Party = Buyer | Vendor

  datatype Message = Open(opener: Party, contract: Contract) | Update(contract: Contract)

  /** One row of the cases table; `openedBy` stands for the stored DISPUTE_OPEN without its contract. */
  datatype CaseState = CaseState(buyer: Option<Contract>, vendor: Option<Contract>, openedBy: Option<Party>, parked: Option<Contract>)

  const BLANK := CaseState(None, None, None, None)

  /** The opener's contract goes into its own slot, a parked update into the other one. */
  function Opened(st: CaseState, opener: Party, contract: Contract): CaseState {
    if opener.Buyer? then
      CaseState(Some(contract), if st.parked.Some? then st.parked else st.vendor, Some(opener), None)
    else
      CaseState(if st.parked.Some? then st.parked else st.buyer, Some(contract), Some(opener), None)
  }

  /** A message the case refuses leaves the saved row alone. */
  function Next(st: CaseState, m: Message): CaseState {
    match m
    case Open(opener, contract) => if st.openedBy.Some? then st else Opened(st, opener, contract)
    case Update(contract) =>
      if st.openedBy.None? then st.(parked := Some(contract))
      else if st.openedBy.value.Buyer? then if st.vendor.Some? then st else st.(vendor := Some(contract))
      else if st.buyer.Some? then st else st.(buyer := Some(contract))
  }

  function Run(ms: seq<Message>): CaseState {
    if ms == [] then BLANK else Next(Run(ms[..|ms| - 1]), ms[|ms| - 1])
  }

  class Case {
    var buyerContract: Option<Contract>
    var vendorContract: Option<Contract>
    var disputeOpen: Option<Party>
    var parkedUpdate: Option<Contract>

    constructor ()
      ensures State() == BLANK
    {
      buyerContract, vendorContract, disputeOpen, parkedUpdate := None, None, None, None;
    }

    function State(): CaseState
      reads this
    {
      CaseState(buyerContract, vendorContract, disputeOpen, parkedUpdate)
    }

    /** Overwrites whatever was opened before. */
    method PutDisputeOpen(opener: Party, contract: Contract)
      modifies this
      ensures State() == Opened(old(State()), opener, contract)
    {
      if opener == Buyer {
        buyerContract := Some(contract);
      } else {
        vendorContract := Some(contract);
      }
      disputeOpen := Some(opener);
      if parkedUpdate.Some? {
        if opener == Buyer {
          vendorContract := parkedUpdate;
          parkedUpdate := None;
        } else {
          buyerContract := parkedUpdate;
          parkedUpdate := None;
        }
      }
    }

    /** The moderator's handler refuses a second opening before it gets there. */
    method ReceiveDisputeOpen(opener: Party, contract: Contract) returns (ok: bool)
      modifies this
      ensures ok == old(disputeOpen).None?
      ensures State() == Next(old(State()), Open(opener, contract))
    {
      if disputeOpen.Some? {
        return false;
      }
      PutDisputeOpen(opener, contract);
      ok := true;
    }

    method PutDisputeUpdate(contract: Contract) returns (ok: bool)
      modifies this
      ensures State() == Next(old(State()), Update(contract))
      ensures !ok ==> State() == old(State())
      ensures ok <==>
        old(disputeOpen) == None || (if old(disputeOpen) == Some(Buyer) then old(vendorContract) else old(buyerContract)) == None
    {
      ok := true;
      if disputeOpen.None? {
        parkedUpdate := Some(contract);
      } else if disputeOpen.value == Buyer {
        if vendorContract.Some? {
          return false;
        }
        vendorContract := Some(contract);
      } else {
        if buyerContract.Some? {
          return false;
        }
        buyerContract := Some(contract);
      }
    }
  }

  /** Where a case ends once it has the opening message and the one update. */
  function Complete(opener: Party, own: Contract, answer: Contract): CaseState {
    if opener.Buyer? then CaseState(Some(own), Some(answer), Some(opener), None)
    else CaseState(Some(answer), Some(own), Some(opener), None)
  }

  /** Where it stands with only some of the two. */
  function Partial(open: Message, update: Message, ms: seq<Message>): CaseState
    requires open.Open? && update.Update?
  {
    if open in ms && update in ms then Complete(open.opener, open.contract, update.contract)
    else if open in ms then
      (if open.opener.Buyer? then CaseState(Some(open.contract), None, Some(Buyer), None)
       else CaseState(None, Some(open.contract), Some(Vendor), None))
    else if update in ms then CaseState(None, None, None, Some(update.contract))
    else BLANK
  }

  /** One opening message and one update, in any order and with any repeats. */
  lemma {:induction false} OpenAndUpdateCommute(open: Message, update: Message, ms: seq<Message>)
    requires open.Open? && update.Update? && forall m <- ms :: m == open || m == update
    ensures Run(ms) == Partial(open, update, ms)
  {
    if ms != [] {
      var init, last := ms[..|ms| - 1], ms[|ms| - 1];
      OneMore(ms, open);
      OneMore(ms, update);
      OneMore(ms, last);
      forall m | m in init ensures m == open || m == update {
        OneMore(ms, m);
      }
      OpenAndUpdateCommute(open, update, init);
    }
  }

  lemma OneMore(ms: seq<Message>, m: Message)
    requires ms != []
    ensures m in ms <==> m in ms[..|ms| - 1] || m == ms[|ms| - 1]
  {
    assert ms == ms[..|ms| - 1] + [ms[|ms| - 1]];
  }

  /** Every arrival order of the two ends with both contracts in place and nothing parked. */
  lemma BothArrived(open: Message, update: Message, ms: seq<Message>, ns: seq<Message>)
    requires open.Open? && update.Update?
    requires (forall m <- ms :: m == open || m == update) && (forall m <- ns :: m == open || m == update)
    requires open in ms && update in ms && open in ns && update in ns
    ensures Run(ms) == Run(ns) == Complete(open.opener, open.contract, update.contract)
    ensures
      var st := Run(ms);
      && st.openedBy == Some(open.opener) && st.parked == None
      && (if open.opener.Buyer? then st.buyer == Some(open.contract) && st.vendor == Some(update.contract)
          else st.vendor == Some(open.contract) && st.buyer == Some(update.contract))
  {
    OpenAndUpdateCommute(open, update, ms);
    OpenAndUpdateCommute(open, update, ns);
  }

  // ---- which sets of messages make the same case in every order ------------------------------------------

  /** Every way to receive exactly these messages, with any repeats, makes the same case. */
  ghost predicate Converges(s: set<Message>) {
    forall ms, ns :: Elems(ms) == s && Elems(ns) == s ==> Run(ms) == Run(ns)
  }

  predicate OneOfEach(s: set<Message>) {
    && (forall x <- s, y <- s :: x.Open? && y.Open? ==> x == y)
    && (forall x <- s, y <- s :: x.Update? && y.Update? ==> x == y)
  }

  /** The first opening stays. */
  lemma {:induction false} FirstOpeningStays(open: Message, ms: seq<Message>)
    requires open.Open?
    ensures
      var st := Run([open] + ms);
      st.openedBy == Some(open.opener) && (if open.opener.Buyer? then st.buyer else st.vendor) == Some(open.contract)
  {
    Unsnoc([open], ms);
    if ms != [] {
      FirstOpeningStays(open, ms[..|ms| - 1]);
    } else {
      Snoc([], open);
    }
  }

  /** Behind an opening the first update stays. */
  lemma {:induction false} FirstUpdateStays(open: Message, u: Message, ms: seq<Message>)
    requires open.Open? && u.Update?
    ensures Run([open, u] + ms) == Complete(open.opener, open.contract, u.contract)
  {
    Unsnoc([open, u], ms);
    if ms != [] {
      FirstUpdateStays(open, u, ms[..|ms| - 1]);
    } else {
      Snoc([], open);
      Snoc([open], u);
      assert [open] + [u] == [open, u];
    }
  }

  /** Two different updates do depend on the order: parked, the last one wins; afterwards the first one does. */
  lemma TwoUpdatesDoNot(open: Message, u: Message, v: Message)
    requires open.Open? && u.Update? && v.Update? && u != v
    ensures Run([u, v, open]) != Run([open, u, v])
  {
    FirstUpdateStays(open, u, [v]);
    LastUpdateWaits(v, [u]);
    Snoc([u, v], open);
    assert [open, u, v] == [open, u] + [v] && [u, v] == [u] + [v] && [u, v, open] == [u, v] + [open];
  }

  /** Without an opening the last update is the parked one. */
  lemma {:induction false} LastUpdateWaits(u: Message, ms: seq<Message>)
    requires u.Update? && forall m <- ms :: m.Update?
    ensures Run(ms + [u]) == BLANK.(parked := Some(u.contract))
    decreases |ms|
  {
    Snoc(ms, u);
    if ms != [] {
      var init, last := ms[..|ms| - 1], ms[|ms| - 1];
      assert ms == init + [last] && last in ms;
      forall m | m in init ensures m.Update? {
        OneMore(ms, m);
      }
      LastUpdateWaits(last, init);
    }
  }

  lemma {:induction false} Listing(s: set<Message>) returns (ms: seq<Message>)
    ensures Elems(ms) == s
  {
    if s == {} {
      return [];
    }
    var x :| x in s;
    var rest := Listing(s - {x});
    ms := [x] + rest;
    assert forall y :: y in ms <==> y == x || y in rest;
    assert forall y :: y in rest <==> y in Elems(rest);
  }

  lemma PutFirst(first: seq<Message>, ms: seq<Message>)
    requires forall x <- first :: x in ms
    ensures Elems(first + ms) == Elems(ms) == Elems(ms + first)
  {
    assert forall x :: x in first + ms <==> x in ms;
    assert forall x :: x in ms + first <==> x in ms;
  }

  lemma TwoOpeningsDiverge(s: set<Message>, o: Message, p: Message)
    requires o in s && p in s && o.Open? && p.Open? && o != p
    ensures !Converges(s)
  {
    var ms := Listing(s);
    assert forall x :: x in ms <==> x in Elems(ms);
    PutFirst([o], ms);
    PutFirst([p], ms);
    FirstOpeningStays(o, ms);
    FirstOpeningStays(p, ms);
  }

  lemma TwoUpdatesDiverge(s: set<Message>, u: Message, v: Message)
    requires u in s && v in s && u.Update? && v.Update? && u != v
    ensures !Converges(s)
  {
    var ms := Listing(s);
    assert forall x :: x in ms <==> x in Elems(ms);
    if o :| o in s && o.Open? {
      PutFirst([o, u], ms);
      PutFirst([o, v], ms);
      FirstUpdateStays(o, u, ms);
      FirstUpdateStays(o, v, ms);
    } else {
      PutFirst([u], ms);
      PutFirst([v], ms);
      LastUpdateWaits(u, ms);
      LastUpdateWaits(v, ms);
    }
  }

  lemma OneOfEachConverges(s: set<Message>, ms: seq<Message>, ns: seq<Message>)
    requires OneOfEach(s) && Elems(ms) == s && Elems(ns) == s
    ensures Run(ms) == Run(ns)
  {
    var o := if x :| x in s && x.Open? then x else Open(Buyer, 0);
    var u := if x :| x in s && x.Update? then x else Update(0);
    forall m ensures m in ms <==> m in s {
      assert m in ms <==> m in Elems(ms);
    }
    forall m ensures m in ns <==> m in s {
      assert m in ns <==> m in Elems(ns);
    }
    OpenAndUpdateCommute(o, u, ms);
    OpenAndUpdateCommute(o, u, ns);
  }

  /** The case does not depend on the order exactly when no two openings and no two updates differ. */
  lemma CaseConvergesExactly(s: set<Message>)
    ensures Converges(s) <==> OneOfEach(s)
  {
    if OneOfEach(s) {
      forall ms, ns | Elems(ms) == s && Elems(ns) == s ensures Run(ms) == Run(ns) {
        OneOfEachConverges(s, ms, ns);
      }
    } else if x, y :| x in s && y in s && x.Open? && y.Open? && x != y {
      TwoOpeningsDiverge(s, x, y);
    } else {
      var u, v :| u in s && v in s && u.Update? && v.Update? && u != v;
      TwoUpdatesDiverge(s, u, v);
    }
  }

  lemma Snoc(ms: seq<Message>, m: Message)
    ensures Run(ms + [m]) == Next(Run(ms), m)
  {
    assert (ms + [m])[..|ms|] == ms;
  }

  lemma Unsnoc(first: seq<Message>, ms: seq<Message>)
    ensures Run(first + ms) == if ms == [] then Run(first) else Next(Run(first + ms[..|ms| - 1]), ms[|ms| - 1])
  {
    hide Run, Next;
    if ms == [] {
      assert first + ms == first;
    } else {
      assert first + ms == (first + ms[..|ms| - 1]) + [ms[|ms| - 1]];
      Snoc(first + ms[..|ms| - 1], ms[|ms| - 1]);
    }
  }
}
