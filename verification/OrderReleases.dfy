/**
 The coins a cancellation or confirmation releases are never selected again: in every run, the release such
 a message reports is in the row's transactions from the moment the message is stored.
 */
module OrderReleases {
  import opened Common
  import opened OrderModel
  import opened OrderRules
  import opened OrderInvariants
  import opened OrderConvergence
  import opened OrderPayments
  import opened OrderMessaging
  import opened OrderLaws

  /** The message just entered its slot. */
  ghost predicate Gained(st: OrderState, st': OrderState, x: OrderMessage) {
    || (st.cancel.None? && st'.cancel == Some(x))
    || (st.confirmation.None? && st'.confirmation == Some(x))
  }

  /** It reports a release: the wallet knows a transaction under its ID that spends from the order's address. */
  ghost predicate Releases(ctx: Context, open: OrderOpen, x: OrderMessage, txid: TxID) {
    && open.terms.Cancelable?
    && (x.body.Cancel? || x.body.Confirmation?) && x.body.txid == Some(txid)
    && txid in ctx.wallet && Spends(ctx.wallet[txid].from, open.address)
  }

  /** Every release reported by what was gained is among the transactions. */
  ghost predicate Booked(ctx: Context, st: OrderState, st': OrderState) {
    forall x, txid ::
      OpenOf(st').Some? && Gained(st, st', x) && Releases(ctx, OpenOf(st').value, x, txid) ==> Recorded(st'.transactions, txid)
  }

  lemma RecordedStays(txs: seq<Transaction>, txs': seq<Transaction>, txid: TxID)
    requires txs <= txs' && Recorded(txs, txid)
    ensures Recorded(txs', txid)
  {
    var tx :| tx in txs && tx.id == txid;
    assert tx in txs';
  }

  lemma BookedTransitive(ctx: Context, a: OrderState, b: OrderState, c: OrderState)
    requires Booked(ctx, a, b) && Booked(ctx, b, c) && Extends(a, b) && Extends(b, c) && Inv(b) && Inv(c)
    ensures Booked(ctx, a, c)
  {
    hide Releases, Recorded, Lists;
    forall x, txid | OpenOf(c).Some? && Gained(a, c, x) && Releases(ctx, OpenOf(c).value, x, txid)
      ensures Recorded(c.transactions, txid)
    {
      if !Gained(b, c, x) {
        assert Gained(a, b, x) && OpenOf(b) == OpenOf(c);
        RecordedStays(b.transactions, c.transactions, txid);
      }
    }
  }

  lemma NothingGained(ctx: Context, st: OrderState, st': OrderState)
    requires st'.cancel == st.cancel && st'.confirmation == st.confirmation
    ensures Booked(ctx, st, st')
  {
  }

  lemma HandleBooks(cfg: Config, ctx: Context, st: OrderState, peer: PeerID, m: OrderMessage)
    requires Inv(st)
    ensures Booked(ctx, st, Handle(cfg, ctx, st, peer, m).st)
  {
    hide Handle, Lists;
    var st' := Handle(cfg, ctx, st, peer, m).st;
    if st.open.None? || (!m.body.Cancel? && !m.body.Confirmation?) {
      AnswersStay(cfg, ctx, st, peer, m);
      NothingGained(ctx, st, st');
    } else if Shelf(st, m.body).Some? {
      CopiesAndChanges(cfg, ctx, st, peer, m);
      NothingGained(ctx, st, st');
    } else if m.body.Confirmation? && st.reject.Some? {
      OutOfTurn(cfg, ctx, st, peer, m);
      NothingGained(ctx, st, st');
    } else {
      AnswerRecordsRelease(cfg, ctx, st, peer, m);
      AnswerBooks(ctx, st, st', m);
    }
  }

  lemma AnswersStay(cfg: Config, ctx: Context, st: OrderState, peer: PeerID, m: OrderMessage)
    requires Exclusions(st) && (st.open.None? || (!m.body.Cancel? && !m.body.Confirmation?))
    ensures
      var st' := Handle(cfg, ctx, st, peer, m).st;
      st'.cancel == st.cancel && st'.confirmation == st.confirmation
  {
    if st.open.None? && !m.body.Open? {
      WaitingHandle(cfg, ctx, st, peer, m);
    } else if st.open.None? {
      OrderOpens(cfg, ctx, st, peer, m);
    } else {
      OtherMessages(cfg, ctx, st, peer, m);
    }
    hide Handle;
  }

  lemma OtherMessages(cfg: Config, ctx: Context, st: OrderState, peer: PeerID, m: OrderMessage)
    requires !m.body.Cancel? && !m.body.Confirmation?
    ensures SameAnswers(st, Handle(cfg, ctx, st, peer, m).st)
  {
    hide AfterAccept, Judge;
    var st0 := if m.body.Open? then st.(id := Some(m.orderID)) else st;
    if Judge(cfg, st0, m).Accept? {
      OtherAccepted(cfg, ctx, st0, peer, m);
    }
  }

  ghost predicate SameAnswers(a: OrderState, b: OrderState) {
    b.cancel == a.cancel && b.confirmation == a.confirmation
  }

  lemma OtherAccepted(cfg: Config, ctx: Context, st: OrderState, peer: PeerID, m: OrderMessage)
    requires !m.body.Cancel? && !m.body.Confirmation? && Judge(cfg, st, m).Accept?
    ensures SameAnswers(st, AfterAccept(cfg, ctx, st, peer, m).st)
  {
    hide Judge, AlreadyListed, IncomingPayment, RecordSpend;
    PutKeepsAnswers(st, m);
    PutKeepsAnswers(st, ContractNotice(cfg, ctx, st));
    PutKeepsAnswers(Put(st, ContractNotice(cfg, ctx, st)), m);
    PartsKeepAnswers(cfg, ctx, Put(st, m));
    hide Put;
  }

  lemma PutKeepsAnswers(st: OrderState, m: OrderMessage)
    requires !m.body.Cancel? && !m.body.Confirmation?
    ensures SameAnswers(st, Put(st, m))
  {
    hide AlreadyListed;
  }

  lemma PartsKeepAnswers(cfg: Config, ctx: Context, st: OrderState)
    ensures forall id :: SameAnswers(st, RecordSpend(ctx, st, id))
    ensures forall tx :: SameAnswers(st, IncomingPayment(cfg, ctx, st, tx).st)
  {
    hide AlreadyListed, PaidFrom, IsFunded;
  }

  lemma AnswerBooks(ctx: Context, st: OrderState, st': OrderState, m: OrderMessage)
    requires OpenOf(st).Some? && OpenOf(st') == OpenOf(st) && (m.body.Cancel? || m.body.Confirmation?)
    requires forall x :: Gained(st, st', x) ==> x == m
    requires (exists x :: Gained(st, st', x)) && OpenOf(st).value.terms.Cancelable? && m.body.txid.Some? ==>
      st'.transactions == WithSpend(ctx, st.transactions, m.body.txid.value, OpenOf(st).value.address)
    ensures Booked(ctx, st, st')
  {
    forall x, txid | Gained(st, st', x) && Releases(ctx, OpenOf(st').value, x, txid) ensures Recorded(st'.transactions, txid) {
      var tx := Transaction(txid, ctx.wallet[txid].from, ctx.wallet[txid].to);
      assert st'.transactions == With(st.transactions, tx);
      assert !Recorded(st.transactions, txid) ==> tx in st'.transactions;
    }
  }

  lemma {:induction false} RetryBooks(cfg: Config, ctx: Context, st: OrderState, peer: PeerID, m: OrderMessage, xs: seq<OrderMessage>)
    requires Inv(st)
    ensures
      var st' := Retry(cfg, ctx, st, peer, m, xs).st;
      Booked(ctx, st, st') && Inv(st') && Extends(st, st')
  {
    RetryKeeps(cfg, ctx, st, peer, m, xs);
    hide Handle, Inv, Extends, Booked;
    if xs == [] {
      NothingGained(ctx, st, st);
    } else {
      var mid := Retry(cfg, ctx, st, peer, m, xs[..|xs| - 1]).st;
      var x := xs[|xs| - 1];
      RetryBooks(cfg, ctx, st, peer, m, xs[..|xs| - 1]);
      RetryOneBooks(cfg, ctx, mid, peer, m, x);
      RetryOneKeeps(cfg, ctx, mid, peer, m, x);
      BookedTransitive(ctx, st, mid, RetryOne(cfg, ctx, mid, peer, m, x).st);
    }
  }

  lemma RetryOneBooks(cfg: Config, ctx: Context, st: OrderState, peer: PeerID, m: OrderMessage, x: OrderMessage)
    requires Inv(st)
    ensures Booked(ctx, st, RetryOne(cfg, ctx, st, peer, m, x).st)
  {
    hide Handle, Inv, Booked;
    var handled := Handle(cfg, ctx, st, peer, x).st;
    HandleBooks(cfg, ctx, st, peer, x);
    NothingGained(ctx, st, st);
    NothingGained(ctx, st, st.(errored := st.errored + [m]));
    LoggedBooks(ctx, st, handled, m);
  }

  lemma LoggedBooks(ctx: Context, st: OrderState, st': OrderState, m: OrderMessage)
    requires Booked(ctx, st, st')
    ensures Booked(ctx, st, st'.(errored := st'.errored + [m]))
  {
    var logged := st'.(errored := st'.errored + [m]);
    forall x, txid | OpenOf(logged).Some? && Gained(st, logged, x) && Releases(ctx, OpenOf(logged).value, x, txid)
      ensures Recorded(logged.transactions, txid)
    {
      assert Gained(st, st', x);
    }
  }

  lemma MessageBooks(cfg: Config, id: OrderID, row: Option<OrderState>, ev: Event)
    requires Inv(Loaded(row)) && ev.Message?
    ensures Booked(ev.ctx, Loaded(row), Loaded(NextRow(cfg, id, row, ev)))
  {
    hide Handle, Retry, Inv, Extends, Booked;
    var st := Loaded(row);
    NothingGained(ev.ctx, st, st);
    if ev.m.orderID == id {
      if Premature(row, ev.m) {
        NothingGained(ev.ctx, st, FirstPass(cfg, ev.ctx, row, ev.peer, ev.m).st);
      } else {
        var mid := FirstPass(cfg, ev.ctx, row, ev.peer, ev.m).st;
        HandleBooks(cfg, ev.ctx, st, ev.peer, ev.m);
        VerifiedKeeps(cfg, ev.ctx, st, ev.peer, ev.m);
        RetryBooks(cfg, ev.ctx, mid, ev.peer, ev.m, ev.xs);
        BookedTransitive(ev.ctx, st, mid, Retry(cfg, ev.ctx, mid, ev.peer, ev.m, ev.xs).st);
      }
    }
  }

  /** No coin that a recorded transaction spends is selected. */
  lemma SpentIsNotSelected(txs: seq<Transaction>, tx: Transaction, c: SpendInfo, addr: Address)
    requires tx in txs && c in tx.from
    ensures forall s :: s in Unspent(txs, SpentIn(txs), addr) ==> s.id != c.id
  {
    assert c.id in SpentIn(txs);
    forall s | s in Unspent(txs, SpentIn(txs), addr) ensures s.id != c.id {
      UnspentExactly(txs, SpentIn(txs), addr, s);
    }
  }

  /**
   Over any run: once a cancellation or confirmation that reports a release is stored, the row knows that
   transaction for good, and no release selects a coin it spends.
   */
  lemma ReleasedCoinsAreNeverSelected(cfg: Config, id: OrderID, evs: seq<Event>, i: nat, x: OrderMessage, txid: TxID)
    requires i < |evs| && evs[i].Message?
    requires OpenOf(Loaded(Rows(cfg, id, evs[..i + 1]))).Some?
    requires Gained(Loaded(Rows(cfg, id, evs[..i])), Loaded(Rows(cfg, id, evs[..i + 1])), x)
    requires Releases(evs[i].ctx, OpenOf(Loaded(Rows(cfg, id, evs[..i + 1]))).value, x, txid)
    ensures
      var txs := Loaded(Rows(cfg, id, evs)).transactions;
      var spent := evs[i].ctx.wallet[txid].from;
      && Recorded(txs, txid)
      && ((forall tx :: tx in txs && tx.id == txid ==> tx.from == spent) ==>
            forall c, s, addr :: c in spent && s in Unspent(txs, SpentIn(txs), addr) ==> s.id != c.id)
  {
    hide NextRow, Inv, Unspent, SpentIn, Releases, Gained, Booked;
    var before, after, st := Rows(cfg, id, evs[..i]), Rows(cfg, id, evs[..i + 1]), Loaded(Rows(cfg, id, evs));
    assert evs[..i + 1][..i] == evs[..i];
    assert after == NextRow(cfg, id, before, evs[i]);
    EveryRunKeepsInvariant(cfg, id, evs[..i]);
    MessageBooks(cfg, id, before, evs[i]);
    BookedIs(evs[i].ctx, Loaded(before), Loaded(after), x, txid);
    EveryRunOnlyAdds(cfg, id, evs, i + 1);
    RecordedStays(Loaded(after).transactions, st.transactions, txid);
    var tx :| tx in st.transactions && tx.id == txid;
    if tx.from == evs[i].ctx.wallet[txid].from {
      forall c, addr | c in tx.from ensures forall s :: s in Unspent(st.transactions, SpentIn(st.transactions), addr) ==> s.id != c.id {
        SpentIsNotSelected(st.transactions, tx, c, addr);
      }
    }
  }

  /** A reject whose refund is what was due gives back everything that was paid. */
  lemma RejectReturnsEverything(cfg: Config, n: NodeState, ctx: Context, m: OrderMessage, refund: OrderMessage,
                                xs: seq<OrderMessage>, ys: seq<OrderMessage>, to: PeerID, first: MsgID)
    requires OwnOrder(cfg, n.row, m.orderID) && m.body.Reject? && m.signer == cfg.identity && CanReject(n.row.value)
    requires refund.orderID == m.orderID && refund.body.Refund? && refund.signer == cfg.identity
    requires refund.body.amount == RefundDue(n.row.value)
    requires RetriesOf(cfg, ctx, n.row, cfg.identity, m, xs)
    requires RetriesOf(cfg, ctx, NextRow(cfg, m.orderID, n.row, Message(ctx, cfg.identity, m, xs)), cfg.identity, refund, ys)
    ensures
      var row := RejectedAndRefunded(cfg, n, ctx, m, refund, xs, ys, to, first).row;
      && row.Some?
      && RefundTotal(row.value.refunds) == FundingTotal(n.row.value.transactions, OpenOf(n.row.value).value.address)
  {
    hide NextRow, RetriesOf, OwnOrder;
    RefundedRow(cfg, n, ctx, m, refund, xs, ys, to, first);
    assert [refund][..0] == [];
  }

  lemma BookedIs(ctx: Context, st: OrderState, st': OrderState, x: OrderMessage, txid: TxID)
    requires Booked(ctx, st, st') && OpenOf(st').Some? && Gained(st, st', x) && Releases(ctx, OpenOf(st').value, x, txid)
    ensures Recorded(st'.transactions, txid) && txid in ctx.wallet
  {
  }
}
