/**
 Money that leaves an order: escrow releases, which spend every unspent coin at the payment address,
 and direct refunds, which return what was paid and not refunded yet.

 Amounts are unbounded integers, as in the wallet interface. Building, signing and broadcasting the
 transaction are not part of this model.
 */
module OrderPayments {
  import opened Common
  import opened OrderModel
  import opened OrderRules
  import opened OrderInvariants

  // ---- sums --------------------------------------------------------------------------------------

  function Sum(coins: seq<SpendInfo>): int {
    if coins == [] then 0 else Sum(coins[..|coins| - 1]) + coins[|coins| - 1].amount
  }

  lemma {:induction false} SumConcat(a: seq<SpendInfo>, b: seq<SpendInfo>)
    ensures Sum(a + b) == Sum(a) + Sum(b)
  {
    if b == [] {
      assert a + b == a;
    } else {
      assert (a + b)[..|a + b| - 1] == a + b[..|b| - 1];
      SumConcat(a, b[..|b| - 1]);
    }
  }

  /** The coin IDs a list of transactions spends. */
  function SpentIn(txs: seq<Transaction>): set<CoinID> {
    set tx, from | tx in txs && from in tx.from :: from.id
  }

  /** The outputs at the address that nothing spent, in order. */
  function UnspentOf(outs: seq<SpendInfo>, spent: set<CoinID>, addr: Address): seq<SpendInfo> {
    if outs == [] then []
    else
      var last := outs[|outs| - 1];
      UnspentOf(outs[..|outs| - 1], spent, addr) + if last.id !in spent && last.address == addr then [last] else []
  }

  function Unspent(txs: seq<Transaction>, spent: set<CoinID>, addr: Address): seq<SpendInfo> {
    if txs == [] then []
    else Unspent(txs[..|txs| - 1], spent, addr) + UnspentOf(txs[|txs| - 1].to, spent, addr)
  }

  ghost predicate IsOutput(txs: seq<Transaction>, c: SpendInfo) {
    exists tx <- txs :: c in tx.to
  }

  lemma {:induction false} UnspentOfExactly(outs: seq<SpendInfo>, spent: set<CoinID>, addr: Address, c: SpendInfo)
    ensures c in UnspentOf(outs, spent, addr) <==> c in outs && c.id !in spent && c.address == addr
  {
    if outs != [] {
      UnspentOfExactly(outs[..|outs| - 1], spent, addr, c);
      assert outs == outs[..|outs| - 1] + [outs[|outs| - 1]];
    }
  }

  /** The selected coins are exactly the unspent outputs at the payment address. */
  lemma {:induction false} UnspentExactly(txs: seq<Transaction>, spent: set<CoinID>, addr: Address, c: SpendInfo)
    ensures c in Unspent(txs, spent, addr) <==> IsOutput(txs, c) && c.id !in spent && c.address == addr
  {
    if txs != [] {
      var init, last := txs[..|txs| - 1], txs[|txs| - 1];
      UnspentExactly(init, spent, addr, c);
      UnspentOfExactly(last.to, spent, addr, c);
      assert txs == init + [last];
      assert IsOutput(txs, c) <==> IsOutput(init, c) || c in last.to;
    }
  }

  // ---- the selection loops -------------------------------------------------------------------------

  method SpentCoins(txs: seq<Transaction>) returns (spent: set<CoinID>)
    ensures spent == SpentIn(txs)
  {
    spent := {};
    for i := 0 to |txs|
      invariant spent == SpentIn(txs[..i])
    {
      assert txs[..i + 1] == txs[..i] + [txs[i]];
      var ins := txs[i].from;
      ghost var before := spent;
      for j := 0 to |ins|
        invariant spent == before + set from | from in ins[..j] :: from.id
      {
        assert ins[..j + 1] == ins[..j] + [ins[j]];
        spent := spent + {ins[j].id};
      }
      assert ins[..|ins|] == ins;
    }
    assert txs[..|txs|] == txs;
  }

  method SelectCoins(txs: seq<Transaction>, addr: Address) returns (inputs: seq<SpendInfo>, total: int)
    ensures inputs == Unspent(txs, SpentIn(txs), addr)
    ensures total == Sum(inputs)
  {
    var spent := SpentCoins(txs);
    inputs, total := [], 0;
    for i := 0 to |txs|
      invariant inputs == Unspent(txs[..i], spent, addr) && total == Sum(inputs)
    {
      assert txs[..i + 1][..i] == txs[..i];
      var outs := txs[i].to;
      ghost var before := inputs;
      for j := 0 to |outs|
        invariant inputs == before + UnspentOf(outs[..j], spent, addr) && total == Sum(inputs)
      {
        assert outs[..j + 1][..j] == outs[..j];
        if outs[j].id !in spent && outs[j].address == addr {
          SumConcat(inputs, [outs[j]]);
          inputs := inputs + [outs[j]];
          total := total + outs[j].amount;
        }
      }
      assert outs[..|outs|] == outs;
    }
    assert txs[..|txs|] == txs;
  }

  /** Inputs, the fee and the one output of a transaction that empties the payment address. */
  datatype Release = Release(inputs: seq<SpendInfo>, to: Address, amount: int, fee: int)

  datatype Result<T> = Ok(value: T) | Failed

  /** The whole estimate for the first input and half of it, rounded down, for every further one. */
  function CancelableFee(estimate: nat, n: nat): int {
    estimate + (estimate / 2) * (n - 1)
  }

  /** One input costs the estimate, and each further one half of it, rounded down. */
  lemma FeePerInput(estimate: nat, n: nat)
    ensures CancelableFee(estimate, 1) == estimate
    ensures 2 * (CancelableFee(estimate, n + 1) - CancelableFee(estimate, n)) <= estimate
    ensures estimate <= 2 * (CancelableFee(estimate, n + 1) - CancelableFee(estimate, n)) + 1
  {
    assert (estimate / 2) * n == (estimate / 2) * (n - 1) + estimate / 2;
  }

  method ReleaseFromCancelableAddress(open: OrderOpen, txs: seq<Transaction>, to: Address, estimate: nat)
    returns (r: Result<Release>)
    ensures r.Failed? <==> !open.terms.Cancelable? || Unspent(txs, SpentIn(txs), open.address) == []
    ensures r.Ok? ==>
      && r.value.inputs == Unspent(txs, SpentIn(txs), open.address) && r.value.to == to
      && r.value.fee == CancelableFee(estimate, |r.value.inputs|)
      && r.value.amount + r.value.fee == Sum(r.value.inputs)
  {
    if open.terms != Cancelable {
      return Failed;
    }
    var inputs, total := SelectCoins(txs, open.address);
    if |inputs| == 0 {
      return Failed;
    }
    var fee := estimate as int;
    fee := fee + fee / 2 * (|inputs| - 1);
    r := Ok(Release(inputs, to, total - fee, fee));
  }

  /**
   The same selection for a moderated order, with a fixed fee. It fails when no transaction is recorded,
   but nothing checks that the recorded ones left coins to select.
   */
  method BuildEscrowRelease(open: OrderOpen, txs: seq<Transaction>, to: Address, fee: int) returns (r: Result<Release>)
    ensures r.Failed? <==> txs == []
    ensures r.Ok? ==>
      && r.value.inputs == Unspent(txs, SpentIn(txs), open.address) && r.value.to == to && r.value.fee == fee
      && r.value.amount + r.value.fee == Sum(r.value.inputs)
  {
    if |txs| == 0 {
      return Failed;
    }
    var inputs, total := SelectCoins(txs, open.address);
    r := Ok(Release(inputs, to, total - fee, fee));
  }

  // ---- conservation over a history ------------------------------------------------------------------

  /** A payment seen on the chain, or a release whose transaction, with ID `txid`, is recorded. */
  datatype EscrowEvent = Deposit(tx: Transaction) | Payout(txid: TxID, coin: CoinID, to: Address, fee: int)

  /** The recorded transactions and the releases made so far. */
  datatype Book = Book(txs: seq<Transaction>, releases: seq<Release>)

  function NextRelease(book: Book, addr: Address, to: Address, fee: int): Release {
    var inputs := Unspent(book.txs, SpentIn(book.txs), addr);
    Release(inputs, to, Sum(inputs) - fee, fee)
  }

  function ReleaseTx(r: Release, txid: TxID, coin: CoinID): Transaction {
    Transaction(txid, r.inputs, [SpendInfo(coin, r.to, r.amount)])
  }

  function Entered(book: Book, addr: Address, ev: EscrowEvent): Book {
    match ev
    case Deposit(tx) =>
      if KnowsTransaction(book.txs, tx.id) then book else book.(txs := book.txs + [tx])
    case Payout(txid, coin, to, fee) =>
      var r := NextRelease(book, addr, to, fee);
      Book(book.txs + [ReleaseTx(r, txid, coin)], book.releases + [r])
  }

  function BookOf(addr: Address, evs: seq<EscrowEvent>): Book {
    if evs == [] then Book([], [])
    else Entered(BookOf(addr, evs[..|evs| - 1]), addr, evs[|evs| - 1])
  }

  function InputIDs(tx: Transaction): set<CoinID> {
    set from | from in tx.from :: from.id
  }

  /** What the chain guarantees: the coins of a new transaction are new, so nothing has spent them. */
  ghost predicate Honest(book: Book, addr: Address, ev: EscrowEvent) {
    match ev
    case Deposit(tx) =>
      KnowsTransaction(book.txs, tx.id) || forall c <- tx.to :: c.id !in SpentIn(book.txs) + InputIDs(tx)
    case Payout(txid, coin, to, fee) =>
      && !KnowsTransaction(book.txs, txid)
      && coin !in SpentIn(book.txs) + InputIDs(ReleaseTx(NextRelease(book, addr, to, fee), txid, coin))
  }

  ghost predicate HonestRun(addr: Address, evs: seq<EscrowEvent>) {
    evs == [] || (HonestRun(addr, evs[..|evs| - 1]) && Honest(BookOf(addr, evs[..|evs| - 1]), addr, evs[|evs| - 1]))
  }

  /** What the releases paid out, fees included. */
  function PaidOut(rs: seq<Release>): int {
    if rs == [] then 0 else PaidOut(rs[..|rs| - 1]) + rs[|rs| - 1].amount + rs[|rs| - 1].fee
  }

  /** The coins with one of the IDs. */
  function Among(coins: seq<SpendInfo>, ids: set<CoinID>): seq<SpendInfo> {
    if coins == [] then []
    else Among(coins[..|coins| - 1], ids) + if coins[|coins| - 1].id in ids then [coins[|coins| - 1]] else []
  }

  /** The unspent coins of the payment address that a transaction the node only learns about spends. */
  function Drawn(book: Book, addr: Address, ev: EscrowEvent): seq<SpendInfo> {
    if ev.Deposit? && !KnowsTransaction(book.txs, ev.tx.id)
    then Among(Unspent(book.txs, SpentIn(book.txs), addr), InputIDs(ev.tx))
    else []
  }

  /** What left the payment address other than by a release. */
  function SpentElsewhere(addr: Address, evs: seq<EscrowEvent>): int {
    if evs == [] then 0
    else SpentElsewhere(addr, evs[..|evs| - 1]) + Sum(Drawn(BookOf(addr, evs[..|evs| - 1]), addr, evs[|evs| - 1]))
  }

  lemma {:induction false} UnspentOfSum(outs: seq<SpendInfo>, spent: set<CoinID>, addr: Address)
    requires forall c <- outs :: c.id !in spent
    ensures Sum(UnspentOf(outs, spent, addr)) == PaidTo(outs, addr)
  {
    if outs != [] {
      UnspentOfSum(outs[..|outs| - 1], spent, addr);
      var last := outs[|outs| - 1];
      SumConcat(UnspentOf(outs[..|outs| - 1], spent, addr), if last.address == addr then [last] else []);
    }
  }

  lemma {:induction false} AmongConcat(a: seq<SpendInfo>, b: seq<SpendInfo>, ids: set<CoinID>)
    ensures Among(a + b, ids) == Among(a, ids) + Among(b, ids)
  {
    if b == [] {
      assert a + b == a;
    } else {
      assert (a + b)[..|a + b| - 1] == a + b[..|b| - 1];
      AmongConcat(a, b[..|b| - 1], ids);
    }
  }

  lemma {:induction false} SpendingSplitsOf(outs: seq<SpendInfo>, spent: set<CoinID>, more: set<CoinID>, addr: Address)
    ensures Sum(UnspentOf(outs, spent, addr)) ==
      Sum(UnspentOf(outs, spent + more, addr)) + Sum(Among(UnspentOf(outs, spent, addr), more))
  {
    if outs != [] {
      var init, last := outs[..|outs| - 1], outs[|outs| - 1];
      var tail := if last.id !in spent && last.address == addr then [last] else [];
      var left := if last.id !in spent + more && last.address == addr then [last] else [];
      SpendingSplitsOf(init, spent, more, addr);
      SumConcat(UnspentOf(init, spent, addr), tail);
      SumConcat(UnspentOf(init, spent + more, addr), left);
      AmongConcat(UnspentOf(init, spent, addr), tail, more);
      SumConcat(Among(UnspentOf(init, spent, addr), more), Among(tail, more));
      OneAmong(last, more);
    }
  }

  lemma OneAmong(c: SpendInfo, ids: set<CoinID>)
    ensures Sum([c]) == c.amount && Sum([]) == 0
    ensures Among([], ids) == [] && Among([c], ids) == if c.id in ids then [c] else []
  {
    assert [c][..0] == [];
  }

  /** Spending more coins takes from what is unspent just those among them. */
  lemma {:induction false} SpendingSplits(txs: seq<Transaction>, spent: set<CoinID>, more: set<CoinID>, addr: Address)
    ensures Sum(Unspent(txs, spent, addr)) ==
      Sum(Unspent(txs, spent + more, addr)) + Sum(Among(Unspent(txs, spent, addr), more))
  {
    if txs != [] {
      var init, outs := txs[..|txs| - 1], txs[|txs| - 1].to;
      SpendingSplits(init, spent, more, addr);
      SpendingSplitsOf(outs, spent, more, addr);
      SumConcat(Unspent(init, spent, addr), UnspentOf(outs, spent, addr));
      SumConcat(Unspent(init, spent + more, addr), UnspentOf(outs, spent + more, addr));
      AmongConcat(Unspent(init, spent, addr), UnspentOf(outs, spent, addr), more);
      SumConcat(Among(Unspent(init, spent, addr), more), Among(UnspentOf(outs, spent, addr), more));
    }
  }

  lemma SpentSnoc(txs: seq<Transaction>, tx: Transaction)
    ensures SpentIn(txs + [tx]) == SpentIn(txs) + InputIDs(tx)
  {
    assert tx in txs + [tx];
  }

  /** A new transaction adds what it pays to the address and takes the coins of the address it spends. */
  lemma TransactionMoves(txs: seq<Transaction>, tx: Transaction, addr: Address)
    requires forall c <- tx.to :: c.id !in SpentIn(txs) + InputIDs(tx)
    ensures
      var txs' := txs + [tx];
      && FundingTotal(txs', addr) == FundingTotal(txs, addr) + PaidTo(tx.to, addr)
      && Sum(Unspent(txs', SpentIn(txs'), addr)) + Sum(Among(Unspent(txs, SpentIn(txs), addr), InputIDs(tx))) ==
           Sum(Unspent(txs, SpentIn(txs), addr)) + PaidTo(tx.to, addr)
  {
    var txs' := txs + [tx];
    var spent := SpentIn(txs) + InputIDs(tx);
    SpentSnoc(txs, tx);
    assert txs'[..|txs'| - 1] == txs;
    SpendingSplits(txs, SpentIn(txs), InputIDs(tx), addr);
    UnspentOfSum(tx.to, spent, addr);
    SumConcat(Unspent(txs, spent, addr), UnspentOf(tx.to, spent, addr));
  }

  lemma {:induction false} AllAmong(coins: seq<SpendInfo>, ids: set<CoinID>)
    requires forall c <- coins :: c.id in ids
    ensures Among(coins, ids) == coins
  {
    if coins != [] {
      assert coins == coins[..|coins| - 1] + [coins[|coins| - 1]];
      AllAmong(coins[..|coins| - 1], ids);
    }
  }

  /** What was paid to the address is what the releases took, fees included, what others spent, and what is unspent. */
  lemma {:induction false} EscrowConserves(addr: Address, evs: seq<EscrowEvent>)
    requires HonestRun(addr, evs)
    ensures
      var book := BookOf(addr, evs);
      FundingTotal(book.txs, addr) ==
        PaidOut(book.releases) + SpentElsewhere(addr, evs) + Sum(Unspent(book.txs, SpentIn(book.txs), addr))
  {
    if evs != [] {
      var before := BookOf(addr, evs[..|evs| - 1]);
      var ev := evs[|evs| - 1];
      hide FundingTotal, Unspent, SpentIn, PaidOut;
      EscrowConserves(addr, evs[..|evs| - 1]);
      match ev
      case Deposit(tx) =>
        if !KnowsTransaction(before.txs, tx.id) {
          TransactionMoves(before.txs, tx, addr);
        }
      case Payout(txid, coin, to, fee) =>
        ReleaseMoves(before, addr, ev);
    }
  }

  /** A release takes all that is unspent, and leaves unspent only what it pays back to the address. */
  lemma ReleaseMoves(book: Book, addr: Address, ev: EscrowEvent)
    requires ev.Payout? && Honest(book, addr, ev)
    ensures
      var book' := Entered(book, addr, ev);
      && FundingTotal(book'.txs, addr) - Sum(Unspent(book'.txs, SpentIn(book'.txs), addr)) == FundingTotal(book.txs, addr)
      && PaidOut(book'.releases) == PaidOut(book.releases) + Sum(Unspent(book.txs, SpentIn(book.txs), addr))
  {
    hide FundingTotal, Unspent, SpentIn;
    var r := NextRelease(book, addr, ev.to, ev.fee);
    var tx := ReleaseTx(r, ev.txid, ev.coin);
    var rs := book.releases + [r];
    assert rs[..|rs| - 1] == book.releases;
    TransactionMoves(book.txs, tx, addr);
    AllAmong(r.inputs, InputIDs(tx));
  }

  /** No transaction but the releases spends an unspent coin of the address. */
  ghost predicate OnlyReleasesSpend(addr: Address, evs: seq<EscrowEvent>) {
    forall i | 0 <= i < |evs| :: Drawn(BookOf(addr, evs[..i]), addr, evs[i]) == []
  }

  /** Then everything paid in is with the releases or unspent. */
  lemma {:induction false} NothingSpentElsewhere(addr: Address, evs: seq<EscrowEvent>)
    requires OnlyReleasesSpend(addr, evs)
    ensures SpentElsewhere(addr, evs) == 0
  {
    if evs != [] {
      var init := evs[..|evs| - 1];
      forall i | 0 <= i < |init| ensures Drawn(BookOf(addr, init[..i]), addr, init[i]) == [] {
        assert init[..i] == evs[..i];
        assert Drawn(BookOf(addr, evs[..i]), addr, evs[i]) == [];
      }
      NothingSpentElsewhere(addr, init);
      assert Drawn(BookOf(addr, evs[..|evs| - 1]), addr, evs[|evs| - 1]) == [];
    }
  }

  /** The coin was spent by a release made in this history. */
  ghost predicate ReleasedCoin(rs: seq<Release>, id: CoinID) {
    exists r <- rs :: exists c <- r.inputs :: c.id == id
  }

  lemma {:induction false} ReleasedIsSpent(addr: Address, evs: seq<EscrowEvent>, id: CoinID)
    requires ReleasedCoin(BookOf(addr, evs).releases, id)
    ensures id in SpentIn(BookOf(addr, evs).txs)
  {
    if evs != [] {
      var before := BookOf(addr, evs[..|evs| - 1]);
      var ev := evs[|evs| - 1];
      if ReleasedCoin(before.releases, id) {
        ReleasedIsSpent(addr, evs[..|evs| - 1], id);
        assert SpentIn(before.txs) <= SpentIn(BookOf(addr, evs).txs) by {
          assert forall tx <- before.txs :: tx in BookOf(addr, evs).txs;
        }
      } else {
        var r := NextRelease(before, addr, ev.to, ev.fee);
        SpentSnoc(before.txs, ReleaseTx(r, ev.txid, ev.coin));
      }
    }
  }

  /** No release ever selects a coin an earlier one took, whatever happened in between. */
  lemma NoCoinSelectedTwice(addr: Address, evs: seq<EscrowEvent>, to: Address, fee: int, c: SpendInfo)
    requires c in NextRelease(BookOf(addr, evs), addr, to, fee).inputs
    ensures !ReleasedCoin(BookOf(addr, evs).releases, c.id)
  {
    var txs := BookOf(addr, evs).txs;
    UnspentExactly(txs, SpentIn(txs), addr, c);
    if ReleasedCoin(BookOf(addr, evs).releases, c.id) {
      ReleasedIsSpent(addr, evs, c.id);
    }
  }

  // ---- the funding total ---------------------------------------------------------------------------

  lemma {:induction false} FundingWithout(txs: seq<Transaction>, addr: Address, k: nat)
    requires k < |txs|
    ensures FundingTotal(txs, addr) == FundingTotal(txs[..k] + txs[k + 1..], addr) + PaidTo(txs[k].to, addr)
  {
    var rest := txs[..k] + txs[k + 1..];
    if k == |txs| - 1 {
      assert rest == txs[..k];
    } else {
      var init := txs[..|txs| - 1];
      FundingWithout(init, addr, k);
      assert rest[..|rest| - 1] == init[..k] + init[k + 1..];
    }
  }

  /** The funding total is a sum over the set of recorded transactions: their order is immaterial. */
  lemma {:induction false} FundingIsASetSum(a: seq<Transaction>, b: seq<Transaction>, addr: Address)
    requires DistinctTransactions(a) && DistinctTransactions(b) && Elems(a) == Elems(b)
    ensures FundingTotal(a, addr) == FundingTotal(b, addr)
  {
    if a == [] {
      MemberOrEmpty(b);
      assert forall x <- b :: x in Elems(a);
    } else {
      var tx := a[|a| - 1];
      assert tx in Elems(b);
      var k :| 0 <= k < |b| && b[k] == tx;
      var init, rest := a[..|a| - 1], b[..k] + b[k + 1..];
      WithoutOne(a, |a| - 1);
      WithoutOne(b, k);
      assert init == a[..|a| - 1] + a[|a|..];
      SameButOne(a, b, init, rest, tx);
      FundingIsASetSum(init, rest, addr);
      FundingWithout(b, addr, k);
    }
  }

  lemma SameButOne(a: seq<Transaction>, b: seq<Transaction>, init: seq<Transaction>, rest: seq<Transaction>, tx: Transaction)
    requires Elems(a) == Elems(b)
    requires forall x :: x in init <==> x in a && x != tx
    requires forall x :: x in rest <==> x in b && x != tx
    ensures Elems(init) == Elems(rest)
  {
    forall x ensures x in init <==> x in rest {
      assert x in a <==> x in Elems(a);
      assert x in b <==> x in Elems(b);
    }
  }

  lemma WithoutOne(b: seq<Transaction>, k: nat)
    requires DistinctTransactions(b) && k < |b|
    ensures
      var rest := b[..k] + b[k + 1..];
      DistinctTransactions(rest) && forall x :: x in rest <==> x in b && x != b[k]
  {
    var rest := b[..k] + b[k + 1..];
    forall i | 0 <= i < |rest| ensures rest[i] == b[if i < k then i else i + 1] {
    }
    forall x | x in b && x != b[k] ensures x in rest {
      var i :| 0 <= i < |b| && b[i] == x;
      assert rest[if i < k then i else i - 1] == x;
    }
  }

  /** What is recorded after a list of notifications, duplicates included. */
  function Notified(txs: seq<Transaction>): seq<Transaction> {
    if txs == [] then []
    else
      var init, last := Notified(txs[..|txs| - 1]), txs[|txs| - 1];
      if KnowsTransaction(init, last.id) then init else init + [last]
  }

  ghost predicate OneTransactionPerId(txs: set<Transaction>) {
    forall a, b | a in txs && b in txs && a.id == b.id :: a == b
  }

  lemma {:induction false} NotifiedOnce(txs: seq<Transaction>)
    requires OneTransactionPerId(Elems(txs))
    ensures Elems(Notified(txs)) == Elems(txs) && DistinctTransactions(Notified(txs))
  {
    if txs != [] {
      var init, last := txs[..|txs| - 1], txs[|txs| - 1];
      assert txs == init + [last];
      assert Elems(txs) == Elems(init) + {last};
      NotifiedOnce(init);
      var seen := Notified(init);
      assert forall x :: x in seen <==> x in Elems(init);
      if KnowsTransaction(seen, last.id) {
        var tx :| tx in seen && tx.id == last.id;
        assert tx in Elems(txs) && last in Elems(txs);
      } else {
        assert Elems(seen + [last]) == Elems(seen) + {last};
      }
    }
  }

  /** Repeated or reordered notifications never change the funding total. */
  lemma NotificationsCountOnce(a: seq<Transaction>, b: seq<Transaction>, addr: Address)
    requires Elems(a) == Elems(b) && OneTransactionPerId(Elems(a))
    ensures FundingTotal(Notified(a), addr) == FundingTotal(Notified(b), addr)
  {
    NotifiedOnce(a);
    NotifiedOnce(b);
    FundingIsASetSum(Notified(a), Notified(b), addr);
  }

  // ---- direct refunds --------------------------------------------------------------------------------

  function RefundTotal(refunds: seq<OrderMessage>): int {
    if refunds == [] then 0
    else
      var last := refunds[|refunds| - 1].body;
      RefundTotal(refunds[..|refunds| - 1]) + if last.Refund? then last.amount else 0
  }

  /** Paid into the order and not refunded yet. */
  function RefundDue(st: OrderState): int
    requires OpenOf(st).Some?
  {
    FundingTotal(st.transactions, OpenOf(st).value.address) - RefundTotal(st.refunds)
  }

  method BuildDirectRefund(order: Order) returns (due: int)
    requires OpenOf(order.State()).Some?
    ensures due == RefundDue(order.State())
  {
    var funding := order.AddUpPayments();
    var refunded := 0;
    for i := 0 to |order.refunds|
      invariant refunded == RefundTotal(order.refunds[..i])
    {
      assert order.refunds[..i + 1][..i] == order.refunds[..i];
      var body := order.refunds[i].body;
      if body.Refund? {
        refunded := refunded + body.amount;
      }
    }
    assert order.refunds[..|order.refunds|] == order.refunds;
    due := funding.value - refunded;
  }

  /** What reaches the row of a direct order: a wallet notification, a call of RefundOrder, or any other message. */
  datatype DirectEvent =
    | Payment(ctx: Context, tx: Transaction)
    | RefundNow(ctx: Context, txid: TxID, stamp: nat, xs: seq<OrderMessage>)
    | Incoming(ctx: Context, peer: PeerID, m: OrderMessage, xs: seq<OrderMessage>)

  function DirectRefund(cfg: Config, st: OrderState, txid: TxID, stamp: nat): OrderMessage
    requires OpenOf(st).Some?
  {
    OrderMessage(Ident(st), Refund(PaidBy(txid), RefundDue(st), stamp), cfg.identity)
  }

  /** The vendor's row afterwards. */
  function DirectStep(cfg: Config, st: OrderState, ev: DirectEvent): OrderState {
    match ev
    case Payment(ctx, tx) => WalletEvent(cfg, ctx, st, tx).st
    case RefundNow(ctx, txid, stamp, xs) =>
      if CanRefund(st) then Process(cfg, ctx, Some(st), cfg.identity, DirectRefund(cfg, st, txid, stamp), xs).st else st
    case Incoming(ctx, peer, m, xs) => Process(cfg, ctx, Some(st), peer, m, xs).st
  }

  function DirectRun(cfg: Config, st: OrderState, evs: seq<DirectEvent>): OrderState {
    if evs == [] then st else DirectStep(cfg, DirectRun(cfg, st, evs[..|evs| - 1]), evs[|evs| - 1])
  }

  ghost predicate NonNegative(outs: seq<SpendInfo>) {
    forall c <- outs :: c.amount >= 0
  }

  ghost predicate Plausible(ctx: Context) {
    forall id <- ctx.wallet :: NonNegative(ctx.wallet[id].to)
  }

  /**
   No output is negative, the wallet gives every refund a transaction ID of its own, and the other
   messages are not refunds: the handler would count a refund whoever sent it.
   */
  ghost predicate Sensible(cfg: Config, st: OrderState, ev: DirectEvent) {
    match ev
    case Payment(_, tx) => NonNegative(tx.to)
    case RefundNow(ctx, txid, stamp, xs) =>
      && Plausible(ctx)
      && (forall m <- st.refunds :: !SamePayout(m.body, Refund(PaidBy(txid), 0, 0)))
      && (CanRefund(st) ==> RetriesOf(cfg, ctx, Some(st), cfg.identity, DirectRefund(cfg, st, txid, stamp), xs))
    case Incoming(ctx, peer, m, xs) =>
      Plausible(ctx) && !m.body.Refund? && RetriesOf(cfg, ctx, Some(st), peer, m, xs)
  }

  ghost predicate SensibleRun(cfg: Config, st: OrderState, evs: seq<DirectEvent>) {
    evs == [] ||
    (&& SensibleRun(cfg, st, evs[..|evs| - 1])
     && Sensible(cfg, DirectRun(cfg, st, evs[..|evs| - 1]), evs[|evs| - 1]))
  }

  ghost predicate NoRefundWaits(st: OrderState) {
    forall x <- st.parked :: !x.body.Refund?
  }

  ghost predicate IsDirect(st: OrderState) {
    OpenOf(st).Some? && OpenOf(st).value.terms.Direct? && st.role.RoleVendor?
  }

  lemma {:induction false} PaidToNonNegative(outs: seq<SpendInfo>, addr: Address)
    requires NonNegative(outs)
    ensures PaidTo(outs, addr) >= 0
  {
    if outs != [] {
      PaidToNonNegative(outs[..|outs| - 1], addr);
    }
  }

  lemma RecordAdds(st: OrderState, tx: Transaction, addr: Address)
    requires NonNegative(tx.to)
    ensures FundingTotal(RecordTransaction(st, tx).transactions, addr) ==
      FundingTotal(st.transactions, addr) + if KnowsTransaction(st.transactions, tx.id) then 0 else PaidTo(tx.to, addr)
    ensures FundingTotal(RecordTransaction(st, tx).transactions, addr) >= FundingTotal(st.transactions, addr)
  {
    var txs' := st.transactions + [tx];
    assert txs'[..|txs'| - 1] == st.transactions;
    PaidToNonNegative(tx.to, addr);
  }

  lemma IncomingRecords(cfg: Config, ctx: Context, st: OrderState, tx: Transaction)
    requires OpenOf(st).Some?
    ensures
      var st' := IncomingPayment(cfg, ctx, st, tx).st;
      && st'.open == st.open && st'.role == st.role && st'.refunds == st.refunds && st'.parked == st.parked
      && st'.transactions == RecordTransaction(st, tx).transactions
  {
  }

  lemma WalletRecords(cfg: Config, ctx: Context, st: OrderState, tx: Transaction)
    requires OpenOf(st).Some?
    ensures
      var st' := WalletEvent(cfg, ctx, st, tx).st;
      && st'.open == st.open && st'.role == st.role && st'.refunds == st.refunds && st'.parked == st.parked
      && (st'.transactions == st.transactions || st'.transactions == RecordTransaction(st, tx).transactions)
  {
    hide IncomingPayment;
    IncomingRecords(cfg, ctx, st, tx);
    if !KnowsTransaction(st.transactions, tx.id) {
      assert tx in RecordTransaction(st, tx).transactions;
    }
  }

  lemma PaymentStep(cfg: Config, ctx: Context, st: OrderState, tx: Transaction)
    requires IsDirect(st) && NonNegative(tx.to)
    ensures
      var st' := WalletEvent(cfg, ctx, st, tx).st;
      && st'.open == st.open && st'.role == st.role && st'.refunds == st.refunds && st'.parked == st.parked
      && RefundDue(st') >= RefundDue(st)
  {
    hide WalletEvent, RecordTransaction;
    RecordAdds(st, tx, OpenOf(st).value.address);
    WalletRecords(cfg, ctx, st, tx);
  }

  /** What the refund's own transaction pays back into the order, when the node records it. */
  function BroughtBack(cfg: Config, ctx: Context, st: OrderState, txid: TxID): int
    requires OpenOf(st).Some?
  {
    var open := OpenOf(st).value;
    if open.coin in cfg.coins && txid in ctx.wallet && PaidFrom(LookUp(ctx, txid), st.paymentAddress)
       && !KnowsTransaction(st.transactions, txid)
    then PaidTo(ctx.wallet[txid].to, open.address)
    else 0
  }

  lemma RefundRecords(cfg: Config, ctx: Context, st: OrderState, m: OrderMessage)
    requires IsDirect(st) && st.cancel.None? && m.body.Refund? && m.body.info.PaidBy? && !AlreadyListed(st, m.body)
    ensures
      var st' := Handle(cfg, ctx, st, cfg.identity, m).st;
      var txid := m.body.info.txid;
      && st'.open == st.open && st'.role == st.role && st'.refunds == st.refunds + [m] && st'.parked == st.parked
      && st'.transactions ==
           if OpenOf(st).value.coin in cfg.coins && txid in ctx.wallet && PaidFrom(LookUp(ctx, txid), st.paymentAddress)
           then RecordTransaction(st, LookUp(ctx, txid)).transactions
           else st.transactions
  {
  }

  /** Handling the node's own refund leaves exactly what the refund itself brought back into the order due. */
  lemma RefundStep(cfg: Config, ctx: Context, st: OrderState, txid: TxID, stamp: nat)
    requires IsDirect(st) && CanRefund(st) && Plausible(ctx)
    requires forall m <- st.refunds :: !SamePayout(m.body, Refund(PaidBy(txid), 0, 0))
    ensures
      var m := DirectRefund(cfg, st, txid, stamp);
      var st' := Handle(cfg, ctx, st, cfg.identity, m).st;
      && st'.open == st.open && st'.role == st.role && st'.parked == st.parked
      && st'.refunds == st.refunds + [m]
      && RefundTotal(st'.refunds) == FundingTotal(st.transactions, OpenOf(st).value.address)
      && RefundDue(st') == BroughtBack(cfg, ctx, st, txid) >= 0
  {
    hide Handle, RecordTransaction;
    var m := DirectRefund(cfg, st, txid, stamp);
    assert !AlreadyListed(st, m.body);
    RefundRecords(cfg, ctx, st, m);
    assert (st.refunds + [m])[..|st.refunds|] == st.refunds;
    if txid in ctx.wallet {
      RecordAdds(st, LookUp(ctx, txid), OpenOf(st).value.address);
      PaidToNonNegative(ctx.wallet[txid].to, OpenOf(st).value.address);
    }
  }

  // ---- other messages of the order -----------------------------------------------------------------

  /** Nothing was refunded and nothing paid was lost; only the messages given were parked. */
  ghost predicate PaysNoRefund(st: OrderState, st': OrderState, xs: set<OrderMessage>) {
    && IsDirect(st) && st'.open == st.open && st'.role == st.role && st'.refunds == st.refunds
    && RefundDue(st') >= RefundDue(st)
    && Elems(st'.parked) <= Elems(st.parked) + xs
  }

  lemma HandlePaysNoRefund(cfg: Config, ctx: Context, st: OrderState, peer: PeerID, m: OrderMessage)
    requires IsDirect(st) && Plausible(ctx) && !m.body.Refund?
    ensures PaysNoRefund(st, Handle(cfg, ctx, st, peer, m).st, {m})
  {
    hide AfterAccept;
    var st0 := if m.body.Open? then st.(id := Some(m.orderID)) else st;
    assert Judge(cfg, st0, m).Accept? ==> !m.body.Open? && !m.body.DisputeOpen?;
    if Judge(cfg, st0, m).Accept? {
      hide Judge;
      AcceptPaysNoRefund(cfg, ctx, st, peer, m);
    }
  }

  lemma AcceptPaysNoRefund(cfg: Config, ctx: Context, st: OrderState, peer: PeerID, m: OrderMessage)
    requires IsDirect(st) && Plausible(ctx) && Judge(cfg, st, m).Accept?
    requires !m.body.Refund? && !m.body.Open? && !m.body.DisputeOpen?
    ensures PaysNoRefund(st, AfterAccept(cfg, ctx, st, peer, m).st, {m})
  {
    hide PaysNoRefund, IsFunded, AlreadyListed, Malformed, Barred;
    if m.body.PaymentSent? {
      NoticePaysNoRefund(cfg, ctx, st, m);
    } else {
      AcceptedIsPut(cfg, ctx, st, peer, m);
      PutPaysNoRefund(st, m);
    }
  }

  /** Nothing in a direct order but a refund or a payment notice does more than store the message. */
  lemma AcceptedIsPut(cfg: Config, ctx: Context, st: OrderState, peer: PeerID, m: OrderMessage)
    requires IsDirect(st) && Judge(cfg, st, m).Accept?
    requires !m.body.Refund? && !m.body.PaymentSent? && !m.body.Open? && !m.body.DisputeOpen?
    ensures AfterAccept(cfg, ctx, st, peer, m).st == Put(st, m)
  {
    hide Judge, AlreadyListed, Put;
  }

  lemma PutPaysNoRefund(st: OrderState, m: OrderMessage)
    requires IsDirect(st) && !m.body.Refund? && !m.body.Open?
    ensures PaysNoRefund(st, Put(st, m), {m})
  {
    hide AlreadyListed;
  }

  lemma NoticePaysNoRefund(cfg: Config, ctx: Context, st: OrderState, m: OrderMessage)
    requires IsDirect(st) && Plausible(ctx) && m.body.PaymentSent?
    ensures PaysNoRefund(st, AcceptPaymentSent(cfg, ctx, st, OpenOf(st).value, m).st, {m})
  {
    hide RecordTransaction, IncomingPayment, AlreadyListed;
    if m.body.paid in ctx.wallet {
      var tx := LookUp(ctx, m.body.paid);
      IncomingRecords(cfg, ctx, Put(st, m), tx);
      RecordAdds(Put(st, m), tx, OpenOf(st).value.address);
    }
  }

  lemma {:induction false} RetryPaysNoRefund(cfg: Config, ctx: Context, st: OrderState, peer: PeerID, m: OrderMessage,
                                             xs: seq<OrderMessage>)
    requires IsDirect(st) && Plausible(ctx) && forall x <- xs :: !x.body.Refund?
    ensures PaysNoRefund(st, Retry(cfg, ctx, st, peer, m, xs).st, Elems(xs))
  {
    hide RetryOne, PaysNoRefund, RefundDue;
    if xs == [] {
      PaysNothing(st);
    } else {
      var init, last := xs[..|xs| - 1], xs[|xs| - 1];
      assert xs == init + [last];
      assert Elems(xs) == Elems(init) + {last};
      RetryPaysNoRefund(cfg, ctx, st, peer, m, init);
      var mid := Retry(cfg, ctx, st, peer, m, init).st;
      StillDirect(st, mid, Elems(init));
      RetryOnePaysNoRefund(cfg, ctx, mid, peer, m, last);
      PaysTransitive(st, mid, RetryOne(cfg, ctx, mid, peer, m, last).st, Elems(init), {last});
    }
  }

  lemma PaysNothing(st: OrderState)
    requires IsDirect(st)
    ensures PaysNoRefund(st, st, {}) && Elems<OrderMessage>([]) == {}
  {
  }

  lemma StillDirect(st: OrderState, st': OrderState, xs: set<OrderMessage>)
    requires PaysNoRefund(st, st', xs)
    ensures IsDirect(st')
  {
  }

  lemma PaysTransitive(a: OrderState, b: OrderState, c: OrderState, xs: set<OrderMessage>, ys: set<OrderMessage>)
    requires PaysNoRefund(a, b, xs) && PaysNoRefund(b, c, ys)
    ensures PaysNoRefund(a, c, xs + ys)
  {
    hide RefundDue;
  }

  lemma RetryOnePaysNoRefund(cfg: Config, ctx: Context, st: OrderState, peer: PeerID, m: OrderMessage, x: OrderMessage)
    requires IsDirect(st) && Plausible(ctx) && !x.body.Refund?
    ensures PaysNoRefund(st, RetryOne(cfg, ctx, st, peer, m, x).st, {x})
  {
    hide Handle, RefundDue;
    HandlePaysNoRefund(cfg, ctx, st, peer, x);
    ErroredCostsNothing(Handle(cfg, ctx, st, peer, x).st, m);
    ErroredCostsNothing(st, m);
  }

  lemma ErroredCostsNothing(st: OrderState, m: OrderMessage)
    requires OpenOf(st).Some?
    ensures RefundDue(st.(errored := st.errored + [m])) == RefundDue(st)
  {
  }

  /** The retries after the first pass are of messages parked before, or of the message itself. */
  lemma RetriesPayNoRefund(cfg: Config, ctx: Context, st: OrderState, peer: PeerID, m: OrderMessage, xs: seq<OrderMessage>)
    requires IsDirect(st) && RefundDue(st) >= 0 && NoRefundWaits(st) && Plausible(ctx) && SortOf(st.parked, xs)
    ensures
      var st' := Retry(cfg, ctx, st, peer, m, xs).st;
      IsDirect(st') && RefundDue(st') >= 0 && NoRefundWaits(st')
  {
    hide Retry, RefundDue;
    forall x ensures x in xs <==> x in st.parked {
      assert x in multiset(xs) <==> x in multiset(st.parked);
    }
    RetryPaysNoRefund(cfg, ctx, st, peer, m, xs);
    var st' := Retry(cfg, ctx, st, peer, m, xs).st;
    assert forall x <- st'.parked :: x in Elems(st'.parked);
  }

  lemma IncomingStep(cfg: Config, ctx: Context, st: OrderState, peer: PeerID, m: OrderMessage, xs: seq<OrderMessage>)
    requires IsDirect(st) && RefundDue(st) >= 0 && NoRefundWaits(st)
    requires Sensible(cfg, st, Incoming(ctx, peer, m, xs))
    ensures
      var st' := Process(cfg, ctx, Some(st), peer, m, xs).st;
      IsDirect(st') && RefundDue(st') >= 0 && NoRefundWaits(st')
  {
    hide Handle, Retry, RefundDue, SortOf;
    var mid := FirstPass(cfg, ctx, Some(st), peer, m).st;
    HandlePaysNoRefund(cfg, ctx, st, peer, m);
    assert forall x <- mid.parked :: x in Elems(mid.parked);
    RetriesPayNoRefund(cfg, ctx, mid, peer, m, xs);
  }

  lemma RefundNowStep(cfg: Config, st: OrderState, ev: DirectEvent)
    requires IsDirect(st) && RefundDue(st) >= 0 && NoRefundWaits(st)
    requires ev.RefundNow? && Sensible(cfg, st, ev) && CanRefund(st)
    ensures IsDirect(DirectStep(cfg, st, ev)) && RefundDue(DirectStep(cfg, st, ev)) >= 0 && NoRefundWaits(DirectStep(cfg, st, ev))
  {
    hide Handle, Retry, RefundDue, SortOf;
    var m := DirectRefund(cfg, st, ev.txid, ev.stamp);
    RefundStep(cfg, ev.ctx, st, ev.txid, ev.stamp);
    RetriesPayNoRefund(cfg, ev.ctx, Handle(cfg, ev.ctx, st, cfg.identity, m).st, cfg.identity, m, ev.xs);
  }

  /**
   Over any run of payments, repeated notifications, refunds and other messages, retries included, the
   vendor never refunds more than was paid.
   */
  lemma {:induction false} RefundsNeverExceedPayments(cfg: Config, st: OrderState, evs: seq<DirectEvent>)
    requires IsDirect(st) && RefundDue(st) >= 0 && NoRefundWaits(st) && SensibleRun(cfg, st, evs)
    ensures
      var st' := DirectRun(cfg, st, evs);
      IsDirect(st') && RefundDue(st') >= 0 && NoRefundWaits(st')
  {
    hide WalletEvent, Process, RefundDue, RetriesOf;
    if evs != [] {
      var before := DirectRun(cfg, st, evs[..|evs| - 1]);
      RefundsNeverExceedPayments(cfg, st, evs[..|evs| - 1]);
      match evs[|evs| - 1]
      case Payment(ctx, tx) => PaymentStep(cfg, ctx, before, tx);
      case RefundNow(ctx, txid, stamp, xs) =>
        if CanRefund(before) {
          RefundNowStep(cfg, before, evs[|evs| - 1]);
        }
      case Incoming(ctx, peer, m, xs) => IncomingStep(cfg, ctx, before, peer, m, xs);
    }
  }
}
