/**
 What an order costs, told by the totals alone: how each line, coupon, tax and shipped item moves them.
 Together the laws fix every field of the totals of every order.
 */
module PriceLaws {
  import opened Common
  import opened OrderPricing

  /** The conversion of a percentage to an integer drops the fraction, whatever the sign. */
  lemma TruncateIsTowardZero(x: real)
    ensures x >= 0.0 ==> 0 <= Truncate(x) && Truncate(x) as real <= x < (Truncate(x) + 1) as real
    ensures x <= 0.0 ==> Truncate(x) <= 0 && (Truncate(x) - 1) as real < x <= Truncate(x) as real
  {
  }

  /** A share of an amount, with the fraction dropped. */
  function Share(amount: int, rate: real): int {
    Truncate(amount as real * rate)
  }

  lemma PercentIsShare(amount: int, rate: real)
    ensures Percent(amount, rate) == Share(amount, rate)
  {
  }

  /** Nothing about the line has to be shipped. */
  predicate Intangible(x: Item) {
    x.shipping.Virtual? || x.shipping.Pickup?
  }

  /** The line as if one unit had been ordered. */
  function OneOf(x: Item): Item {
    x.(quantity := 1)
  }

  function Units(x: Item): int {
    if x.market then 1 else x.quantity
  }

  // ---- when there are totals ---------------------------------------------------------------------

  predicate HasPrice(x: Item) {
    x.quantity > 0 && x.surcharge.Some?
  }

  predicate Orderable(x: Item) {
    HasPrice(x) && !x.shipping.Unavailable?
  }

  lemma {:induction false} ParcelsExist(items: seq<Item>, country: nat)
    ensures Parcels(items, country).Some? <==> forall x <- items :: !x.shipping.Unavailable?
  {
    if items != [] {
      var init, last := items[..|items| - 1], items[|items| - 1];
      ParcelsExist(init, country);
      assert items == init + [last];
      assert forall x :: x in items <==> x in init || x == last;
    }
  }

  /** The totals fail for a quantity that is not positive, a missing SKU or a missing shipping option, and for nothing else. */
  lemma FailsExactly(items: seq<Item>, country: nat)
    ensures TotalsOf(items, country).Ok? <==> forall x <- items :: Orderable(x)
  {
    ParcelsExist(items, country);
  }

  // ---- lines add up --------------------------------------------------------------------------------

  lemma {:induction false} ParcelsConcat(a: seq<Item>, b: seq<Item>, country: nat)
    requires Parcels(a, country).Some? && Parcels(b, country).Some?
    ensures Parcels(a + b, country) == Some(Parcels(a, country).value + Parcels(b, country).value)
  {
    if b == [] {
      assert a + b == a;
      assert Parcels(a, country).value + [] == Parcels(a, country).value;
    } else {
      var init, last := b[..|b| - 1], b[|b| - 1];
      assert (a + b)[..|a + b| - 1] == a + init && (a + b)[|a + b| - 1] == last;
      ParcelsExist(b, country);
      assert forall x <- init :: x in b;
      ParcelsExist(init, country);
      ParcelsConcat(a, init, country);
      var ps, qs := Parcels(a, country).value, Parcels(init, country).value;
      if last.shipping.Ships? {
        var p := Parcel(last.shipping.primary, last.shipping.secondary, last.quantity, ShippingRate(last.taxes, country));
        assert (ps + qs) + [p] == ps + (qs + [p]);
      }
    }
  }

  lemma {:induction false} NoParcels(items: seq<Item>, country: nat)
    requires forall x <- items :: Intangible(x)
    ensures Parcels(items, country) == Some([])
  {
    if items != [] {
      assert items == items[..|items| - 1] + [items[|items| - 1]] && items[|items| - 1] in items;
      NoParcels(items[..|items| - 1], country);
    }
  }

  lemma OneLine(x: Item, country: nat)
    requires HasPrice(x)
    ensures Priced([x]) && Subtotal([x]) == Quantity(x) * Listed(x) && DiscountsShown([x]) == -Off(x)
    ensures TaxesShown([x], country) == TaxOn(x, country) * Quantity(x)
    ensures GoodsTotal([x], country) == Quantity(x) * (Listed(x) - Off(x) + TaxOn(x, country))
  {
    hide Listed, Off, TaxOn;
    assert [x][..0] == [] && x in [x];
  }

  lemma PricedMore(items: seq<Item>, x: Item)
    requires Priced(items) && HasPrice(x)
    ensures Priced(items + [x])
  {
  }

  /** The goods of one more line on top of an order: the taxes shown so far are multiplied once more. */
  lemma GoodsOfOneMore(items: seq<Item>, x: Item, country: nat)
    requires Priced(items) && HasPrice(x)
    ensures
      && Priced(items + [x]) && Priced([x])
      && Subtotal(items + [x]) == Subtotal(items) + Subtotal([x])
      && DiscountsShown(items + [x]) == DiscountsShown(items) + DiscountsShown([x])
      && GoodsTotal(items + [x], country) == GoodsTotal(items, country) + GoodsTotal([x], country)
      && TaxesShown(items + [x], country) == TaxesShown(items, country) * Units(x) + TaxesShown([x], country)
  {
    hide Listed, Off, TaxOn;
    PricedMore(items, x);
    OneLine(x, country);
    assert (items + [x])[..|items|] == items;
    var t, u, q := TaxesShown(items, country), TaxOn(x, country), Quantity(x);
    assert (t + u) * q == t * q + u * q;
  }

  /** A line that is not shipped adds its own amounts, and multiplies the taxes shown before it by its quantity. */
  lemma OneMoreLine(items: seq<Item>, x: Item, country: nat)
    requires TotalsOf(items, country).Ok? && Orderable(x) && Intangible(x)
    ensures
      var all, before, line := TotalsOf(items + [x], country), TotalsOf(items, country).value, TotalsOf([x], country);
      && all.Ok? && line.Ok? && line.value.shipping == 0
      && var own := line.value;
         all.value == Totals(before.subtotal + own.subtotal, before.shipping, before.discounts + own.discounts,
                             before.taxes * Units(x) + own.taxes, before.total + own.total)
  {
    hide Subtotal, DiscountsShown, TaxesShown, GoodsTotal, ShippingCharge, Parcels, Priced;
    NoParcels([x], country);
    NothingIsFree();
    ParcelsConcat(items, [x], country);
    assert Parcels(items, country).value + [] == Parcels(items, country).value;
    GoodsOfOneMore(items, x, country);
    IsPriced(items, country);
  }

  lemma NothingIsFree()
    ensures ShippingCharge([]) == 0
  {
  }

  lemma IsPriced(items: seq<Item>, country: nat)
    requires TotalsOf(items, country).Ok?
    ensures Priced(items) && Parcels(items, country).Some?
  {
  }

  /** The same goods with nothing to ship. */
  function Unshipped(items: seq<Item>): seq<Item> {
    if items == [] then [] else Unshipped(items[..|items| - 1]) + [items[|items| - 1].(shipping := Virtual)]
  }

  lemma {:induction false} GoodsUnshipped(items: seq<Item>, country: nat)
    requires Priced(items)
    ensures
      var others := Unshipped(items);
      && Priced(others) && (forall x <- others :: x.shipping.Virtual?)
      && Subtotal(others) == Subtotal(items) && DiscountsShown(others) == DiscountsShown(items)
      && TaxesShown(others, country) == TaxesShown(items, country) && GoodsTotal(others, country) == GoodsTotal(items, country)
  {
    hide Subtotal, DiscountsShown, TaxesShown, GoodsTotal, Priced;
    if items == [] {
      NoItems([], country);
      assert [][..0] == items;
    } else {
      var init, last := items[..|items| - 1], items[|items| - 1];
      assert items == init + [last];
      PricedSplit(items);
      GoodsUnshipped(init, country);
      GoodsOfOneMore(Unshipped(init), last.(shipping := Virtual), country);
      GoodsOfOneMore(init, last, country);
      SameUnit(last, country);
    }
  }

  lemma SameUnit(x: Item, country: nat)
    requires HasPrice(x)
    ensures
      var y := x.(shipping := Virtual);
      && Priced([x]) && Priced([y])
      && Subtotal([x]) == Subtotal([y]) && DiscountsShown([x]) == DiscountsShown([y])
      && TaxesShown([x], country) == TaxesShown([y], country) && GoodsTotal([x], country) == GoodsTotal([y], country)
  {
    var y := x.(shipping := Virtual);
    assert Listed(x) == Listed(y) && Off(x) == Off(y) && TaxOn(x, country) == TaxOn(y, country);
    OneLine(x, country);
    OneLine(y, country);
  }

  /** What is shipped changes the shipping charge, and the total by that, and nothing else. */
  lemma ShippingStandsApart(items: seq<Item>, country: nat)
    requires TotalsOf(items, country).Ok?
    ensures
      var all := TotalsOf(items, country).value;
      TotalsOf(Unshipped(items), country) == Ok(all.(shipping := 0, total := all.total - all.shipping))
  {
    hide Subtotal, DiscountsShown, TaxesShown, GoodsTotal, ShippingCharge, Parcels, Priced;
    IsPriced(items, country);
    GoodsUnshipped(items, country);
    NoParcels(Unshipped(items), country);
    NothingIsFree();
  }

  // ---- one line -----------------------------------------------------------------------------------

  /** Everything but the discounts shown grows with the quantity; of those, one unit's are shown. */
  lemma QuantityScales(x: Item, country: nat)
    requires Orderable(x) && Intangible(x)
    ensures
      var all, one := TotalsOf([x], country), TotalsOf([OneOf(x)], country);
      && all.Ok? && one.Ok?
      && all.value == Totals(Units(x) * one.value.subtotal, 0, one.value.discounts, Units(x) * one.value.taxes, Units(x) * one.value.total)
  {
    hide Parcels, ShippingCharge;
    NoParcels([x], country);
    NoParcels([OneOf(x)], country);
    NothingIsFree();
    OneLine(x, country);
    OneLine(OneOf(x), country);
  }

  /** The totals of one unit of a line. */
  lemma OfOneUnit(x: Item, country: nat)
    requires Orderable(x) && Intangible(x) && x.quantity == 1
    ensures TotalsOf([x], country) == Ok(Totals(Listed(x), 0, -Off(x), TaxOn(x, country), Listed(x) - Off(x) + TaxOn(x, country)))
  {
    hide Parcels, ShippingCharge, Listed, Off, TaxOn;
    NoParcels([x], country);
    NothingIsFree();
    OneLine(x, country);
  }

  /** Without coupons and taxes a unit costs its price, with the modifier of a market price, and the surcharge of its SKU. */
  lemma ListPrice(x: Item, country: nat)
    requires Orderable(x) && Intangible(x) && x.codes == [] && x.taxes == []
    ensures
      var listed := x.price + x.surcharge.value + if x.market then Share(x.price, x.modifier) else 0;
      TotalsOf([x], country) == Ok(Totals(Units(x) * listed, 0, 0, 0, Units(x) * listed))
  {
    OfOneUnit(OneOf(x), country);
    QuantityScales(x, country);
  }

  /** A tax that names the country is charged on the unit with the earlier taxes in it; any other changes nothing. */
  lemma LastTax(x: Item, ts: seq<Tax>, t: Tax, country: nat)
    requires Orderable(x) && Intangible(x) && x.quantity == 1 && x.taxes == ts + [t]
    ensures
      var before := TotalsOf([x.(taxes := ts)], country);
      && before.Ok?
      && var extra := if country in t.regions then Share(before.value.total, t.rate) else 0;
         TotalsOf([x], country) == Ok(before.value.(taxes := before.value.taxes + extra, total := before.value.total + extra))
  {
    hide Listed, Off, TaxOn, TotalsOf, Share;
    var y := x.(taxes := ts);
    OneMoreTax(x, y, ts, t, country);
    OfOneUnit(x, country);
    OfOneUnit(y, country);
    assert TotalsOf([y], country).value.total == Listed(y) - Off(y) + TaxOn(y, country);
  }

  lemma OneMoreTax(x: Item, y: Item, ts: seq<Tax>, t: Tax, country: nat)
    requires x.surcharge.Some? && x.taxes == ts + [t] && y == x.(taxes := ts)
    ensures Listed(x) == Listed(y) && Off(x) == Off(y)
    ensures
      var gross := Listed(y) - Off(y) + TaxOn(y, country);
      TaxOn(x, country) == TaxOn(y, country) + if country in t.regions then Share(gross, t.rate) else 0
  {
    hide Listed, AfterCodes, Share;
    SameGoods(x, y);
    LastTaxOn(Net(x), ts, t, country);
    assert Listed(y) - Off(y) + TaxOn(y, country) == WithTaxes(Net(y), ts, country);
  }

  lemma LastTaxOn(net: int, ts: seq<Tax>, t: Tax, country: nat)
    ensures
      var gross := WithTaxes(net, ts, country);
      WithTaxes(net, ts + [t], country) == gross + if country in t.regions then Share(gross, t.rate) else 0
  {
    hide Percent, Share;
    var all := ts + [t];
    assert all[..|all| - 1] == ts && all[|all| - 1] == t;
    PercentIsShare(WithTaxes(net, ts, country), t.rate);
  }

  lemma SameGoods(x: Item, y: Item)
    requires x.surcharge.Some? && y == x.(taxes := y.taxes)
    ensures Listed(x) == Listed(y) && Off(x) == Off(y) && Net(x) == Net(y)
  {
  }

  /** What a coupon leaves of a price. */
  function Reduced(price: int, d: Discount): int {
    match d
    case PriceOff(amount) => price - if amount > 0 then amount else 0
    case RateOff(rate) => if rate > 0.0 then price + Share(price, -rate) else price
  }

  /** A line without codes, or without coupons, has no discount. */
  lemma NoCoupons(x: Item, country: nat)
    requires Orderable(x) && Intangible(x) && x.quantity == 1 && x.taxes == [] && (x.codes == [] || x.coupons == [])
    ensures
      var r := TotalsOf([x], country);
      r.Ok? && r.value.discounts == 0 && r.value.taxes == 0 && r.value.total == r.value.subtotal
  {
    hide Listed;
    OfOneUnit(x, country);
    NothingMatches(Listed(x), x.codes, x.coupons);
  }

  lemma {:induction false} NothingMatches(price: int, codes: seq<nat>, coupons: seq<Coupon>)
    requires codes == [] || coupons == []
    ensures AfterCodes(price, codes, coupons) == price
  {
    if codes != [] {
      NothingMatches(price, codes[..|codes| - 1], coupons);
    }
  }

  /** With one code, the coupon that has it reduces what the coupons before it left; any other changes nothing. */
  lemma LastCoupon(x: Item, c: nat, ks: seq<Coupon>, k: Coupon, country: nat)
    requires Orderable(x) && Intangible(x) && x.quantity == 1 && x.taxes == [] && x.codes == [c] && x.coupons == ks + [k]
    ensures
      var before := TotalsOf([x.(coupons := ks)], country);
      && before.Ok?
      && var left := if k.code == c then Reduced(before.value.total, k.discount) else before.value.total;
         TotalsOf([x], country) == Ok(before.value.(total := left, discounts := left - before.value.subtotal))
  {
    hide Listed;
    var y := x.(coupons := ks);
    SameListPrice(x, y);
    OfOneUnit(x, country);
    OfOneUnit(y, country);
    OneCode(Listed(x), c, ks + [k]);
    OneCode(Listed(x), c, ks);
    assert (ks + [k])[..|ks + [k]| - 1] == ks;
    assert TotalsOf([y], country).value.total == AfterCoupons(Listed(x), c, ks);
    assert TotalsOf([x], country).value.total == AfterCoupons(Listed(x), c, ks + [k]);
  }

  lemma SameListPrice(x: Item, y: Item)
    requires x.surcharge.Some? && y == x.(coupons := y.coupons, codes := y.codes)
    ensures Listed(x) == Listed(y)
  {
  }

  lemma OneCode(price: int, c: nat, coupons: seq<Coupon>)
    ensures AfterCodes(price, [c], coupons) == AfterCoupons(price, c, coupons)
  {
    hide AfterCoupons;
    assert [c][..|[c]| - 1] == [];
    assert AfterCodes(price, [c][..|[c]| - 1], coupons) == price;
  }

  /** A further code reduces what the codes before it left, as if that were the list price. */
  lemma LastCode(x: Item, cs: seq<nat>, c: nat, country: nat)
    requires Orderable(x) && Intangible(x) && x.quantity == 1 && x.taxes == [] && x.codes == cs + [c]
    ensures
      var before := TotalsOf([x.(codes := cs)], country);
      && before.Ok?
      && var again := TotalsOf([x.(market := false, price := before.value.total, surcharge := Some(0), codes := [c])], country);
         && again.Ok?
         && TotalsOf([x], country) ==
              Ok(before.value.(total := again.value.total, discounts := again.value.total - before.value.subtotal))
  {
    var y := x.(codes := cs);
    SameListPrice(x, y);
    OfOneUnit(y, country);
    var z := x.(market := false, price := TotalsOf([y], country).value.total, surcharge := Some(0), codes := [c]);
    OfOneUnit(x, country);
    OfOneUnit(z, country);
    hide AfterCoupons, Percent;
    assert (cs + [c])[..|cs|] == cs;
    OneCode(Listed(z), c, x.coupons);
  }

  // ---- what does not concern an order -----------------------------------------------------------------

  /** The two lines cost and ship the same. */
  predicate Alike(x: Item, y: Item, country: nat) {
    && x.quantity == y.quantity && x.market == y.market && x.shipping == y.shipping && x.surcharge.Some? == y.surcharge.Some?
    && ShippingRate(x.taxes, country) == ShippingRate(y.taxes, country)
    && (x.surcharge.Some? ==> Listed(x) == Listed(y) && Off(x) == Off(y) && TaxOn(x, country) == TaxOn(y, country))
  }

  lemma {:induction false} AlikeLines(items: seq<Item>, others: seq<Item>, country: nat)
    requires |items| == |others| && forall i | 0 <= i < |items| :: Alike(items[i], others[i], country)
    ensures Priced(items) <==> Priced(others)
    ensures Parcels(items, country) == Parcels(others, country)
    ensures Priced(items) ==>
      && Subtotal(items) == Subtotal(others) && DiscountsShown(items) == DiscountsShown(others)
      && TaxesShown(items, country) == TaxesShown(others, country) && GoodsTotal(items, country) == GoodsTotal(others, country)
  {
    hide Listed, Off, TaxOn, ShippingRate;
    if items != [] {
      var init, rest := items[..|items| - 1], others[..|others| - 1];
      AlikeLines(init, rest, country);
      assert Alike(items[|items| - 1], others[|others| - 1], country);
      PricedSplit(items);
      PricedSplit(others);
    }
  }

  lemma PricedSplit(items: seq<Item>)
    requires items != []
    ensures
      var last := items[|items| - 1];
      Priced(items) <==> Priced(items[..|items| - 1]) && last.quantity > 0 && last.surcharge.Some?
  {
    assert items == items[..|items| - 1] + [items[|items| - 1]];
  }

  lemma SwapAlike(a: seq<Item>, x: Item, y: Item, b: seq<Item>, country: nat)
    requires Alike(x, y, country)
    ensures TotalsOf(a + [x] + b, country) == TotalsOf(a + [y] + b, country)
  {
    hide Alike, Priced, Parcels, Subtotal, DiscountsShown, TaxesShown, GoodsTotal, ShippingCharge;
    var items, others := a + [x] + b, a + [y] + b;
    forall i | 0 <= i < |items| ensures Alike(items[i], others[i], country) {
      AlikeItself(items[i], country);
    }
    AlikeLines(items, others, country);
  }

  lemma AlikeItself(x: Item, country: nat)
    ensures Alike(x, x, country)
  {
  }

  lemma {:induction false} IrrelevantTax(net: int, s: seq<Tax>, t: Tax, e: seq<Tax>, country: nat)
    requires country !in t.regions
    ensures WithTaxes(net, s + [t] + e, country) == WithTaxes(net, s + e, country)
    ensures ShippingRate(s + [t] + e, country) == ShippingRate(s + e, country)
  {
    hide Percent;
    if e == [] {
      assert s + [t] + e == s + [t] && s + e == s && (s + [t])[..|s|] == s;
    } else {
      var init, last := e[..|e| - 1], e[|e| - 1];
      IrrelevantTax(net, s, t, init, country);
      assert (s + [t] + e)[..|s + [t] + e| - 1] == s + [t] + init && (s + e)[..|s + e| - 1] == s + init;
    }
  }

  /** A tax that does not name the buyer's country changes no field, on whatever line and at whatever place it stands. */
  lemma ForeignTaxIsFree(a: seq<Item>, x: Item, b: seq<Item>, s: seq<Tax>, t: Tax, e: seq<Tax>, country: nat)
    requires country !in t.regions && x.taxes == s + e
    ensures TotalsOf(a + [x.(taxes := s + [t] + e)] + b, country) == TotalsOf(a + [x] + b, country)
  {
    hide TotalsOf, Percent, WithTaxes, ShippingRate, AfterCodes, Listed;
    var y := x.(taxes := s + [t] + e);
    if x.surcharge.Some? {
      SameGoods(y, x);
      IrrelevantTax(Net(x), s, t, e, country);
    }
    IrrelevantTax(0, s, t, e, country);
    SwapAlike(a, y, x, b, country);
  }

  lemma {:induction false} NoTax(net: int, ts: seq<Tax>, country: nat)
    requires forall t <- ts :: country !in t.regions
    ensures WithTaxes(net, ts, country) == net && ShippingRate(ts, country) == 0.0
  {
    hide Percent;
    if ts != [] {
      assert ts == ts[..|ts| - 1] + [ts[|ts| - 1]] && ts[|ts| - 1] in ts;
      NoTax(net, ts[..|ts| - 1], country);
    }
  }

  /** When no tax names the buyer's country the order shows none. */
  lemma {:induction false} UntaxedOrder(items: seq<Item>, country: nat)
    requires TotalsOf(items, country).Ok? && forall x <- items :: forall t <- x.taxes :: country !in t.regions
    ensures TotalsOf(items, country).value.taxes == 0
  {
    if items != [] {
      var init, last := items[..|items| - 1], items[|items| - 1];
      assert items == init + [last] && last in items;
      FailsExactly(items, country);
      FailsExactly(init, country);
      UntaxedOrder(init, country);
      NoTax(Net(last), last.taxes, country);
      assert 0 * Quantity(last) == 0;
    }
  }

  /** One tax that names the country takes its share of every unit's price. */
  lemma OneTax(x: Item, s: seq<Tax>, t: Tax, e: seq<Tax>, country: nat)
    requires Orderable(x) && Intangible(x) && x.codes == [] && x.taxes == s + [t] + e && country in t.regions
    requires forall o <- s + e :: country !in o.regions
    ensures
      var listed := x.price + x.surcharge.value + if x.market then Share(x.price, x.modifier) else 0;
      var tax := Share(listed, t.rate);
      TotalsOf([x], country) == Ok(Totals(Units(x) * listed, 0, 0, Units(x) * tax, Units(x) * (listed + tax)))
  {
    hide TotalsOf, Share;
    var y := OneOf(x);
    assert forall o <- e :: o in s + e;
    LaterTaxesAreFree(y, s + [t], e, country);
    LastTax(y.(taxes := s + [t]), s, t, country);
    assert forall o <- s :: o in s + e;
    LaterTaxesAreFree(y.(taxes := s), [], s, country);
    assert [] + s == s;
    ListPrice(y.(taxes := []), country);
    QuantityScales(x, country);
  }

  lemma {:induction false} LaterTaxesAreFree(x: Item, s: seq<Tax>, e: seq<Tax>, country: nat)
    requires Orderable(x) && Intangible(x) && x.quantity == 1 && x.taxes == s + e && forall o <- e :: country !in o.regions
    ensures TotalsOf([x], country) == TotalsOf([x.(taxes := s)], country)
    decreases |e|
  {
    hide TotalsOf;
    if e == [] {
      assert s + e == s;
    } else {
      var init, last := e[..|e| - 1], e[|e| - 1];
      assert e == init + [last] && last in e && s + e == (s + init) + [last];
      LastTax(x, s + init, last, country);
      LaterTaxesAreFree(x.(taxes := s + init), s, init, country);
      Unchanged(TotalsOf([x.(taxes := s + init)], country));
    }
  }

  lemma Unchanged(r: Result<Totals>)
    requires r.Ok?
    ensures r == Ok(r.value.(taxes := r.value.taxes + 0, total := r.value.total + 0))
  {
  }

  lemma {:induction false} UnnamedCoupon(price: int, c: nat, s: seq<Coupon>, k: Coupon, e: seq<Coupon>)
    requires k.code != c
    ensures AfterCoupons(price, c, s + [k] + e) == AfterCoupons(price, c, s + e)
  {
    hide TakeOff;
    if e == [] {
      assert s + [k] + e == s + [k] && s + e == s && (s + [k])[..|s|] == s;
    } else {
      var init := e[..|e| - 1];
      UnnamedCoupon(price, c, s, k, init);
      assert (s + [k] + e)[..|s + [k] + e| - 1] == s + [k] + init && (s + e)[..|s + e| - 1] == s + init;
    }
  }

  lemma {:induction false} UnnamedByAll(price: int, codes: seq<nat>, s: seq<Coupon>, k: Coupon, e: seq<Coupon>)
    requires k.code !in codes
    ensures AfterCodes(price, codes, s + [k] + e) == AfterCodes(price, codes, s + e)
  {
    hide AfterCoupons;
    if codes != [] {
      UnnamedByAll(price, codes[..|codes| - 1], s, k, e);
      UnnamedCoupon(AfterCodes(price, codes[..|codes| - 1], s + e), codes[|codes| - 1], s, k, e);
    }
  }

  /** A coupon no code of its line names changes no field. */
  lemma UnnamedCouponIsFree(a: seq<Item>, x: Item, b: seq<Item>, s: seq<Coupon>, k: Coupon, e: seq<Coupon>, country: nat)
    requires k.code !in x.codes && x.coupons == s + e
    ensures TotalsOf(a + [x.(coupons := s + [k] + e)] + b, country) == TotalsOf(a + [x] + b, country)
  {
    hide TotalsOf, Percent, WithTaxes, ShippingRate, AfterCodes;
    var y := x.(coupons := s + [k] + e);
    if x.surcharge.Some? {
      UnnamedByAll(Listed(x), x.codes, s, k, e);
    }
    SwapAlike(a, y, x, b, country);
  }

  // ---- shipping ----------------------------------------------------------------------------------------

  /** The shipping tax is that of the last tax that names the country and applies to shipping. */
  lemma {:induction false} LastShippingTax(s: seq<Tax>, t: Tax, e: seq<Tax>, country: nat)
    requires country in t.regions && t.onShipping && forall o <- e :: !(country in o.regions && o.onShipping)
    ensures ShippingRate(s + [t] + e, country) == t.rate
  {
    if e == [] {
      assert s + [t] + e == s + [t];
    } else {
      var init := e[..|e| - 1];
      assert e == init + [e[|e| - 1]] && e[|e| - 1] in e;
      LastShippingTax(s, t, init, country);
      assert (s + [t] + e)[..|s + [t] + e| - 1] == s + [t] + init;
    }
  }

  lemma {:induction false} NoShippingTax(ts: seq<Tax>, country: nat)
    requires forall o <- ts :: !(country in o.regions && o.onShipping)
    ensures ShippingRate(ts, country) == 0.0
  {
    if ts != [] {
      assert ts == ts[..|ts| - 1] + [ts[|ts| - 1]] && ts[|ts| - 1] in ts;
      NoShippingTax(ts[..|ts| - 1], country);
    }
  }

  lemma OneParcelOf(x: Item, country: nat)
    requires x.shipping.Ships?
    ensures Parcels([x], country) == Some([Parcel(x.shipping.primary, x.shipping.secondary, x.quantity, ShippingRate(x.taxes, country))])
  {
    hide ShippingRate;
    var all := [x];
    assert all[..|all| - 1] == [];
    var p := Parcel(x.shipping.primary, x.shipping.secondary, x.quantity, ShippingRate(x.taxes, country));
    assert Parcels(all[..|all| - 1], country) == Some([]);
    assert [] + [p] == [p];
  }

  /** The parcels of an order are those of its shipped lines, in order; the others add none. */
  lemma ParcelsAround(a: seq<Item>, x: Item, b: seq<Item>, country: nat)
    requires Parcels(a, country).Some? && Parcels(b, country).Some? && !x.shipping.Unavailable?
    ensures
      var own := if x.shipping.Ships?
                 then [Parcel(x.shipping.primary, x.shipping.secondary, x.quantity, ShippingRate(x.taxes, country))] else [];
      Parcels(a + [x] + b, country) == Some(Parcels(a, country).value + own + Parcels(b, country).value)
  {
    hide ShippingRate, Parcels;
    if x.shipping.Ships? {
      OneParcelOf(x, country);
    } else {
      NoParcels([x], country);
    }
    ParcelsConcat(a, [x], country);
    ParcelsConcat(a + [x], b, country);
  }

  /** A single shipped line costs its primary price once and its secondary price for every further unit, each with its tax. */
  lemma ShipsAlone(a: seq<Item>, x: Item, b: seq<Item>, country: nat)
    requires forall y <- a + [x] + b :: Orderable(y)
    requires x.shipping.Ships? && forall y <- a + b :: Intangible(y)
    ensures
      var r := TotalsOf(a + [x] + b, country);
      var rate := ShippingRate(x.taxes, country);
      var first, more := x.shipping.primary, x.shipping.secondary * (x.quantity - 1);
      r.Ok? && r.value.shipping == first + Share(first, rate) + more + Share(more, rate)
  {
    hide ShippingRate, Parcels, Share;
    var items := a + [x] + b;
    FailsExactly(items, country);
    assert x in items;
    assert forall y <- a :: y in a + b;
    assert forall y <- b :: y in a + b;
    NoParcels(a, country);
    NoParcels(b, country);
    ParcelsAround(a, x, b, country);
    var p := Parcel(x.shipping.primary, x.shipping.secondary, x.quantity, ShippingRate(x.taxes, country));
    assert [] + [p] + [] == [p];
    LoneParcel(p);
  }

  lemma LoneParcel(p: Parcel)
    requires p.quantity > 0
    ensures
      var more := p.secondary * (p.quantity - 1);
      ShippingCharge([p]) == p.primary + Share(p.primary, p.rate) + more + Share(more, p.rate)
  {
    Nothing(p.rate);
    if p.quantity == 1 {
      assert p.secondary * (p.quantity - 1) == 0;
    }
  }

  /** What a parcel costs when all its units are charged the secondary price, and what its dearest unit costs more. */
  function AllSecondary(p: Parcel): int {
    p.secondary * p.quantity + Share(p.secondary * p.quantity, p.rate)
  }

  function DearestExtra(p: Parcel): int {
    p.primary + Share(p.primary, p.rate) - p.secondary - Share(p.secondary, p.rate)
  }

  /** From two parcels on, another one adds its secondary prices, and takes the primary price over when it is the dearest. */
  lemma AnotherParcel(a: seq<Parcel>, p: Parcel, b: seq<Parcel>)
    requires Sound(a + [p] + b) && |a + b| >= 2
    ensures
      var d := (a + b)[Dearest(a + b)];
      && d in a + b && (forall x <- a + b :: x.primary <= d.primary)
      && ShippingCharge(a + [p] + b) == ShippingCharge(a + b) + AllSecondary(p)
           + if Displaces(a, p, b) then DearestExtra(p) - DearestExtra(d) else 0
  {
    hide ShippingCharge, Secondaries, Displaces, Dearest, Highest, Percent, Share;
    var ps := a + b;
    PartIsSound(a, p, b);
    ChargeIs(a + [p] + b);
    ChargeIs(ps);
    ManyAdd(a + [p] + b);
    ManyAdd(ps);
    SecondariesOfMore(a, p, b);
    DearestOfMore(a, p, b);
    DearestIsFirst(ps);
    ExtraIsSwap(p);
    ExtraIsSwap(ps[Dearest(ps)]);
  }

  lemma ExtraIsSwap(p: Parcel)
    ensures SwapCost(p) == DearestExtra(p) && WithTax(p.secondary * p.quantity, p.rate) == AllSecondary(p)
  {
  }

  /** Two parcels: both at the secondary price, and the dearest unit of the dearer one, of the first when equal, at the primary. */
  lemma TwoParcels(p: Parcel, q: Parcel)
    requires Sound([p, q])
    ensures ShippingCharge([p, q]) == AllSecondary(p) + AllSecondary(q) + DearestExtra(if q.primary > p.primary then q else p)
  {
    hide Percent, Share;
    var ps := [p, q];
    assert ps[..1] == [p] && [p][..0] == [] && p in ps && q in ps;
    ExtraIsSwap(p);
    ExtraIsSwap(q);
    assert Highest([p]) == p.primary && Dearest([p]) == 0;
    assert Secondaries(ps) == AllSecondary(p) + AllSecondary(q) by {
      assert Secondaries([p]) == AllSecondary(p);
    }
  }
}
