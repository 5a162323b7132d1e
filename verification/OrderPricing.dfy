/**
 Order totals. Prices arrive converted to the payment currency; percentages are exact rationals and
 every percentage of an amount is truncated toward zero, as the conversion to an integer does.
 */
module OrderPricing {
  import opened Common

  datatype Result<T> = Ok(value: T) | Failed

  function Truncate(x: real): int {
    if x >= 0.0 then x.Floor else -((-x).Floor)
  }

  function Percent(amount: int, rate: real): int {
    Truncate(amount as real * rate)
  }

  datatype Discount = PriceOff(amount: int) | RateOff(rate: real)
  datatype Coupon = Coupon(code: nat, discount: Discount)
  datatype Tax = Tax(regions: seq<nat>, rate: real, onShipping: bool)

  datatype Shipping = Virtual | Pickup | Unavailable | Ships(primary: int, secondary: int)

  /**
   One line of the order with what its listing says. `surcharge` is missing when no SKU matches the
   selected options. A market price is for the whole quantity and carries a modifier.
   */
  datatype Item = Item(
    quantity: int, market: bool, price: int, modifier: real, surcharge: Option<int>,
    codes: seq<nat>, coupons: seq<Coupon>, taxes: seq<Tax>, shipping: Shipping)

  datatype Totals = Totals(subtotal: int, shipping: int, discounts: int, taxes: int, total: int)

  // ---- one unit -----------------------------------------------------------------------------------

  function Quantity(item: Item): int {
    if item.market then 1 else item.quantity
  }

  function Listed(item: Item): int
    requires item.surcharge.Some?
  {
    item.price + (if item.market then Percent(item.price, item.modifier) else 0) + item.surcharge.value
  }

  function TakeOff(price: int, d: Discount): int {
    match d
    case PriceOff(amount) => if amount > 0 then price - amount else price
    case RateOff(rate) => if rate > 0.0 then price + Percent(price, -rate) else price
  }

  function AfterCoupons(price: int, code: nat, coupons: seq<Coupon>): int {
    if coupons == [] then price
    else
      var last := coupons[|coupons| - 1];
      var before := AfterCoupons(price, code, coupons[..|coupons| - 1]);
      if last.code == code then TakeOff(before, last.discount) else before
  }

  function AfterCodes(price: int, codes: seq<nat>, coupons: seq<Coupon>): int {
    if codes == [] then price
    else AfterCoupons(AfterCodes(price, codes[..|codes| - 1], coupons), codes[|codes| - 1], coupons)
  }

  /** Each tax that names the region applies once, to the price with the earlier taxes in it. */
  function WithTaxes(price: int, taxes: seq<Tax>, country: nat): int {
    if taxes == [] then price
    else
      var last := taxes[|taxes| - 1];
      var before := WithTaxes(price, taxes[..|taxes| - 1], country);
      if country in last.regions then before + Percent(before, last.rate) else before
  }

  function Net(item: Item): int
    requires item.surcharge.Some?
  {
    AfterCodes(Listed(item), item.codes, item.coupons)
  }

  /** What the coupons take off one unit. */
  function Off(item: Item): int
    requires item.surcharge.Some?
  {
    Listed(item) - Net(item)
  }

  /** What the taxes add to one unit. */
  function TaxOn(item: Item, country: nat): int
    requires item.surcharge.Some?
  {
    WithTaxes(Net(item), item.taxes, country) - Net(item)
  }

  // ---- sums over the items --------------------------------------------------------------------------

  predicate Priced(items: seq<Item>) {
    forall item <- items :: item.quantity > 0 && item.surcharge.Some?
  }

  function GoodsTotal(items: seq<Item>, country: nat): int
    requires Priced(items)
  {
    if items == [] then 0
    else
      var last := items[|items| - 1];
      GoodsTotal(items[..|items| - 1], country) + Quantity(last) * (Listed(last) - Off(last) + TaxOn(last, country))
  }

  function Subtotal(items: seq<Item>): int
    requires Priced(items)
  {
    if items == [] then 0
    else Subtotal(items[..|items| - 1]) + Quantity(items[|items| - 1]) * Listed(items[|items| - 1])
  }

  /** The discounts as reported: one unit of each item. */
  function DiscountsShown(items: seq<Item>): int
    requires Priced(items)
  {
    if items == [] then 0 else DiscountsShown(items[..|items| - 1]) - Off(items[|items| - 1])
  }

  /** The taxes as reported: the running total is multiplied by the quantity of every later item again. */
  function TaxesShown(items: seq<Item>, country: nat): int
    requires Priced(items)
  {
    if items == [] then 0
    else (TaxesShown(items[..|items| - 1], country) + TaxOn(items[|items| - 1], country)) * Quantity(items[|items| - 1])
  }

  // ---- shipping ---------------------------------------------------------------------------------------

  datatype Parcel = Parcel(primary: int, secondary: int, quantity: int, rate: real)

  /** The rate of the last tax that names the region and applies to shipping. */
  function ShippingRate(taxes: seq<Tax>, country: nat): real {
    if taxes == [] then 0.0
    else
      var last := taxes[|taxes| - 1];
      if country in last.regions && last.onShipping then last.rate else ShippingRate(taxes[..|taxes| - 1], country)
  }

  /** The items that are shipped; None when one of them cannot be. */
  function Parcels(items: seq<Item>, country: nat): Option<seq<Parcel>> {
    if items == [] then Some([])
    else
      var before, last := Parcels(items[..|items| - 1], country), items[|items| - 1];
      match last.shipping
      case Virtual => before
      case Pickup => before
      case Unavailable => None
      case Ships(primary, secondary) =>
        if before.None? then None
        else Some(before.value + [Parcel(primary, secondary, last.quantity, ShippingRate(last.taxes, country))])
  }

  function WithTax(amount: int, rate: real): int {
    amount + Percent(amount, rate)
  }

  /** The first parcel dearer than everything before it and than zero, or the first parcel of all. */
  function Dearest(ps: seq<Parcel>): (k: nat)
    requires ps != []
    ensures k < |ps|
  {
    if |ps| == 1 then 0
    else
      var k := Dearest(ps[..|ps| - 1]);
      if ps[|ps| - 1].primary > Highest(ps[..|ps| - 1]) then |ps| - 1 else k
  }

  function Highest(ps: seq<Parcel>): int {
    if ps == [] then 0
    else
      var h := Highest(ps[..|ps| - 1]);
      if ps[|ps| - 1].primary > h then ps[|ps| - 1].primary else h
  }

  function Secondaries(ps: seq<Parcel>): int {
    if ps == [] then 0
    else Secondaries(ps[..|ps| - 1]) + WithTax(ps[|ps| - 1].secondary * ps[|ps| - 1].quantity, ps[|ps| - 1].rate)
  }

  /** What the two branches for one and for several parcels charge. */
  function ShippingCharge(ps: seq<Parcel>): int {
    if ps == [] then 0
    else if |ps| == 1 then
      var p := ps[0];
      WithTax(p.primary, p.rate) + if p.quantity > 1 then WithTax(p.secondary * (p.quantity - 1), p.rate) else 0
    else
      var p := ps[Dearest(ps)];
      Secondaries(ps) - WithTax(p.secondary, p.rate) + WithTax(p.primary, p.rate)
  }

  method FindShippingRate(taxes: seq<Tax>, country: nat) returns (rate: real)
    ensures rate == ShippingRate(taxes, country)
  {
    rate := 0.0;
    for i := 0 to |taxes|
      invariant rate == ShippingRate(taxes[..i], country)
    {
      assert taxes[..i + 1][..i] == taxes[..i];
      if country in taxes[i].regions && taxes[i].onShipping {
        rate := taxes[i].rate;
      }
    }
    assert taxes[..|taxes|] == taxes;
  }

  method CalculateShippingTotal(items: seq<Item>, country: nat) returns (r: Result<int>)
    ensures r.Ok? <==> Parcels(items, country).Some?
    ensures r.Ok? ==> r.value == ShippingCharge(Parcels(items, country).value)
  {
    var parcels: seq<Parcel> := [];
    for i := 0 to |items|
      invariant Parcels(items[..i], country) == Some(parcels)
    {
      assert items[..i + 1][..i] == items[..i];
      match items[i].shipping {
        case Virtual =>
        case Pickup =>
        case Unavailable =>
          UnavailableForGood(items, country, i + 1);
          return Failed;
        case Ships(primary, secondary) =>
          var rate := FindShippingRate(items[i].taxes, country);
          parcels := parcels + [Parcel(primary, secondary, items[i].quantity, rate)];
      }
    }
    assert items[..|items|] == items;
    if |parcels| == 0 {
      return Ok(0);
    }
    var total := 0;
    if |parcels| == 1 {
      var p := parcels[0];
      total := total + p.primary;
      total := total + Percent(p.primary, p.rate);
      if p.quantity > 1 {
        total := total + p.secondary * (p.quantity - 1);
        total := total + Percent(p.secondary * (p.quantity - 1), p.rate);
      }
      return Ok(total);
    }
    var highest, k := 0, 0;
    for x := 0 to |parcels|
      invariant highest == Highest(parcels[..x]) && total == Secondaries(parcels[..x])
      invariant x == 0 ==> k == 0
      invariant x > 0 ==> k == Dearest(parcels[..x])
      invariant k < |parcels|
    {
      assert parcels[..x + 1][..x] == parcels[..x];
      if parcels[x].primary > highest {
        highest := parcels[x].primary;
        k := x;
      }
      total := total + parcels[x].secondary * parcels[x].quantity;
      total := total + Percent(parcels[x].secondary * parcels[x].quantity, parcels[x].rate);
    }
    assert parcels[..|parcels|] == parcels;
    total := total - parcels[k].secondary;
    total := total - Percent(parcels[k].secondary, parcels[k].rate);
    total := total + parcels[k].primary;
    total := total + Percent(parcels[k].primary, parcels[k].rate);
    r := Ok(total);
  }

  lemma {:induction false} UnavailableForGood(items: seq<Item>, country: nat, n: nat)
    requires n <= |items| && Parcels(items[..n], country).None?
    ensures Parcels(items, country).None?
  {
    if n == |items| {
      assert items[..n] == items;
    } else {
      var init := items[..|items| - 1];
      assert init[..n] == items[..n];
      UnavailableForGood(init, country, n);
    }
  }

  lemma NoItems(items: seq<Item>, country: nat)
    ensures Priced(items[..0]) && GoodsTotal(items[..0], country) == 0 && Subtotal(items[..0]) == 0
    ensures DiscountsShown(items[..0]) == 0 && TaxesShown(items[..0], country) == 0
  {
  }

  lemma NotPriced(items: seq<Item>, i: nat)
    requires i < |items| && (items[i].quantity <= 0 || items[i].surcharge.None?)
    ensures !Priced(items)
  {
    assert items[i] in items;
  }

  lemma OneMoreItem(items: seq<Item>, country: nat, i: nat)
    requires i < |items| && Priced(items[..i])
    ensures Priced(items[..i + 1]) <==> items[i].quantity > 0 && items[i].surcharge.Some?
    ensures items[i].quantity > 0 && items[i].surcharge.Some? ==>
      var item := items[i];
      && GoodsTotal(items[..i + 1], country) ==
           GoodsTotal(items[..i], country) + Quantity(item) * WithTaxes(Net(item), item.taxes, country)
      && Subtotal(items[..i + 1]) == Subtotal(items[..i]) + Quantity(item) * Listed(item)
      && DiscountsShown(items[..i + 1]) == DiscountsShown(items[..i]) - Off(item)
      && TaxesShown(items[..i + 1], country) == (TaxesShown(items[..i], country) + TaxOn(item, country)) * Quantity(item)
  {
    hide Percent, WithTaxes, AfterCodes;
    assert items[..i + 1] == items[..i] + [items[i]];
    assert items[..i + 1][..i] == items[..i];
  }

  /** The totals of an order, or the failure of a bad quantity, SKU or shipping option. */
  function TotalsOf(items: seq<Item>, country: nat): Result<Totals> {
    if Priced(items) && Parcels(items, country).Some? then
      var shipping := ShippingCharge(Parcels(items, country).value);
      Ok(Totals(Subtotal(items), shipping, DiscountsShown(items), TaxesShown(items, country), GoodsTotal(items, country) + shipping))
    else Failed
  }

  method CalculateOrderTotal(items: seq<Item>, country: nat) returns (r: Result<Totals>)
    ensures r == TotalsOf(items, country)
  {
    hide Percent, WithTaxes, AfterCodes, GoodsTotal, Subtotal, DiscountsShown, TaxesShown, Parcels, ShippingCharge, Priced;
    NoItems(items, country);
    var orderTotal, subTotal, taxesTotal, discountsTotal := 0, 0, 0, 0;
    for i := 0 to |items|
      invariant Priced(items[..i])
      invariant orderTotal == GoodsTotal(items[..i], country) && subTotal == Subtotal(items[..i])
      invariant taxesTotal == TaxesShown(items[..i], country) && discountsTotal == DiscountsShown(items[..i])
    {
      var item := items[i];
      OneMoreItem(items, country, i);
      if item.quantity <= 0 || item.surcharge.None? {
        NotPriced(items, i);
        return Failed;
      }
      var quantity := if item.market then 1 else item.quantity;
      var itemTotal := item.price;
      if item.market {
        itemTotal := itemTotal + Percent(itemTotal, item.modifier);
      }
      itemTotal := itemTotal + item.surcharge.value;
      subTotal := subTotal + quantity * itemTotal;
      var taken: int;
      itemTotal, taken := ApplyCoupons(itemTotal, item);
      discountsTotal := discountsTotal + taken;
      var tax: int;
      itemTotal, tax := ApplyTaxes(itemTotal, item.taxes, country);
      taxesTotal := (taxesTotal + tax) * quantity;
      orderTotal := orderTotal + quantity * itemTotal;
    }
    assert items[..|items|] == items;
    var shipping := CalculateShippingTotal(items, country);
    if shipping.Failed? {
      return Failed;
    }
    r := Ok(Totals(subTotal, shipping.value, discountsTotal, taxesTotal, orderTotal + shipping.value));
  }

  method ApplyCoupons(price: int, item: Item) returns (left: int, taken: int)
    ensures left == AfterCodes(price, item.codes, item.coupons)
    ensures taken == left - price
  {
    left, taken := price, 0;
    for i := 0 to |item.codes|
      invariant left == AfterCodes(price, item.codes[..i], item.coupons) && taken == left - price
    {
      assert item.codes[..i + 1][..i] == item.codes[..i];
      ghost var before := left;
      for j := 0 to |item.coupons|
        invariant left == AfterCoupons(before, item.codes[i], item.coupons[..j]) && taken == left - price
      {
        assert item.coupons[..j + 1][..j] == item.coupons[..j];
        if item.coupons[j].code == item.codes[i] {
          match item.coupons[j].discount {
            case PriceOff(amount) =>
              if amount > 0 {
                left, taken := left - amount, taken - amount;
              }
            case RateOff(rate) =>
              if rate > 0.0 {
                var off := Percent(left, -rate);
                left, taken := left + off, taken + off;
              }
          }
        }
      }
      assert item.coupons[..|item.coupons|] == item.coupons;
    }
    assert item.codes[..|item.codes|] == item.codes;
  }

  method ApplyTaxes(price: int, taxes: seq<Tax>, country: nat) returns (gross: int, tax: int)
    ensures gross == WithTaxes(price, taxes, country) && tax == gross - price
  {
    gross, tax := price, 0;
    for i := 0 to |taxes|
      invariant gross == WithTaxes(price, taxes[..i], country) && tax == gross - price
    {
      assert taxes[..i + 1][..i] == taxes[..i];
      var regions := taxes[i].regions;
      ghost var before := gross;
      var k := 0;
      while k < |regions| && regions[k] != country
        invariant k <= |regions| && country !in regions[..k]
      {
        k := k + 1;
      }
      assert regions[..|regions|] == regions;
      if k < |regions| {
        var more := Percent(gross, taxes[i].rate);
        gross, tax := gross + more, tax + more;
      }
    }
    assert taxes[..|taxes|] == taxes;
  }

  // ---- what the shipping branches mean -------------------------------------------------------------

  ghost predicate Sound(ps: seq<Parcel>) {
    forall p <- ps :: p.primary >= 0 && p.secondary >= 0 && p.quantity >= 1 && p.rate >= 0.0
  }

  ghost predicate FirstDearest(ps: seq<Parcel>, b: nat) {
    && b < |ps|
    && (forall j | 0 <= j < |ps| :: ps[j].primary <= ps[b].primary)
    && (forall j | 0 <= j < b :: ps[j].primary < ps[b].primary)
  }

  /** One unit of parcel `b` at its primary rate, every other unit of the order at its secondary rate. */
  function Bill(ps: seq<Parcel>, b: nat): int {
    if ps == [] then 0
    else
      var p := ps[|ps| - 1];
      Bill(ps[..|ps| - 1], b) +
      if |ps| - 1 == b then p.primary + p.secondary * (p.quantity - 1) else p.secondary * p.quantity
  }

  lemma {:induction false} DearestIsFirst(ps: seq<Parcel>)
    requires ps != [] && Sound(ps)
    ensures FirstDearest(ps, Dearest(ps)) && Highest(ps) == ps[Dearest(ps)].primary
  {
    if |ps| > 1 {
      var init := ps[..|ps| - 1];
      DearestIsFirst(init);
      assert ps[|ps| - 1] in ps;
    } else {
      assert ps[0] in ps && ps[..0] == [];
    }
  }

  lemma {:induction false} SecondariesUntaxed(ps: seq<Parcel>, b: nat)
    requires forall p <- ps :: p.rate == 0.0
    ensures Secondaries(ps) == Bill(ps, b) + if b < |ps| then ps[b].secondary - ps[b].primary else 0
  {
    if ps != [] {
      var init := ps[..|ps| - 1];
      var p := ps[|ps| - 1];
      assert p in ps;
      SecondariesUntaxed(init, b);
      Untaxed(p.secondary * p.quantity);
    }
  }

  lemma Untaxed(amount: int)
    ensures Percent(amount, 0.0) == 0
  {
    assert amount as real * 0.0 == 0.0;
  }

  /** Add-all-then-swap, and the single-parcel branch, both charge the plain bill when nothing is taxed. */
  lemma ShippingIsThePlainBill(ps: seq<Parcel>)
    requires ps != [] && Sound(ps) && forall p <- ps :: p.rate == 0.0
    ensures FirstDearest(ps, Dearest(ps))
    ensures ShippingCharge(ps) == Bill(ps, Dearest(ps))
  {
    DearestIsFirst(ps);
    var p := ps[Dearest(ps)];
    assert p in ps;
    Untaxed(p.primary);
    Untaxed(p.secondary);
    Untaxed(p.secondary * (p.quantity - 1));
    if |ps| > 1 {
      SecondariesUntaxed(ps, Dearest(ps));
    } else {
      assert Bill(ps[..0], 0) == 0;
    }
  }

  // ---- truncated taxes --------------------------------------------------------------------------------

  lemma FloorAdd(x: real, y: real)
    ensures 0 <= (x + y).Floor - x.Floor - y.Floor <= 1
  {
  }

  lemma PercentAdd(a: int, b: int, rate: real)
    requires a >= 0 && b >= 0 && rate >= 0.0
    ensures 0 <= Percent(a + b, rate) - Percent(a, rate) - Percent(b, rate) <= 1
    ensures Percent(a, rate) >= 0
  {
    assert (a + b) as real * rate == a as real * rate + b as real * rate;
    FloorAdd(a as real * rate, b as real * rate);
  }

  lemma PercentMonotonic(a: int, b: int, rate: real)
    requires 0 <= a <= b && rate >= 0.0
    ensures 0 <= Percent(a, rate) <= Percent(b, rate)
  {
    PercentAdd(a, b - a, rate);
    PercentAdd(b - a, a, rate);
  }

  /** The tax the several-parcel branch leaves on the other units exceeds the single-parcel branch's by 0 or 1. */
  lemma TaxTruncation(s: int, q: int, rate: real)
    requires s >= 0 && q >= 1 && rate >= 0.0
    ensures 0 <= Percent(s * q, rate) - Percent(s, rate) - Percent(s * (q - 1), rate) <= 1
  {
    assert s * q == s + s * (q - 1);
    PercentAdd(s, s * (q - 1), rate);
  }

  lemma {:induction false} SecondariesCover(ps: seq<Parcel>, k: nat)
    requires Sound(ps) && k < |ps|
    ensures Secondaries(ps) >= WithTax(ps[k].secondary, ps[k].rate) >= 0
  {
    var p := ps[|ps| - 1];
    assert p in ps && ps[k] in ps;
    var init := ps[..|ps| - 1];
    ScaledUp(p.secondary, p.quantity, p.rate);
    if k < |init| {
      SecondariesCover(init, k);
    } else {
      SecondariesNonNegative(init);
    }
  }

  lemma ScaledUp(s: int, q: int, rate: real)
    requires s >= 0 && q >= 1 && rate >= 0.0
    ensures WithTax(s * q, rate) >= WithTax(s, rate) >= 0
  {
    assert s * q == s + s * (q - 1) && s * (q - 1) >= 0;
    PercentMonotonic(s, s * q, rate);
  }

  lemma {:induction false} SecondariesNonNegative(ps: seq<Parcel>)
    requires Sound(ps)
    ensures Secondaries(ps) >= 0
  {
    if ps != [] {
      var p := ps[|ps| - 1];
      assert p in ps;
      SecondariesNonNegative(ps[..|ps| - 1]);
      ScaledUp(p.secondary, p.quantity, p.rate);
    }
  }

  lemma ShippingIsNonNegative(ps: seq<Parcel>)
    requires Sound(ps)
    ensures ShippingCharge(ps) >= 0
  {
    if |ps| == 1 {
      var p := ps[0];
      assert p in ps;
      PercentMonotonic(0, p.primary, p.rate);
      assert p.secondary * (p.quantity - 1) >= 0;
      PercentMonotonic(0, p.secondary * (p.quantity - 1), p.rate);
    } else if |ps| > 1 {
      var k := Dearest(ps);
      assert ps[k] in ps;
      SecondariesCover(ps, k);
      PercentMonotonic(0, ps[k].primary, ps[k].rate);
    }
  }

  lemma {:induction false} SecondariesConcat(a: seq<Parcel>, b: seq<Parcel>)
    ensures Secondaries(a + b) == Secondaries(a) + Secondaries(b)
  {
    if b == [] {
      assert a + b == a;
    } else {
      assert (a + b)[..|a + b| - 1] == a + b[..|b| - 1];
      SecondariesConcat(a, b[..|b| - 1]);
    }
  }

  lemma SecondariesOfMore(a: seq<Parcel>, p: Parcel, b: seq<Parcel>)
    ensures Secondaries(a + [p] + b) == Secondaries(a + b) + WithTax(p.secondary * p.quantity, p.rate)
  {
    SecondariesConcat(a + [p], b);
    SecondariesConcat(a, [p]);
    SecondariesConcat(a, b);
    assert [p][..0] == [];
  }

  lemma FirstDearestIsUnique(ps: seq<Parcel>, j: nat, k: nat)
    requires FirstDearest(ps, j) && FirstDearest(ps, k)
    ensures j == k
  {
    assert ps[j].primary <= ps[k].primary <= ps[j].primary;
  }

  // ---- one more parcel ----------------------------------------------------------------------------------

  /** Put between `a` and `b`, the parcel becomes the first dearest one. */
  predicate Displaces(a: seq<Parcel>, p: Parcel, b: seq<Parcel>) {
    (forall x <- a :: x.primary < p.primary) && (forall x <- b :: x.primary <= p.primary)
  }

  /** What a unit costs more at the primary than at the secondary rate. */
  function SwapCost(p: Parcel): int {
    WithTax(p.primary, p.rate) - WithTax(p.secondary, p.rate)
  }

  /** What the first dearest parcel adds to all the secondaries; alone, its taxes are truncated in other places. */
  function DearestAdds(ps: seq<Parcel>): int
    requires ps != []
  {
    var d := ps[Dearest(ps)];
    if |ps| > 1 then SwapCost(d)
    else WithTax(d.primary, d.rate) + WithTax(d.secondary * (d.quantity - 1), d.rate) - WithTax(d.secondary * d.quantity, d.rate)
  }

  /** The new parcel takes the primary rate, and that relieves the old first dearest one of more than the new one costs. */
  predicate Relieves(a: seq<Parcel>, p: Parcel, b: seq<Parcel>) {
    && a + b != [] && Displaces(a, p, b)
    && WithTax(p.secondary * p.quantity, p.rate) + SwapCost(p) < DearestAdds(a + b)
  }

  /** Where a parcel of `a + b` stands once another is put between the two. */
  function Place(a: seq<Parcel>, i: nat): nat {
    if i < |a| then i else i + 1
  }

  lemma Places(a: seq<Parcel>, p: Parcel, b: seq<Parcel>)
    ensures (a + [p] + b)[|a|] == p
    ensures forall i | 0 <= i < |a + b| :: (a + b)[i] == (a + [p] + b)[Place(a, i)]
  {
  }

  lemma FirstIfDisplaces(a: seq<Parcel>, p: Parcel, b: seq<Parcel>)
    ensures FirstDearest(a + [p] + b, |a|) <==> Displaces(a, p, b)
  {
    var all := a + [p] + b;
    if FirstDearest(all, |a|) {
      forall x | x in a ensures x.primary < p.primary {
        var i :| 0 <= i < |a| && a[i] == x;
        assert all[i] == x;
      }
      forall x | x in b ensures x.primary <= p.primary {
        var i :| 0 <= i < |b| && b[i] == x;
        assert all[|a| + 1 + i] == x;
      }
    }
    if Displaces(a, p, b) {
      forall j | 0 <= j < |all| ensures all[j].primary <= p.primary && (j < |a| ==> all[j].primary < p.primary) {
        if j < |a| {
          assert all[j] == a[j] && a[j] in a;
        } else if j > |a| {
          assert all[j] == b[j - |a| - 1] && b[j - |a| - 1] in b;
        }
      }
    }
  }

  lemma OtherwiseTheOldOne(a: seq<Parcel>, p: Parcel, b: seq<Parcel>, k: nat)
    requires FirstDearest(a + [p] + b, k) && k != |a|
    ensures FirstDearest(a + b, if k < |a| then k else k - 1)
  {
    Places(a, p, b);
    var all, ps, k' := a + [p] + b, a + b, if k < |a| then k else k - 1;
    assert ps[k'] == all[k];
    forall j | 0 <= j < |ps| ensures ps[j].primary <= ps[k'].primary && (j < k' ==> ps[j].primary < ps[k'].primary) {
      assert ps[j] == all[Place(a, j)];
    }
  }

  lemma DearestOfMore(a: seq<Parcel>, p: Parcel, b: seq<Parcel>)
    requires Sound(a + [p] + b) && a + b != []
    ensures (a + [p] + b)[Dearest(a + [p] + b)] == if Displaces(a, p, b) then p else (a + b)[Dearest(a + b)]
  {
    hide Dearest, Highest;
    var all := a + [p] + b;
    PartIsSound(a, p, b);
    DearestIsFirst(all);
    FirstIfDisplaces(a, p, b);
    Places(a, p, b);
    if Displaces(a, p, b) {
      FirstDearestIsUnique(all, Dearest(all), |a|);
    } else {
      OldDearest(a, p, b, Dearest(all));
    }
  }

  lemma OldDearest(a: seq<Parcel>, p: Parcel, b: seq<Parcel>, k: nat)
    requires FirstDearest(a + [p] + b, k) && k != |a| && Sound(a + b) && a + b != []
    ensures (a + [p] + b)[k] == (a + b)[Dearest(a + b)]
  {
    hide Dearest, Highest, Sound;
    OtherwiseTheOldOne(a, p, b, k);
    DearestIsFirst(a + b);
    FirstDearestIsUnique(a + b, Dearest(a + b), if k < |a| then k else k - 1);
  }

  lemma PartIsSound(a: seq<Parcel>, p: Parcel, b: seq<Parcel>)
    requires Sound(a + [p] + b)
    ensures Sound(a + b) && Sound([p])
  {
    assert forall x <- a + b :: x in a + [p] + b;
    assert p in a + [p] + b;
  }

  lemma ChargeIs(ps: seq<Parcel>)
    requires ps != [] && Sound(ps)
    ensures ShippingCharge(ps) == Secondaries(ps) + DearestAdds(ps)
    ensures DearestAdds(ps) <= SwapCost(ps[Dearest(ps)])
  {
    if |ps| == 1 {
      var p := ps[0];
      assert p in ps && ps[..0] == [];
      TaxTruncation(p.secondary, p.quantity, p.rate);
      assert p.secondary * p.quantity == p.secondary + p.secondary * (p.quantity - 1);
      Nothing(p.rate);
    }
  }

  lemma Nothing(rate: real)
    ensures Percent(0, rate) == 0
  {
    assert 0 as real * rate == 0.0;
  }

  /** One more parcel, wherever it stands among the others, makes shipping cheaper in exactly these cases. */
  lemma OneMoreParcelLowersExactly(a: seq<Parcel>, p: Parcel, b: seq<Parcel>)
    requires Sound(a + [p] + b)
    ensures ShippingCharge(a + [p] + b) < ShippingCharge(a + b) <==> Relieves(a, p, b)
  {
    hide ShippingCharge, Secondaries, Dearest, Highest, FirstDearest, WithTax, DearestAdds, Displaces, Sound;
    var all := a + [p] + b;
    PartIsSound(a, p, b);
    if a + b == [] {
      ShippingIsNonNegative(all);
      NothingToShip(a + b);
    } else {
      ChargeIs(all);
      ChargeIs(a + b);
      SecondariesOfMore(a, p, b);
      DearestOfMore(a, p, b);
      ManyAdd(all);
      OneParcel(p);
    }
  }

  lemma NothingToShip(ps: seq<Parcel>)
    requires ps == []
    ensures ShippingCharge(ps) == 0
  {
  }

  lemma ManyAdd(ps: seq<Parcel>)
    requires |ps| > 1
    ensures DearestAdds(ps) == SwapCost(ps[Dearest(ps)])
  {
  }

  lemma OneParcel(p: Parcel)
    requires Sound([p])
    ensures WithTax(p.secondary * p.quantity, p.rate) >= WithTax(p.secondary, p.rate) >= 0
  {
    assert p in [p];
    ScaledUp(p.secondary, p.quantity, p.rate);
  }

  /** At one common tax rate it never does. */
  lemma OneMoreParcelNeverLowers(a: seq<Parcel>, p: Parcel, b: seq<Parcel>)
    requires Sound(a + [p] + b) && forall x <- a + b :: x.rate == p.rate
    ensures ShippingCharge(a + [p] + b) >= ShippingCharge(a + b)
  {
    hide ShippingCharge, DearestAdds, Dearest, WithTax;
    OneMoreParcelLowersExactly(a, p, b);
    PartIsSound(a, p, b);
    OneParcel(p);
    if a + b != [] && Displaces(a, p, b) {
      ChargeIs(a + b);
      var d := (a + b)[Dearest(a + b)];
      assert d in a + b;
      SameRate(d, p);
    }
  }

  lemma SameRate(d: Parcel, p: Parcel)
    requires 0 <= d.primary <= p.primary && d.secondary >= 0 && d.rate == p.rate >= 0.0
    ensures SwapCost(d) <= WithTax(p.primary, p.rate)
  {
    PercentMonotonic(d.primary, p.primary, p.rate);
    PercentMonotonic(0, d.secondary, p.rate);
  }

  /** Such a case: an untaxed parcel displaces a taxed one as the dearest. */
  lemma MixedRatesCanLower() returns (ps: seq<Parcel>, p: Parcel)
    ensures Sound(ps + [p]) && ShippingCharge(ps + [p]) < ShippingCharge(ps)
  {
    ps, p := [Parcel(100, 0, 1, 0.5)], Parcel(101, 0, 1, 0.0);
    var all := ps + [p];
    assert all[..1] == ps && ps[..0] == [] && all[1] == p;
    assert 100 as real * 0.5 == 50.0 && 101 as real * 0.0 == 0.0;
    assert Highest(ps) == 100 && Dearest(all) == 1;
    Nothing(0.5);
    Nothing(0.0);
    assert Secondaries(ps) == 0 && Secondaries(all) == 0;
  }

  // ---- how the reported parts relate to the total -----------------------------------------------------

  /** The quantities of the items after the first `k`, multiplied. */
  function LaterQuantities(items: seq<Item>, k: nat): int {
    if k >= |items| then 1 else LaterQuantities(items[..|items| - 1], k) * Quantity(items[|items| - 1])
  }

  /** Taxes reported beyond the taxes charged: those of item k once more for every later quantity. */
  function TaxExcess(items: seq<Item>, country: nat, k: nat): int
    requires Priced(items) && k <= |items|
  {
    if k == 0 then 0
    else
      var item := items[k - 1];
      TaxExcess(items, country, k - 1) +
      TaxOn(item, country) * Quantity(item) * (LaterQuantities(items, k) - 1)
  }

  /** Discounts charged beyond the discounts reported: those of every unit but one. */
  function DiscountExcess(items: seq<Item>, k: nat): int
    requires Priced(items) && k <= |items|
  {
    if k == 0 then 0 else DiscountExcess(items, k - 1) + Off(items[k - 1]) * (Quantity(items[k - 1]) - 1)
  }

  /** The taxes actually charged. */
  function TaxesCharged(items: seq<Item>, country: nat, k: nat): int
    requires Priced(items) && k <= |items|
  {
    if k == 0 then 0 else TaxesCharged(items, country, k - 1) + TaxOn(items[k - 1], country) * Quantity(items[k - 1])
  }

  function TaxesOver(items: seq<Item>, country: nat, k: nat): int
    requires Priced(items) && k <= |items|
  {
    if k == 0 then 0
    else TaxesOver(items, country, k - 1) + TaxOn(items[k - 1], country) * Quantity(items[k - 1]) * LaterQuantities(items, k)
  }

  lemma {:induction false} OverSplits(items: seq<Item>, country: nat, k: nat)
    requires Priced(items) && k <= |items|
    ensures TaxesOver(items, country, k) == TaxesCharged(items, country, k) + TaxExcess(items, country, k)
  {
    if k > 0 {
      OverSplits(items, country, k - 1);
      var t, later := TaxOn(items[k - 1], country) * Quantity(items[k - 1]), LaterQuantities(items, k);
      assert t * later == t + t * (later - 1);
    }
  }

  lemma {:induction false} OverScales(items: seq<Item>, country: nat, k: nat)
    requires Priced(items) && k < |items|
    ensures TaxesOver(items, country, k) == TaxesOver(items[..|items| - 1], country, k) * Quantity(items[|items| - 1])
  {
    if k > 0 {
      var init, q := items[..|items| - 1], Quantity(items[|items| - 1]);
      OverScales(items, country, k - 1);
      var t := TaxOn(items[k - 1], country) * Quantity(items[k - 1]);
      assert init[k - 1] == items[k - 1];
      Distribute(TaxesOver(init, country, k - 1), t, LaterQuantities(init, k), q);
    }
  }

  lemma Distribute(a: int, t: int, l: int, q: int)
    ensures (a + t * l) * q == a * q + t * (l * q)
  {
    assert (a + t * l) * q == a * q + (t * l) * q;
    assert (t * l) * q == t * (l * q);
  }

  /** The running product, written out: each item's taxes times its own and every later quantity. */
  lemma {:induction false} TaxesShownAre(items: seq<Item>, country: nat)
    requires Priced(items)
    ensures TaxesShown(items, country) == TaxesOver(items, country, |items|)
  {
    if items != [] {
      var n := |items|;
      var init, last := items[..n - 1], items[n - 1];
      TaxesShownAre(init, country);
      OverScales(items, country, n - 1);
      Distribute(TaxesShown(init, country), TaxOn(last, country), 1, Quantity(last));
    }
  }

  lemma {:induction false} GoodsSplit(items: seq<Item>, country: nat, k: nat)
    requires Priced(items) && k <= |items|
    ensures GoodsTotal(items[..k], country) ==
      Subtotal(items[..k]) + DiscountsShown(items[..k]) - DiscountExcess(items, k) + TaxesCharged(items, country, k)
  {
    if k > 0 {
      GoodsSplit(items, country, k - 1);
      assert items[..k][..k - 1] == items[..k - 1];
      var item := items[k - 1];
      ManyUnits(Quantity(item), Listed(item), Off(item), TaxOn(item, country));
    }
  }

  lemma ManyUnits(q: int, p: int, d: int, t: int)
    ensures q * (p - d + t) == q * p - d * (q - 1) - d + t * q
  {
    assert q * (p - d + t) == q * p - q * d + q * t;
    assert d * (q - 1) == d * q - d;
  }

  /** The exact gap between the reported parts and the total, for every order. */
  lemma PartsAndTotal(items: seq<Item>, country: nat)
    requires Priced(items)
    ensures Subtotal(items) + DiscountsShown(items) + TaxesShown(items, country) ==
      GoodsTotal(items, country) + TaxExcess(items, country, |items|) + DiscountExcess(items, |items|)
  {
    assert items[..|items|] == items;
    GoodsSplit(items, country, |items|);
    TaxesShownAre(items, country);
    OverSplits(items, country, |items|);
  }

  /** Coupons only lower a price and taxes only raise it. */
  ghost predicate Usual(items: seq<Item>, country: nat)
    requires Priced(items)
  {
    forall item <- items :: Off(item) >= 0 && TaxOn(item, country) >= 0
  }

  /** Every discounted item is a single unit and only single units follow a taxed item. */
  ghost predicate Plain(items: seq<Item>, country: nat)
    requires Priced(items)
  {
    forall k | 0 <= k < |items| ::
      && (Off(items[k]) == 0 || Quantity(items[k]) == 1)
      && (TaxOn(items[k], country) == 0 || LaterQuantities(items, k + 1) == 1)
  }

  lemma {:induction false} LaterAtLeastOne(items: seq<Item>, k: nat)
    requires Priced(items)
    ensures LaterQuantities(items, k) >= 1
  {
    if k < |items| {
      LaterAtLeastOne(items[..|items| - 1], k);
      var l, q := LaterQuantities(items[..|items| - 1], k), Quantity(items[|items| - 1]);
      assert items[|items| - 1] in items;
      assert l * q == q + (l - 1) * q && (l - 1) * q >= 0;
    }
  }

  lemma {:induction false} ExcessesAre(items: seq<Item>, country: nat, k: nat)
    requires Priced(items) && Usual(items, country) && k <= |items|
    ensures TaxExcess(items, country, k) >= 0 && DiscountExcess(items, k) >= 0
    ensures TaxExcess(items, country, k) == 0 && DiscountExcess(items, k) == 0 <==>
      forall j | 0 <= j < k ::
        && (Off(items[j]) == 0 || Quantity(items[j]) == 1)
        && (TaxOn(items[j], country) == 0 || LaterQuantities(items, j + 1) == 1)
  {
    if k > 0 {
      ExcessesAre(items, country, k - 1);
      var item := items[k - 1];
      assert item in items;
      LaterAtLeastOne(items, k);
      ZeroProduct(Off(item), Quantity(item) - 1);
      ZeroProduct(TaxOn(item, country), Quantity(item));
      ZeroProduct(TaxOn(item, country) * Quantity(item), LaterQuantities(items, k) - 1);
    }
  }

  lemma ZeroProduct(a: int, b: int)
    requires a >= 0 && b >= 0
    ensures a * b >= 0 && (a * b == 0 <==> a == 0 || b == 0)
  {
  }

  /** The reported parts never add up to less than the total, and add up to it exactly for plain orders. */
  lemma PartsAddUpExactly(items: seq<Item>, country: nat)
    requires Priced(items) && Usual(items, country)
    ensures Subtotal(items) + DiscountsShown(items) + TaxesShown(items, country) >= GoodsTotal(items, country)
    ensures Subtotal(items) + DiscountsShown(items) + TaxesShown(items, country) == GoodsTotal(items, country) <==>
      Plain(items, country)
  {
    PartsAndTotal(items, country);
    ExcessesAre(items, country, |items|);
  }
}
