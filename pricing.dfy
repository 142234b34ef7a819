/** DineInPricingStrategy.java and DeliveryPricingStrategy.java: the two ways an order is priced. */
module Pricing {
  import opened Outcomes
  import opened MoneyValue
  import opened OrderItemValue

  /** The two implementations of the PricingStrategy interface. A strategy reads only the order's items,
      so `Calculate` takes the item list. */
  datatype PricingStrategy = DineInPricing | DeliveryPricing

  /** DeliveryPricingStrategy.PACKAGING_FEE, `Money.of(2.0)`. */
  const PackagingFee: Money := Money(200)
  /** DeliveryPricingStrategy.DELIVERY_FEE, `Money.of(5.0)`. */
  const DeliveryFee: Money := Money(500)

  /** The fees are what `Money.of(2.0)` and `Money.of(5.0)` build (BigDecimal.valueOf gives 2.0 and 5.0). */
  lemma FeesAsBuilt()
    ensures MoneyValue.Of(20, 1) == Ok(PackagingFee) && MoneyValue.Of(50, 1) == Ok(DeliveryFee)
  {
  }

  /** `items.stream().map(OrderItem::getTotalPrice).reduce(acc, Money::add)`: a left fold. */
  function FoldTotals(acc: Money, items: seq<OrderItem>): Money
    decreases |items|
  {
    if items == [] then acc else FoldTotals(Add(acc, items[0].totalPrice), items[1..])
  }

  /** Reference definition: the arithmetic sum of the line totals, in cents. */
  function SumCents(items: seq<OrderItem>): nat
  {
    if items == [] then 0 else items[0].totalPrice.cents + SumCents(items[1..])
  }

  /** The line totals folded from `Money.zero()`. */
  function ItemsTotal(items: seq<OrderItem>): Money
  {
    FoldTotals(Zero(), items)
  }

  /** `PricingStrategy.calculate` for each strategy: dine-in charges exactly the sum of the line totals,
      delivery adds the two fees to it. */
  function Calculate(strategy: PricingStrategy, items: seq<OrderItem>): (r: Money)
    ensures r.cents == SumCents(items) + (if strategy == DeliveryPricing then PackagingFee.cents + DeliveryFee.cents else 0)
  {
    assert ItemsTotal(items).cents == SumCents(items) by { FoldIsSum(Zero(), items); }
    match strategy
    case DineInPricing => ItemsTotal(items)
    case DeliveryPricing => Add(Add(ItemsTotal(items), PackagingFee), DeliveryFee)
  }

  lemma {:induction false} FoldIsSum(acc: Money, items: seq<OrderItem>)
    ensures FoldTotals(acc, items).cents == acc.cents + SumCents(items)
    decreases |items|
  {
    if items != [] {
      FoldIsSum(Add(acc, items[0].totalPrice), items[1..]);
    }
  }

  /** Delivery charges the dine-in total plus 2.00 packaging and 5.00 delivery, so never less than 7.00. */
  lemma DeliveryIsDineInPlusFees(items: seq<OrderItem>)
    ensures Calculate(DeliveryPricing, items).cents == Calculate(DineInPricing, items).cents + 700
    ensures Calculate(DeliveryPricing, items).cents == SumCents(items) + 700
    ensures Calculate(DeliveryPricing, items).cents >= 700
  {
  }

  /** Items whose lines total 10.00 cost 10.00 dine-in and 17.00 for delivery. */
  lemma TenDollarOrder(items: seq<OrderItem>)
    requires SumCents(items) == 1000
    ensures Calculate(DineInPricing, items) == Money(1000)
    ensures Calculate(DeliveryPricing, items) == Money(1700)
  {
    DeliveryIsDineInPlusFees(items);
  }

  lemma {:induction false} SumCentsAppend(a: seq<OrderItem>, b: seq<OrderItem>)
    ensures SumCents(a + b) == SumCents(a) + SumCents(b)
  {
    if a != [] {
      assert (a + b)[1..] == a[1..] + b;
      SumCentsAppend(a[1..], b);
    } else {
      assert a + b == b;
    }
  }

  /** Taking one line out of a list takes its total out of the sum. */
  lemma SumCentsRemove(b: seq<OrderItem>, j: nat)
    requires j < |b|
    ensures SumCents(b) == b[j].totalPrice.cents + SumCents(b[..j] + b[j + 1..])
  {
    var front, back := b[..j], b[j + 1..];
    var one := [b[j]];
    assert b == front + (one + back);
    assert SumCents(one) == b[j].totalPrice.cents + SumCents(one[1..]) && one[1..] == [];
    SumCentsAppend(front, one + back);
    SumCentsAppend(one, back);
    SumCentsAppend(front, back);
  }

  lemma MultisetRemoveFirst<T>(a: seq<T>, b: seq<T>, j: nat)
    requires multiset(a) == multiset(b) && a != [] && j < |b| && b[j] == a[0]
    ensures multiset(a[1..]) == multiset(b[..j] + b[j + 1..])
  {
    assert a == [a[0]] + a[1..];
    assert b == b[..j] + [b[j]] + b[j + 1..];
    calc {
      multiset(a[1..]);
      multiset(a) - multiset{a[0]};
      multiset(b) - multiset{b[j]};
      multiset(b[..j]) + multiset(b[j + 1..]);
      multiset(b[..j] + b[j + 1..]);
    }
  }

  lemma {:induction false} SumCentsPermutation(a: seq<OrderItem>, b: seq<OrderItem>)
    requires multiset(a) == multiset(b)
    ensures SumCents(a) == SumCents(b)
    decreases |a|
  {
    if a == [] {
      assert |b| == |multiset(b)| == 0;
    } else {
      assert a[0] in multiset(b);
      var j :| 0 <= j < |b| && b[j] == a[0];
      MultisetRemoveFirst(a, b, j);
      SumCentsPermutation(a[1..], b[..j] + b[j + 1..]);
      SumCentsRemove(b, j);
    }
  }

  /** Reordering the items never changes the price, under either strategy. */
  lemma PriceIgnoresItemOrder(strategy: PricingStrategy, a: seq<OrderItem>, b: seq<OrderItem>)
    requires multiset(a) == multiset(b)
    ensures Calculate(strategy, a) == Calculate(strategy, b)
  {
    SumCentsPermutation(a, b);
    DeliveryIsDineInPlusFees(a);
    DeliveryIsDineInPlusFees(b);
  }
}
