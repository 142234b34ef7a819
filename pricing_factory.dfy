/** PricingStrategyFactory.java: the strategy to price an order of each type. */
module PricingFactory {
  import opened Outcomes
  import opened MoneyValue
  import opened Pricing
  import opened Orders

  datatype FactoryError = NoStrategyFor(orderType: OrderType) // "No pricing strategy found for order type: "

  /** The map the constructor builds: DINE_IN to the dine-in strategy, DELIVERY to the delivery strategy. */
  function Registry(): (r: map<OrderType, PricingStrategy>)
    ensures forall t: OrderType :: t in r
    ensures r[DineIn] != r[Delivery]
  {
    var m := map[DineIn := DineInPricing, Delivery := DeliveryPricing];
    assert forall t: OrderType :: t in m by {
      forall t: OrderType ensures t in m {
        assert t.DineIn? || t.Delivery?;
      }
    }
    m
  }

  /** `getStrategy`: the registered strategy, or the error when the type has none. */
  function GetStrategy(registry: map<OrderType, PricingStrategy>, t: OrderType): (r: Result<PricingStrategy, FactoryError>)
    ensures r.Ok? <==> t in registry
    ensures r.Ok? ==> r.value == registry[t]
    ensures r.Err? ==> r.error == NoStrategyFor(t)
  {
    if t in registry then Ok(registry[t]) else Err(NoStrategyFor(t))
  }

  /** The factory as built serves every order type, each with its own strategy. */
  lemma RegistryServesEveryType(t: OrderType)
    ensures GetStrategy(Registry(), t).Ok?
    ensures GetStrategy(Registry(), t).value == (if t == DineIn then DineInPricing else DeliveryPricing)
  {
  }

  /** Settling an order with the factory's strategy for its type charges a delivery order the line totals
      plus 7.00, and a dine-in order the line totals alone. */
  lemma FactoryPriceByType(items: seq<OrderItemValue.OrderItem>, t: OrderType)
    ensures var price := Calculate(GetStrategy(Registry(), t).value, items);
      price.cents == SumCents(items) + (if t == Delivery then 700 else 0)
  {
    DeliveryIsDineInPlusFees(items);
  }
}
