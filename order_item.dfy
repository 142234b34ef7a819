/** OrderItem.java: an immutable order line whose total is unit price times quantity. */
module OrderItemValue {
  import opened Outcomes
  import opened Text
  import opened MoneyValue

  /** `totalPrice` is a stored field, computed once by the constructor. */
  datatype OrderItem = OrderItem(productName: string, quantity: nat, unitPrice: Money, totalPrice: Money)

  datatype OrderItemError =
    | BlankProductName      // "Product name cannot be null or empty"
    | NonPositiveQuantity   // "Quantity must be positive"
    | NullUnitPrice         // "Unit price cannot be null"

  /** What every constructed OrderItem satisfies. */
  ghost predicate Valid(item: OrderItem) {
    && item.productName != []
    && Trim(item.productName) == item.productName
    && item.quantity > 0
    && item.totalPrice.cents == item.unitPrice.cents * item.quantity
  }

  /** `OrderItem.of` / the private constructor. A null argument is `None`. The checks run in source
      order, so the first failing one decides the error. */
  function Of(productName: Option<string>, quantity: int, unitPrice: Option<Money>): (r: Result<OrderItem, OrderItemError>)
    ensures r.Ok? <==> productName.Some? && !IsBlank(productName.value) && quantity > 0 && unitPrice.Some?
    ensures (productName.None? || IsBlank(productName.value)) ==> r == Err(BlankProductName)
    ensures (productName.Some? && !IsBlank(productName.value) && quantity <= 0) ==> r == Err(NonPositiveQuantity)
    ensures (productName.Some? && !IsBlank(productName.value) && quantity > 0 && unitPrice.None?) ==> r == Err(NullUnitPrice)
    ensures r.Ok? ==> Valid(r.value)
    ensures r.Ok? ==> && r.value.productName == Trim(productName.value)
                      && r.value.quantity == quantity
                      && r.value.unitPrice == unitPrice.value
  {
    if productName.None? || IsBlank(productName.value) then Err(BlankProductName)
    else if quantity <= 0 then Err(NonPositiveQuantity)
    else if unitPrice.None? then Err(NullUnitPrice)
    else
      TrimIdempotent(productName.value);
      Ok(OrderItem(Trim(productName.value), quantity, unitPrice.value, Multiply(unitPrice.value, quantity).value))
  }

  /** `equals`: compares name, quantity and unit price and ignores the derived total; on constructed
      items that is the same as comparing every field. */
  predicate Equals(a: OrderItem, b: OrderItem)
    ensures Valid(a) && Valid(b) ==> (Equals(a, b) <==> a == b)
  {
    a.quantity == b.quantity && a.productName == b.productName && a.unitPrice == b.unitPrice
  }

  /** Product names that differ only in surrounding whitespace give equal items. */
  lemma OfIgnoresSurroundingWhitespace(n1: string, n2: string, quantity: int, unitPrice: Money)
    requires Trim(n1) == Trim(n2) && !IsBlank(n1) && quantity > 0
    ensures Of(Some(n1), quantity, Some(unitPrice)) == Of(Some(n2), quantity, Some(unitPrice))
  {
  }
}
