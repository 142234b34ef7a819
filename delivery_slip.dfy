/** DeliverySlip.java and DeliverySlipItem.java: the printable view of a delivery. */
module DeliverySlips {
  import opened Outcomes
  import opened OrderItemValue
  import opened AddressValue
  import opened RiderInfoValue
  import Orders
  import opened DeliveryStatuses
  import IS = DeliveryItemStatuses
  import opened DeliveryItems
  import opened Deliveries

  /** One line of the slip: an order with its customer, address, product names and product count. */
  datatype SlipItem = SlipItem(
    orderId: Orders.OrderId,
    customerName: string,
    deliveryAddress: Option<Address>,
    productNames: seq<string>,
    itemCount: int,
    itemStatus: IS.DeliveryItemStatus)

  datatype DeliverySlip = DeliverySlip(
    deliveryId: DeliveryId,
    items: seq<SlipItem>,
    riderInfo: Option<RiderInfo>,
    status: DeliveryStatus,
    createdAt: int,
    pickupTime: Option<int>,
    deliveryTime: Option<int>)

  datatype SlipError =
    | NullDeliveryId  // "Delivery ID cannot be null"
    | NullItems       // "Items cannot be null"
    | NullStatus      // "Status cannot be null"
    | NullCreatedAt   // "Created at cannot be null"

  /** The total quantity over an order's lines (the `mapToInt(getQuantity).sum()` stream). */
  function SumQuantities(lines: seq<OrderItem>): int {
    if lines == [] then 0 else lines[0].quantity + SumQuantities(lines[1..])
  }

  function ProductNames(lines: seq<OrderItem>): (r: seq<string>)
    ensures |r| == |lines| && forall i :: 0 <= i < |r| ==> r[i] == lines[i].productName
  {
    seq(|lines|, i requires 0 <= i < |lines| => lines[i].productName)
  }

  /** `DeliverySlipItem.fromDeliveryItem`. */
  function FromDeliveryItem(item: DeliveryItemRecord): (r: SlipItem)
    ensures r.orderId == item.orderId && r.itemStatus == item.itemStatus
    ensures r.customerName == item.order.customerName && r.deliveryAddress == item.order.address
    ensures r.productNames == ProductNames(item.order.items)
    ensures r.itemCount == SumQuantities(item.order.items)
  {
    SlipItem(item.orderId, item.order.customerName, item.order.address,
             ProductNames(item.order.items), SumQuantities(item.order.items), item.itemStatus)
  }

  /** With every quantity positive, an order counts at least one product per line. */
  lemma {:induction false} QuantitiesCoverLines(lines: seq<OrderItem>)
    requires forall i :: 0 <= i < |lines| ==> OrderItemValue.Valid(lines[i])
    ensures SumQuantities(lines) >= |lines|
  {
    if lines != [] {
      QuantitiesCoverLines(lines[1..]);
    }
  }

  /** `DeliverySlipItem.equals`: slip items are equal when their order ids are, whatever else differs. */
  function SlipItemEquals(a: SlipItem, b: SlipItem): (r: bool)
    ensures r <==> a.(customerName := b.customerName, deliveryAddress := b.deliveryAddress,
                      productNames := b.productNames, itemCount := b.itemCount, itemStatus := b.itemStatus) == b
  {
    a.orderId == b.orderId
  }

  /** A slip item keeps comparing equal as its item moves through READY, PICKED_UP and DELIVERED. */
  lemma SlipItemEqualityIgnoresProgress(item: DeliveryItemRecord, s: IS.DeliveryItemStatus)
    ensures SlipItemEquals(FromDeliveryItem(item), FromDeliveryItem(item.(itemStatus := s)))
    ensures FromDeliveryItem(item) != FromDeliveryItem(item.(itemStatus := s)) <==> item.itemStatus != s
  {
  }

  /** The fields a Builder holds; a field never set is null. */
  datatype BuilderFields = BuilderFields(
    deliveryId: Option<DeliveryId>,
    items: Option<seq<SlipItem>>,
    riderInfo: Option<RiderInfo>,
    status: Option<DeliveryStatus>,
    createdAt: Option<int>,
    pickupTime: Option<int>,
    deliveryTime: Option<int>)

  /** `Builder.build` through the private constructor: the null checks in source order; rider, pickup
      time and delivery time may stay null. */
  function Assemble(f: BuilderFields): (r: Result<DeliverySlip, SlipError>)
    ensures r.Ok? <==> f.deliveryId.Some? && f.items.Some? && f.status.Some? && f.createdAt.Some?
    ensures f.deliveryId.None? ==> r == Err(NullDeliveryId)
    ensures f.deliveryId.Some? && f.items.None? ==> r == Err(NullItems)
    ensures f.deliveryId.Some? && f.items.Some? && f.status.None? ==> r == Err(NullStatus)
    ensures f.deliveryId.Some? && f.items.Some? && f.status.Some? && f.createdAt.None? ==> r == Err(NullCreatedAt)
    ensures r.Ok? ==> && Some(r.value.deliveryId) == f.deliveryId && Some(r.value.items) == f.items
                      && r.value.riderInfo == f.riderInfo && Some(r.value.status) == f.status
                      && Some(r.value.createdAt) == f.createdAt
                      && r.value.pickupTime == f.pickupTime && r.value.deliveryTime == f.deliveryTime
  {
    if f.deliveryId.None? then Err(NullDeliveryId)
    else if f.items.None? then Err(NullItems)
    else if f.status.None? then Err(NullStatus)
    else if f.createdAt.None? then Err(NullCreatedAt)
    else Ok(DeliverySlip(f.deliveryId.value, f.items.value, f.riderInfo, f.status.value, f.createdAt.value,
                         f.pickupTime, f.deliveryTime))
  }

  function SlipItemsOf(items: seq<DeliveryItemRecord>): (r: seq<SlipItem>)
    ensures |r| == |items| && forall i :: 0 <= i < |r| ==> r[i] == FromDeliveryItem(items[i])
  {
    seq(|items|, i requires 0 <= i < |items| => FromDeliveryItem(items[i]))
  }

  /** `DeliverySlip.fromDelivery`: the builder filled from the delivery's getters always builds. */
  function FromDelivery(d: DeliveryRecord): (r: DeliverySlip)
    ensures r.deliveryId == d.id && r.riderInfo == d.rider && r.status == d.status
    ensures r.createdAt == d.createdAt && r.pickupTime == d.pickupTime && r.deliveryTime == d.deliveryTime
    ensures |r.items| == |d.items| && forall i :: 0 <= i < |r.items| ==> r.items[i] == FromDeliveryItem(d.items[i])
  {
    Assemble(BuilderFields(Some(d.id), Some(SlipItemsOf(d.items)), d.rider, Some(d.status), Some(d.createdAt),
                           d.pickupTime, d.deliveryTime)).value
  }

  /** `getItemCount`: the number of orders on the slip, never more than its products when each order
      counts at least one. */
  function ItemCount(slip: DeliverySlip): (r: nat)
    ensures r == 0 <==> slip.items == []
    ensures (forall i :: 0 <= i < |slip.items| ==> slip.items[i].itemCount >= 1) ==> r <= TotalProductCount(slip)
  {
    |slip.items|
  }

  function SumItemCounts(items: seq<SlipItem>): int {
    if items == [] then 0 else items[0].itemCount + SumItemCounts(items[1..])
  }

  /** `getTotalProductCount`: the products over all orders on the slip, at least one per order when each
      order counts at least one. */
  function TotalProductCount(slip: DeliverySlip): (r: int)
    ensures (forall i :: 0 <= i < |slip.items| ==> slip.items[i].itemCount >= 1) ==> r >= |slip.items|
  {
    assert (forall i :: 0 <= i < |slip.items| ==> slip.items[i].itemCount >= 1) ==>
             SumItemCounts(slip.items) >= |slip.items| by {
      if forall i :: 0 <= i < |slip.items| ==> slip.items[i].itemCount >= 1 {
        SumItemCountsAtLeastLength(slip.items);
      }
    }
    SumItemCounts(slip.items)
  }

  lemma {:induction false} SumItemCountsAtLeastLength(items: seq<SlipItem>)
    requires forall i :: 0 <= i < |items| ==> items[i].itemCount >= 1
    ensures SumItemCounts(items) >= |items|
  {
    if items != [] {
      SumItemCountsAtLeastLength(items[1..]);
    }
  }

  /** Every order line of the delivery's orders, order after order. */
  function AllLines(items: seq<DeliveryItemRecord>): seq<OrderItem> {
    if items == [] then [] else items[0].order.items + AllLines(items[1..])
  }

  /** Helper for `SlipTotalIsQuantitySum`: the quantity total splits over concatenated line lists. */
  lemma {:induction false} SumQuantitiesAppend(a: seq<OrderItem>, b: seq<OrderItem>)
    ensures SumQuantities(a + b) == SumQuantities(a) + SumQuantities(b)
  {
    if a == [] {
      assert a + b == b;
    } else {
      assert (a + b)[0] == a[0] && (a + b)[1..] == a[1..] + b;
      SumQuantitiesAppend(a[1..], b);
    }
  }

  /** Helper for `SlipTotalIsQuantitySum`: the slip lines of a list of delivery items count, together,
      every quantity of every order line. */
  lemma {:induction false} SlipLinesCountAllQuantities(items: seq<DeliveryItemRecord>)
    ensures SumItemCounts(SlipItemsOf(items)) == SumQuantities(AllLines(items))
  {
    if items != [] {
      assert SlipItemsOf(items)[1..] == SlipItemsOf(items[1..]);
      SlipLinesCountAllQuantities(items[1..]);
      SumQuantitiesAppend(items[0].order.items, AllLines(items[1..]));
    }
  }

  /** `getTotalProductCount` of the slip of a delivery is the sum of the quantities of all the lines of
      all its orders. */
  lemma {:induction false} SlipTotalIsQuantitySum(d: DeliveryRecord)
    ensures TotalProductCount(FromDelivery(d)) == SumQuantities(AllLines(d.items))
  {
    assert FromDelivery(d).items == SlipItemsOf(d.items);
    SlipLinesCountAllQuantities(d.items);
  }

  /** A slip lists one line per order of the delivery, in order, and when every order has valid lines it
      counts at least one product per order, its product count being the sum of all their quantities. */
  lemma {:induction false} SlipCountsOrdersAndProducts(d: DeliveryRecord)
    requires WellFormed(d)
    requires forall i, k :: 0 <= i < |d.items| && 0 <= k < |d.items[i].order.items| ==>
               OrderItemValue.Valid(d.items[i].order.items[k])
    requires forall i :: 0 <= i < |d.items| ==> d.items[i].order.items != []
    ensures ItemCount(FromDelivery(d)) == |OrderIdsOf(d)|
    ensures forall i :: 0 <= i < ItemCount(FromDelivery(d)) ==> FromDelivery(d).items[i].orderId == OrderIdsOf(d)[i]
    ensures TotalProductCount(FromDelivery(d)) == SumQuantities(AllLines(d.items)) >= ItemCount(FromDelivery(d)) >= 1
  {
    var slip := FromDelivery(d);
    SlipTotalIsQuantitySum(d);
    forall i | 0 <= i < |slip.items|
      ensures slip.items[i].itemCount >= 1
    {
      QuantitiesCoverLines(d.items[i].order.items);
    }
    SumItemCountsAtLeastLength(slip.items);
  }

  /** `DeliverySlip.equals`: the seven fields, with the item lists compared by slip-item equality. */
  function SlipEquals(a: DeliverySlip, b: DeliverySlip): (r: bool)
    ensures r <==> && a.(items := b.items) == b && |a.items| == |b.items|
                   && forall i :: 0 <= i < |a.items| ==> a.items[i].orderId == b.items[i].orderId
    ensures a == b ==> r
  {
    && a.deliveryId == b.deliveryId
    && |a.items| == |b.items| && (forall i :: 0 <= i < |a.items| ==> SlipItemEquals(a.items[i], b.items[i]))
    && a.riderInfo == b.riderInfo && a.status == b.status && a.createdAt == b.createdAt
    && a.pickupTime == b.pickupTime && a.deliveryTime == b.deliveryTime
  }

  /** Every accepted call on a delivery gives a slip not equal to the one before it (the status differs),
      while each slip line still equals its earlier self. */
  lemma StepChangesSlip(d: DeliveryRecord, cmd: DeliveryCommand, now: int)
    requires WellFormed(d) && Step(d, cmd, now).Ok?
    ensures !SlipEquals(FromDelivery(d), FromDelivery(Step(d, cmd, now).value))
    ensures var before := FromDelivery(d).items; var after := FromDelivery(Step(d, cmd, now).value).items;
      |before| == |after| && forall i :: 0 <= i < |before| ==> SlipItemEquals(before[i], after[i])
  {
  }

  /** DeliverySlip.Builder: each setter records one field. */
  class SlipBuilder {
    var deliveryId: Option<DeliveryId>
    var items: Option<seq<SlipItem>>
    var riderInfo: Option<RiderInfo>
    var status: Option<DeliveryStatus>
    var createdAt: Option<int>
    var pickupTime: Option<int>
    var deliveryTime: Option<int>

    function Fields(): BuilderFields
      reads this
    {
      BuilderFields(deliveryId, items, riderInfo, status, createdAt, pickupTime, deliveryTime)
    }

    constructor ()
      ensures Fields() == BuilderFields(None, None, None, None, None, None, None)
    {
      deliveryId, items, riderInfo, status := None, None, None, None;
      createdAt, pickupTime, deliveryTime := None, None, None;
    }

    method WithDeliveryId(v: Option<DeliveryId>)
      modifies this
      ensures Fields() == old(Fields()).(deliveryId := v)
    {
      deliveryId := v;
    }

    method WithItems(v: Option<seq<SlipItem>>)
      modifies this
      ensures Fields() == old(Fields()).(items := v)
    {
      items := v;
    }

    method WithRiderInfo(v: Option<RiderInfo>)
      modifies this
      ensures Fields() == old(Fields()).(riderInfo := v)
    {
      riderInfo := v;
    }

    method WithStatus(v: Option<DeliveryStatus>)
      modifies this
      ensures Fields() == old(Fields()).(status := v)
    {
      status := v;
    }

    method WithCreatedAt(v: Option<int>)
      modifies this
      ensures Fields() == old(Fields()).(createdAt := v)
    {
      createdAt := v;
    }

    method WithPickupTime(v: Option<int>)
      modifies this
      ensures Fields() == old(Fields()).(pickupTime := v)
    {
      pickupTime := v;
    }

    method WithDeliveryTime(v: Option<int>)
      modifies this
      ensures Fields() == old(Fields()).(deliveryTime := v)
    {
      deliveryTime := v;
    }

    /** `build`: the slip exactly when the four required fields are set. */
    method Build() returns (r: Result<DeliverySlip, SlipError>)
      ensures r == Assemble(Fields())
      ensures r.Ok? <==> deliveryId.Some? && items.Some? && status.Some? && createdAt.Some?
    {
      if deliveryId.None? {
        return Err(NullDeliveryId);
      }
      if items.None? {
        return Err(NullItems);
      }
      if status.None? {
        return Err(NullStatus);
      }
      if createdAt.None? {
        return Err(NullCreatedAt);
      }
      return Ok(DeliverySlip(deliveryId.value, items.value, riderInfo, status.value, createdAt.value,
                             pickupTime, deliveryTime));
    }
  }

  /** `fromDelivery` as written: a fresh builder, every setter, then `build`; the slip is `FromDelivery`
      of the delivery's current fields. */
  method BuildFromDelivery(delivery: Delivery) returns (slip: DeliverySlip)
    ensures slip == FromDelivery(delivery.Record())
  {
    var d := delivery.Record();
    var builder := new SlipBuilder();
    builder.WithDeliveryId(Some(d.id));
    builder.WithItems(Some(SlipItemsOf(d.items)));
    builder.WithRiderInfo(d.rider);
    builder.WithStatus(Some(d.status));
    builder.WithCreatedAt(Some(d.createdAt));
    builder.WithPickupTime(d.pickupTime);
    builder.WithDeliveryTime(d.deliveryTime);
    var r := builder.Build();
    slip := r.value;
  }
}
