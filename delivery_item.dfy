/** DeliveryItem.java: one order inside a delivery batch, with its own status. */
module DeliveryItems {
  import opened Outcomes
  import Orders
  import opened DeliveryItemStatuses

  datatype ItemError =
    | ItemCannotMarkPickedUp(current: DeliveryItemStatus)   // "Cannot mark item as picked up. Current status: "
    | ItemCannotMarkDelivered(current: DeliveryItemStatus)  // "Cannot mark item as delivered. Current status: "

  /** The fields of a DeliveryItem. The order is the snapshot taken when the item was made; its
      identity fields never change afterwards (Orders.RunKeepsInvariantAndIdentity). */
  datatype DeliveryItemRecord = DeliveryItemRecord(orderId: Orders.OrderId, order: Orders.OrderSnapshot, itemStatus: DeliveryItemStatus)

  /** `markAsPickedUp` on the item's fields. */
  function MarkPickedUp(i: DeliveryItemRecord): (r: Result<DeliveryItemRecord, ItemError>)
    ensures r.Ok? <==> CanTransitionTo(i.itemStatus, PickedUp)
    ensures r.Ok? ==> r.value == i.(itemStatus := PickedUp)
    ensures r.Err? ==> r.error == ItemCannotMarkPickedUp(i.itemStatus)
  {
    if !CanMarkPickedUp(i.itemStatus) then Err(ItemCannotMarkPickedUp(i.itemStatus))
    else Ok(i.(itemStatus := PickedUp))
  }

  /** `markAsDelivered` on the item's fields. */
  function MarkDelivered(i: DeliveryItemRecord): (r: Result<DeliveryItemRecord, ItemError>)
    ensures r.Ok? <==> CanTransitionTo(i.itemStatus, Delivered)
    ensures r.Ok? ==> r.value == i.(itemStatus := Delivered)
    ensures r.Err? ==> r.error == ItemCannotMarkDelivered(i.itemStatus)
  {
    if !CanMarkDelivered(i.itemStatus) then Err(ItemCannotMarkDelivered(i.itemStatus))
    else Ok(i.(itemStatus := Delivered))
  }

  /** An item goes READY -> PICKED_UP -> DELIVERED and then refuses both calls. */
  lemma ItemLifecycle(i: DeliveryItemRecord)
    requires i.itemStatus == Ready
    ensures MarkPickedUp(i).Ok? && MarkDelivered(i).Err?
    ensures MarkDelivered(MarkPickedUp(i).value).Ok?
    ensures var done := MarkDelivered(MarkPickedUp(i).value).value;
      done.itemStatus == Delivered && IsTerminal(done.itemStatus)
      && MarkPickedUp(done).Err? && MarkDelivered(done).Err?
      && done.orderId == i.orderId && done.order == i.order
  {
  }

  /** `DeliveryItem.equals`: items are equal when their order ids are, whatever their status. */
  function ItemEquals(a: DeliveryItemRecord, b: DeliveryItemRecord): (r: bool)
    ensures r <==> a.(order := b.order, itemStatus := b.itemStatus) == b
  {
    a.orderId == b.orderId
  }

  /** A mark that succeeds changes the item's fields but not what it is equal to. */
  lemma MarkingKeepsItemEqual(i: DeliveryItemRecord)
    ensures MarkPickedUp(i).Ok? ==> ItemEquals(MarkPickedUp(i).value, i) && MarkPickedUp(i).value != i
    ensures MarkDelivered(i).Ok? ==> ItemEquals(MarkDelivered(i).value, i) && MarkDelivered(i).value != i
  {
  }

  class DeliveryItem {
    const orderId: Orders.OrderId
    const order: Orders.OrderSnapshot
    var itemStatus: DeliveryItemStatus

    function Record(): DeliveryItemRecord
      reads this
    {
      DeliveryItemRecord(orderId, order, itemStatus)
    }

    /** `DeliveryItem(orderId, order)` and `DeliveryItem.of`: a new item starts READY. */
    constructor (orderId: Orders.OrderId, order: Orders.OrderSnapshot)
      ensures Record() == DeliveryItemRecord(orderId, order, Ready)
    {
      this.orderId := orderId;
      this.order := order;
      itemStatus := Ready;
    }

    method MarkAsPickedUp() returns (r: Outcome<ItemError>)
      modifies this
      ensures Follows(old(Record()), Record(), r, MarkPickedUp(old(Record())))
    {
      if !CanMarkPickedUp(itemStatus) {
        return Fail(ItemCannotMarkPickedUp(itemStatus));
      }
      itemStatus := PickedUp;
      return Pass;
    }

    method MarkAsDelivered() returns (r: Outcome<ItemError>)
      modifies this
      ensures Follows(old(Record()), Record(), r, MarkDelivered(old(Record())))
    {
      if !CanMarkDelivered(itemStatus) {
        return Fail(ItemCannotMarkDelivered(itemStatus));
      }
      itemStatus := Delivered;
      return Pass;
    }
  }
}
