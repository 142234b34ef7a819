/** Delivery.java: the delivery batch aggregate, its items and its lifecycle. */
module Deliveries {
  import opened Outcomes
  import Orders
  import opened RiderInfoValue
  import opened DeliveryStatuses
  import IS = DeliveryItemStatuses
  import opened DeliveryItems

  /** DeliveryId wraps a UUID; the model keeps it opaque and compares it by value. */
  datatype DeliveryId = DeliveryId(uuid: string)

  datatype DeliveryError =
    | EmptyDelivery                                                  // "Delivery must have at least one item"
    | OrderNotReady(orderId: Orders.OrderId, orderStatus: Orders.OrderStatus) // "All orders must be in READY state. ..."
    | CannotAssignRider(current: DeliveryStatus)
    | CannotMarkPickedUp(current: DeliveryStatus)
    | CannotMarkInTransit(current: DeliveryStatus)
    | CannotMarkDelivered(current: DeliveryStatus)
    | CannotComplete(current: DeliveryStatus)
    | CannotCancel(current: DeliveryStatus)

  /** The value of every field of a Delivery, its items included. Times are seconds. */
  datatype DeliveryRecord = DeliveryRecord(
    id: DeliveryId,
    items: seq<DeliveryItemRecord>,
    rider: Option<RiderInfo>,
    status: DeliveryStatus,
    pickupTime: Option<int>,
    deliveryTime: Option<int>,
    createdAt: int,
    updatedAt: int)

  /** The transition methods of Delivery. */
  datatype DeliveryCommand =
    | AssignRider(rider: RiderInfo)
    | MarkAsPickedUp
    | MarkAsInTransit
    | MarkAsDelivered
    | Complete
    | Cancel

  function TargetOf(cmd: DeliveryCommand): DeliveryStatus {
    match cmd
    case AssignRider(_) => Assigned
    case MarkAsPickedUp => PickedUp
    case MarkAsInTransit => InTransit
    case MarkAsDelivered => Delivered
    case Complete => Completed
    case Cancel => Cancelled
  }

  /** The IllegalStateException each method throws when its guard fails. */
  function RefusalFor(cmd: DeliveryCommand, current: DeliveryStatus): DeliveryError {
    match cmd
    case AssignRider(_) => CannotAssignRider(current)
    case MarkAsPickedUp => CannotMarkPickedUp(current)
    case MarkAsInTransit => CannotMarkInTransit(current)
    case MarkAsDelivered => CannotMarkDelivered(current)
    case Complete => CannotComplete(current)
    case Cancel => CannotCancel(current)
  }

  /** The item status that goes with each delivery status: the item loops run only in `markAsPickedUp`
      and `markAsDelivered`. */
  function ExpectedItemStatus(s: DeliveryStatus): IS.DeliveryItemStatus {
    match s
    case Created => IS.Ready
    case Assigned => IS.Ready
    case Cancelled => IS.Ready
    case PickedUp => IS.PickedUp
    case InTransit => IS.PickedUp
    case Delivered => IS.Delivered
    case Completed => IS.Delivered
  }

  /** What the constructor establishes and every method keeps. */
  ghost predicate WellFormed(d: DeliveryRecord) {
    && |d.items| > 0
    && (forall i :: 0 <= i < |d.items| ==>
          && d.items[i].itemStatus == ExpectedItemStatus(d.status)
          && d.items[i].orderId == d.items[i].order.id
          && d.items[i].order.status == Orders.Ready)
    && (d.status == Created ==> d.rider.None?)
    && (d.status !in {Created, Cancelled} ==> d.rider.Some?)
    && (d.pickupTime.Some? <==> d.status in {PickedUp, InTransit, Delivered, Completed})
    && (d.deliveryTime.Some? <==> d.status in {Delivered, Completed})
  }

  /** The fields no method writes: the id, the creation time and each item's order. */
  predicate SameBatch(a: DeliveryRecord, b: DeliveryRecord) {
    && a.id == b.id && a.createdAt == b.createdAt && |a.items| == |b.items|
    && forall i :: 0 <= i < |a.items| ==> a.items[i].orderId == b.items[i].orderId && a.items[i].order == b.items[i].order
  }

  /** `getOrders`. */
  function OrdersOf(d: DeliveryRecord): (r: seq<Orders.OrderSnapshot>)
    ensures |r| == |d.items| && forall i :: 0 <= i < |r| ==> r[i] == d.items[i].order
  {
    seq(|d.items|, i requires 0 <= i < |d.items| => d.items[i].order)
  }

  /** `getOrderIds`. */
  function OrderIdsOf(d: DeliveryRecord): (r: seq<Orders.OrderId>)
    ensures |r| == |d.items| && forall i :: 0 <= i < |r| ==> r[i] == d.items[i].orderId
  {
    seq(|d.items|, i requires 0 <= i < |d.items| => d.items[i].orderId)
  }

  function IdsOf(orders: seq<Orders.OrderSnapshot>): (r: seq<Orders.OrderId>)
    ensures |r| == |orders| && forall i :: 0 <= i < |r| ==> r[i] == orders[i].id
  {
    seq(|orders|, i requires 0 <= i < |orders| => orders[i].id)
  }

  /** The READY check of the constructor: the first order not READY is the one reported. */
  function CheckAllReady(orders: seq<Orders.OrderSnapshot>): (r: Outcome<DeliveryError>)
    ensures r == Pass <==> forall i :: 0 <= i < |orders| ==> orders[i].status == Orders.Ready
    ensures r.Fail? ==> exists k :: && 0 <= k < |orders| && orders[k].status != Orders.Ready
                                    && r.error == OrderNotReady(orders[k].id, orders[k].status)
                                    && forall j :: 0 <= j < k ==> orders[j].status == Orders.Ready
  {
    if orders == [] then Pass
    else if orders[0].status != Orders.Ready then Fail(OrderNotReady(orders[0].id, orders[0].status))
    else
      var rest := CheckAllReady(orders[1..]);
      if rest.Fail? then
        var k :| 0 <= k < |orders| - 1 && orders[1..][k].status != Orders.Ready
                 && rest.error == OrderNotReady(orders[1..][k].id, orders[1..][k].status)
                 && forall j :: 0 <= j < k ==> orders[1..][j].status == Orders.Ready;
        assert forall j :: 0 <= j < k + 1 ==> orders[j].status == Orders.Ready by {
          forall j | 0 <= j < k + 1 ensures orders[j].status == Orders.Ready {
            if j > 0 { assert orders[j] == orders[1..][j - 1]; }
          }
        }
        rest
      else
        assert forall i :: 1 <= i < |orders| ==> orders[i] == orders[1..][i - 1];
        rest
  }

  /** One READY item per order, in the order of the list (`orders.stream().map(DeliveryItem::of)`). */
  function ItemsFor(orders: seq<Orders.OrderSnapshot>): (r: seq<DeliveryItemRecord>)
    ensures |r| == |orders| && forall i :: 0 <= i < |r| ==> r[i] == DeliveryItemRecord(orders[i].id, orders[i], IS.Ready)
  {
    seq(|orders|, i requires 0 <= i < |orders| => DeliveryItemRecord(orders[i].id, orders[i], IS.Ready))
  }

  /** `Delivery.create` through the private constructor, with the generated id and the clock passed in. */
  function NewDelivery(id: DeliveryId, orders: seq<Orders.OrderSnapshot>, now: int): (r: Result<DeliveryRecord, DeliveryError>)
    ensures r.Ok? <==> orders != [] && forall i :: 0 <= i < |orders| ==> orders[i].status == Orders.Ready
    ensures orders == [] ==> r == Err(EmptyDelivery)
    ensures orders != [] && r.Err? ==> r == Err(CheckAllReady(orders).error)
    ensures r.Ok? ==> && WellFormed(r.value)
                      && r.value.id == id && r.value.status == Created && r.value.rider.None?
                      && r.value.createdAt == now && r.value.updatedAt == now
                      && OrdersOf(r.value) == orders && OrderIdsOf(r.value) == IdsOf(orders)
  {
    if orders == [] then Err(EmptyDelivery)
    else
      match CheckAllReady(orders)
      case Fail(e) => Err(e)
      case Pass => Ok(DeliveryRecord(id, ItemsFor(orders), None, Created, None, None, now, now))
  }

  /** Every item with its status replaced, as the item loops leave them. */
  function WithItemStatus(items: seq<DeliveryItemRecord>, s: IS.DeliveryItemStatus): (r: seq<DeliveryItemRecord>)
    ensures |r| == |items| && forall i :: 0 <= i < |r| ==> r[i] == items[i].(itemStatus := s)
  {
    seq(|items|, i requires 0 <= i < |items| => items[i].(itemStatus := s))
  }

  /** One transition method: the guard is checked first and a refused call writes nothing. */
  function Step(d: DeliveryRecord, cmd: DeliveryCommand, now: int): (r: Result<DeliveryRecord, DeliveryError>)
    requires WellFormed(d)
    ensures r.Ok? <==> CanTransitionTo(d.status, TargetOf(cmd))
    ensures r.Err? ==> r.error == RefusalFor(cmd, d.status)
    ensures r.Ok? ==> && WellFormed(r.value) && SameBatch(d, r.value)
                      && r.value.status == TargetOf(cmd) && r.value.updatedAt == now
                      && r.value.rider == (if cmd.AssignRider? then Some(cmd.rider) else d.rider)
                      && r.value.pickupTime == (if cmd.MarkAsPickedUp? then Some(now) else d.pickupTime)
                      && r.value.deliveryTime == (if cmd.MarkAsDelivered? then Some(now) else d.deliveryTime)
  {
    match cmd
    case AssignRider(rider) =>
      if !CanAssignRider(d.status) then Err(CannotAssignRider(d.status))
      else Ok(d.(rider := Some(rider), status := Assigned, updatedAt := now))
    case MarkAsPickedUp =>
      if !CanMarkPickedUp(d.status) then Err(CannotMarkPickedUp(d.status))
      else Ok(d.(status := PickedUp, pickupTime := Some(now), updatedAt := now,
                 items := WithItemStatus(d.items, IS.PickedUp)))
    case MarkAsInTransit =>
      if !CanMarkInTransit(d.status) then Err(CannotMarkInTransit(d.status))
      else Ok(d.(status := InTransit, updatedAt := now))
    case MarkAsDelivered =>
      if !CanMarkDelivered(d.status) then Err(CannotMarkDelivered(d.status))
      else Ok(d.(status := Delivered, deliveryTime := Some(now), updatedAt := now,
                 items := WithItemStatus(d.items, IS.Delivered)))
    case Complete =>
      if !CanComplete(d.status) then Err(CannotComplete(d.status))
      else Ok(d.(status := Completed, updatedAt := now))
    case Cancel =>
      if !CanCancel(d.status) then Err(CannotCancel(d.status))
      else Ok(d.(status := Cancelled, updatedAt := now))
  }

  /** The item loops of `markAsPickedUp` and `markAsDelivered` never meet an item that refuses: on a
      well-formed delivery every item is in the status its own transition starts from. */
  lemma ItemLoopsNeverThrow(d: DeliveryRecord, i: int)
    requires WellFormed(d) && 0 <= i < |d.items|
    ensures CanMarkPickedUp(d.status) ==> MarkPickedUp(d.items[i]) == Ok(d.items[i].(itemStatus := IS.PickedUp))
    ensures CanMarkDelivered(d.status) ==> MarkDelivered(d.items[i]) == Ok(d.items[i].(itemStatus := IS.Delivered))
  {
  }

  /** Every successful call moves one step along the chain, or cancels before pickup. */
  lemma {:induction false} StepAdvances(d: DeliveryRecord, cmd: DeliveryCommand, now: int)
    requires WellFormed(d) && Step(d, cmd, now).Ok?
    ensures var next := Step(d, cmd, now).value.status;
      || (next != Cancelled && Rank(next) == Rank(d.status) + 1)
      || (next == Cancelled && d.status in {Created, Assigned})
  {
  }

  /** A delivery in a terminal status refuses every call, and one that is not terminal accepts some call. */
  lemma {:induction false} TerminalIffStuck(d: DeliveryRecord, now: int)
    requires WellFormed(d)
    ensures IsTerminal(d.status) <==> forall cmd :: Step(d, cmd, now).Err?
  {
    if !IsTerminal(d.status) {
      var cmd := match d.status
        case Created => AssignRider(RiderInfo("", "", "", DefaultVehicleType))
        case Assigned => MarkAsPickedUp
        case PickedUp => MarkAsInTransit
        case InTransit => MarkAsDelivered
        case _ => Complete;
      assert Step(d, cmd, now).Ok?;
    }
  }

  /** A sequence of calls, each with its clock reading; the first refused call ends the run. */
  function Run(d: DeliveryRecord, calls: seq<(DeliveryCommand, int)>): (r: Result<DeliveryRecord, DeliveryError>)
    requires WellFormed(d)
    decreases |calls|
  {
    if calls == [] then Ok(d)
    else
      match Step(d, calls[0].0, calls[0].1)
      case Err(e) => Err(e)
      case Ok(next) => Run(next, calls[1..])
  }

  /** Every run keeps the delivery well-formed and its batch of orders unchanged. */
  lemma {:induction false} RunKeepsWellFormedAndBatch(d: DeliveryRecord, calls: seq<(DeliveryCommand, int)>)
    requires WellFormed(d)
    ensures Run(d, calls).Ok? ==> WellFormed(Run(d, calls).value) && SameBatch(d, Run(d, calls).value)
    decreases |calls|
  {
    if calls != [] {
      var s := Step(d, calls[0].0, calls[0].1);
      if s.Ok? {
        RunKeepsWellFormedAndBatch(s.value, calls[1..]);
      }
    }
  }

  /** Once picked up, a delivery can no longer be cancelled, and its pickup time is never rewritten. */
  lemma {:induction false} NoCancelAfterPickup(d: DeliveryRecord, calls: seq<(DeliveryCommand, int)>)
    requires WellFormed(d) && d.status in {PickedUp, InTransit, Delivered, Completed}
    ensures Run(d, calls).Ok? ==> && Run(d, calls).value.status in {PickedUp, InTransit, Delivered, Completed}
                                  && Run(d, calls).value.pickupTime == d.pickupTime
    decreases |calls|
  {
    if calls != [] {
      var s := Step(d, calls[0].0, calls[0].1);
      if s.Ok? {
        NoCancelAfterPickup(s.value, calls[1..]);
      }
    }
  }

  /** CREATED -> ASSIGNED -> PICKED_UP -> IN_TRANSIT -> DELIVERED -> COMPLETED from a new delivery: the
      rider and both times are recorded and every item ends DELIVERED. */
  lemma {:induction false} HappyPath(id: DeliveryId, orders: seq<Orders.OrderSnapshot>, rider: RiderInfo,
                                     t0: int, t1: int, t2: int, t3: int, t4: int, t5: int)
    requires NewDelivery(id, orders, t0).Ok?
    ensures var calls := [(AssignRider(rider), t1), (MarkAsPickedUp, t2), (MarkAsInTransit, t3),
                          (MarkAsDelivered, t4), (Complete, t5)];
      var r := Run(NewDelivery(id, orders, t0).value, calls);
      && r.Ok? && r.value.status == Completed && r.value.rider == Some(rider)
      && r.value.pickupTime == Some(t2) && r.value.deliveryTime == Some(t4) && r.value.updatedAt == t5
      && OrdersOf(r.value) == orders
      && forall i :: 0 <= i < |r.value.items| ==> r.value.items[i].itemStatus == IS.Delivered
  {
    var calls := [(AssignRider(rider), t1), (MarkAsPickedUp, t2), (MarkAsInTransit, t3),
                  (MarkAsDelivered, t4), (Complete, t5)];
    var d0 := NewDelivery(id, orders, t0).value;
    var d1 := Step(d0, AssignRider(rider), t1).value;
    var d2 := Step(d1, MarkAsPickedUp, t2).value;
    var d3 := Step(d2, MarkAsInTransit, t3).value;
    var d4 := Step(d3, MarkAsDelivered, t4).value;
    var d5 := Step(d4, Complete, t5).value;
    assert calls[1..] == [(MarkAsPickedUp, t2), (MarkAsInTransit, t3), (MarkAsDelivered, t4), (Complete, t5)];
    assert calls[1..][1..] == [(MarkAsInTransit, t3), (MarkAsDelivered, t4), (Complete, t5)];
    assert calls[1..][1..][1..] == [(MarkAsDelivered, t4), (Complete, t5)];
    assert calls[1..][1..][1..][1..] == [(Complete, t5)];
    assert Run(d5, []) == Ok(d5);
    assert Run(d4, [(Complete, t5)]) == Ok(d5);
    assert Run(d3, calls[1..][1..][1..]) == Ok(d5);
    assert Run(d2, calls[1..][1..]) == Ok(d5);
    assert Run(d1, calls[1..]) == Ok(d5);
    assert Run(d0, calls) == Ok(d5);
    assert OrdersOf(d5) == OrdersOf(d0);
  }

  /** Delivery.java's aggregate. The item list is fixed at construction (`items` is `const`); the items
      themselves are objects whose status the item loops update in place. */
  class Delivery {
    const id: DeliveryId
    const items: seq<DeliveryItem>
    var rider: Option<RiderInfo>
    var status: DeliveryStatus
    var pickupTime: Option<int>
    var deliveryTime: Option<int>
    const createdAt: int
    var updatedAt: int

    function ItemRecords(): (r: seq<DeliveryItemRecord>)
      reads this, items
      ensures |r| == |items| && forall i :: 0 <= i < |r| ==> r[i] == items[i].Record()
    {
      seq(|items|, i requires 0 <= i < |items| reads items => items[i].Record())
    }

    function Record(): DeliveryRecord
      reads this, items
    {
      DeliveryRecord(id, ItemRecords(), rider, status, pickupTime, deliveryTime, createdAt, updatedAt)
    }

    ghost predicate Valid()
      reads this, items
    {
      && (forall i, j :: 0 <= i < j < |items| ==> items[i] != items[j])
      && WellFormed(Record())
    }

    /** The private constructor once its checks have passed. */
    constructor FromItems(id: DeliveryId, items: seq<DeliveryItem>, now: int)
      requires |items| > 0
      requires forall i, j :: 0 <= i < j < |items| ==> items[i] != items[j]
      requires forall i :: 0 <= i < |items| ==> && items[i].itemStatus == IS.Ready
                                                && items[i].orderId == items[i].order.id
                                                && items[i].order.status == Orders.Ready
      ensures Valid() && this.items == items
      ensures Record() == DeliveryRecord(id, Record().items, None, Created, None, None, now, now)
      ensures forall i :: 0 <= i < |items| ==> Record().items[i] == old(items[i].Record())
    {
      this.id := id;
      this.items := items;
      rider := None;
      status := Created;
      pickupTime := None;
      deliveryTime := None;
      createdAt := now;
      updatedAt := now;
    }

    /** `Delivery.create`: one new item per order, then the constructor's checks in source order. */
    static method Create(id: DeliveryId, orders: seq<Orders.OrderSnapshot>, now: int) returns (r: Result<Delivery, DeliveryError>)
      ensures var spec := NewDelivery(id, orders, now);
        && (spec.Err? ==> r == Err(spec.error))
        && (spec.Ok? ==> && r.Ok? && fresh(r.value) && r.value.Valid() && r.value.Record() == spec.value
                         && forall i :: 0 <= i < |r.value.items| ==> fresh(r.value.items[i]))
    {
      var items: seq<DeliveryItem> := [];
      var k := 0;
      while k < |orders|
        invariant 0 <= k <= |orders| && |items| == k
        invariant forall j :: 0 <= j < k ==> fresh(items[j]) && items[j].Record() == ItemsFor(orders)[j]
        invariant forall i, j :: 0 <= i < j < k ==> items[i] != items[j]
      {
        var item := new DeliveryItem(orders[k].id, orders[k]);
        items := items + [item];
        k := k + 1;
      }
      if |items| == 0 {
        return Err(EmptyDelivery);
      }
      var i := 0;
      while i < |items|
        invariant 0 <= i <= |items|
        invariant forall j :: 0 <= j < i ==> orders[j].status == Orders.Ready
      {
        if items[i].order.status != Orders.Ready {
          assert CheckAllReady(orders) == Fail(OrderNotReady(orders[i].id, orders[i].status)) by {
            CheckAllReadyFindsFirst(orders, i);
          }
          return Err(OrderNotReady(items[i].orderId, items[i].order.status));
        }
        i := i + 1;
      }
      var d := new Delivery.FromItems(id, items, now);
      assert d.Record().items == ItemsFor(orders);
      return Ok(d);
    }

    method AssignRider(rider: RiderInfo, now: int) returns (r: Outcome<DeliveryError>)
      requires Valid()
      modifies this
      ensures Valid() && Follows(old(Record()), Record(), r, Step(old(Record()), DeliveryCommand.AssignRider(rider), now))
    {
      if !CanAssignRider(status) {
        return Fail(CannotAssignRider(status));
      }
      this.rider := Some(rider);
      status := Assigned;
      updatedAt := now;
      return Pass;
    }

    /** Status and times are written first, then each item is marked in turn. */
    method MarkAsPickedUp(now: int) returns (r: Outcome<DeliveryError>)
      requires Valid()
      modifies this, items
      ensures Valid() && Follows(old(Record()), Record(), r, Step(old(Record()), DeliveryCommand.MarkAsPickedUp, now))
    {
      if !CanMarkPickedUp(status) {
        return Fail(CannotMarkPickedUp(status));
      }
      status := PickedUp;
      pickupTime := Some(now);
      updatedAt := now;
      MarkItemsPickedUp();
      return Pass;
    }

    /** The loop over the items: each one is marked picked up in turn, and nothing else changes. */
    method MarkItemsPickedUp()
      requires forall i, j :: 0 <= i < j < |items| ==> items[i] != items[j]
      requires forall i :: 0 <= i < |items| ==> IS.CanMarkPickedUp(items[i].itemStatus)
      modifies items
      ensures ItemRecords() == WithItemStatus(old(ItemRecords()), IS.PickedUp)
    {
      var i := 0;
      while i < |items|
        invariant 0 <= i <= |items|
        invariant forall j :: 0 <= j < i ==> items[j].Record() == old(items[j].Record()).(itemStatus := IS.PickedUp)
        invariant forall j :: i <= j < |items| ==> items[j].Record() == old(items[j].Record())
        modifies items
      {
        var itemOutcome := items[i].MarkAsPickedUp();
        i := i + 1;
      }
    }

    method MarkAsInTransit(now: int) returns (r: Outcome<DeliveryError>)
      requires Valid()
      modifies this
      ensures Valid() && Follows(old(Record()), Record(), r, Step(old(Record()), DeliveryCommand.MarkAsInTransit, now))
    {
      if !CanMarkInTransit(status) {
        return Fail(CannotMarkInTransit(status));
      }
      status := InTransit;
      updatedAt := now;
      return Pass;
    }

    /** Status and times are written first, then each item is marked in turn. */
    method MarkAsDelivered(now: int) returns (r: Outcome<DeliveryError>)
      requires Valid()
      modifies this, items
      ensures Valid() && Follows(old(Record()), Record(), r, Step(old(Record()), DeliveryCommand.MarkAsDelivered, now))
    {
      if !CanMarkDelivered(status) {
        return Fail(CannotMarkDelivered(status));
      }
      status := Delivered;
      deliveryTime := Some(now);
      updatedAt := now;
      MarkItemsDelivered();
      return Pass;
    }

    /** The loop over the items: each one is marked delivered in turn, and nothing else changes. */
    method MarkItemsDelivered()
      requires forall i, j :: 0 <= i < j < |items| ==> items[i] != items[j]
      requires forall i :: 0 <= i < |items| ==> IS.CanMarkDelivered(items[i].itemStatus)
      modifies items
      ensures ItemRecords() == WithItemStatus(old(ItemRecords()), IS.Delivered)
    {
      var i := 0;
      while i < |items|
        invariant 0 <= i <= |items|
        invariant forall j :: 0 <= j < i ==> items[j].Record() == old(items[j].Record()).(itemStatus := IS.Delivered)
        invariant forall j :: i <= j < |items| ==> items[j].Record() == old(items[j].Record())
        modifies items
      {
        var itemOutcome := items[i].MarkAsDelivered();
        i := i + 1;
      }
    }

    method Complete(now: int) returns (r: Outcome<DeliveryError>)
      requires Valid()
      modifies this
      ensures Valid() && Follows(old(Record()), Record(), r, Step(old(Record()), DeliveryCommand.Complete, now))
    {
      if !CanComplete(status) {
        return Fail(CannotComplete(status));
      }
      status := Completed;
      updatedAt := now;
      return Pass;
    }

    method Cancel(now: int) returns (r: Outcome<DeliveryError>)
      requires Valid()
      modifies this
      ensures Valid() && Follows(old(Record()), Record(), r, Step(old(Record()), DeliveryCommand.Cancel, now))
    {
      if !CanCancel(status) {
        return Fail(CannotCancel(status));
      }
      status := Cancelled;
      updatedAt := now;
      return Pass;
    }
  }

  /** The order `CheckAllReady` reports is the first one not READY. */
  lemma {:induction false} CheckAllReadyFindsFirst(orders: seq<Orders.OrderSnapshot>, k: int)
    requires 0 <= k < |orders| && orders[k].status != Orders.Ready
    requires forall j :: 0 <= j < k ==> orders[j].status == Orders.Ready
    ensures CheckAllReady(orders) == Fail(OrderNotReady(orders[k].id, orders[k].status))
    decreases k
  {
    if k > 0 {
      CheckAllReadyFindsFirst(orders[1..], k - 1);
    }
  }
}
