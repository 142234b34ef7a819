/** Order.java (with OrderStatus, OrderType and OrderId): the order aggregate and its lifecycle. */
module Orders {
  import opened Outcomes
  import opened MoneyValue
  import opened OrderItemValue
  import opened AddressValue
  import opened Pricing

  datatype OrderStatus = Created | Settled | Preparing | Ready | Completed | Cancelled

  datatype OrderType = DineIn | Delivery

  /** OrderId wraps a UUID; the model keeps it opaque and compares it by value. */
  datatype OrderId = OrderId(uuid: string)

  datatype OrderError =
    | NullCustomerName                                         // "Customer name cannot be null"
    | DeliveryWithoutAddress                                   // "Delivery orders must have an address"
    | DineInWithAddress                                        // "Dine-in orders should not have an address"
    | NoItems                                                  // "Order must have at least one item"
    | InvalidTransition(current: OrderStatus, target: OrderStatus) // InvalidOrderStateException(current, target)
    | CannotCancelCompleted                                    // "Cannot cancel a completed order"
    | SettleNotByTransition                                    // "Use settle() method instead"

  /** The value of every field of an Order at one moment. Times are seconds. */
  datatype OrderSnapshot = OrderSnapshot(
    id: OrderId,
    customerName: string,
    orderType: OrderType,
    items: seq<OrderItem>,
    address: Option<Address>,
    createdAt: int,
    updatedAt: int,
    status: OrderStatus,
    totalPrice: Option<Money>)

  /** The named transition methods of Order, each with its target status. */
  datatype OrderCommand =
    | SettleWith(strategy: PricingStrategy)
    | StartPreparing
    | MarkAsReady
    | Complete
    | Cancel

  function TargetOf(cmd: OrderCommand): OrderStatus {
    match cmd
    case SettleWith(_) => Settled
    case StartPreparing => Preparing
    case MarkAsReady => Ready
    case Complete => Completed
    case Cancel => Cancelled
  }

  /** Reference lifecycle, as OrderStatus documents it: CREATED -> SETTLED -> PREPARING -> READY ->
      COMPLETED, and CANCELLED from any status but COMPLETED. */
  predicate CanMove(from: OrderStatus, to: OrderStatus) {
    || (from == Created && to == Settled)
    || (from == Settled && to == Preparing)
    || (from == Preparing && to == Ready)
    || (from == Ready && to == Completed)
    || (to == Cancelled && from != Completed)
  }

  /** What holds of every Order the constructor lets through and every transition keeps. */
  ghost predicate Invariant(o: OrderSnapshot) {
    && (o.orderType == Delivery <==> o.address.Some?)
    && o.items != []
    && (o.status == Created ==> o.totalPrice.None?)
    && (o.status in {Settled, Preparing, Ready, Completed} ==> o.totalPrice.Some?)
  }

  /** The fields no method ever writes. */
  predicate SameIdentity(a: OrderSnapshot, b: OrderSnapshot) {
    && a.id == b.id && a.customerName == b.customerName && a.orderType == b.orderType
    && a.items == b.items && a.address == b.address && a.createdAt == b.createdAt
  }

  /** `Order.create` through the private constructor, with the generated id and the clock reading passed
      in. A null customer name is `None`; the checks run in source order. */
  function NewOrder(id: OrderId, customerName: Option<string>, orderType: OrderType, items: seq<OrderItem>,
                    address: Option<Address>, now: int): (r: Result<OrderSnapshot, OrderError>)
    ensures r.Ok? <==> customerName.Some? && (orderType == Delivery <==> address.Some?) && items != []
    ensures customerName.None? ==> r == Err(NullCustomerName)
    ensures customerName.Some? && orderType == Delivery && address.None? ==> r == Err(DeliveryWithoutAddress)
    ensures customerName.Some? && orderType == DineIn && address.Some? ==> r == Err(DineInWithAddress)
    ensures customerName.Some? && (orderType == Delivery <==> address.Some?) && items == [] ==> r == Err(NoItems)
    ensures r.Ok? ==> Invariant(r.value)
    ensures r.Ok? ==> && r.value.status == Created && r.value.totalPrice.None?
                      && r.value.createdAt == now && r.value.updatedAt == now
                      && r.value.id == id && r.value.customerName == customerName.value
                      && r.value.orderType == orderType && r.value.items == items && r.value.address == address
  {
    if customerName.None? then Err(NullCustomerName)
    else if orderType == Delivery && address.None? then Err(DeliveryWithoutAddress)
    else if orderType == DineIn && address.Some? then Err(DineInWithAddress)
    else if items == [] then Err(NoItems)
    else
      assert orderType == Delivery <==> address.Some?;
      Ok(OrderSnapshot(id, customerName.value, orderType, items, address, now, now, Created, None))
  }

  /** One named transition method: the guard is checked first and a rejected call writes nothing. */
  function Step(o: OrderSnapshot, cmd: OrderCommand, now: int): (r: Result<OrderSnapshot, OrderError>)
    ensures r.Ok? <==> CanMove(o.status, TargetOf(cmd))
    ensures r.Ok? ==> && r.value.status == TargetOf(cmd) && r.value.updatedAt == now
                      && SameIdentity(o, r.value)
    ensures r.Ok? && cmd.SettleWith? ==> r.value.totalPrice == Some(Calculate(cmd.strategy, o.items))
    ensures r.Ok? && !cmd.SettleWith? ==> r.value.totalPrice == o.totalPrice
    ensures r.Err? && cmd.Cancel? ==> r.error == CannotCancelCompleted
    ensures r.Err? && !cmd.Cancel? ==> r.error == InvalidTransition(o.status, TargetOf(cmd))
    ensures Invariant(o) && r.Ok? ==> Invariant(r.value)
  {
    match cmd
    case SettleWith(strategy) =>
      if o.status != Created then Err(InvalidTransition(o.status, Settled))
      else Ok(o.(totalPrice := Some(Calculate(strategy, o.items)), status := Settled, updatedAt := now))
    case StartPreparing =>
      if o.status != Settled then Err(InvalidTransition(o.status, Preparing))
      else Ok(o.(status := Preparing, updatedAt := now))
    case MarkAsReady =>
      if o.status != Preparing then Err(InvalidTransition(o.status, Ready))
      else Ok(o.(status := Ready, updatedAt := now))
    case Complete =>
      if o.status != Ready then Err(InvalidTransition(o.status, Completed))
      else Ok(o.(status := Completed, updatedAt := now))
    case Cancel =>
      if o.status == Completed then Err(CannotCancelCompleted)
      else Ok(o.(status := Cancelled, updatedAt := now))
  }

  /** `transitionTo`: SETTLED is refused (settling needs a strategy), CREATED falls to the default
      branch, every other target runs its named method. */
  function TransitionToStatus(o: OrderSnapshot, target: OrderStatus, now: int): (r: Result<OrderSnapshot, OrderError>)
    ensures r.Ok? <==> target !in {Settled, Created} && CanMove(o.status, target)
    ensures r.Ok? ==> r.value == o.(status := target, updatedAt := now)
    ensures target == Settled ==> r == Err(SettleNotByTransition)
  {
    match target
    case Settled => Err(SettleNotByTransition)
    case Preparing => Step(o, StartPreparing, now)
    case Ready => Step(o, MarkAsReady, now)
    case Completed => Step(o, Complete, now)
    case Cancelled => Step(o, Cancel, now)
    case Created => Err(InvalidTransition(o.status, Created))
  }

  /** The dispatcher refuses CREATED as an invalid move and otherwise agrees with the named methods. */
  lemma TransitionToAgreesWithNamedMethods(o: OrderSnapshot, target: OrderStatus, now: int)
    ensures target == Created ==> TransitionToStatus(o, target, now) == Err(InvalidTransition(o.status, Created))
    ensures target !in {Settled, Created} ==>
      exists cmd: OrderCommand :: !cmd.SettleWith? && TargetOf(cmd) == target && TransitionToStatus(o, target, now) == Step(o, cmd, now)
  {
    match target
    case Settled =>
    case Created =>
    case Preparing => assert TargetOf(StartPreparing) == target;
    case Ready => assert TargetOf(MarkAsReady) == target;
    case Completed => assert TargetOf(Complete) == target;
    case Cancelled => assert TargetOf(Cancel) == target;
  }

  /** A sequence of method calls, each with its clock reading; the first rejected call ends the run. */
  function Run(o: OrderSnapshot, calls: seq<(OrderCommand, int)>): Result<OrderSnapshot, OrderError>
    decreases |calls|
  {
    if calls == [] then Ok(o)
    else
      match Step(o, calls[0].0, calls[0].1)
      case Err(e) => Err(e)
      case Ok(next) => Run(next, calls[1..])
  }

  /** Every run keeps the invariant and never changes id, customer, type, items, address or createdAt. */
  lemma {:induction false} RunKeepsInvariantAndIdentity(o: OrderSnapshot, calls: seq<(OrderCommand, int)>)
    requires Invariant(o)
    ensures Run(o, calls).Ok? ==> Invariant(Run(o, calls).value) && SameIdentity(o, Run(o, calls).value)
    decreases |calls|
  {
    if calls != [] {
      var s := Step(o, calls[0].0, calls[0].1);
      if s.Ok? {
        RunKeepsInvariantAndIdentity(s.value, calls[1..]);
      }
    }
  }

  /** Only `settle` writes totalPrice, and it runs only from CREATED, so a price once set never changes. */
  lemma {:induction false} PriceFixedOnceSet(o: OrderSnapshot, calls: seq<(OrderCommand, int)>)
    requires o.totalPrice.Some? && o.status != Created
    ensures Run(o, calls).Ok? ==> Run(o, calls).value.totalPrice == o.totalPrice
    decreases |calls|
  {
    if calls != [] {
      var s := Step(o, calls[0].0, calls[0].1);
      if s.Ok? {
        PriceFixedOnceSet(s.value, calls[1..]);
      }
    }
  }

  /** No call ever brings an order back to CREATED. */
  lemma {:induction false} NeverBackToCreated(o: OrderSnapshot, calls: seq<(OrderCommand, int)>)
    requires calls != [] || o.status != Created
    ensures Run(o, calls).Ok? ==> Run(o, calls).value.status != Created
    decreases |calls|
  {
    if calls != [] {
      var s := Step(o, calls[0].0, calls[0].1);
      if s.Ok? {
        NeverBackToCreated(s.value, calls[1..]);
      }
    }
  }

  /** A COMPLETED order refuses every call, so it stays COMPLETED. */
  lemma {:induction false} CompletedIsFinal(o: OrderSnapshot, calls: seq<(OrderCommand, int)>)
    requires o.status == Completed && calls != []
    ensures Run(o, calls).Err?
  {
  }

  /** `cancel` succeeds from every status but COMPLETED, an already cancelled order included. */
  lemma CancelAllowedUnlessCompleted(o: OrderSnapshot, now: int)
    ensures Step(o, Cancel, now).Ok? <==> o.status != Completed
    ensures o.status == Cancelled ==> Step(o, Cancel, now).Ok?
  {
  }

  /** The happy path CREATED -> SETTLED -> PREPARING -> READY -> COMPLETED, with the price fixed by the
      strategy at settlement. */
  lemma {:induction false} HappyPath(o: OrderSnapshot, strategy: PricingStrategy, t1: int, t2: int, t3: int, t4: int)
    requires Invariant(o) && o.status == Created
    ensures var r := Run(o, [(SettleWith(strategy), t1), (StartPreparing, t2), (MarkAsReady, t3), (Complete, t4)]);
      && r.Ok? && r.value.status == Completed && r.value.updatedAt == t4
      && r.value.totalPrice == Some(Calculate(strategy, o.items))
      && SameIdentity(o, r.value)
  {
    var calls := [(SettleWith(strategy), t1), (StartPreparing, t2), (MarkAsReady, t3), (Complete, t4)];
    var s1 := Step(o, SettleWith(strategy), t1).value;
    var s2 := Step(s1, StartPreparing, t2).value;
    var s3 := Step(s2, MarkAsReady, t3).value;
    var s4 := Step(s3, Complete, t4).value;
    assert calls[1..] == [(StartPreparing, t2), (MarkAsReady, t3), (Complete, t4)];
    assert calls[1..][1..] == [(MarkAsReady, t3), (Complete, t4)];
    assert calls[1..][1..][1..] == [(Complete, t4)];
    assert Run(s4, []) == Ok(s4);
    assert Run(s3, [(Complete, t4)]) == Ok(s4);
    assert Run(s2, calls[1..][1..]) == Ok(s4);
    assert Run(s1, calls[1..]) == Ok(s4);
    assert Run(o, calls) == Ok(s4);
  }

  /** Order.java's aggregate: the fields `final` in Java are `const`, the three the transition methods
      reassign are `var`. */
  class Order {
    const id: OrderId
    const customerName: string
    const orderType: OrderType
    const items: seq<OrderItem>
    const address: Option<Address>
    const createdAt: int
    var updatedAt: int
    var status: OrderStatus
    var totalPrice: Option<Money>

    function Snapshot(): OrderSnapshot
      reads this
    {
      OrderSnapshot(id, customerName, orderType, items, address, createdAt, updatedAt, status, totalPrice)
    }

    ghost predicate Valid()
      reads this
    {
      Invariant(Snapshot())
    }

    /** The private constructor once its checks have passed. */
    constructor FromSnapshot(s: OrderSnapshot)
      requires Invariant(s)
      ensures Valid() && Snapshot() == s
    {
      id, customerName, orderType, items, address := s.id, s.customerName, s.orderType, s.items, s.address;
      createdAt, updatedAt, status, totalPrice := s.createdAt, s.updatedAt, s.status, s.totalPrice;
    }

    /** `Order.create`: a new Order exactly when `NewOrder` accepts the arguments. */
    static method Create(id: OrderId, customerName: Option<string>, orderType: OrderType, items: seq<OrderItem>,
                         address: Option<Address>, now: int) returns (r: Result<Order, OrderError>)
      ensures var spec := NewOrder(id, customerName, orderType, items, address, now);
        && (spec.Err? ==> r == Err(spec.error))
        && (spec.Ok? ==> r.Ok? && fresh(r.value) && r.value.Valid() && r.value.Snapshot() == spec.value)
    {
      var spec := NewOrder(id, customerName, orderType, items, address, now);
      if spec.Err? {
        return Err(spec.error);
      }
      var o := new Order.FromSnapshot(spec.value);
      return Ok(o);
    }

    method Settle(strategy: PricingStrategy, now: int) returns (r: Outcome<OrderError>)
      requires Valid()
      modifies this
      ensures Valid() && Follows(old(Snapshot()), Snapshot(), r, Step(old(Snapshot()), SettleWith(strategy), now))
    {
      if status != Created {
        return Fail(InvalidTransition(status, Settled));
      }
      totalPrice := Some(Calculate(strategy, items));
      status := Settled;
      updatedAt := now;
      return Pass;
    }

    method StartPreparing(now: int) returns (r: Outcome<OrderError>)
      requires Valid()
      modifies this
      ensures Valid() && Follows(old(Snapshot()), Snapshot(), r, Step(old(Snapshot()), OrderCommand.StartPreparing, now))
    {
      if status != Settled {
        return Fail(InvalidTransition(status, Preparing));
      }
      status := Preparing;
      updatedAt := now;
      return Pass;
    }

    method MarkAsReady(now: int) returns (r: Outcome<OrderError>)
      requires Valid()
      modifies this
      ensures Valid() && Follows(old(Snapshot()), Snapshot(), r, Step(old(Snapshot()), OrderCommand.MarkAsReady, now))
    {
      if status != Preparing {
        return Fail(InvalidTransition(status, Ready));
      }
      status := Ready;
      updatedAt := now;
      return Pass;
    }

    method Complete(now: int) returns (r: Outcome<OrderError>)
      requires Valid()
      modifies this
      ensures Valid() && Follows(old(Snapshot()), Snapshot(), r, Step(old(Snapshot()), OrderCommand.Complete, now))
    {
      if status != Ready {
        return Fail(InvalidTransition(status, Completed));
      }
      status := Completed;
      updatedAt := now;
      return Pass;
    }

    method Cancel(now: int) returns (r: Outcome<OrderError>)
      requires Valid()
      modifies this
      ensures Valid() && Follows(old(Snapshot()), Snapshot(), r, Step(old(Snapshot()), OrderCommand.Cancel, now))
    {
      if status == Completed {
        return Fail(CannotCancelCompleted);
      }
      status := Cancelled;
      updatedAt := now;
      return Pass;
    }

    method TransitionTo(target: OrderStatus, now: int) returns (r: Outcome<OrderError>)
      requires Valid()
      modifies this
      ensures Valid() && Follows(old(Snapshot()), Snapshot(), r, TransitionToStatus(old(Snapshot()), target, now))
    {
      match target
      case Settled => r := Fail(SettleNotByTransition);
      case Preparing => r := StartPreparing(now);
      case Ready => r := MarkAsReady(now);
      case Completed => r := Complete(now);
      case Cancelled => r := Cancel(now);
      case Created => r := Fail(InvalidTransition(status, Created));
    }
  }
}
