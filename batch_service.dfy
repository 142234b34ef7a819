/** DeliveryBatchServiceImpl.java: validating a batch of orders and saving it as one delivery, finding the
    orders still waiting for a delivery, and splitting them into deliveries automatically. */
module BatchService {
  import opened Outcomes
  import Orders
  import opened Deliveries
  import OR = OrderRepository
  import DR = DeliveryRepository
  import BP = BatchPlanning

  /** The `IllegalArgumentException`s of `createDeliveryBatch`, one per message. */
  datatype BatchError =
    | NoOrders
    | TooManyOrders(count: nat)
    | NotDeliveryOrder(orderId: Orders.OrderId)
    | NotReady(orderId: Orders.OrderId, status: Orders.OrderStatus)
    | AlreadyInDelivery(orderId: Orders.OrderId)

  /** A delivery order in READY state. */
  predicate Fit(o: Orders.OrderSnapshot) {
    o.orderType == Orders.Delivery && o.status == Orders.Ready
  }

  /** The type is checked before the status. */
  function UnfitError(o: Orders.OrderSnapshot): BatchError {
    if o.orderType != Orders.Delivery then NotDeliveryOrder(o.id) else NotReady(o.id, o.status)
  }

  /** The first validation loop: the first order that is not a READY delivery order is reported. */
  function FirstUnfit(orders: seq<Orders.OrderSnapshot>): (r: Option<BatchError>)
    ensures r.None? <==> forall i :: 0 <= i < |orders| ==> Fit(orders[i])
    ensures r.Some? ==> exists k :: && 0 <= k < |orders| && !Fit(orders[k]) && r.value == UnfitError(orders[k])
                                    && forall j :: 0 <= j < k ==> Fit(orders[j])
  {
    if orders == [] then None
    else if !Fit(orders[0]) then Some(UnfitError(orders[0]))
    else
      var rest := FirstUnfit(orders[1..]);
      assert forall i :: 1 <= i < |orders| ==> orders[i] == orders[1..][i - 1];
      if rest.Some? then
        var k :| 0 <= k < |orders| - 1 && !Fit(orders[1..][k]) && rest.value == UnfitError(orders[1..][k])
                 && forall j :: 0 <= j < k ==> Fit(orders[1..][j]);
        assert forall j :: 0 <= j < k + 1 ==> Fit(orders[j]);
        rest
      else
        rest
  }

  /** The second validation loop: the first order some stored delivery already carries is reported. */
  function FirstCarried(orders: seq<Orders.OrderSnapshot>, store: DR.DeliveryStore): (r: Option<BatchError>)
    ensures r.None? <==> forall i :: 0 <= i < |orders| ==> DR.Carrying(store, orders[i].id) == {}
    ensures r.Some? ==> exists k :: && 0 <= k < |orders| && DR.Carrying(store, orders[k].id) != {}
                                    && r.value == AlreadyInDelivery(orders[k].id)
                                    && forall j :: 0 <= j < k ==> DR.Carrying(store, orders[j].id) == {}
  {
    if orders == [] then None
    else if DR.Carrying(store, orders[0].id) != {} then Some(AlreadyInDelivery(orders[0].id))
    else
      var rest := FirstCarried(orders[1..], store);
      assert forall i :: 1 <= i < |orders| ==> orders[i] == orders[1..][i - 1];
      if rest.Some? then
        var k :| 0 <= k < |orders| - 1 && DR.Carrying(store, orders[1..][k].id) != {}
                 && rest.value == AlreadyInDelivery(orders[1..][k].id)
                 && forall j :: 0 <= j < k ==> DR.Carrying(store, orders[1..][j].id) == {};
        assert forall j :: 0 <= j < k + 1 ==> DR.Carrying(store, orders[j].id) == {};
        rest
      else
        rest
  }

  /** Every check of `createDeliveryBatch`, in the order it makes them: emptiness, size, then type and
      status order by order, then whether an order is already in a delivery. */
  function CheckBatch(orders: seq<Orders.OrderSnapshot>, store: DR.DeliveryStore): (r: Outcome<BatchError>)
    ensures r == Pass <==> && 1 <= |orders| <= BP.MaxOrdersPerDelivery
                           && forall i :: 0 <= i < |orders| ==> Fit(orders[i]) && DR.Carrying(store, orders[i].id) == {}
    ensures orders == [] ==> r == Fail(NoOrders)
    ensures |orders| > BP.MaxOrdersPerDelivery ==> r == Fail(TooManyOrders(|orders|))
    ensures r.Fail? && r.error.AlreadyInDelivery? ==> forall i :: 0 <= i < |orders| ==> Fit(orders[i])
    ensures 1 <= |orders| <= BP.MaxOrdersPerDelivery && FirstUnfit(orders).Some? ==> r == Fail(FirstUnfit(orders).value)
    ensures 1 <= |orders| <= BP.MaxOrdersPerDelivery && FirstUnfit(orders).None? && FirstCarried(orders, store).Some? ==>
      r == Fail(FirstCarried(orders, store).value)
  {
    if orders == [] then Fail(NoOrders)
    else if |orders| > BP.MaxOrdersPerDelivery then Fail(TooManyOrders(|orders|))
    else
      match FirstUnfit(orders)
      case Some(e) => Fail(e)
      case None =>
        match FirstCarried(orders, store)
        case Some(e) => Fail(e)
        case None => Pass
  }

  /** Once a batch is saved, `findByOrderId` finds every one of its orders, so the same orders cannot be
      batched again: the first of them is reported as already in a delivery. */
  lemma BatchingTwiceFails(orders: seq<Orders.OrderSnapshot>, store: DR.DeliveryStore, id: DeliveryId, now: int)
    requires CheckBatch(orders, store) == Pass
    ensures NewDelivery(id, orders, now).Ok?
    ensures var d := NewDelivery(id, orders, now).value;
      && (forall i :: 0 <= i < |orders| ==> DR.Carrying(store[d.id := d], orders[i].id) != {})
      && CheckBatch(orders, store[d.id := d]) == Fail(AlreadyInDelivery(orders[0].id))
  {
    var d := NewDelivery(id, orders, now).value;
    forall i | 0 <= i < |orders| ensures DR.Carrying(store[d.id := d], orders[i].id) != {} {
      assert OrderIdsOf(d)[i] == orders[i].id;
      DR.SaveAndCarrying(store, d, orders[i].id);
    }
  }

  /** The orders `findBatchableOrders` returns: stored READY delivery orders no stored delivery carries. */
  function BatchableSet(orders: OR.OrderStore, store: DR.DeliveryStore): (r: set<Orders.OrderSnapshot>)
    ensures forall o :: o in r <==> o in OR.Values(orders) && Fit(o) && DR.Carrying(store, o.id) == {}
  {
    set o | o in OR.WithStatus(orders, Orders.Ready) && o.orderType == Orders.Delivery && DR.Carrying(store, o.id) == {}
  }

  /** Each batchable order passes every check of `createDeliveryBatch` on its own. */
  lemma BatchableAlone(orders: OR.OrderStore, store: DR.DeliveryStore, o: Orders.OrderSnapshot)
    ensures o in BatchableSet(orders, store) <==> o in OR.Values(orders) && CheckBatch([o], store) == Pass
  {
  }

  /** No two orders of one repository share an id. */
  lemma {:induction false} StoredIdsAreUnique(orders: OR.OrderStore, o1: Orders.OrderSnapshot, o2: Orders.OrderSnapshot)
    requires OR.Keyed(orders)
    requires o1 in OR.Values(orders) && o2 in OR.Values(orders) && o1.id == o2.id
    ensures o1 == o2
  {
    var k1 :| k1 in orders && orders[k1] == o1;
    var k2 :| k2 in orders && orders[k2] == o2;
  }

  /** The repository after the batches have been saved in turn, the j-th under `idFor(j)`. */
  function StoreAfter(start: DR.DeliveryStore, batches: seq<seq<Orders.OrderSnapshot>>, idFor: nat -> DeliveryId, now: int): DR.DeliveryStore
    decreases |batches|
  {
    if batches == [] then start
    else
      var n := |batches| - 1;
      var before := StoreAfter(start, batches[..n], idFor, now);
      match NewDelivery(idFor(n), batches[n], now)
      case Ok(d) => before[d.id := d]
      case Err(_) => before
  }

  lemma StoreAfterSnoc(start: DR.DeliveryStore, done: seq<seq<Orders.OrderSnapshot>>, batch: seq<Orders.OrderSnapshot>,
                       idFor: nat -> DeliveryId, now: int, d: DeliveryRecord)
    requires NewDelivery(idFor(|done|), batch, now) == Ok(d)
    ensures StoreAfter(start, done + [batch], idFor, now) == StoreAfter(start, done, idFor, now)[idFor(|done|) := d]
  {
    assert (done + [batch])[..|done|] == done;
  }

  /** With fresh, distinct ids nothing is overwritten: the repository keeps every delivery it held and
      gains the new ones, each under its own id. */
  lemma StoreAfterAddsEach(start: DR.DeliveryStore, batches: seq<seq<Orders.OrderSnapshot>>,
                           idFor: nat -> DeliveryId, now: int)
    requires forall i, j :: idFor(i) == idFor(j) ==> i == j
    requires forall i :: idFor(i) !in start
    requires forall j :: 0 <= j < |batches| ==> NewDelivery(idFor(j), batches[j], now).Ok?
    ensures var m := StoreAfter(start, batches, idFor, now);
      && (forall k :: k in m <==> k in start || exists j :: 0 <= j < |batches| && k == idFor(j))
      && (forall k :: k in start ==> m[k] == start[k])
      && (forall j :: 0 <= j < |batches| ==> m[idFor(j)] == NewDelivery(idFor(j), batches[j], now).value)
  {
    forall k ensures k in StoreAfter(start, batches, idFor, now) <==> k in start || exists j :: 0 <= j < |batches| && k == idFor(j) {
      if k in start {
        StoreAfterKeeps(start, batches, idFor, now, k);
      } else if k in StoreAfter(start, batches, idFor, now) {
        StoreAfterHas(start, batches, idFor, now, k);
      } else if exists j :: 0 <= j < |batches| && k == idFor(j) {
        var j :| 0 <= j < |batches| && k == idFor(j);
        StoreAfterHolds(start, batches, idFor, now, j);
      }
    }
    forall k | k in start ensures StoreAfter(start, batches, idFor, now)[k] == start[k] {
      StoreAfterKeeps(start, batches, idFor, now, k);
    }
    forall j | 0 <= j < |batches| ensures StoreAfter(start, batches, idFor, now)[idFor(j)] == NewDelivery(idFor(j), batches[j], now).value {
      StoreAfterHolds(start, batches, idFor, now, j);
    }
  }

  /** A run adds no id but those it hands out. */
  lemma {:induction false} StoreAfterHas(start: DR.DeliveryStore, batches: seq<seq<Orders.OrderSnapshot>>,
                                         idFor: nat -> DeliveryId, now: int, k: DeliveryId)
    requires k in StoreAfter(start, batches, idFor, now) && k !in start
    ensures exists j :: 0 <= j < |batches| && k == idFor(j)
    decreases |batches|
  {
    var n := |batches| - 1;
    if k in StoreAfter(start, batches[..n], idFor, now) {
      StoreAfterHas(start, batches[..n], idFor, now, k);
      var j :| 0 <= j < n && k == idFor(j);
      assert 0 <= j < |batches|;
    } else {
      assert k == idFor(n);
    }
  }

  /** A run with fresh ids leaves every delivery the repository held where it was. */
  lemma {:induction false} StoreAfterKeeps(start: DR.DeliveryStore, batches: seq<seq<Orders.OrderSnapshot>>,
                                           idFor: nat -> DeliveryId, now: int, k: DeliveryId)
    requires forall i :: idFor(i) !in start
    requires k in start
    ensures k in StoreAfter(start, batches, idFor, now) && StoreAfter(start, batches, idFor, now)[k] == start[k]
    decreases |batches|
  {
    if batches != [] {
      var n := |batches| - 1;
      StoreAfterKeeps(start, batches[..n], idFor, now, k);
      assert k != idFor(n);
    }
  }

  /** With distinct ids each passing batch's delivery stays under its id to the end of the run. */
  lemma {:induction false} StoreAfterHolds(start: DR.DeliveryStore, batches: seq<seq<Orders.OrderSnapshot>>,
                                           idFor: nat -> DeliveryId, now: int, j: nat)
    requires forall i, j :: idFor(i) == idFor(j) ==> i == j
    requires j < |batches| && NewDelivery(idFor(j), batches[j], now).Ok?
    ensures idFor(j) in StoreAfter(start, batches, idFor, now)
    ensures StoreAfter(start, batches, idFor, now)[idFor(j)] == NewDelivery(idFor(j), batches[j], now).value
    decreases |batches|
  {
    var n := |batches| - 1;
    if j < n {
      assert batches[..n][j] == batches[j];
      StoreAfterHolds(start, batches[..n], idFor, now, j);
      assert idFor(n) != idFor(j);
    }
  }

  /** A delivery in the repository after the run carries an order only if one already did, or the order
      is in one of the saved batches. */
  lemma {:induction false} StoreAfterCarrying(start: DR.DeliveryStore, batches: seq<seq<Orders.OrderSnapshot>>,
                                               idFor: nat -> DeliveryId, now: int, orderId: Orders.OrderId)
    ensures DR.Carrying(StoreAfter(start, batches, idFor, now), orderId) != {} ==>
      DR.Carrying(start, orderId) != {} || exists y :: y in BP.Flatten(batches) && y.id == orderId
    decreases |batches|
  {
    if batches != [] {
      var n := |batches| - 1;
      var init := batches[..n];
      assert batches == init + [batches[n]];
      BP.FlattenAppend(init, [batches[n]]);
      assert BP.Flatten([batches[n]]) == batches[n] + BP.Flatten([]);
      StoreAfterCarrying(start, init, idFor, now, orderId);
      var before := StoreAfter(start, init, idFor, now);
      match NewDelivery(idFor(n), batches[n], now)
      case Ok(d) =>
        DR.SaveAndCarrying(before, d, orderId);
        if DR.Carries(d, orderId) {
          var i :| 0 <= i < |OrderIdsOf(d)| && OrderIdsOf(d)[i] == orderId;
          assert batches[n][i] in BP.Flatten(batches);
        }
      case Err(_) =>
    }
  }

  predicate DistinctIds(s: seq<Orders.OrderSnapshot>) {
    forall i, j :: 0 <= i < j < |s| ==> s[i].id != s[j].id
  }

  lemma TwoPositions(s: seq<Orders.OrderSnapshot>, i: nat, j: nat)
    requires i < j < |s|
    ensures s[i] == s[j] ==> multiset(s)[s[i]] >= 2
  {
    assert s == s[..j] + s[j..];
    assert s[i] in s[..j] && s[j] in s[j..];
  }

  /** The deliveries of one run carry each order id at most once. */
  lemma PlanIdsAreDistinct(orders: OR.OrderStore, store: DR.DeliveryStore, listing: seq<Orders.OrderSnapshot>, keys: seq<BP.Key>)
    requires OR.Keyed(orders)
    requires BP.Enumerates(listing, BatchableSet(orders, store))
    requires BP.ListsKeys(keys, BP.SortByCreatedAt(listing))
    ensures DistinctIds(BP.Flatten(BP.Plan(BP.SortByCreatedAt(listing), keys)))
  {
    var batchable := BatchableSet(orders, store);
    var f := BP.Flatten(BP.Plan(BP.SortByCreatedAt(listing), keys));
    BP.PlanPartitions(listing, batchable, keys);
    forall i, j | 0 <= i < j < |f| ensures f[i].id != f[j].id {
      assert f[i] in multiset(f) && f[j] in multiset(f);
      TwoPositions(f, i, j);
      if f[i].id == f[j].id {
        StoredIdsAreUnique(orders, f[i], f[j]);
      }
    }
  }

  /** The flattened plan is the batches before the n-th, then the n-th, then the rest. */
  lemma FlattenAround(plan: seq<seq<Orders.OrderSnapshot>>, n: nat)
    requires n < |plan|
    ensures BP.Flatten(plan) == BP.Flatten(plan[..n]) + plan[n] + BP.Flatten(plan[n + 1..])
  {
    assert plan == plan[..n] + plan[n..];
    BP.FlattenAppend(plan[..n], plan[n..]);
    assert plan[n..][0] == plan[n] && plan[n..][1..] == plan[n + 1..];
  }

  /** With distinct ids, no order of a later part shares an id with an order of an earlier part. */
  lemma LaterIdsAreNew(a: seq<Orders.OrderSnapshot>, b: seq<Orders.OrderSnapshot>, c: seq<Orders.OrderSnapshot>, i: nat)
    requires DistinctIds(a + b + c) && i < |b|
    ensures forall y :: y in a ==> y.id != b[i].id
  {
    var f := a + b + c;
    assert f[|a| + i] == b[i];
    forall y | y in a ensures y.id != b[i].id {
      var p :| 0 <= p < |a| && a[p] == y;
      assert f[p] == y;
    }
  }

  /** Every order the plan delivers is batchable. */
  lemma PlannedOrdersAreBatchable(orders: OR.OrderStore, store: DR.DeliveryStore, listing: seq<Orders.OrderSnapshot>,
                                  keys: seq<BP.Key>, n: nat, i: nat)
    requires BP.Enumerates(listing, BatchableSet(orders, store))
    requires BP.ListsKeys(keys, BP.SortByCreatedAt(listing))
    requires n < |BP.Plan(BP.SortByCreatedAt(listing), keys)|
    requires i < |BP.Plan(BP.SortByCreatedAt(listing), keys)[n]|
    ensures BP.Plan(BP.SortByCreatedAt(listing), keys)[n][i] in BatchableSet(orders, store)
  {
    var plan := BP.Plan(BP.SortByCreatedAt(listing), keys);
    FlattenAround(plan, n);
    var f := BP.Flatten(plan);
    assert f[|BP.Flatten(plan[..n])| + i] == plan[n][i];
    BP.PlanPartitions(listing, BatchableSet(orders, store), keys);
    assert plan[n][i] in multiset(f);
  }

  /** The batch the run is about to save passes every check against the repository as the earlier
      batches of the same run left it, so the catch blocks of `autoBatchOrders` are never entered. */
  lemma NextBatchPasses(orders: OR.OrderStore, store: DR.DeliveryStore, listing: seq<Orders.OrderSnapshot>,
                        keys: seq<BP.Key>, idFor: nat -> DeliveryId, now: int, n: nat)
    requires OR.Keyed(orders)
    requires BP.Enumerates(listing, BatchableSet(orders, store))
    requires BP.ListsKeys(keys, BP.SortByCreatedAt(listing))
    requires n < |BP.Plan(BP.SortByCreatedAt(listing), keys)|
    ensures var plan := BP.Plan(BP.SortByCreatedAt(listing), keys);
      CheckBatch(plan[n], StoreAfter(store, plan[..n], idFor, now)) == Pass
  {
    var plan := BP.Plan(BP.SortByCreatedAt(listing), keys);
    var batch := plan[n];
    var after := StoreAfter(store, plan[..n], idFor, now);
    BP.PlanShapes(listing, keys);
    assert batch in plan;
    PlanIdsAreDistinct(orders, store, listing, keys);
    FlattenAround(plan, n);
    forall i | 0 <= i < |batch| ensures Fit(batch[i]) && DR.Carrying(after, batch[i].id) == {} {
      PlannedOrdersAreBatchable(orders, store, listing, keys, n, i);
      LaterIdsAreNew(BP.Flatten(plan[..n]), batch, BP.Flatten(plan[n + 1..]), i);
      StoreAfterCarrying(store, plan[..n], idFor, now, batch[i].id);
    }
  }

  /** Each batch of `plan` passes every check against the repository as the batches before it left it. */
  ghost predicate AllAccepted(plan: seq<seq<Orders.OrderSnapshot>>, start: DR.DeliveryStore, idFor: nat -> DeliveryId, now: int) {
    forall n :: 0 <= n < |plan| ==> AcceptedAt(plan, n, start, idFor, now)
  }

  /** The batch at position `n` of `plan` passes every check against the repository as the batches
      before it left it. */
  ghost predicate AcceptedAt(plan: seq<seq<Orders.OrderSnapshot>>, n: nat, start: DR.DeliveryStore, idFor: nat -> DeliveryId, now: int)
    requires n < |plan|
  {
    CheckBatch(plan[n], StoreAfter(start, plan[..n], idFor, now)) == Pass
  }

  /** The whole plan of a run is accepted batch by batch. */
  lemma PlanAccepted(orders: OR.OrderStore, store: DR.DeliveryStore, listing: seq<Orders.OrderSnapshot>, keys: seq<BP.Key>,
                     idFor: nat -> DeliveryId, now: int)
    requires OR.Keyed(orders)
    requires BP.Enumerates(listing, BatchableSet(orders, store))
    requires BP.ListsKeys(keys, BP.SortByCreatedAt(listing))
    ensures AllAccepted(BP.Plan(BP.SortByCreatedAt(listing), keys), store, idFor, now)
  {
    forall n | 0 <= n < |BP.Plan(BP.SortByCreatedAt(listing), keys)|
      ensures AcceptedAt(BP.Plan(BP.SortByCreatedAt(listing), keys), n, store, idFor, now)
    {
      NextBatchPasses(orders, store, listing, keys, idFor, now, n);
    }
  }

  /** A batch that comes next in an accepted plan, after the batches `done`, passes every check. */
  lemma AcceptedNext(plan: seq<seq<Orders.OrderSnapshot>>, start: DR.DeliveryStore, idFor: nat -> DeliveryId, now: int,
                     done: seq<seq<Orders.OrderSnapshot>>, batch: seq<Orders.OrderSnapshot>, later: seq<seq<Orders.OrderSnapshot>>)
    requires AllAccepted(plan, start, idFor, now) && done + ([batch] + later) == plan
    ensures CheckBatch(batch, StoreAfter(start, done, idFor, now)) == Pass
    ensures plan[|done|] == batch && (done + [batch]) + later == plan
  {
    assert plan[|done|] == batch;
    assert plan[..|done|] == done;
    assert AcceptedAt(plan, |done|, start, idFor, now);
  }

  /** Every prefix of an accepted plan is accepted. */
  lemma AcceptedPrefix(plan: seq<seq<Orders.OrderSnapshot>>, prefix: seq<seq<Orders.OrderSnapshot>>,
                       start: DR.DeliveryStore, idFor: nat -> DeliveryId, now: int)
    requires AllAccepted(plan, start, idFor, now) && prefix <= plan
    ensures AllAccepted(prefix, start, idFor, now)
  {
    forall n | 0 <= n < |prefix| ensures AcceptedAt(prefix, n, start, idFor, now) {
      assert prefix[..n] == plan[..n];
      assert AcceptedAt(plan, n, start, idFor, now);
    }
  }

  /** `d` is a valid delivery in the state `newDelivery` gives `batch` under the id `id`. */
  ghost predicate SavedOne(d: Delivery, id: DeliveryId, batch: seq<Orders.OrderSnapshot>, now: int)
    reads d, d.items
  {
    d.Valid() && NewDelivery(id, batch, now) == Ok(d.Record())
  }

  /** The j-th of `created` is a valid delivery in the state `newDelivery` gives the batch at position
      `first + j` of `batches` under the id `idFor(first + j)`. */
  ghost predicate SavedAs(created: seq<Delivery>, first: nat, batches: seq<seq<Orders.OrderSnapshot>>,
                          idFor: nat -> DeliveryId, now: int)
    reads set j | 0 <= j < |created| :: created[j]
    reads set j, i | 0 <= j < |created| && 0 <= i < |created[j].items| :: created[j].items[i]
  {
    && first + |created| <= |batches|
    && forall j :: 0 <= j < |created| ==> SavedOne(created[j], idFor(first + j), batches[first + j], now)
  }

  /** Deliveries saved one run after another are saved in sequence. */
  lemma SavedAppend(a: seq<Delivery>, b: seq<Delivery>, first: nat, batches: seq<seq<Orders.OrderSnapshot>>,
                    idFor: nat -> DeliveryId, now: int)
    requires SavedAs(a, first, batches, idFor, now) && SavedAs(b, first + |a|, batches, idFor, now)
    ensures SavedAs(a + b, first, batches, idFor, now)
  {
    forall j | 0 <= j < |a + b|
      ensures SavedOne((a + b)[j], idFor(first + j), batches[first + j], now)
    {
      if j >= |a| {
        assert (a + b)[j] == b[j - |a|];
        assert first + |a| + (j - |a|) == first + j;
      }
    }
  }

  /** Deliveries saved from the start of a plan are saved from the whole plan. */
  lemma SavedPrefix(created: seq<Delivery>, first: nat, prefix: seq<seq<Orders.OrderSnapshot>>,
                    plan: seq<seq<Orders.OrderSnapshot>>, idFor: nat -> DeliveryId, now: int)
    requires SavedAs(created, first, prefix, idFor, now) && prefix <= plan
    ensures SavedAs(created, first, plan, idFor, now)
  {
  }

  /** Deliveries saved from a plan are saved from any start of it that is long enough to hold them. */
  lemma SavedWithin(created: seq<Delivery>, first: nat, prefix: seq<seq<Orders.OrderSnapshot>>,
                    plan: seq<seq<Orders.OrderSnapshot>>, idFor: nat -> DeliveryId, now: int)
    requires SavedAs(created, first, plan, idFor, now) && prefix <= plan && first + |created| <= |prefix|
    ensures SavedAs(created, first, prefix, idFor, now)
  {
  }

  /** The deliveries carry, in order, the ids a run hands out from the position `first` on. */
  predicate IdsFollow(ds: seq<Delivery>, idFor: nat -> DeliveryId, first: nat)
    decreases |ds|
  {
    ds == [] || (IdsFollow(ds[..|ds| - 1], idFor, first) && ds[|ds| - 1].id == idFor(first + |ds| - 1))
  }

  /** One stretch of deliveries followed by the next carries the ids of both. */
  lemma {:induction false} IdsAppend(a: seq<Delivery>, b: seq<Delivery>, idFor: nat -> DeliveryId, first: nat, next: nat)
    requires next == first + |a|
    requires IdsFollow(a, idFor, first) && IdsFollow(b, idFor, next)
    ensures IdsFollow(a + b, idFor, first)
    decreases |b|
  {
    if b != [] {
      var b' := b[..|b| - 1];
      assert (a + b)[..|a + b| - 1] == a + b';
      IdsAppend(a, b', idFor, first, next);
    } else {
      assert a + b == a;
    }
  }

  /** Each delivery carries the id handed out for its position. */
  lemma {:induction false} IdsFollowAt(ds: seq<Delivery>, idFor: nat -> DeliveryId, first: nat, j: nat)
    requires IdsFollow(ds, idFor, first) && j < |ds|
    ensures ds[j].id == idFor(first + j)
    decreases |ds|
  {
    if j < |ds| - 1 {
      IdsFollowAt(ds[..|ds| - 1], idFor, first, j);
    }
  }

  /** `canBatchWith`'s earliest creation time of the other orders. */
  function MinCreatedAt(others: seq<Orders.OrderSnapshot>): (r: int)
    requires others != []
    ensures exists i :: 0 <= i < |others| && r == others[i].createdAt
    ensures forall i :: 0 <= i < |others| ==> r <= others[i].createdAt
  {
    if |others| == 1 then others[0].createdAt
    else
      var rest := MinCreatedAt(others[1..]);
      assert forall i :: 1 <= i < |others| ==> others[i] == others[1..][i - 1];
      if others[0].createdAt <= rest then others[0].createdAt else rest
  }

  /** `canBatchWith` against the deliveries in `store`: a missing order or no other orders is false; then
      the order must be a READY delivery order in no delivery, the others fewer than 5, the order within
      the window of the earliest other, and the order's address the first other's. */
  function CanBatchWith(store: DR.DeliveryStore, order: Option<Orders.OrderSnapshot>, others: seq<Orders.OrderSnapshot>): (r: bool)
    ensures r <==> && order.Some? && others != [] && |others| < BP.MaxOrdersPerDelivery
                   && Fit(order.value) && DR.Carrying(store, order.value.id) == {}
                   && BP.BatchKey(order.value) == BP.BatchKey(others[0])
                   && (forall i :: 0 <= i < |others| ==> order.value.createdAt <= others[i].createdAt + BP.WindowSeconds)
                   && (exists i :: 0 <= i < |others| && others[i].createdAt - BP.WindowSeconds <= order.value.createdAt)
  {
    if order.None? || others == [] then false
    else
      var o := order.value;
      if o.orderType != Orders.Delivery then false
      else if o.status != Orders.Ready then false
      else if DR.Carrying(store, o.id) != {} then false
      else if |others| >= BP.MaxOrdersPerDelivery then false
      else if !BP.IsWithinTimeWindow(o.createdAt, MinCreatedAt(others)) then false
      else BP.BatchKey(o) == BP.BatchKey(others[0])
  }

  /** An order `canBatchWith` accepts can join a batch that `createDeliveryBatch` accepts: the larger batch
      is accepted too, keeps one address, and every order of it stays within the window of the earliest. */
  lemma CanBatchWithExtendsBatch(store: DR.DeliveryStore, o: Orders.OrderSnapshot, others: seq<Orders.OrderSnapshot>)
    requires CanBatchWith(store, Some(o), others) && CheckBatch(others, store) == Pass
    requires forall i :: 0 <= i < |others| ==> BP.BatchKey(others[i]) == BP.BatchKey(others[0])
    ensures CheckBatch(others + [o], store) == Pass
    ensures forall i :: 0 <= i < |others + [o]| ==> BP.BatchKey((others + [o])[i]) == BP.BatchKey(others[0])
  {
  }

  /** The orders of `s` that `keep` accepts, in list order (a stream `filter`). */
  function Filter(keep: Orders.OrderSnapshot -> bool, s: seq<Orders.OrderSnapshot>): (r: seq<Orders.OrderSnapshot>)
    ensures |r| <= |s|
    ensures forall x :: x in r <==> x in s && keep(x)
  {
    if s == [] then [] else (if keep(s[0]) then [s[0]] else []) + Filter(keep, s[1..])
  }

  /** The filter keeps each accepted order as many times as `s` lists it, and no other order. */
  lemma {:induction false} FilterCounts(keep: Orders.OrderSnapshot -> bool, s: seq<Orders.OrderSnapshot>)
    ensures forall x :: multiset(Filter(keep, s))[x] == if keep(x) then multiset(s)[x] else 0
  {
    if s != [] {
      FilterCounts(keep, s[1..]);
      assert s == [s[0]] + s[1..];
    }
  }

  /** The filter works order by order: on two lists one after the other it gives the orders kept from the
      first followed by those kept from the second. */
  lemma {:induction false} FilterConcat(keep: Orders.OrderSnapshot -> bool, a: seq<Orders.OrderSnapshot>, b: seq<Orders.OrderSnapshot>)
    ensures Filter(keep, a + b) == Filter(keep, a) + Filter(keep, b)
  {
    if a == [] {
      assert a + b == b;
    } else {
      assert (a + b)[0] == a[0] && (a + b)[1..] == a[1..] + b;
      FilterConcat(keep, a[1..], b);
    }
  }

  /** The test `findBatchableOrdersFor` applies to each listed order: another order than the reference that
      `canBatchWith` accepts next to the reference alone. */
  function BatchableWith(store: DR.DeliveryStore, reference: Orders.OrderSnapshot): Orders.OrderSnapshot -> bool {
    (o: Orders.OrderSnapshot) => o.id != reference.id && CanBatchWith(store, Some(o), [reference])
  }

  /** `findBatchableOrdersFor`: the orders of `all`, in list order, other than the reference order that
      `canBatchWith` accepts next to the reference order alone. */
  function FindBatchableOrdersFor(store: DR.DeliveryStore, reference: Option<Orders.OrderSnapshot>, all: seq<Orders.OrderSnapshot>): (r: seq<Orders.OrderSnapshot>)
    ensures reference.None? ==> r == []
    ensures |r| <= |all|
    ensures forall o :: o in r <==> && o in all && reference.Some? && o.id != reference.value.id
                                     && CanBatchWith(store, Some(o), [reference.value])
  {
    if reference.None? then [] else Filter(BatchableWith(store, reference.value), all)
  }

  /** The orders found keep each accepted order as many times as `all` lists it, and no other order. */
  lemma FindBatchableOrdersForCounts(store: DR.DeliveryStore, reference: Orders.OrderSnapshot, all: seq<Orders.OrderSnapshot>)
    ensures forall o :: multiset(FindBatchableOrdersFor(store, Some(reference), all))[o]
                        == if o.id != reference.id && CanBatchWith(store, Some(o), [reference]) then multiset(all)[o] else 0
  {
    FilterCounts(BatchableWith(store, reference), all);
  }

  /** The search works order by order: on two lists one after the other it finds the orders found in the
      first, followed by those found in the second, so it keeps the list order of `all`. */
  lemma FindBatchableOrdersForSplits(store: DR.DeliveryStore, reference: Option<Orders.OrderSnapshot>,
                                     a: seq<Orders.OrderSnapshot>, b: seq<Orders.OrderSnapshot>)
    ensures FindBatchableOrdersFor(store, reference, a + b)
            == FindBatchableOrdersFor(store, reference, a) + FindBatchableOrdersFor(store, reference, b)
  {
    if reference.Some? {
      FilterConcat(BatchableWith(store, reference.value), a, b);
    }
  }

  /** Every order found for a reference order that is itself batchable can be put in one delivery with it. */
  lemma FoundOrdersPairWithReference(store: DR.DeliveryStore, reference: Orders.OrderSnapshot, all: seq<Orders.OrderSnapshot>, o: Orders.OrderSnapshot)
    requires o in FindBatchableOrdersFor(store, Some(reference), all)
    requires CheckBatch([reference], store) == Pass
    ensures CheckBatch([reference, o], store) == Pass && BP.BatchKey(o) == BP.BatchKey(reference)
  {
    CanBatchWithExtendsBatch(store, o, [reference]);
    assert [reference] + [o] == [reference, o];
  }

  /** `groups` is `groupingBy` of `s`: one entry per key of `s`, holding that key's orders in order. */
  ghost predicate GroupsOf(groups: map<BP.Key, seq<Orders.OrderSnapshot>>, s: seq<Orders.OrderSnapshot>) {
    && (forall k :: k in groups <==> k in BP.KeysOf(s))
    && (forall k :: k in groups ==> groups[k] == BP.Group(s, k))
  }

  /** Appending an order adds its key to the keys seen so far. */
  lemma {:induction false} KeysSnoc(s: seq<Orders.OrderSnapshot>, o: Orders.OrderSnapshot)
    ensures BP.KeysOf(s + [o]) == BP.KeysOf(s) + {BP.BatchKey(o)}
  {
    forall k | k in BP.KeysOf(s + [o]) ensures k in BP.KeysOf(s) + {BP.BatchKey(o)} {
      var x :| x in s + [o] && BP.BatchKey(x) == k;
      if x != o {
        assert x in s;
      }
    }
    forall k | k in BP.KeysOf(s) ensures k in BP.KeysOf(s + [o]) {
      var x :| x in s && BP.BatchKey(x) == k;
      assert x in s + [o];
    }
    assert o in s + [o];
  }

  /** One step of `groupingBy`: the order is appended to its key's list, which is created when the key is
      new. */
  function AddToGroup(groups: map<BP.Key, seq<Orders.OrderSnapshot>>, o: Orders.OrderSnapshot): map<BP.Key, seq<Orders.OrderSnapshot>> {
    var k := BP.BatchKey(o);
    groups[k := (if k in groups then groups[k] else []) + [o]]
  }

  /** Each `groupingBy` step keeps `GroupsOf`. */
  lemma {:induction false} GroupsSnoc(groups: map<BP.Key, seq<Orders.OrderSnapshot>>, s: seq<Orders.OrderSnapshot>, o: Orders.OrderSnapshot)
    requires GroupsOf(groups, s)
    ensures GroupsOf(AddToGroup(groups, o), s + [o])
  {
    var next := AddToGroup(groups, o);
    KeysSnoc(s, o);
    assert forall k :: k in next <==> k in BP.KeysOf(s + [o]);
    forall k | k in next ensures next[k] == BP.Group(s + [o], k) {
      GroupSnocAt(groups, s, o, k);
    }
  }

  lemma {:induction false} GroupSnocAt(groups: map<BP.Key, seq<Orders.OrderSnapshot>>, s: seq<Orders.OrderSnapshot>, o: Orders.OrderSnapshot, k: BP.Key)
    requires GroupsOf(groups, s) && k in AddToGroup(groups, o)
    ensures AddToGroup(groups, o)[k] == BP.Group(s + [o], k)
  {
    BP.FilterSnoc(s, o, {k});
    if k !in groups {
      BP.GroupNonEmpty(s, k);
    }
  }

  /** `groupingBy` on the sorted orders: each key maps to its orders in sorted order. */
  method GroupByAddress(sorted: seq<Orders.OrderSnapshot>) returns (groups: map<BP.Key, seq<Orders.OrderSnapshot>>)
    ensures GroupsOf(groups, sorted)
  {
    groups := map[];
    for i := 0 to |sorted|
      invariant GroupsOf(groups, sorted[..i])
    {
      var o := sorted[i];
      GroupsSnoc(groups, sorted[..i], o);
      assert sorted[..i + 1] == sorted[..i] + [o];
      groups := AddToGroup(groups, o);
    }
    assert sorted[..|sorted|] == sorted;
  }

  /** The unspecified iteration order of the map's `values()`: every key once. */
  method ValuesOrder(groups: map<BP.Key, seq<Orders.OrderSnapshot>>) returns (order: seq<BP.Key>)
    ensures forall k :: k in order <==> k in groups
    ensures forall i, j :: 0 <= i < j < |order| ==> order[i] != order[j]
  {
    order := [];
    var left := groups.Keys;
    while left != {}
      invariant left <= groups.Keys
      invariant forall k :: k in order <==> k in groups && k !in left
      invariant forall i, j :: 0 <= i < j < |order| ==> order[i] != order[j]
      decreases |left|
    {
      var k :| k in left;
      order := order + [k];
      left := left - {k};
    }
  }

  /** The steps of `autoBatchOrders` before its loop: the batchable orders sorted by creation time,
      grouped by address, with the addresses in the order the groups are visited. */
  method SortAndGroup(batchable: seq<Orders.OrderSnapshot>)
    returns (sorted: seq<Orders.OrderSnapshot>, groups: map<BP.Key, seq<Orders.OrderSnapshot>>, order: seq<BP.Key>)
    ensures sorted == BP.SortByCreatedAt(batchable)
    ensures BP.ListsKeys(order, sorted)
    ensures forall k :: k in order ==> k in groups && groups[k] == BP.Group(sorted, k)
  {
    sorted := BP.SortByCreatedAt(batchable);
    groups := GroupByAddress(sorted);
    order := ValuesOrder(groups);
  }

  /** The first filter of `findBatchableOrders`: the delivery orders among the READY ones, listed once
      each in the unspecified order of the repository's map. */
  method KeepDeliveryOrders(ready: set<Orders.OrderSnapshot>) returns (r: seq<Orders.OrderSnapshot>)
    ensures forall o :: multiset(r)[o] == if o in ready && o.orderType == Orders.Delivery then 1 else 0
  {
    r := [];
    var left := ready;
    while left != {}
      invariant left <= ready
      invariant forall o :: multiset(r)[o] == if o in ready && o !in left && o.orderType == Orders.Delivery then 1 else 0
      decreases |left|
    {
      var o :| o in left;
      if o.orderType == Orders.Delivery {
        r := r + [o];
      }
      left := left - {o};
    }
  }

  /** The service over its two repositories; the event publisher is not modelled. */
  class DeliveryBatchService {
    const orderRepo: OR.InMemoryOrderRepository
    const deliveryRepo: DR.InMemoryDeliveryRepository

    ghost predicate Valid()
      reads orderRepo, deliveryRepo
    {
      orderRepo.Valid() && deliveryRepo.Valid()
    }

    constructor (orderRepo: OR.InMemoryOrderRepository, deliveryRepo: DR.InMemoryDeliveryRepository)
      ensures this.orderRepo == orderRepo && this.deliveryRepo == deliveryRepo
    {
      this.orderRepo := orderRepo;
      this.deliveryRepo := deliveryRepo;
    }

    /** The first validation loop of `createDeliveryBatch`: type, then status, order by order. */
    method ValidateOrders(orders: seq<Orders.OrderSnapshot>) returns (r: Option<BatchError>)
      ensures r == FirstUnfit(orders)
    {
      for i := 0 to |orders|
        invariant forall j :: 0 <= j < i ==> Fit(orders[j])
      {
        if orders[i].orderType != Orders.Delivery {
          return Some(NotDeliveryOrder(orders[i].id));
        }
        if orders[i].status != Orders.Ready {
          return Some(NotReady(orders[i].id, orders[i].status));
        }
      }
      return None;
    }

    /** The second validation loop of `createDeliveryBatch`: `findByOrderId` on each order in turn. */
    method ValidateNotInDelivery(orders: seq<Orders.OrderSnapshot>) returns (r: Option<BatchError>)
      ensures r == FirstCarried(orders, deliveryRepo.storage)
    {
      for i := 0 to |orders|
        invariant forall j :: 0 <= j < i ==> DR.Carrying(deliveryRepo.storage, orders[j].id) == {}
      {
        var found := deliveryRepo.FindByOrderId(orders[i].id);
        if found.Some? {
          return Some(AlreadyInDelivery(orders[i].id));
        }
      }
      return None;
    }

    /** `createDeliveryBatch`: the checks of `CheckBatch`, then `Delivery.create` with the generated id and
        the clock passed in, then `save`. A refused batch changes nothing. */
    method CreateDeliveryBatch(orders: seq<Orders.OrderSnapshot>, id: DeliveryId, now: int) returns (r: Result<Delivery, BatchError>)
      requires Valid()
      modifies deliveryRepo
      ensures Valid()
      ensures var c := CheckBatch(orders, old(deliveryRepo.storage));
        && (c.Fail? ==> r == Err(c.error) && deliveryRepo.storage == old(deliveryRepo.storage))
        && (c == Pass ==> && r.Ok? && fresh(r.value) && r.value.Valid()
                          && NewDelivery(id, orders, now) == Ok(r.value.Record())
                          && deliveryRepo.storage == old(deliveryRepo.storage)[id := r.value.Record()])
    {
      if |orders| == 0 {
        return Err(NoOrders);
      }
      if |orders| > BP.MaxOrdersPerDelivery {
        return Err(TooManyOrders(|orders|));
      }
      var unfit := ValidateOrders(orders);
      if unfit.Some? {
        return Err(unfit.value);
      }
      var carried := ValidateNotInDelivery(orders);
      if carried.Some? {
        return Err(carried.value);
      }
      var created := Delivery.Create(id, orders, now);
      if created.Err? {
        assert false;
      }
      var delivery := created.value;
      var _ := deliveryRepo.Save(delivery.Record());
      return Ok(delivery);
    }

    /** `findBatchableOrders`: READY orders of the repository, keeping the delivery orders, then those no
        delivery carries, in the repository's unspecified order. */
    method FindBatchableOrders() returns (r: seq<Orders.OrderSnapshot>)
      ensures BP.Enumerates(r, BatchableSet(orderRepo.orders, deliveryRepo.storage))
    {
      var ready := orderRepo.FindByStatus(Orders.Ready);
      var readyDelivery := KeepDeliveryOrders(ready);
      r := DropCarried(readyDelivery);
    }

    /** The second filter of `findBatchableOrders`: `findByOrderId` on each order, keeping those it does
        not find. */
    method DropCarried(s: seq<Orders.OrderSnapshot>) returns (r: seq<Orders.OrderSnapshot>)
      ensures forall o :: multiset(r)[o] == if DR.Carrying(deliveryRepo.storage, o.id) == {} then multiset(s)[o] else 0
    {
      r := [];
      for i := 0 to |s|
        invariant forall o :: multiset(r)[o] == if DR.Carrying(deliveryRepo.storage, o.id) == {} then multiset(s[..i])[o] else 0
      {
        assert s[..i + 1] == s[..i] + [s[i]];
        var found := deliveryRepo.FindByOrderId(s[i].id);
        if found.None? {
          r := r + [s[i]];
        }
      }
      assert s[..|s|] == s;
    }

    /** One `createDeliveryBatch` call of `autoBatchOrders`, for a batch the checks accept: the batch is
        saved under the next id, so the catch block around the call is never entered. */
    method SaveNextBatch(batch: seq<Orders.OrderSnapshot>, count: nat, idFor: nat -> DeliveryId, now: int,
                         ghost start: DR.DeliveryStore, ghost done: seq<seq<Orders.OrderSnapshot>>)
      returns (d: Delivery)
      requires Valid()
      requires CheckBatch(batch, StoreAfter(start, done, idFor, now)) == Pass
      requires deliveryRepo.storage == StoreAfter(start, done, idFor, now) && count == |done|
      modifies deliveryRepo
      ensures Valid()
      ensures fresh(d) && d.Valid() && NewDelivery(idFor(count), batch, now) == Ok(d.Record())
      ensures IdsFollow([d], idFor, count)
      ensures deliveryRepo.storage == StoreAfter(start, done + [batch], idFor, now)
    {
      var r := CreateDeliveryBatch(batch, idFor(count), now);
      if r.Err? {
        assert false;
      }
      d := r.value;
      StoreAfterSnoc(start, done, batch, idFor, now, d.Record());
    }

    /** `SaveNextBatch` for the batch at position `|done|` of `target`: its delivery follows the ones the
        run has made so far. */
    method SaveNextDelivery(batch: seq<Orders.OrderSnapshot>, created: seq<Delivery>, idFor: nat -> DeliveryId, now: int,
                            ghost start: DR.DeliveryStore, ghost done: seq<seq<Orders.OrderSnapshot>>,
                            ghost target: seq<seq<Orders.OrderSnapshot>>)
      returns (createdAfter: seq<Delivery>)
      requires Valid()
      requires CheckBatch(batch, StoreAfter(start, done, idFor, now)) == Pass
      requires deliveryRepo.storage == StoreAfter(start, done, idFor, now)
      requires |created| == |done| < |target| && target[|done|] == batch
      requires IdsFollow(created, idFor, 0) && SavedAs(created, 0, target, idFor, now)
      modifies deliveryRepo
      ensures Valid()
      ensures |createdAfter| == |created| + 1
      ensures IdsFollow(createdAfter, idFor, 0) && SavedAs(createdAfter, 0, target, idFor, now)
      ensures deliveryRepo.storage == StoreAfter(start, done + [batch], idFor, now)
    {
      var d := SaveNextBatch(batch, |created|, idFor, now, start, done);
      IdsAppend(created, [d], idFor, 0, |created|);
      SavedAppend(created, [d], 0, target, idFor, now);
      createdAfter := created + [d];
    }

    /** The body of the loop of `autoBatchOrders` over one address group, for the order `o` followed by
        `rest`: inside the window of `batchStartTime` the order joins the batch, which is saved once it holds
        5 and then restarts empty, anchored at `o`; outside it the batch is saved and the order starts a new
        one anchored at itself. `target` is the plan up to the end of this group. */
    method ScanOrder(o: Orders.OrderSnapshot, ghost rest: seq<Orders.OrderSnapshot>, batch: seq<Orders.OrderSnapshot>,
                     batchStartTime: int, created: seq<Delivery>, idFor: nat -> DeliveryId, now: int, ghost start: DR.DeliveryStore,
                     ghost done: seq<seq<Orders.OrderSnapshot>>, ghost target: seq<seq<Orders.OrderSnapshot>>)
      returns (nextBatch: seq<Orders.OrderSnapshot>, nextStartTime: int, createdAfter: seq<Delivery>,
               ghost doneAfter: seq<seq<Orders.OrderSnapshot>>)
      requires Valid()
      requires done + BP.Scan([o] + rest, batch, batchStartTime) == target
      requires AllAccepted(target, start, idFor, now)
      requires |done| == |created| && IdsFollow(created, idFor, 0) && SavedAs(created, 0, target, idFor, now)
      requires deliveryRepo.storage == StoreAfter(start, done, idFor, now)
      modifies deliveryRepo
      ensures Valid()
      ensures doneAfter + BP.Scan(rest, nextBatch, nextStartTime) == target
      ensures |doneAfter| == |createdAfter| && IdsFollow(createdAfter, idFor, 0) && SavedAs(createdAfter, 0, target, idFor, now)
      ensures deliveryRepo.storage == StoreAfter(start, doneAfter, idFor, now)
    {
      BP.ScanStep([o] + rest, batch, batchStartTime);
      assert ([o] + rest)[0] == o && ([o] + rest)[1..] == rest;
      if BP.IsWithinTimeWindow(o.createdAt, batchStartTime) {
        nextBatch := batch + [o];
        if |nextBatch| >= BP.MaxOrdersPerDelivery {
          createdAfter, doneAfter := SaveOpenBatch(nextBatch, created, idFor, now, start, done,
                                                   BP.Scan(rest, [], o.createdAt), target);
          nextBatch := [];
          nextStartTime := o.createdAt;
        } else {
          createdAfter, doneAfter, nextStartTime := created, done, batchStartTime;
        }
      } else {
        createdAfter, doneAfter := SaveOpenBatch(batch, created, idFor, now, start, done,
                                                 BP.Scan(rest, [o], o.createdAt), target);
        nextBatch := [o];
        nextStartTime := o.createdAt;
      }
    }

    /** One pass of the loop of `autoBatchOrders` over one address group: `ScanOrder` on its `i`-th order. */
    method ScanNext(group: seq<Orders.OrderSnapshot>, i: nat, batch: seq<Orders.OrderSnapshot>, batchStartTime: int,
                    created: seq<Delivery>, idFor: nat -> DeliveryId, now: int, ghost start: DR.DeliveryStore,
                    ghost done: seq<seq<Orders.OrderSnapshot>>, ghost target: seq<seq<Orders.OrderSnapshot>>)
      returns (nextBatch: seq<Orders.OrderSnapshot>, nextStartTime: int, createdAfter: seq<Delivery>,
               ghost doneAfter: seq<seq<Orders.OrderSnapshot>>)
      requires Valid()
      requires i < |group| && done + BP.Scan(group[i..], batch, batchStartTime) == target
      requires AllAccepted(target, start, idFor, now)
      requires |done| == |created| && IdsFollow(created, idFor, 0) && SavedAs(created, 0, target, idFor, now)
      requires deliveryRepo.storage == StoreAfter(start, done, idFor, now)
      modifies deliveryRepo
      ensures Valid()
      ensures doneAfter + BP.Scan(group[i + 1..], nextBatch, nextStartTime) == target
      ensures |doneAfter| == |createdAfter| && IdsFollow(createdAfter, idFor, 0) && SavedAs(createdAfter, 0, target, idFor, now)
      ensures deliveryRepo.storage == StoreAfter(start, doneAfter, idFor, now)
    {
      assert group[i..] == [group[i]] + group[i + 1..];
      nextBatch, nextStartTime, createdAfter, doneAfter := ScanOrder(group[i], group[i + 1..], batch, batchStartTime,
                                                                     created, idFor, now, start, done, target);
    }

    /** A save of `autoBatchOrders`: the batch, if it holds any order, becomes the next delivery, after
        which the plan goes on with `later`. */
    method SaveOpenBatch(batch: seq<Orders.OrderSnapshot>, created: seq<Delivery>, idFor: nat -> DeliveryId, now: int,
                         ghost start: DR.DeliveryStore, ghost done: seq<seq<Orders.OrderSnapshot>>,
                         ghost later: seq<seq<Orders.OrderSnapshot>>, ghost target: seq<seq<Orders.OrderSnapshot>>)
      returns (createdAfter: seq<Delivery>, ghost doneAfter: seq<seq<Orders.OrderSnapshot>>)
      requires Valid()
      requires done + ((if batch == [] then [] else [batch]) + later) == target
      requires AllAccepted(target, start, idFor, now)
      requires |done| == |created| && IdsFollow(created, idFor, 0) && SavedAs(created, 0, target, idFor, now)
      requires deliveryRepo.storage == StoreAfter(start, done, idFor, now)
      modifies deliveryRepo
      ensures Valid()
      ensures doneAfter + later == target
      ensures |doneAfter| == |createdAfter| && IdsFollow(createdAfter, idFor, 0) && SavedAs(createdAfter, 0, target, idFor, now)
      ensures deliveryRepo.storage == StoreAfter(start, doneAfter, idFor, now)
    {
      createdAfter := created;
      doneAfter := done;
      if batch != [] {
        AcceptedNext(target, start, idFor, now, done, batch, later);
        createdAfter := SaveNextDelivery(batch, created, idFor, now, start, done, target);
        doneAfter := done + [batch];
      } else {
        assert [] + later == later;
      }
    }

    /** The loop of `autoBatchOrders` over one address group: every order is scanned, and the batch still
        open at the end is handed back unsaved. The group's deliveries follow those of the earlier groups,
        `prior`; `target` is the plan up to the end of this group. */
    method ScanGroup(group: seq<Orders.OrderSnapshot>, prior: seq<Delivery>, idFor: nat -> DeliveryId, now: int,
                     ghost start: DR.DeliveryStore, ghost done: seq<seq<Orders.OrderSnapshot>>,
                     ghost target: seq<seq<Orders.OrderSnapshot>>)
      returns (created: seq<Delivery>, batch: seq<Orders.OrderSnapshot>, ghost doneAfter: seq<seq<Orders.OrderSnapshot>>)
      requires Valid()
      requires group != [] && done + BP.GroupBatches(group) == target
      requires AllAccepted(target, start, idFor, now)
      requires |done| == |prior| && IdsFollow(prior, idFor, 0) && SavedAs(prior, 0, target, idFor, now)
      requires deliveryRepo.storage == StoreAfter(start, done, idFor, now)
      modifies deliveryRepo
      ensures Valid()
      ensures doneAfter + (if batch == [] then [] else [batch]) == target && |doneAfter| == |created|
      ensures IdsFollow(created, idFor, 0) && SavedAs(created, 0, target, idFor, now)
      ensures deliveryRepo.storage == StoreAfter(start, doneAfter, idFor, now)
    {
      assert group[0..] == group;
      created := prior;
      doneAfter := done;
      batch := [];
      var batchStartTime := group[0].createdAt;
      for i := 0 to |group|
        invariant Valid()
        invariant doneAfter + BP.Scan(group[i..], batch, batchStartTime) == target
        invariant |doneAfter| == |created|
        invariant IdsFollow(created, idFor, 0) && SavedAs(created, 0, target, idFor, now)
        invariant deliveryRepo.storage == StoreAfter(start, doneAfter, idFor, now)
      {
        batch, batchStartTime, created, doneAfter := ScanNext(group, i, batch, batchStartTime, created, idFor, now,
                                                              start, doneAfter, target);
      }
      assert group[|group|..] == [];
    }

    /** The save after the loop over one address group: the batch left open, if any, becomes the last
        delivery of the group. */
    method FinishGroup(batch: seq<Orders.OrderSnapshot>, created: seq<Delivery>, idFor: nat -> DeliveryId,
                       now: int, ghost start: DR.DeliveryStore, ghost done: seq<seq<Orders.OrderSnapshot>>,
                       ghost target: seq<seq<Orders.OrderSnapshot>>)
      returns (createdAfter: seq<Delivery>, ghost doneAfter: seq<seq<Orders.OrderSnapshot>>)
      requires Valid()
      requires done + (if batch == [] then [] else [batch]) == target && |done| == |created|
      requires AllAccepted(target, start, idFor, now)
      requires IdsFollow(created, idFor, 0) && SavedAs(created, 0, target, idFor, now)
      requires deliveryRepo.storage == StoreAfter(start, done, idFor, now)
      modifies deliveryRepo
      ensures Valid()
      ensures doneAfter == target && |doneAfter| == |createdAfter|
      ensures IdsFollow(createdAfter, idFor, 0) && SavedAs(createdAfter, 0, target, idFor, now)
      ensures deliveryRepo.storage == StoreAfter(start, doneAfter, idFor, now)
    {
      assert (if batch == [] then [] else [batch]) + [] == (if batch == [] then [] else [batch]);
      createdAfter, doneAfter := SaveOpenBatch(batch, created, idFor, now, start, done, [], target);
      assert doneAfter + [] == doneAfter;
    }

    /** The loop of `autoBatchOrders` over one address group, then the save of the batch left at its end;
        the group's deliveries follow those of the earlier groups, `prior`. */
    method BatchGroup(group: seq<Orders.OrderSnapshot>, prior: seq<Delivery>, idFor: nat -> DeliveryId, now: int,
                      ghost start: DR.DeliveryStore, ghost done: seq<seq<Orders.OrderSnapshot>>,
                      ghost target: seq<seq<Orders.OrderSnapshot>>)
      returns (created: seq<Delivery>, ghost doneAfter: seq<seq<Orders.OrderSnapshot>>)
      requires Valid()
      requires group != [] && done + BP.GroupBatches(group) == target
      requires AllAccepted(target, start, idFor, now)
      requires |done| == |prior| && IdsFollow(prior, idFor, 0) && SavedAs(prior, 0, target, idFor, now)
      requires deliveryRepo.storage == StoreAfter(start, done, idFor, now)
      modifies deliveryRepo
      ensures Valid()
      ensures doneAfter == target && |doneAfter| == |created|
      ensures IdsFollow(created, idFor, 0) && SavedAs(created, 0, target, idFor, now)
      ensures deliveryRepo.storage == StoreAfter(start, doneAfter, idFor, now)
    {
      var batch;
      created, batch, doneAfter := ScanGroup(group, prior, idFor, now, start, done, target);
      created, doneAfter := FinishGroup(batch, created, idFor, now, start, doneAfter, target);
    }

    /** One pass of the loop of `autoBatchOrders` over the address groups: the group of the `m`-th key is
        split into batches, which are saved and added to the deliveries made so far. */
    method BatchKeyGroup(sorted: seq<Orders.OrderSnapshot>, groups: map<BP.Key, seq<Orders.OrderSnapshot>>, order: seq<BP.Key>,
                         m: nat, created: seq<Delivery>, idFor: nat -> DeliveryId, now: int,
                         ghost start: DR.DeliveryStore, ghost done: seq<seq<Orders.OrderSnapshot>>)
      returns (createdAfter: seq<Delivery>, ghost doneAfter: seq<seq<Orders.OrderSnapshot>>)
      requires Valid()
      requires m < |order| && BP.ListsKeys(order, sorted)
      requires forall k :: k in order ==> k in groups && groups[k] == BP.Group(sorted, k)
      requires AllAccepted(BP.Plan(sorted, order), start, idFor, now)
      requires done == BP.Plan(sorted, order[..m]) && |created| == |done|
      requires IdsFollow(created, idFor, 0) && SavedAs(created, 0, BP.Plan(sorted, order), idFor, now)
      requires deliveryRepo.storage == StoreAfter(start, done, idFor, now)
      modifies deliveryRepo
      ensures Valid()
      ensures doneAfter == BP.Plan(sorted, order[..m + 1]) && |createdAfter| == |doneAfter|
      ensures IdsFollow(createdAfter, idFor, 0) && SavedAs(createdAfter, 0, BP.Plan(sorted, order), idFor, now)
      ensures deliveryRepo.storage == StoreAfter(start, doneAfter, idFor, now)
    {
      ghost var target := BP.Plan(sorted, order[..m + 1]);
      BP.GroupNonEmpty(sorted, order[m]);
      BP.PlanSnoc(sorted, order, m);
      BP.PlanPrefix(sorted, order, m + 1);
      AcceptedPrefix(BP.Plan(sorted, order), target, start, idFor, now);
      SavedWithin(created, 0, target, BP.Plan(sorted, order), idFor, now);
      createdAfter, doneAfter := BatchGroup(groups[order[m]], created, idFor, now, start, done, target);
      SavedPrefix(createdAfter, 0, target, BP.Plan(sorted, order), idFor, now);
    }

    /** The loop of `autoBatchOrders` over the address groups, visited in `order`: every batch of the plan
        is saved in turn. */
    method BatchAll(sorted: seq<Orders.OrderSnapshot>, groups: map<BP.Key, seq<Orders.OrderSnapshot>>, order: seq<BP.Key>,
                    idFor: nat -> DeliveryId, now: int)
      returns (created: seq<Delivery>)
      requires Valid()
      requires BP.ListsKeys(order, sorted)
      requires forall k :: k in order ==> k in groups && groups[k] == BP.Group(sorted, k)
      requires AllAccepted(BP.Plan(sorted, order), deliveryRepo.storage, idFor, now)
      modifies deliveryRepo
      ensures Valid()
      ensures |created| == |BP.Plan(sorted, order)| && IdsFollow(created, idFor, 0)
      ensures SavedAs(created, 0, BP.Plan(sorted, order), idFor, now)
      ensures deliveryRepo.storage == StoreAfter(old(deliveryRepo.storage), BP.Plan(sorted, order), idFor, now)
    {
      ghost var start := deliveryRepo.storage;
      created := [];
      ghost var done: seq<seq<Orders.OrderSnapshot>> := [];
      assert order[..0] == [];
      for m := 0 to |order|
        invariant Valid()
        invariant done == BP.Plan(sorted, order[..m]) && |created| == |done|
        invariant IdsFollow(created, idFor, 0) && SavedAs(created, 0, BP.Plan(sorted, order), idFor, now)
        invariant deliveryRepo.storage == StoreAfter(start, done, idFor, now)
      {
        created, done := BatchKeyGroup(sorted, groups, order, m, created, idFor, now, start, done);
      }
      assert order[..|order|] == order;
    }

    /** `autoBatchOrders`: the batchable orders sorted by creation time, grouped by address, each group
        split by `BP.Scan`, every batch saved as it closes. The run's deliveries are the plan's batches in
        order, the j-th saved under `idFor(j)`; no batch is ever refused. */
    method AutoBatchOrders(idFor: nat -> DeliveryId, now: int)
      returns (created: seq<Delivery>, ghost listing: seq<Orders.OrderSnapshot>, ghost keys: seq<BP.Key>)
      requires Valid()
      modifies deliveryRepo
      ensures Valid()
      ensures BP.Enumerates(listing, BatchableSet(orderRepo.orders, old(deliveryRepo.storage)))
      ensures BP.ListsKeys(keys, BP.SortByCreatedAt(listing))
      ensures var plan := BP.Plan(BP.SortByCreatedAt(listing), keys);
        && |created| == |plan|
        && IdsFollow(created, idFor, 0) && SavedAs(created, 0, plan, idFor, now)
        && deliveryRepo.storage == StoreAfter(old(deliveryRepo.storage), plan, idFor, now)
    {
      var batchable := FindBatchableOrders();
      listing := batchable;
      if batchable == [] {
        created, keys := [], [];
        assert BP.SortByCreatedAt(batchable) == [];
        return;
      }
      var sorted, groups, order := SortAndGroup(batchable);
      keys := order;
      PlanAccepted(orderRepo.orders, deliveryRepo.storage, listing, keys, idFor, now);
      created := BatchAll(sorted, groups, order, idFor, now);
    }
  }
}
