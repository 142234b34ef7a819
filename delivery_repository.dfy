/** InMemoryDeliveryRepository.java: deliveries kept in a map keyed by their id. */
module DeliveryRepository {
  import opened Outcomes
  import Orders
  import opened RiderInfoValue
  import opened DeliveryStatuses
  import opened Deliveries

  type DeliveryStore = map<DeliveryId, DeliveryRecord>

  ghost predicate Keyed(m: DeliveryStore) {
    forall k | k in m :: m[k].id == k
  }

  function Values(m: DeliveryStore): (r: set<DeliveryRecord>)
    ensures forall d :: d in r <==> exists k :: k in m && m[k] == d
  {
    set k | k in m :: m[k]
  }

  /** The delivery lists the order among its order ids. */
  predicate Carries(d: DeliveryRecord, orderId: Orders.OrderId) {
    orderId in OrderIdsOf(d)
  }

  /** Deliveries carrying the order; `findByOrderId` returns one of them. */
  function Carrying(m: DeliveryStore, orderId: Orders.OrderId): (r: set<DeliveryRecord>)
    ensures forall d :: d in r <==> d in Values(m) && Carries(d, orderId)
  {
    set d | d in Values(m) && Carries(d, orderId)
  }

  /** Saving files the delivery under its id and leaves every other id alone. */
  lemma SaveThenFind(m: DeliveryStore, d: DeliveryRecord, id: DeliveryId)
    requires Keyed(m)
    ensures Keyed(m[d.id := d])
    ensures id in m[d.id := d] <==> id == d.id || id in m
    ensures id != d.id && id in m ==> m[d.id := d][id] == m[id]
  {
  }

  /** Saving a delivery that carries the order makes the order found; saving one that does not cannot
      make it found. */
  lemma {:induction false} SaveAndCarrying(m: DeliveryStore, d: DeliveryRecord, orderId: Orders.OrderId)
    ensures Carries(d, orderId) ==> Carrying(m[d.id := d], orderId) != {}
    ensures !Carries(d, orderId) ==> Carrying(m[d.id := d], orderId) <= Carrying(m, orderId)
  {
    if Carries(d, orderId) {
      assert m[d.id := d][d.id] == d;
      assert d in Carrying(m[d.id := d], orderId);
    }
  }

  class InMemoryDeliveryRepository {
    var storage: DeliveryStore

    ghost predicate Valid()
      reads this
    {
      Keyed(storage)
    }

    constructor ()
      ensures Valid() && storage == map[]
    {
      storage := map[];
    }

    method Save(delivery: DeliveryRecord) returns (saved: DeliveryRecord)
      requires Valid()
      modifies this
      ensures Valid() && storage == old(storage)[delivery.id := delivery] && saved == delivery
    {
      storage := storage[delivery.id := delivery];
      saved := delivery;
    }

    function FindById(id: DeliveryId): (r: Option<DeliveryRecord>)
      reads this
      ensures r.Some? <==> id in storage
      ensures r.Some? ==> r.value == storage[id] && (Valid() ==> r.value.id == id)
    {
      if id in storage then Some(storage[id]) else None
    }

    function FindByStatus(status: DeliveryStatus): (r: set<DeliveryRecord>)
      reads this
      ensures forall d :: d in r <==> d in FindAll() && d.status == status
    {
      set d | d in Values(storage) && d.status == status
    }

    /** `findByRiderId`: deliveries with a rider whose id is the one asked for. */
    function FindByRiderId(riderId: string): (r: set<DeliveryRecord>)
      reads this
      ensures forall d :: d in r <==> d in FindAll() && d.rider.Some? && d.rider.value.riderId == riderId
    {
      set d | d in Values(storage) && d.rider.Some? && d.rider.value.riderId == riderId
    }

    /** `findByOrderId`: the first delivery, in the map's unspecified iteration order, whose order ids
        contain the order; none when no stored delivery carries it. */
    method FindByOrderId(orderId: Orders.OrderId) returns (r: Option<DeliveryRecord>)
      ensures r.Some? <==> Carrying(storage, orderId) != {}
      ensures r.Some? ==> r.value in FindAll() && Carries(r.value, orderId)
    {
      if d :| d in Carrying(storage, orderId) {
        return Some(d);
      }
      return None;
    }

    /** `findActiveDeliveries`: ASSIGNED, PICKED_UP or IN_TRANSIT. */
    function FindActiveDeliveries(): (r: set<DeliveryRecord>)
      reads this
      ensures forall d :: d in r <==> d in FindAll() && d.status in {Assigned, PickedUp, InTransit}
    {
      set d | d in Values(storage) && IsActive(d.status)
    }

    /** `findDeliveriesBetween`: both bounds inclusive. */
    function FindDeliveriesBetween(start: int, end: int): (r: set<DeliveryRecord>)
      reads this
      ensures forall d :: d in r <==> d in FindAll() && start <= d.createdAt <= end
    {
      set d | d in Values(storage) && start <= d.createdAt <= end
    }

    function FindAll(): (r: set<DeliveryRecord>)
      reads this
      ensures forall d :: d in r <==> exists k :: k in storage && storage[k] == d
    {
      Values(storage)
    }

    method DeleteById(id: DeliveryId)
      requires Valid()
      modifies this
      ensures Valid() && storage == old(storage) - {id}
    {
      storage := storage - {id};
    }

    function ExistsById(id: DeliveryId): (r: bool)
      reads this
      ensures r <==> FindById(id).Some?
    {
      id in storage
    }

    method Clear()
      modifies this
      ensures Valid() && storage == map[]
    {
      storage := map[];
    }

    /** `count`: one per stored id, so one per distinct delivery when the store is keyed. */
    function Count(): (r: nat)
      reads this
      ensures r == |storage.Keys|
      ensures Valid() ==> r == |FindAll()|
    {
      CountIsValues(storage);
      |storage|
    }
  }

  /** In a keyed store distinct ids hold distinct deliveries, so there are as many deliveries as ids. */
  lemma {:induction false} CountIsValues(m: DeliveryStore)
    ensures Keyed(m) ==> |m| == |Values(m)|
  {
    if Keyed(m) && |m| > 0 {
      var k :| k in m;
      var rest := m - {k};
      CountIsValues(rest);
      forall d ensures d in Values(m) <==> d in Values(rest) + {m[k]} {
        if d in Values(m) {
          var j :| j in m && m[j] == d;
          if j != k { assert rest[j] == d; }
        }
        if d in Values(rest) {
          var j :| j in rest && rest[j] == d;
          assert m[j] == d;
        }
      }
      assert Values(m) == Values(rest) + {m[k]};
      assert |m| == |rest| + 1;
    }
  }
}
