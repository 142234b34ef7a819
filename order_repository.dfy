/** InMemoryOrderRepository.java: orders kept in a map keyed by their id. */
module OrderRepository {
  import opened Outcomes
  import opened Orders

  /** The stored orders; the repository only ever files an order under its own id. */
  type OrderStore = map<OrderId, OrderSnapshot>

  ghost predicate Keyed(m: OrderStore) {
    forall k | k in m :: m[k].id == k
  }

  /** `findById`. */
  function Lookup(m: OrderStore, id: OrderId): (r: Option<OrderSnapshot>)
    ensures r.Some? <==> id in m
    ensures r.Some? ==> r.value == m[id]
    ensures Keyed(m) && r.Some? ==> r.value.id == id
  {
    if id in m then Some(m[id]) else None
  }

  /** `findAll`: every stored order, in no particular order. */
  function Values(m: OrderStore): (r: set<OrderSnapshot>)
    ensures forall o :: o in r <==> exists k :: k in m && m[k] == o
  {
    set k | k in m :: m[k]
  }

  function WithStatus(m: OrderStore, status: OrderStatus): (r: set<OrderSnapshot>)
    ensures forall o :: o in r <==> o in Values(m) && o.status == status
  {
    set o | o in Values(m) && o.status == status
  }

  function WithType(m: OrderStore, t: OrderType): (r: set<OrderSnapshot>)
    ensures forall o :: o in r <==> o in Values(m) && o.orderType == t
  {
    set o | o in Values(m) && o.orderType == t
  }

  /** `findByCreatedAtBetween`: both bounds inclusive. */
  function CreatedBetween(m: OrderStore, start: int, end: int): (r: set<OrderSnapshot>)
    ensures forall o :: o in r <==> o in Values(m) && start <= o.createdAt <= end
  {
    set o | o in Values(m) && start <= o.createdAt <= end
  }

  /** Saving files the order under its id: it is then found by that id, and every other id finds what
      it found before. */
  lemma SaveThenFind(m: OrderStore, o: OrderSnapshot, id: OrderId)
    requires Keyed(m)
    ensures Keyed(m[o.id := o])
    ensures Lookup(m[o.id := o], id) == if id == o.id then Some(o) else Lookup(m, id)
  {
  }

  /** Saving the same order twice stores what saving it once stores. */
  lemma SaveIsIdempotent(m: OrderStore, o: OrderSnapshot)
    ensures m[o.id := o][o.id := o] == m[o.id := o]
  {
  }

  /** Deleting removes exactly that id. */
  lemma DeleteThenFind(m: OrderStore, deleted: OrderId, id: OrderId)
    ensures Lookup(m - {deleted}, id) == if id == deleted then None else Lookup(m, id)
  {
  }

  /** The status queries split the store: every stored order is found under exactly its own status. */
  lemma {:induction false} StatusQueriesPartition(m: OrderStore, o: OrderSnapshot, s: OrderStatus)
    requires o in Values(m)
    ensures o in WithStatus(m, o.status)
    ensures s != o.status ==> o !in WithStatus(m, s)
  {
  }

  /** An empty or reversed time range finds nothing; a one-instant range finds exactly the orders
      created at that instant. */
  lemma {:induction false} BetweenBounds(m: OrderStore, start: int, end: int)
    ensures start > end ==> CreatedBetween(m, start, end) == {}
    ensures forall o :: o in CreatedBetween(m, start, start) <==> o in Values(m) && o.createdAt == start
  {
    if start > end {
      forall o ensures o !in CreatedBetween(m, start, end) {
        assert o in CreatedBetween(m, start, end) ==> start <= o.createdAt <= end;
      }
    }
  }

  class InMemoryOrderRepository {
    var orders: OrderStore

    ghost predicate Valid()
      reads this
    {
      Keyed(orders)
    }

    constructor ()
      ensures Valid() && orders == map[]
    {
      orders := map[];
    }

    /** `save`: create or replace the order under its id, and hand it back. */
    method Save(order: OrderSnapshot) returns (saved: OrderSnapshot)
      requires Valid()
      modifies this
      ensures Valid() && orders == old(orders)[order.id := order] && saved == order
    {
      orders := orders[order.id := order];
      saved := order;
    }

    function FindById(id: OrderId): (r: Option<OrderSnapshot>)
      reads this
      ensures r == Lookup(orders, id)
    {
      Lookup(orders, id)
    }

    function FindAll(): (r: set<OrderSnapshot>)
      reads this
      ensures forall o :: o in r <==> exists k :: k in orders && orders[k] == o
    {
      Values(orders)
    }

    function FindByStatus(status: OrderStatus): (r: set<OrderSnapshot>)
      reads this
      ensures forall o :: o in r <==> o in FindAll() && o.status == status
    {
      WithStatus(orders, status)
    }

    function FindByType(t: OrderType): (r: set<OrderSnapshot>)
      reads this
      ensures forall o :: o in r <==> o in FindAll() && o.orderType == t
    {
      WithType(orders, t)
    }

    function FindByCreatedAtBetween(start: int, end: int): (r: set<OrderSnapshot>)
      reads this
      ensures forall o :: o in r <==> o in FindAll() && start <= o.createdAt <= end
    {
      CreatedBetween(orders, start, end)
    }

    /** `deleteById`: true exactly when something was stored under the id. */
    method DeleteById(id: OrderId) returns (deleted: bool)
      requires Valid()
      modifies this
      ensures Valid() && deleted == (id in old(orders)) && orders == old(orders) - {id}
    {
      deleted := id in orders;
      orders := orders - {id};
    }

    function ExistsById(id: OrderId): (r: bool)
      reads this
      ensures r <==> FindById(id).Some?
    {
      id in orders
    }
  }
}
