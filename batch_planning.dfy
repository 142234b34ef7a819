/** The pure part of DeliveryBatchServiceImpl.java: the time window, the batching key, the ordering by
    creation time and the greedy split of each address group into deliveries. */
module BatchPlanning {
  import opened Outcomes
  import opened AddressValue
  import opened Orders

  const MaxOrdersPerDelivery: nat := 5
  const BatchingTimeWindowMinutes: nat := 15
  const WindowSeconds: nat := BatchingTimeWindowMinutes * 60

  /** `isWithinTimeWindow`: inclusive at both ends, 15 minutes either side of the reference. */
  function IsWithinTimeWindow(time: int, reference: int): (r: bool)
    ensures r <==> (if time >= reference then time - reference else reference - time) <= WindowSeconds
  {
    reference - WindowSeconds <= time <= reference + WindowSeconds
  }

  /** Exactly 15 minutes apart is inside the window, 15 minutes and one second is outside, and the
      relation is symmetric. */
  lemma WindowBoundaries(reference: int, a: int, b: int)
    ensures IsWithinTimeWindow(reference + 900, reference) && IsWithinTimeWindow(reference - 900, reference)
    ensures !IsWithinTimeWindow(reference + 901, reference) && !IsWithinTimeWindow(reference - 901, reference)
    ensures IsWithinTimeWindow(a, b) <==> IsWithinTimeWindow(b, a)
  {
  }

  /** The grouping key as written: the address's `toString`, or "UNKNOWN" for an order without one. */
  function AddressKey(o: OrderSnapshot): (r: string)
    ensures r == "UNKNOWN" <==> o.address.None?
  {
    if o.address.Some? then
      assert ToString(o.address.value)[..8] == "Address{";
      ToString(o.address.value)
    else "UNKNOWN"
  }

  /** Two different addresses, each with trimmed non-blank fields, whose `toString` texts coincide: the
      quote characters `toString` puts around each field may also occur inside a field. */
  lemma DistinctAddressesShareKey()
    ensures var a1 := Address("a', city='b", "c", "p", "k");
            var a2 := Address("a", "b', city='c", "p", "k");
      a1 != a2 && ToString(a1) == ToString(a2)
  {
    var a1 := Address("a', city='b", "c", "p", "k");
    var a2 := Address("a", "b', city='c", "p", "k");
    assert a1.street != a2.street by { assert |a1.street| != |a2.street|; }
    var q := "', city='";
    assert a1.street == "a" + q + "b";
    assert a2.city == "b" + q + "c";
    FieldBoundaryShift("a", "b", "c", "p", "k");
  }

  /** The text of a street ending in `', city='` followed by a city equals the text of the street's start
      followed by a city that begins with the rest. */
  lemma FieldBoundaryShift(x: string, y: string, z: string, p: string, k: string)
    ensures ToString(Address(x + "', city='" + y, z, p, k)) == ToString(Address(x, y + "', city='" + z, p, k))
  {
    var q := "', city='";
    var t := "', postalCode='" + (p + ("', country='" + (k + "'}")));
    var w := q + (z + t);
    assert x + q + y == x + (q + y);
    assert (x + (q + y)) + w == x + ((q + y) + w);
    assert (q + y) + w == q + (y + w);
    assert (x + q + y) + w == x + (q + (y + w));
    assert y + q + z == y + (q + z);
    assert (y + (q + z)) + t == y + ((q + z) + t);
    assert (q + z) + t == q + (z + t);
    assert (y + q + z) + t == y + (q + (z + t));
  }

  /** So two orders bound for different addresses can share the batching key as written, the text that
      `autoBatchOrders` groups by and `canBatchWith` compares. */
  lemma KeyCollisionAsWritten(o1: OrderSnapshot, o2: OrderSnapshot)
    requires o1.address == Some(Address("a', city='b", "c", "p", "k"))
    requires o2.address == Some(Address("a", "b', city='c", "p", "k"))
    ensures o1.address != o2.address && AddressKey(o1) == AddressKey(o2)
  {
    DistinctAddressesShareKey();
  }

  /** The key the engine uses: the address itself, absent for an order without one. */
  type Key = Option<Address>

  function BatchKey(o: OrderSnapshot): Key {
    o.address
  }

  /** Grouping by the address refines grouping by its text: equal keys give equal texts, and "UNKNOWN"
      (no address) never equals the text of a real address, so the two keys agree on every pair of orders
      of which at least one has no address. */
  lemma BatchKeyRefinesAddressKey(o1: OrderSnapshot, o2: OrderSnapshot)
    ensures BatchKey(o1) == BatchKey(o2) ==> AddressKey(o1) == AddressKey(o2)
    ensures BatchKey(o1).None? || BatchKey(o2).None? ==>
      (AddressKey(o1) == AddressKey(o2) <==> BatchKey(o1) == BatchKey(o2))
  {
  }

  /** `s` lists each member of `S` exactly once and nothing else. */
  ghost predicate Enumerates<T(!new)>(s: seq<T>, S: set<T>) {
    forall x :: multiset(s)[x] == if x in S then 1 else 0
  }

  /** Every finite set can be listed, so a `List` built from a map's values exists. */
  lemma {:induction false} EnumerationExists<T(!new)>(S: set<T>)
    ensures exists s :: Enumerates(s, S)
    decreases |S|
  {
    if S == {} {
      assert Enumerates([], S);
    } else {
      var x :| x in S;
      EnumerationExists(S - {x});
      var s :| Enumerates(s, S - {x});
      assert Enumerates(s + [x], S);
    }
  }

  predicate SortedByCreatedAt(s: seq<OrderSnapshot>) {
    forall i, j :: 0 <= i < j < |s| ==> s[i].createdAt <= s[j].createdAt
  }

  /** Insertion before the first order created no earlier, which keeps equal times in list order. */
  function Insert(o: OrderSnapshot, s: seq<OrderSnapshot>): (r: seq<OrderSnapshot>)
    ensures multiset(r) == multiset(s) + multiset{o}
  {
    if s == [] || o.createdAt <= s[0].createdAt then
      [o] + s
    else
      assert s == [s[0]] + s[1..];
      [s[0]] + Insert(o, s[1..])
  }

  lemma {:induction false} InsertKeepsSorted(o: OrderSnapshot, s: seq<OrderSnapshot>)
    requires SortedByCreatedAt(s)
    ensures SortedByCreatedAt(Insert(o, s))
    decreases |s|
  {
    if s != [] && o.createdAt > s[0].createdAt {
      var tail := Insert(o, s[1..]);
      InsertKeepsSorted(o, s[1..]);
      forall x | x in tail ensures s[0].createdAt <= x.createdAt {
        assert x in multiset(tail);
        if x != o {
          assert x in multiset(s[1..]);
          var j :| 0 <= j < |s[1..]| && s[1..][j] == x;
          assert s[j + 1] == x;
        }
      }
      assert Insert(o, s) == [s[0]] + tail;
    }
  }

  /** `batchableOrders.sort(Comparator.comparing(Order::getCreatedAt))`: a stable sort by creation time. */
  function SortByCreatedAt(s: seq<OrderSnapshot>): (r: seq<OrderSnapshot>)
    ensures SortedByCreatedAt(r)
    ensures multiset(r) == multiset(s)
  {
    if s == [] then []
    else
      assert s == [s[0]] + s[1..];
      InsertKeepsSorted(s[0], SortByCreatedAt(s[1..]));
      Insert(s[0], SortByCreatedAt(s[1..]))
  }

  /** The orders of `s` whose key is in `keys`, in list order. */
  function FilterKeys(s: seq<OrderSnapshot>, keys: set<Key>): (r: seq<OrderSnapshot>)
    ensures forall x :: x in r ==> x in s && BatchKey(x) in keys
    ensures multiset(r) <= multiset(s)
  {
    if s == [] then []
    else
      assert s == [s[0]] + s[1..];
      if BatchKey(s[0]) in keys then [s[0]] + FilterKeys(s[1..], keys) else FilterKeys(s[1..], keys)
  }

  /** The group of one key: what `groupingBy` collects for it, in encounter order. */
  function Group(s: seq<OrderSnapshot>, k: Key): seq<OrderSnapshot> {
    FilterKeys(s, {k})
  }

  function KeysOf(s: seq<OrderSnapshot>): set<Key> {
    set o | o in s :: BatchKey(o)
  }

  /** `keys` lists the keys of `s` once each: one iteration order of `ordersByAddress.values()`. */
  ghost predicate ListsKeys(keys: seq<Key>, s: seq<OrderSnapshot>) {
    && (forall i, j :: 0 <= i < j < |keys| ==> keys[i] != keys[j])
    && (forall k :: k in keys <==> k in KeysOf(s))
  }

  function Flatten(batches: seq<seq<OrderSnapshot>>): seq<OrderSnapshot> {
    if batches == [] then [] else batches[0] + Flatten(batches[1..])
  }

  lemma {:induction false} FlattenAppend(a: seq<seq<OrderSnapshot>>, b: seq<seq<OrderSnapshot>>)
    ensures Flatten(a + b) == Flatten(a) + Flatten(b)
    decreases |a|
  {
    if a == [] {
      assert a + b == b;
    } else {
      assert (a + b)[0] == a[0];
      assert (a + b)[1..] == a[1..] + b;
      FlattenAppend(a[1..], b);
    }
  }

  /** The inner loop of `autoBatchOrders` over one address group: `batch` is the batch being filled and
      `anchor` is `batchStartTime`. An order inside the window joins the batch, and a batch that reaches 5
      is flushed with the anchor moved to that order; an order outside the window flushes the batch and
      starts a new one anchored at itself; what is left at the end is flushed. */
  function Scan(rest: seq<OrderSnapshot>, batch: seq<OrderSnapshot>, anchor: int): (r: seq<seq<OrderSnapshot>>)
    ensures forall b :: b in r ==> b != []
    ensures |r| <= |batch| + |rest|
    decreases |rest|
  {
    if rest == [] then
      if batch == [] then [] else [batch]
    else
      var o := rest[0];
      if IsWithinTimeWindow(o.createdAt, anchor) then
        var grown := batch + [o];
        if |grown| >= MaxOrdersPerDelivery then [grown] + Scan(rest[1..], [], o.createdAt)
        else Scan(rest[1..], grown, anchor)
      else
        (if batch == [] then [] else [batch]) + Scan(rest[1..], [o], o.createdAt)
  }

  /** One address group, anchored at its first order: at least one delivery for a non-empty group, and
      never more deliveries than orders. */
  function GroupBatches(group: seq<OrderSnapshot>): (r: seq<seq<OrderSnapshot>>)
    ensures forall b :: b in r ==> b != []
    ensures r == [] <==> group == []
    ensures |r| <= |group|
  {
    if group == [] then []
    else
      assert Flatten(Scan(group, [], group[0].createdAt)) == group by { ScanFlattens(group, [], group[0].createdAt); }
      Scan(group, [], group[0].createdAt)
  }

  /** The deliveries of the whole run: the groups taken in the order `keys` lists them. */
  function Plan(sorted: seq<OrderSnapshot>, keys: seq<Key>): (r: seq<seq<OrderSnapshot>>)
    ensures forall b :: b in r ==> b != []
    decreases |keys|
  {
    if keys == [] then []
    else Plan(sorted, keys[..|keys| - 1]) + GroupBatches(Group(sorted, keys[|keys| - 1]))
  }

  /** The scan neither drops nor repeats nor reorders an order. */
  lemma {:induction false} ScanFlattens(rest: seq<OrderSnapshot>, batch: seq<OrderSnapshot>, anchor: int)
    ensures Flatten(Scan(rest, batch, anchor)) == batch + rest
    decreases |rest|
  {
    if rest == [] {
      if batch != [] {
        assert Flatten([batch]) == batch + Flatten([]);
      }
    } else {
      var o := rest[0];
      assert rest == [o] + rest[1..];
      if IsWithinTimeWindow(o.createdAt, anchor) {
        var grown := batch + [o];
        ScanFlattens(rest[1..], [], o.createdAt);
        ScanFlattens(rest[1..], grown, anchor);
        if |grown| >= MaxOrdersPerDelivery {
          FlattenAppend([grown], Scan(rest[1..], [], o.createdAt));
          assert Flatten([grown]) == grown + Flatten([]);
        }
      } else {
        ScanFlattens(rest[1..], [o], o.createdAt);
        var head: seq<seq<OrderSnapshot>> := if batch == [] then [] else [batch];
        FlattenAppend(head, Scan(rest[1..], [o], o.createdAt));
        if batch != [] {
          assert Flatten([batch]) == batch + Flatten([]);
        }
      }
    }
  }

  /** What every created delivery satisfies: 1 to 5 orders, in creation order, one address, and every two
      of its orders within the window of each other. */
  ghost predicate WellShaped(b: seq<OrderSnapshot>) {
    && 1 <= |b| <= MaxOrdersPerDelivery
    && SortedByCreatedAt(b)
    && (forall i :: 0 <= i < |b| ==> BatchKey(b[i]) == BatchKey(b[0]))
    && (forall i, j :: 0 <= i < |b| && 0 <= j < |b| ==> IsWithinTimeWindow(b[i].createdAt, b[j].createdAt))
  }

  /** What holds of the batch being filled: it is short of 5, its orders lie in [anchor, anchor + 15 min]
      and share the key `k`. */
  ghost predicate OpenBatch(batch: seq<OrderSnapshot>, anchor: int, k: Key) {
    && |batch| < MaxOrdersPerDelivery
    && forall o :: o in batch ==> anchor <= o.createdAt <= anchor + WindowSeconds && BatchKey(o) == k
  }

  lemma ClosedBatchIsWellShaped(b: seq<OrderSnapshot>, anchor: int, k: Key)
    requires 1 <= |b| <= MaxOrdersPerDelivery && SortedByCreatedAt(b)
    requires forall o :: o in b ==> anchor <= o.createdAt <= anchor + WindowSeconds && BatchKey(o) == k
    ensures WellShaped(b)
  {
    assert b[0] in b;
    forall i | 0 <= i < |b| ensures BatchKey(b[i]) == BatchKey(b[0]) {
      assert b[i] in b;
    }
    forall i, j | 0 <= i < |b| && 0 <= j < |b| ensures IsWithinTimeWindow(b[i].createdAt, b[j].createdAt) {
      assert b[i] in b && b[j] in b;
    }
  }

  /** Helper for `ScanIsWellShaped`: what sortedness of the batch followed by the rest says about the next
      step of the scan. */
  lemma SortedStep(batch: seq<OrderSnapshot>, rest: seq<OrderSnapshot>)
    requires SortedByCreatedAt(batch + rest) && rest != []
    ensures SortedByCreatedAt(batch) && SortedByCreatedAt(rest) && SortedByCreatedAt(rest[1..])
    ensures SortedByCreatedAt(batch + [rest[0]])
    ensures rest[1..] != [] ==> rest[0].createdAt <= rest[1..][0].createdAt
    ensures (batch + [rest[0]]) + rest[1..] == batch + rest
  {
    var all := batch + rest;
    assert forall i :: 0 <= i < |rest| ==> all[|batch| + i] == rest[i];
    assert forall i :: 0 <= i < |batch| ==> all[i] == batch[i];
    var grown := batch + [rest[0]];
    assert forall i :: 0 <= i < |grown| ==> all[i] == grown[i];
  }

  /** An order inside the window of the anchor with the group's key keeps the batch open or closes it
      well shaped. */
  lemma Grow(batch: seq<OrderSnapshot>, anchor: int, k: Key, o: OrderSnapshot)
    requires OpenBatch(batch, anchor, k) && SortedByCreatedAt(batch + [o])
    requires anchor <= o.createdAt <= anchor + WindowSeconds && BatchKey(o) == k
    ensures |batch + [o]| < MaxOrdersPerDelivery ==> OpenBatch(batch + [o], anchor, k)
    ensures WellShaped(batch + [o])
  {
    var grown := batch + [o];
    assert forall x :: x in grown ==> x in batch || x == o;
    ClosedBatchIsWellShaped(grown, anchor, k);
  }

  lemma {:induction false} ScanIsWellShaped(rest: seq<OrderSnapshot>, batch: seq<OrderSnapshot>, anchor: int, k: Key)
    requires OpenBatch(batch, anchor, k)
    requires SortedByCreatedAt(batch + rest)
    requires rest != [] ==> anchor <= rest[0].createdAt
    requires forall o :: o in rest ==> BatchKey(o) == k
    ensures forall b :: b in Scan(rest, batch, anchor) ==> WellShaped(b)
    decreases |rest|
  {
    if rest == [] {
      if batch != [] {
        assert batch + rest == batch;
        ClosedBatchIsWellShaped(batch, anchor, k);
      }
    } else {
      var o := rest[0];
      var tail := rest[1..];
      assert o in rest;
      assert forall x :: x in tail ==> x in rest;
      SortedStep(batch, rest);
      if IsWithinTimeWindow(o.createdAt, anchor) {
        var grown := batch + [o];
        Grow(batch, anchor, k, o);
        if |grown| >= MaxOrdersPerDelivery {
          assert [] + tail == tail;
          ScanIsWellShaped(tail, [], o.createdAt, k);
        } else {
          ScanIsWellShaped(tail, grown, anchor, k);
        }
      } else {
        if batch != [] {
          ClosedBatchIsWellShaped(batch, anchor, k);
        }
        assert [o] + tail == rest;
        ScanIsWellShaped(tail, [o], o.createdAt, k);
      }
    }
  }

  /** A filter of a sorted list is sorted. */
  lemma {:induction false} FilterKeepsSorted(s: seq<OrderSnapshot>, keys: set<Key>)
    requires SortedByCreatedAt(s)
    ensures SortedByCreatedAt(FilterKeys(s, keys))
    decreases |s|
  {
    if s != [] {
      assert SortedByCreatedAt(s[1..]);
      FilterKeepsSorted(s[1..], keys);
      var rest := FilterKeys(s[1..], keys);
      forall x | x in rest ensures s[0].createdAt <= x.createdAt {
        var j :| 0 <= j < |s[1..]| && s[1..][j] == x;
        assert s[j + 1] == x;
      }
    }
  }

  /** Every delivery of the plan is well shaped when the orders come sorted. */
  lemma {:induction false} PlanIsWellShaped(sorted: seq<OrderSnapshot>, keys: seq<Key>)
    requires SortedByCreatedAt(sorted)
    ensures forall b :: b in Plan(sorted, keys) ==> WellShaped(b)
    decreases |keys|
  {
    if keys != [] {
      var k := keys[|keys| - 1];
      PlanIsWellShaped(sorted, keys[..|keys| - 1]);
      var group := Group(sorted, k);
      if group != [] {
        FilterKeepsSorted(sorted, {k});
        assert [] + group == group;
        ScanIsWellShaped(group, [], group[0].createdAt, k);
      }
    }
  }

  lemma {:induction false} FilterSplits(s: seq<OrderSnapshot>, keys: set<Key>, k: Key)
    requires k !in keys
    ensures multiset(FilterKeys(s, keys + {k})) == multiset(FilterKeys(s, keys)) + multiset(Group(s, k))
    decreases |s|
  {
    if s != [] {
      FilterSplits(s[1..], keys, k);
    }
  }

  lemma {:induction false} FilterAllKeys(s: seq<OrderSnapshot>, keys: set<Key>)
    requires forall o :: o in s ==> BatchKey(o) in keys
    ensures FilterKeys(s, keys) == s
    decreases |s|
  {
    if s != [] {
      assert s[0] in s;
      FilterAllKeys(s[1..], keys);
      assert s == [s[0]] + s[1..];
    }
  }

  lemma GroupBatchesFlatten(group: seq<OrderSnapshot>)
    ensures Flatten(GroupBatches(group)) == group
  {
    if group != [] {
      ScanFlattens(group, [], group[0].createdAt);
      assert [] + group == group;
    }
  }

  /** The plan for the first keys holds exactly the orders with those keys. */
  lemma {:induction false} PlanCoversKeys(sorted: seq<OrderSnapshot>, keys: seq<Key>)
    requires forall i, j :: 0 <= i < j < |keys| ==> keys[i] != keys[j]
    ensures multiset(Flatten(Plan(sorted, keys))) == multiset(FilterKeys(sorted, KeySet(keys)))
    decreases |keys|
  {
    if keys == [] {
      assert KeySet(keys) == {};
      FilterNoKeys(sorted);
    } else {
      var init := keys[..|keys| - 1];
      var k := keys[|keys| - 1];
      PlanCoversKeys(sorted, init);
      FlattenAppend(Plan(sorted, init), GroupBatches(Group(sorted, k)));
      GroupBatchesFlatten(Group(sorted, k));
      KeySetOfSnoc(keys);
      FilterSplits(sorted, KeySet(init), k);
    }
  }

  function KeySet(keys: seq<Key>): set<Key> {
    set k | k in keys
  }

  /** Helper for `PlanCoversKeys`: the last of a list of distinct keys adds one new key to those before it. */
  lemma KeySetOfSnoc(keys: seq<Key>)
    requires keys != []
    requires forall i, j :: 0 <= i < j < |keys| ==> keys[i] != keys[j]
    ensures KeySet(keys) == KeySet(keys[..|keys| - 1]) + {keys[|keys| - 1]}
    ensures keys[|keys| - 1] !in KeySet(keys[..|keys| - 1])
  {
    var init := keys[..|keys| - 1];
    assert keys == init + [keys[|keys| - 1]];
  }

  lemma {:induction false} FilterNoKeys(s: seq<OrderSnapshot>)
    ensures FilterKeys(s, {}) == []
    decreases |s|
  {
    if s != [] {
      FilterNoKeys(s[1..]);
    }
  }

  /** The run's deliveries partition the batchable orders: each one lands in exactly one delivery, and
      nothing else is delivered. */
  lemma PlanPartitions(listing: seq<OrderSnapshot>, batchable: set<OrderSnapshot>, keys: seq<Key>)
    requires Enumerates(listing, batchable)
    requires ListsKeys(keys, SortByCreatedAt(listing))
    ensures forall o :: multiset(Flatten(Plan(SortByCreatedAt(listing), keys)))[o] == if o in batchable then 1 else 0
  {
    var sorted := SortByCreatedAt(listing);
    PlanCoversKeys(sorted, keys);
    forall o | o in sorted ensures BatchKey(o) in KeySet(keys) {
      assert BatchKey(o) in KeysOf(sorted);
    }
    FilterAllKeys(sorted, KeySet(keys));
  }

  /** Each delivery the run creates is well shaped. */
  lemma PlanShapes(listing: seq<OrderSnapshot>, keys: seq<Key>)
    ensures forall b :: b in Plan(SortByCreatedAt(listing), keys) ==> WellShaped(b)
  {
    PlanIsWellShaped(SortByCreatedAt(listing), keys);
  }

  /** `groupingBy` adds each order at the end of its key's list. */
  lemma {:induction false} FilterSnoc(s: seq<OrderSnapshot>, x: OrderSnapshot, keys: set<Key>)
    ensures FilterKeys(s + [x], keys) == FilterKeys(s, keys) + (if BatchKey(x) in keys then [x] else [])
    decreases |s|
  {
    if s == [] {
      assert [] + [x] == [x] && [x][1..] == [];
    } else {
      assert (s + [x])[0] == s[0];
      assert (s + [x])[1..] == s[1..] + [x];
      FilterSnoc(s[1..], x, keys);
    }
  }

  /** An order whose key is kept is in the filter. */
  lemma {:induction false} FilterKeeps(s: seq<OrderSnapshot>, keys: set<Key>, o: OrderSnapshot)
    requires o in s && BatchKey(o) in keys
    ensures o in FilterKeys(s, keys)
    decreases |s|
  {
    if s[0] != o {
      assert s == [s[0]] + s[1..];
      FilterKeeps(s[1..], keys, o);
    }
  }

  /** The plan for the first keys is the start of the plan for all of them. */
  lemma {:induction false} PlanPrefix(sorted: seq<OrderSnapshot>, keys: seq<Key>, n: nat)
    requires n <= |keys|
    ensures Plan(sorted, keys[..n]) <= Plan(sorted, keys)
    decreases |keys|
  {
    if n == |keys| {
      assert keys[..n] == keys;
    } else {
      var init := keys[..|keys| - 1];
      assert init[..n] == keys[..n];
      PlanPrefix(sorted, init, n);
    }
  }

  /** A key has a non-empty group exactly when some order has it. */
  lemma GroupNonEmpty(s: seq<OrderSnapshot>, k: Key)
    ensures k in KeysOf(s) ==> Group(s, k) != []
    ensures Group(s, k) != [] ==> k in KeysOf(s)
  {
    if k in KeysOf(s) {
      var o :| o in s && BatchKey(o) == k;
      FilterKeeps(s, {k}, o);
    }
    if Group(s, k) != [] {
      var x := Group(s, k)[0];
      assert x in Group(s, k);
    }
  }

  /** The plan for one more key adds that key's group at the end. */
  lemma PlanSnoc(sorted: seq<OrderSnapshot>, keys: seq<Key>, m: nat)
    requires m < |keys|
    ensures Plan(sorted, keys[..m + 1]) == Plan(sorted, keys[..m]) + GroupBatches(Group(sorted, keys[m]))
  {
    assert keys[..m + 1][..m] == keys[..m];
  }

  /** One step of the scan, by the three cases of the loop body. */
  lemma ScanStep(rest: seq<OrderSnapshot>, batch: seq<OrderSnapshot>, anchor: int)
    requires rest != []
    ensures var o := rest[0];
      && (IsWithinTimeWindow(o.createdAt, anchor) && |batch + [o]| >= MaxOrdersPerDelivery ==>
            Scan(rest, batch, anchor) == [batch + [o]] + Scan(rest[1..], [], o.createdAt))
      && (IsWithinTimeWindow(o.createdAt, anchor) && |batch + [o]| < MaxOrdersPerDelivery ==>
            Scan(rest, batch, anchor) == Scan(rest[1..], batch + [o], anchor))
      && (!IsWithinTimeWindow(o.createdAt, anchor) && batch != [] ==>
            Scan(rest, batch, anchor) == [batch] + Scan(rest[1..], [o], o.createdAt))
      && (!IsWithinTimeWindow(o.createdAt, anchor) && batch == [] ==>
            Scan(rest, batch, anchor) == Scan(rest[1..], [o], o.createdAt))
  {
    assert [] + Scan(rest[1..], [rest[0]], rest[0].createdAt) == Scan(rest[1..], [rest[0]], rest[0].createdAt);
  }
}
