/**
 * The in-memory order cache: a map from order UID to order. The Go type guards the
 * map with a readers-writer lock; this model is sequential, one operation at a time.
 */
module Cache {
  import opened Wrappers
  import opened Orders

  /** The cache contents after `Set` has been called on each of `orders` in turn. */
  function Load(m: map<string, Order>, orders: seq<Order>): map<string, Order>
    decreases |orders|
  {
    if orders == [] then m
    else
      var last := orders[|orders| - 1];
      Load(m, orders[..|orders| - 1])[last.orderUID := last]
  }

  /** One more `Set` extends a load of a prefix to the next prefix. */
  lemma LoadPrefix(m: map<string, Order>, orders: seq<Order>, i: nat)
    requires i < |orders|
    ensures Load(m, orders[..i + 1]) == Load(m, orders[..i])[orders[i].orderUID := orders[i]]
  {
    assert orders[..i + 1][..i] == orders[..i];
  }

  /** Loading orders with distinct keys adds each of them under its key and keeps the rest. */
  lemma {:induction false} LoadAdds(m: map<string, Order>, orders: seq<Order>)
    requires DistinctUIDs(orders)
    ensures Load(m, orders).Keys == m.Keys + UIDs(orders)
    ensures forall i :: 0 <= i < |orders| ==> Load(m, orders)[orders[i].orderUID] == orders[i]
    ensures forall k :: k in m && k !in UIDs(orders) ==> Load(m, orders)[k] == m[k]
    decreases |orders|
  {
    if orders != [] {
      var init, last := orders[..|orders| - 1], orders[|orders| - 1];
      assert orders == init + [last];
      assert DistinctUIDs(init) by {
        forall i, j | 0 <= i < j < |init| ensures init[i].orderUID != init[j].orderUID {
          assert init[i] == orders[i] && init[j] == orders[j];
        }
      }
      LoadAdds(m, init);
      UIDsAppend(init, last);
      var before := Load(m, init);
      assert Load(m, orders) == before[last.orderUID := last];
      forall i | 0 <= i < |orders| ensures Load(m, orders)[orders[i].orderUID] == orders[i] {
        if i < |init| {
          assert orders[i] == init[i];
          assert orders[i].orderUID != last.orderUID;
        }
      }
    }
  }

  /** Loading `n` orders with distinct keys into an empty cache leaves `n` entries. */
  lemma {:induction false} LoadSize(orders: seq<Order>)
    requires DistinctUIDs(orders)
    ensures |Load(map[], orders)| == |orders|
    decreases |orders|
  {
    if orders != [] {
      var init, last := orders[..|orders| - 1], orders[|orders| - 1];
      LoadSize(init);
      LoadAdds(map[], init);
      forall i | 0 <= i < |init| ensures init[i].orderUID != last.orderUID {
        assert orders[i] == init[i];
      }
    }
  }

  /** Loading an enumeration of the map `src` over `m` gives `m` overwritten by `src`. */
  lemma LoadEnumeration(m: map<string, Order>, orders: seq<Order>, src: map<string, Order>)
    requires Enumerates(orders, src)
    ensures Load(m, orders) == m + src
  {
    LoadAdds(m, orders);
    var r := Load(m, orders);
    forall k | k in r ensures k in m + src && r[k] == (m + src)[k] {
      if k in src {
        var i :| 0 <= i < |orders| && orders[i].orderUID == k;
      }
    }
  }

  class Cache {
    /** The cached orders, keyed by their UID. */
    var data: map<string, Order>

    /** `New`: an empty cache. */
    constructor ()
      ensures data == map[]
    {
      data := map[];
    }

    /** The order stored under `orderUID`, if any, and whether there was one. */
    method Get(orderUID: string) returns (order: Option<Order>, found: bool)
      ensures found <==> orderUID in data
      ensures found ==> order == Some(data[orderUID])
      ensures !found ==> order == None
    {
      if orderUID in data {
        order, found := Some(data[orderUID]), true;
      } else {
        order, found := None, false;
      }
    }

    /** Stores `order` under its UID, replacing any earlier entry for that UID. */
    method Set(order: Order)
      modifies this
      ensures data == old(data)[order.orderUID := order]
      ensures |data| == if order.orderUID in old(data) then |old(data)| else |old(data)| + 1
    {
      data := data[order.orderUID := order];
    }

    /** A copy of the whole map, built entry by entry. */
    method GetAll() returns (result: map<string, Order>)
      ensures result == data
    {
      result := map[];
      var pending := data.Keys;
      while pending != {}
        invariant pending <= data.Keys
        invariant result.Keys == data.Keys - pending
        invariant forall k :: k in result ==> result[k] == data[k]
        decreases pending
      {
        var k :| k in pending;
        result := result[k := data[k]];
        pending := pending - {k};
      }
    }

    /** The number of cached orders. */
    method Size() returns (n: int)
      ensures n == |data.Keys|
    {
      n := |data|;
    }

    /** Removes the entry for `orderUID`; does nothing when there is none. */
    method Delete(orderUID: string)
      modifies this
      ensures data == old(data) - {orderUID}
      ensures orderUID !in data
      ensures orderUID !in old(data) ==> data == old(data)
    {
      data := data - {orderUID};
    }
  }
}
