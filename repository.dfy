/**
 * The durable order store, modelled abstractly. Its content is a map from order UID
 * to the stored order; SQL, transactions and row scans are not modelled. Failures of
 * the database connection, of a statement or of a scan are not decided by the store's
 * content, so every operation takes them as outcome parameters.
 */
module Repository {
  import opened Wrappers
  import opened Orders

  datatype StoreError =
    | AlreadyExists(uid: string)    // a save of a UID that is already stored
    | NotFound(uid: string)         // a lookup of a UID that is not stored
    | Backend(reason: string)       // any failure of the database itself

  /**
   * A stored order sits under its own UID, and its payment row is keyed by that UID:
   * the payments table's key is `transaction`, a foreign key to `orders.order_uid`.
   */
  predicate WellKeyed(rows: map<string, Order>) {
    forall k :: k in rows ==> rows[k].orderUID == k && rows[k].payment.transaction == k
  }

  /**
   * What `SaveOrder` reports. The existence check runs first: its failure, then an
   * existing UID, stop the save. Then the insert transaction runs: it fails when the
   * database fails, or when the payment row cannot be inserted because its
   * transaction is not the order's own UID.
   */
  function SaveOutcome(rows: map<string, Order>, order: Order,
                       checkFault: Option<string>, writeFault: Option<string>): (r: Outcome<StoreError>)
    ensures r.Pass? <==>
      checkFault.None? && order.orderUID !in rows && writeFault.None? &&
      order.payment.transaction == order.orderUID
    ensures checkFault.None? && order.orderUID in rows ==> r == Fail(AlreadyExists(order.orderUID))
    ensures r.Fail? && r.error.AlreadyExists? ==> order.orderUID in rows
    ensures r.Fail? ==> !r.error.NotFound?
  {
    if checkFault.Some? then Fail(Backend(checkFault.value))
    else if order.orderUID in rows then Fail(AlreadyExists(order.orderUID))
    else if writeFault.Some? then Fail(Backend(writeFault.value))
    else if order.payment.transaction != order.orderUID then Fail(Backend("failed to insert payment"))
    else Pass
  }

  /** What `GetOrderByUID` returns: the stored order, not-found, or a database failure. */
  function Fetch(rows: map<string, Order>, uid: string, fault: Option<string>): (r: Result<Order, StoreError>)
    ensures r.Ok? <==> fault.None? && uid in rows
    ensures r.Ok? ==> r.value == rows[uid]
    ensures r == Err(NotFound(uid)) <==> fault.None? && uid !in rows
  {
    if fault.Some? then Err(Backend(fault.value))
    else if uid !in rows then Err(NotFound(uid))
    else Ok(rows[uid])
  }

  /** Under a well-keyed store, an order that is fetched carries the UID it was asked for. */
  lemma FetchedCarriesUID(rows: map<string, Order>, uid: string, fault: Option<string>)
    requires WellKeyed(rows)
    requires Fetch(rows, uid, fault).Ok?
    ensures Fetch(rows, uid, fault).value.orderUID == uid
    ensures Fetch(rows, uid, fault).value.payment.transaction == uid
  {
  }

  /** The stored orders that load completely, i.e. those not in `unreadable`. */
  function Readable(rows: map<string, Order>, unreadable: set<string>): (r: map<string, Order>)
    ensures r.Keys == rows.Keys - unreadable
    ensures SubMap(r, rows)
  {
    map k | k in rows && k !in unreadable :: rows[k]
  }

  class PostgresRepository {
    /** The stored orders, keyed by UID. */
    var rows: map<string, Order>
    /** The number of calls made to the store (not a field of the Go repository type). */
    ghost var calls: nat

    ghost predicate Valid()
      reads this
    {
      WellKeyed(rows)
    }

    constructor (initial: map<string, Order>)
      requires WellKeyed(initial)
      ensures Valid() && rows == initial && calls == 0
    {
      rows := initial;
      calls := 0;
    }

    /** Inserts `order` unless the UID exists or the insert fails; a failed insert leaves no trace. */
    method SaveOrder(order: Order, checkFault: Option<string>, writeFault: Option<string>)
      returns (err: Outcome<StoreError>)
      requires Valid()
      modifies this
      ensures Valid() && calls == old(calls) + 1
      ensures err == SaveOutcome(old(rows), order, checkFault, writeFault)
      ensures rows == if err.Pass? then old(rows)[order.orderUID := order] else old(rows)
    {
      calls := calls + 1;
      err := SaveOutcome(rows, order, checkFault, writeFault);
      if err.Pass? {
        rows := rows[order.orderUID := order];
      }
    }

    /** The order stored under `uid`, or why there is none. */
    method GetOrderByUID(uid: string, fault: Option<string>) returns (r: Result<Order, StoreError>)
      requires Valid()
      modifies this
      ensures Valid() && rows == old(rows) && calls == old(calls) + 1
      ensures r == Fetch(rows, uid, fault)
    {
      calls := calls + 1;
      r := Fetch(rows, uid, fault);
    }

    /**
     * All stored orders, for warming up the cache. Listing the UIDs may fail as a
     * whole (`listFault`); an order that then fails to load completely (its UID is in
     * `unreadable`) is skipped rather than failing the call.
     */
    method GetAllOrders(listFault: Option<string>, unreadable: set<string>)
      returns (r: Result<seq<Order>, StoreError>)
      requires Valid()
      modifies this
      ensures Valid() && rows == old(rows) && calls == old(calls) + 1
      ensures listFault.Some? ==> r == Err(Backend(listFault.value))
      ensures listFault.None? ==> r.Ok? && Enumerates(r.value, Readable(rows, unreadable))
    {
      calls := calls + 1;
      if listFault.Some? {
        return Err(Backend(listFault.value));
      }
      var stored := rows;
      var orders: seq<Order> := [];
      var pending := stored.Keys;
      while pending != {}
        modifies {}
        invariant pending <= stored.Keys
        invariant UIDs(orders) == (stored.Keys - pending) - unreadable
        invariant DistinctUIDs(orders)
        invariant forall i :: 0 <= i < |orders| ==>
          orders[i].orderUID in stored && orders[i].orderUID !in pending &&
          orders[i].orderUID !in unreadable && stored[orders[i].orderUID] == orders[i]
        decreases pending
      {
        var uid :| uid in pending;
        pending := pending - {uid};
        if uid !in unreadable {
          UIDsAppend(orders, stored[uid]);
          orders := orders + [stored[uid]];
        }
      }
      r := Ok(orders);
    }
  }
}
