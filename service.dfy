/**
 * The order service: the one component that reconciles the cache with the store.
 * Saves go to the store first and reach the cache only when the store accepted them;
 * reads try the cache first and fill it from the store on a miss.
 */
module Service {
  import opened Wrappers
  import opened Orders
  import opened Repository
  import Cache

  /** The answer `GetOrder` gives: the cached order on a hit, otherwise the store's answer. */
  function Served(cached: map<string, Order>, rows: map<string, Order>,
                  uid: string, fault: Option<string>): Result<Order, StoreError>
  {
    if uid in cached then Ok(cached[uid]) else Fetch(rows, uid, fault)
  }

  /**
   * While the cache is a sub-map of the store, the cache never answers anything the
   * store would not, and with a healthy store the cache is invisible: the service
   * answers exactly what the store holds.
   */
  lemma ServedAgreesWithStore(cached: map<string, Order>, rows: map<string, Order>,
                              uid: string, fault: Option<string>)
    requires SubMap(cached, rows)
    ensures Served(cached, rows, uid, fault).Ok? ==>
      uid in rows && Served(cached, rows, uid, fault).value == rows[uid]
    ensures fault.None? ==> Served(cached, rows, uid, fault) == Fetch(rows, uid, None)
  {
  }

  /** Warming up a cache that is within the store keeps it within the store. */
  lemma RestoredWithinStore(cached: map<string, Order>, rows: map<string, Order>, unreadable: set<string>)
    requires SubMap(cached, rows)
    ensures SubMap(cached + Readable(rows, unreadable), rows)
  {
  }

  class OrderService {
    const repo: PostgresRepository
    const cache: Cache.Cache

    /** The store is well keyed and the cache holds nothing the store does not hold. */
    ghost predicate Valid()
      reads this, repo, cache
    {
      repo.Valid() && SubMap(cache.data, repo.rows)
    }

    /**
     * `NewOrderService`: a fresh cache, warmed up from the store. A failure to load
     * is only logged, and the service starts with an empty cache.
     */
    constructor (repo: PostgresRepository, listFault: Option<string>, unreadable: set<string>)
      requires repo.Valid()
      modifies repo
      ensures this.repo == repo && fresh(cache) && Valid()
      ensures repo.rows == old(repo.rows)
      ensures cache.data == if listFault.Some? then map[] else Readable(repo.rows, unreadable)
    {
      this.repo := repo;
      cache := new Cache.Cache();
      new;
      var err := RestoreCache(listFault, unreadable);
    }

    /** Loads every order the store can list into the cache, keyed by its UID. */
    method RestoreCache(listFault: Option<string>, unreadable: set<string>) returns (err: Outcome<StoreError>)
      requires Valid()
      modifies repo, cache
      ensures Valid() && repo.rows == old(repo.rows)
      ensures err == if listFault.Some? then Fail(Backend(listFault.value)) else Pass
      ensures cache.data == if err.Fail? then old(cache.data)
                            else old(cache.data) + Readable(repo.rows, unreadable)
    {
      var loaded := repo.GetAllOrders(listFault, unreadable);
      if loaded.Err? {
        return Fail(loaded.error);
      }
      var orders := loaded.value;
      ghost var before := cache.data;
      for i := 0 to |orders|
        modifies cache
        invariant cache.data == Cache.Load(before, orders[..i])
      {
        Cache.LoadPrefix(before, orders, i);
        cache.Set(orders[i]);
      }
      assert orders[..|orders|] == orders;
      Cache.LoadEnumeration(before, orders, Readable(repo.rows, unreadable));
      RestoredWithinStore(before, repo.rows, unreadable);
      err := Pass;
    }

    /** Writes `order` through to the store and, only if the store accepted it, to the cache. */
    method SaveOrder(order: Order, checkFault: Option<string>, writeFault: Option<string>)
      returns (err: Outcome<StoreError>)
      requires Valid()
      modifies repo, cache
      ensures Valid() && repo.calls == old(repo.calls) + 1
      ensures err == SaveOutcome(old(repo.rows), order, checkFault, writeFault)
      ensures err.Fail? ==> cache.data == old(cache.data) && repo.rows == old(repo.rows)
      ensures err.Pass? ==>
        && cache.data == old(cache.data)[order.orderUID := order]
        && repo.rows == old(repo.rows)[order.orderUID := order]
    {
      err := repo.SaveOrder(order, checkFault, writeFault);
      if err.Fail? {
        return;
      }
      cache.Set(order);
    }

    /**
     * The order stored under `orderUID`: from the cache without calling the store on
     * a hit; from the store on a miss, caching it when the store found it.
     */
    method GetOrder(orderUID: string, fault: Option<string>) returns (r: Result<Order, StoreError>)
      requires Valid()
      modifies repo, cache
      ensures Valid() && repo.rows == old(repo.rows)
      ensures r == Served(old(cache.data), old(repo.rows), orderUID, fault)
      ensures orderUID in old(cache.data) ==> cache.data == old(cache.data) && repo.calls == old(repo.calls)
      ensures orderUID !in old(cache.data) ==> repo.calls == old(repo.calls) + 1
      ensures cache.data == if r.Ok? then old(cache.data)[orderUID := r.value] else old(cache.data)
      ensures r.Ok? ==> orderUID in cache.data && cache.data[orderUID] == r.value
    {
      var cached, found := cache.Get(orderUID);
      if found {
        return Ok(cached.value);
      }
      r := repo.GetOrderByUID(orderUID, fault);
      if r.Err? {
        return;
      }
      cache.Set(r.value);
    }

    /** The number of cached orders. */
    method GetCacheSize() returns (n: int)
      ensures n == |cache.data|
    {
      n := cache.Size();
    }
  }
}
