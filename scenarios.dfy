/**
 * Whole-service runs over a fresh store and service, stated as postconditions: what a
 * client of the service can rely on from the contracts of the components alone.
 */
module Scenarios {
  import opened Wrappers
  import opened Orders
  import opened Repository
  import opened Service
  import opened Nats
  import opened Router

  /**
   * An empty store; a valid order arrives on the stream and is saved; the next read
   * is answered from the cache even when the store is unreachable; one order is cached.
   */
  method IngestThenRead(order: Order)
    returns (ingested: Outcome<IngestError>, read: Result<Order, StoreError>, size: int)
    requires ValidateOrder(order).Pass?
    ensures ingested == Pass && read == Ok(order) && size == 1
  {
    var repo := new PostgresRepository(map[]);
    var service := new OrderService(repo, None, {});
    ingested := ProcessMessage(service, Ok(order), None, None);
    read := service.GetOrder(order.orderUID, Some("connection refused"));
    size := service.GetCacheSize();
  }

  /**
   * A store holding two orders warms up a new service: it reports two cached orders
   * and serves the first one without the store.
   */
  method WarmStart(a: Order, b: Order) returns (size: int, read: Result<Order, StoreError>)
    requires ValidateOrder(a).Pass? && ValidateOrder(b).Pass?
    requires a.orderUID != b.orderUID
    ensures size == 2 && read == Ok(a)
  {
    var repo := new PostgresRepository(map[a.orderUID := a, b.orderUID := b]);
    var service := new OrderService(repo, None, {});
    size := service.GetCacheSize();
    read := service.GetOrder(a.orderUID, Some("connection refused"));
  }

  /**
   * Warm-up failed, so the stored order is not cached; a second save of its UID is
   * rejected as a duplicate and the cache stays empty.
   */
  method DuplicateRejected(stored: Order, again: Order) returns (err: Outcome<StoreError>, size: int)
    requires ValidateOrder(stored).Pass?
    requires again.orderUID == stored.orderUID
    ensures err == Fail(AlreadyExists(stored.orderUID)) && size == 0
  {
    var repo := new PostgresRepository(map[stored.orderUID := stored]);
    var service := new OrderService(repo, Some("connection refused"), {});
    err := service.SaveOrder(again, None, None);
    size := service.GetCacheSize();
  }

  /**
   * Warm-up failed; the first read misses and fills the cache from the store, so the
   * second read is a hit and succeeds even with the store unreachable.
   */
  method LazyFill(stored: Order) returns (first: Result<Order, StoreError>, second: Result<Order, StoreError>)
    requires ValidateOrder(stored).Pass?
    ensures first == Ok(stored) && second == Ok(stored)
  {
    var repo := new PostgresRepository(map[stored.orderUID := stored]);
    var service := new OrderService(repo, Some("connection refused"), {});
    first := service.GetOrder(stored.orderUID, None);
    second := service.GetOrder(stored.orderUID, Some("connection refused"));
  }

  /**
   * Warm-up failed; a first GET of "/order/<uid>" fills the cache from the store, so a
   * second GET of the same path is answered 200 with the store unreachable.
   */
  method SecondRequestIsHit(stored: Order) returns (first: int, second: int)
    requires ValidateOrder(stored).Pass?
    ensures first == 200 && second == 200
  {
    var repo := new PostgresRepository(map[stored.orderUID := stored]);
    var service := new OrderService(repo, Some("connection refused"), {});
    var path := OrderPrefix + stored.orderUID;
    assert path[|OrderPrefix|..] == stored.orderUID;
    first := ServeHTTP(service, "GET", path, true, None, false);
    second := ServeHTTP(service, "GET", path, true, Some("connection refused"), false);
  }

  /**
   * On the order route, a preflight OPTIONS is answered 200 and a POST 405, and
   * neither caches anything.
   */
  method PreflightAndWrongMethod(id: string) returns (preflight: int, post: int, size: int)
    requires id != ""
    ensures preflight == 200 && post == 405 && size == 0
  {
    var repo := new PostgresRepository(map[]);
    var service := new OrderService(repo, None, {});
    var path := OrderPrefix + id;
    OrderPathRouted(id);
    preflight := ServeHTTP(service, "OPTIONS", path, true, None, false);
    post := ServeHTTP(service, "POST", path, true, None, false);
    size := service.GetCacheSize();
  }
}
