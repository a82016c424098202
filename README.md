# Order ingestion service — verified Dafny model

This project models the sequential core of a Go service that ingests order records
from a NATS Streaming subject, stores them in PostgreSQL and serves them over HTTP,
with an in-memory read-through cache in front of the database:

- `cache.dfy` — module `Cache`: the order cache, a class with a `data` map from order
  UID to order and the operations `New` (constructor), `Get`, `Set`, `GetAll`, `Size`,
  `Delete`; plus `Load`, the cache after a run of `Set` calls, and its lemmas.
- `repository.dfy` — module `Repository`: the PostgreSQL repository as an abstract store
  (a class holding the stored orders as a map). Database failures are outcome parameters.
- `service.dfy` — module `Service`: `OrderService` with warm-up (`RestoreCache`, run by the
  constructor), write-through `SaveOrder`, lazy-fill `GetOrder` and `GetCacheSize`.
  Its object invariant `Valid()` says the cache is a sub-map of the store: every cached
  key is stored, with the same order (the same up to what the database does not keep, and
  it fails outright for a key the database truncates; see `Repository.Fetch` under
  "Left out").
- `nats.dfy` — module `Nats`: `ValidateOrder` and the decode–validate–save sequence of
  `processMessage`.
- `handlers.dfy`, `router.dfy` — modules `Handlers` and `Router`: the status decisions of the
  HTTP handlers and the path dispatch of `ServeHTTP`.
- `scenarios.dfy` — module `Scenarios`: whole-service runs on a fresh store (ingest then
  read, warm start, duplicate save, lazy fill, repeated and non-GET requests) whose outcomes follow from the contracts.
- `orders.dfy`, `wrappers.dfy` — the order record and `Option`/`Result`/`Outcome`.

Modelling conventions:

- Go strings are byte strings, and `len`, `s[:7]` and `s[7:]` work on bytes. A model
  `string` is read as the sequence of the Go string's bytes, one element per byte; no
  decoding is modelled.
- An `Outcome` replaces a Go `error` result (`Pass` is `nil`); a `Result` replaces a
  `(value, error)` pair.
- Go's pointers to orders become immutable `Order` values. `GetAll` returns a Dafny map,
  which is a value: nothing done to the result can affect the cache.
- The store's content is a real field `rows`. A ghost counter `calls` counts the calls made
  to the store, so that "a cache hit does not reach the store" can be stated.
- Failures the store's content does not decide are parameters: `checkFault` (the
  existence query fails), `writeFault` (a statement of the insert transaction or its commit
  fails), `fault` (a query of a lookup fails), `listFault` (listing the UIDs fails) and
  `unreadable` (the UIDs whose full load fails while listing all orders).
- The store rejects, with a database error, an order whose payment transaction is not its
  own UID. The repository's schema makes `payments.transaction` the primary key and a
  foreign key to `orders.order_uid` (repository/postgres.go:347-348). When every stored
  order owns the payment row under its own UID, a payment row under any other value
  either references no order or collides with an existing payment row. So every stored
  order satisfies `payment.transaction == orderUID` (`Repository.WellKeyed`). That is why
  the lookup by `transaction = order_uid` (repository/postgres.go:214-220) always finds
  the order's payment. This rule assumes the database was created with the schema of
  `InitDB` (repository/postgres.go:319-384), which none of the shown programs calls. The
  design places the payment-key check at ingestion only; in this model the storage layer
  also refuses a mismatch, as that schema makes it do.

## Model

| member | source | states |
|---|---|---|
| `Cache.Cache.constructor` | cache/cache.go:13-17 | A new cache is empty, so `Get` reports not-found for every UID and `Size` is 0. |
| `Cache.Cache.Get` | cache/cache.go:20-26 | Reports found exactly when the UID is cached, and then returns the cached order. It changes nothing. |
| `Cache.Cache.Set` | cache/cache.go:29-34 | Only the entry for the order's UID changes, and it now holds the order (last writer wins). Size grows by one exactly when the UID was absent. |
| `Cache.Cache.GetAll` | cache/cache.go:37-47 | The copy built entry by entry equals the current contents. It changes nothing. |
| `Cache.Cache.Size` | cache/cache.go:50-55 | Equals the number of cached keys. It changes nothing. |
| `Cache.Cache.Delete` | cache/cache.go:58-63 | The UID is no longer cached and every other entry is kept. Deleting an absent UID changes nothing, so a second delete is a no-op. |
| `Cache.LoadAdds` | cache/cache.go:29-34 | Setting orders with distinct UIDs one after another caches each under its UID and keeps every other entry. |
| `Cache.LoadSize` | cache/cache.go:50-55 | Setting n orders with distinct UIDs into an empty cache leaves exactly n entries. |
| `Cache.LoadEnumeration` | service/service.go:30-42 | Setting every order of a list that enumerates a map gives the old contents overwritten by that map. |
| `Repository.SaveOutcome` | repository/postgres.go:34-151 | The save succeeds exactly when the existence check works, the UID is not stored, the insert works and the payment is keyed by the order's UID. An existing UID is reported as a duplicate, never as not-found. |
| `Repository.Fetch` | repository/postgres.go:165-191 | A lookup succeeds exactly when no query fails and the UID is stored, and then returns the stored order. A missing UID gives not-found. |
| `Repository.FetchedCarriesUID` | repository/postgres.go:214-235 | In a well-keyed store, a fetched order carries the UID asked for as both its UID and its payment transaction. |
| `Repository.Readable` | repository/postgres.go:304-312 | The orders that load fully: those under the stored UIDs outside `unreadable`, each with its stored value. |
| `Repository.PostgresRepository.SaveOrder` | repository/postgres.go:34-151 | Reports `SaveOutcome`. On success the order is stored under its UID. Any failure leaves the rows unchanged: the checks stop before the insert, or the transaction rolls back. |
| `Repository.PostgresRepository.GetOrderByUID` | repository/postgres.go:165-277 | Returns `Fetch` of the rows and changes no row. |
| `Repository.PostgresRepository.GetAllOrders` | repository/postgres.go:280-316 | A listing failure is returned as an error. Otherwise the result lists each fully loadable stored order exactly once and skips the rest. |
| `Service.ServedAgreesWithStore` | service/service.go:59-77 | While the cache is a sub-map of the store, any order the service returns is the stored one. With a healthy store the answer equals the store's own answer, so the cache is invisible, as far as the store gives back the order that was saved (see `Repository.Fetch` under "Left out"). |
| `Service.OrderService.constructor` | service/service.go:15-27 | Construction always succeeds. After a successful load the cache holds exactly the fully loadable stored orders, keyed by UID. After a failed load it is empty. |
| `Service.OrderService.RestoreCache` | service/service.go:30-42 | A load failure is returned and the cache is unchanged. Otherwise every loaded order is cached under its UID. The invariant is kept. |
| `Service.OrderService.SaveOrder` | service/service.go:45-56 | The store is written first. On a store error, that error is returned and neither cache nor store changes. On success, exactly the order's UID now maps to the order in both. The invariant is kept. |
| `Service.OrderService.GetOrder` | service/service.go:59-77 | A hit returns the cached order without calling the store. A miss asks the store once: on success the order is cached and returned, so the next read is a hit; on error the error is returned and the cache is unchanged. |
| `Service.OrderService.GetCacheSize` | service/service.go:80-82 | Equals the number of cached orders. |
| `Nats.ValidateOrder` | nats/subscriber.go:86-103 | Accepts exactly when UID, track number and entry are non-empty and the payment transaction equals the UID. The first failing check names the error, and an empty UID is always reported first. |
| `Nats.ValidOrderSaves` | nats/subscriber.go:99-101 | A validated order is never refused by the store for its payment key: with no database failure its save succeeds exactly when its UID is new. |
| `Nats.ProcessMessage` | nats/subscriber.go:60-83 | An undecodable or invalid message returns its error and leaves store, cache and call count untouched. A valid one is saved through the service, with the service's outcome. Success implies the order was valid. |
| `Handlers.OrderRequest` | httpserver/handlers.go:28-50 | OPTIONS gives 200 before the method check. Another non-GET method gives 405. A GET of a path of at most 7 bytes gives 400. Otherwise the id looked up is the non-empty rest after the first 7 bytes, whatever those bytes are. |
| `Handlers.LooksUpSuffix` | httpserver/handlers.go:46-50 | A GET of any 7 bytes followed by a non-empty id looks up exactly that id. |
| `Handlers.LookupStatus` | httpserver/handlers.go:55-75 | Any service error, whatever its cause, gives 404. 200 is given exactly when the order was found and encoded; a found order that fails to encode gives 500. |
| `Handlers.GetOrderHandler` | httpserver/handlers.go:21-75 | An early answer touches neither cache nor store. Otherwise the status follows the service's answer for the extracted id, and the order is sent exactly when the status is 200. The status is 400 exactly for a GET of at most 7 bytes. After a lookup the cache is extended by the order found, exactly as `GetOrder` does, and the store is called only on a miss. |
| `Handlers.HealthCheckHandler` | httpserver/handlers.go:78-84 | Answers 200 with `cacheSize` equal to the number of cached orders. |
| `Router.Dispatch` | httpserver/router.go:20-31 | "/" goes to the index and "/health" to the health handler. A path longer than "/order/" that starts with it goes to the order handler. Every other path, "/order/" itself included, goes to not-found. Exactly one route is chosen. |
| `Router.OrderPathRouted` | httpserver/router.go:26-27 | "/order/" followed by an id reaches the order handler exactly when the id is non-empty. |
| `Router.RoutedOrderHasId` | httpserver/router.go:26-27 | Every path routed to the order handler is "/order/" plus a non-empty id, and a GET looks up that id. Neither 400 branch of the handler is reachable through the router. |
| `Router.ServeIndex` | httpserver/router.go:33-70 | 405 exactly for a method other than GET. A GET is 500 when none of the candidate index files exists; otherwise the file is handed to the file server, and that answer is modelled as 200 (see `Router.ServeIndex` under "Left out"). |
| `Router.ServeHTTP` | httpserver/router.go:20-44 | The index rejects every method but GET with 405. Health answers 200 and unknown paths 404, and these routes change nothing. A routed order request never answers 400. A GET answers from the service's lookup of the id and leaves the cache extended by the order found, calling the store only on a miss. On the order route OPTIONS answers 200 and every other method but GET 405, and neither changes anything. |
| `Scenarios.IngestThenRead` | service/service.go:45-77 | On an empty store, a valid ingested order is saved. Reading it back returns it even with the store down, and one order is cached. |
| `Scenarios.WarmStart` | service/service.go:15-42 | A store holding two orders gives a new service two cached orders, and the first is served with the store down. |
| `Scenarios.DuplicateRejected` | service/service.go:45-49 | After a failed warm-up, saving a stored UID again is rejected as a duplicate and the cache stays empty. |
| `Scenarios.LazyFill` | service/service.go:59-77 | A first read misses and fills the cache from the store. The second read is a hit that succeeds with the store down. |
| `Scenarios.SecondRequestIsHit` | httpserver/handlers.go:55-60 | After a failed warm-up, a first GET of "/order/" plus a stored UID is answered 200 from the store. A second GET of the same path is answered 200 from the cache with the store down. |
| `Scenarios.PreflightAndWrongMethod` | httpserver/handlers.go:28-37 | Through the router, an OPTIONS of "/order/" plus an id is answered 200 and a POST 405, and the cache stays empty. |

## Left out

- Repository.Fetch: returns exactly the order that was saved. The database rebuilds it from four tables instead, and the rebuilt order can differ in four ways.
  - Item order: items come back in the order the items query returns them, which has no ORDER BY (repository/postgres.go:238-241).
  - Timestamp: the creation timestamp goes through a `TIMESTAMP WITH TIME ZONE` column (repository/postgres.go:331), which keeps microseconds and the server's time zone.
  - No items: for an order with no items the read-back `Items` is a nil slice (repository/postgres.go:249, 275), which encodes as `null`, while the decoded message that `SaveOrder` cached had `[]`.
  - Truncated text: PostgreSQL silently truncates a value too long for a `VARCHAR(n)` column when the excess is all spaces. Take an order whose UID and payment transaction are 255 non-space bytes followed by one space. It passes validation (nats/subscriber.go:86-103), passes the existence check on the full 256-byte UID (repository/postgres.go:156), and is stored under the 255-byte prefix, because `orders.order_uid` and `payments.transaction` are `VARCHAR(255)` (repository/postgres.go:322, 348). `SaveOrder` then caches it under the full UID (service/service.go:52). Every other `VARCHAR` field is truncated the same way (for example `entry` is `VARCHAR(50)`).
  The model stores every string in full. So the "cache is invisible" property holds only up to the first three differences. Under the fourth, the sub-map invariant fails outright: the cache holds a key the store does not hold, and after a restart a GET of that UID answers 404.

- Concurrency: the cache's `sync.RWMutex` and concurrent callers are not modelled; every operation runs alone. This also leaves out the race between the existence check and the insert in the repository's save.
- SQL and the `database/sql` driver: queries, row scans, transactions and the table DDL are replaced by the abstract store. Faults are represented by the outcome parameters listed above.
- Repository.PostgresRepository.SaveOrder: the payment-key rule is enforced by the store directly. The paths by which the database would miss it are not modelled: a database created with another schema, or rows inserted outside this service.
- Repository.PostgresRepository.GetAllOrders: the order in which the database lists UIDs is left open, and it does not matter, because the listed UIDs are distinct.
- Repository.PostgresRepository.constructor: opening and pinging the connection, and `Close`, are I/O.
- JSON decoding of a stream message is an input (`decoded`). JSON encoding of responses is reduced to a flag saying whether it fails.
- NATS connection, subscription and `Close` (nats/subscriber.go:22-57, 106-110) are transport I/O.
- Response headers (CORS, content type) and bodies other than the returned order are not modelled: only status codes are.
- Router.ServeIndex: its 200 stands for handing the file to `http.ServeFile` (httpserver/router.go:69). That call can answer otherwise: 304 to a conditional GET whose If-Modified-Since is not older than the file, 206 or 416 to a Range request, and 404 or 403 when the file can no longer be opened. None of these answers is modelled.
- `serveIndex` probing of candidate files, `filepath.Abs` and `http.ServeFile` are reduced to a flag saying whether an index file was found. The `filepath.Abs` failure branch is not modelled.
- Logging and the creation timestamp: log calls are omitted, and the timestamp is an opaque integer field.
- `NewHandlers`, `NewRouter`, `NewSubscriber`, the programs under `cmd/` and the config package only wire components together or hold constants.
