/**
 * The HTTP handlers, reduced to the status each one answers with. Header writes and
 * the JSON encoding of bodies are not modelled; a failing encoder is an input.
 */
module Handlers {
  import opened Wrappers
  import opened Orders
  import opened Repository
  import opened Service

  const StatusOK: int := 200
  const StatusBadRequest: int := 400
  const StatusNotFound: int := 404
  const StatusMethodNotAllowed: int := 405
  const StatusInternalServerError: int := 500

  /** The length of the route prefix "/order/" that the handler strips off. */
  const PrefixLength: nat := 7

  /** What `GetOrderHandler` decides before asking the service: an answer, or a lookup. */
  datatype Step = Respond(status: int) | Lookup(orderUID: string)

  /**
   * OPTIONS is answered 200 before the method is checked; any other method but GET
   * is 405; a path of at most 7 bytes leaves no order id and is 400; otherwise the id
   * is everything after the first 7 bytes, whatever those bytes are.
   */
  function OrderRequest(verb: string, path: string): (s: Step)
    ensures verb == "OPTIONS" ==> s == Respond(StatusOK)
    ensures verb != "OPTIONS" && verb != "GET" ==> s == Respond(StatusMethodNotAllowed)
    ensures verb == "GET" && |path| <= PrefixLength ==> s == Respond(StatusBadRequest)
    ensures verb == "GET" && |path| > PrefixLength ==>
      s.Lookup? && s.orderUID != "" && path == path[..PrefixLength] + s.orderUID
  {
    if verb == "OPTIONS" then Respond(StatusOK)
    else if verb != "GET" then Respond(StatusMethodNotAllowed)
    else if |path| < PrefixLength then Respond(StatusBadRequest)
    else
      var orderUID := path[PrefixLength..];
      if orderUID == "" then Respond(StatusBadRequest) else Lookup(orderUID)
  }

  /** A GET of any seven bytes followed by a non-empty id looks that id up. */
  lemma LooksUpSuffix(prefix: string, id: string)
    requires |prefix| == PrefixLength && id != ""
    ensures OrderRequest("GET", prefix + id) == Lookup(id)
  {
    assert (prefix + id)[PrefixLength..] == id;
  }

  /** Every service error becomes 404, whatever its cause; a failed encoding is 500. */
  function LookupStatus(answer: Result<Order, StoreError>, encodeFails: bool): (status: int)
    ensures status == StatusNotFound <==> answer.Err?
    ensures status == StatusOK <==> answer.Ok? && !encodeFails
    ensures answer.Ok? && encodeFails ==> status == StatusInternalServerError
  {
    if answer.Err? then StatusNotFound
    else if encodeFails then StatusInternalServerError
    else StatusOK
  }

  /** `GetOrderHandler`: the status, and the order sent back when there is one. */
  method GetOrderHandler(service: OrderService, verb: string, path: string,
                         fault: Option<string>, encodeFails: bool)
    returns (status: int, body: Option<Order>)
    requires service.Valid()
    modifies service.repo, service.cache
    ensures service.Valid() && service.repo.rows == old(service.repo.rows)
    ensures OrderRequest(verb, path).Respond? ==>
      && status == OrderRequest(verb, path).status && body == None
      && unchanged(service.repo, service.cache)
    ensures OrderRequest(verb, path).Lookup? ==>
      var answer := Served(old(service.cache.data), old(service.repo.rows),
                           OrderRequest(verb, path).orderUID, fault);
      && status == LookupStatus(answer, encodeFails)
      && body == (if status == StatusOK then Some(answer.value) else None)
    ensures OrderRequest(verb, path).Lookup? ==>
      var id := OrderRequest(verb, path).orderUID;
      var answer := Served(old(service.cache.data), old(service.repo.rows), id, fault);
      && service.cache.data ==
         (if answer.Ok? then old(service.cache.data)[id := answer.value] else old(service.cache.data))
      && service.repo.calls ==
         (if id in old(service.cache.data) then old(service.repo.calls) else old(service.repo.calls) + 1)
    ensures status != StatusBadRequest <==> verb != "GET" || |path| > PrefixLength
  {
    var step := OrderRequest(verb, path);
    if step.Respond? {
      return step.status, None;
    }
    var answer := service.GetOrder(step.orderUID, fault);
    status := LookupStatus(answer, encodeFails);
    body := if status == StatusOK then Some(answer.value) else None;
  }

  /** `HealthCheckHandler`: 200 with the current number of cached orders. */
  method HealthCheckHandler(service: OrderService) returns (status: int, cacheSize: int)
    ensures status == StatusOK
    ensures cacheSize == |service.cache.data|
  {
    cacheSize := service.GetCacheSize();
    status := StatusOK;
  }
}
