/** The HTTP router: which handler a request path goes to. */
module Router {
  import opened Wrappers
  import opened Repository
  import opened Service
  import opened Handlers

  datatype Route = Index | Health | OrderLookup | Unknown

  /** The route prefix of order lookups. */
  const OrderPrefix: string := "/order/"

  /**
   * `ServeHTTP`'s switch: the exact paths "/" and "/health", then any path that is
   * longer than "/order/" and starts with it; everything else, "/order/" itself
   * included, is unknown. The first matching case wins.
   */
  function Dispatch(path: string): (r: Route)
    ensures r == Index <==> path == "/"
    ensures r == Health <==> path == "/health"
    ensures r == OrderLookup <==> |path| > |OrderPrefix| && path[..|OrderPrefix|] == OrderPrefix
    ensures r == Unknown <==>
      path != "/" && path != "/health" &&
      !(|path| > |OrderPrefix| && path[..|OrderPrefix|] == OrderPrefix)
  {
    if path == "/" then Index
    else if path == "/health" then Health
    else if |path| > |OrderPrefix| && path[..|OrderPrefix|] == OrderPrefix then OrderLookup
    else Unknown
  }

  /** "/order/" followed by an id reaches the order handler exactly when the id is non-empty. */
  lemma OrderPathRouted(id: string)
    ensures Dispatch(OrderPrefix + id) == OrderLookup <==> id != ""
  {
    assert (OrderPrefix + id)[..|OrderPrefix|] == OrderPrefix;
    if id == "" {
      assert OrderPrefix + id == OrderPrefix;
    }
  }

  /**
   * Every path routed to the order handler is "/order/" followed by a non-empty id,
   * and the handler looks up exactly that id: neither of its 400 answers can be
   * reached through the router.
   */
  lemma RoutedOrderHasId(verb: string, path: string)
    requires Dispatch(path) == OrderLookup
    ensures path == OrderPrefix + path[|OrderPrefix|..]
    ensures verb == "GET" ==> OrderRequest(verb, path) == Lookup(path[|OrderPrefix|..])
    ensures OrderRequest(verb, path) != Respond(StatusBadRequest)
  {
    assert path == path[..|OrderPrefix|] + path[|OrderPrefix|..];
  }

  /**
   * `serveIndex`: any method but GET is 405; a GET is 500 when none of the candidate
   * index files exists, and otherwise the file is handed to the file server, whose
   * answer is taken to be 200.
   */
  function ServeIndex(verb: string, indexFound: bool): (status: int)
    ensures status == StatusMethodNotAllowed <==> verb != "GET"
    ensures verb == "GET" ==> status == if indexFound then StatusOK else StatusInternalServerError
  {
    if verb != "GET" then StatusMethodNotAllowed
    else if !indexFound then StatusInternalServerError
    else StatusOK
  }

  /** `ServeHTTP`: dispatch on the path and answer with the chosen handler's status. */
  method ServeHTTP(service: OrderService, verb: string, path: string, indexFound: bool,
                   fault: Option<string>, encodeFails: bool)
    returns (status: int)
    requires service.Valid()
    modifies service.repo, service.cache
    ensures service.Valid() && service.repo.rows == old(service.repo.rows)
    ensures Dispatch(path) != OrderLookup ==> unchanged(service.repo, service.cache)
    ensures Dispatch(path) == Index ==> (status == StatusMethodNotAllowed <==> verb != "GET")
    ensures Dispatch(path) == Index && verb == "GET" ==>
      status == if indexFound then StatusOK else StatusInternalServerError
    ensures Dispatch(path) == Health ==> status == StatusOK
    ensures Dispatch(path) == Unknown ==> status == StatusNotFound
    ensures Dispatch(path) == OrderLookup ==> status != StatusBadRequest
    ensures Dispatch(path) == OrderLookup && verb == "GET" ==>
      var id := path[|OrderPrefix|..];
      var answer := Served(old(service.cache.data), old(service.repo.rows), id, fault);
      && status == LookupStatus(answer, encodeFails)
      && service.cache.data ==
         (if answer.Ok? then old(service.cache.data)[id := answer.value] else old(service.cache.data))
      && service.repo.calls ==
         (if id in old(service.cache.data) then old(service.repo.calls) else old(service.repo.calls) + 1)
    ensures Dispatch(path) == OrderLookup && verb == "OPTIONS" ==> status == StatusOK
    ensures Dispatch(path) == OrderLookup && verb != "OPTIONS" && verb != "GET" ==>
      status == StatusMethodNotAllowed
    ensures Dispatch(path) == OrderLookup && verb != "GET" ==> unchanged(service.repo, service.cache)
  {
    match Dispatch(path)
    case Index =>
      status := ServeIndex(verb, indexFound);
    case Health =>
      var cacheSize;
      status, cacheSize := HealthCheckHandler(service);
    case OrderLookup =>
      RoutedOrderHasId(verb, path);
      var body;
      status, body := GetOrderHandler(service, verb, path, fault, encodeFails);
    case Unknown =>
      status := StatusNotFound;
  }
}
