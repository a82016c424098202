/**
 * Ingestion from the message stream: each decoded message is validated and only a
 * valid order is handed to the service for saving.
 */
module Nats {
  import opened Wrappers
  import opened Orders
  import opened Repository
  import opened Service

  /** The reasons `validateOrder` gives, one per check, in the order they are made. */
  datatype ValidationError =
    | MissingOrderUID
    | MissingTrackNumber
    | MissingEntry
    | MissingTransaction
    | TransactionMismatch

  /** Why a message was not ingested. */
  datatype IngestError =
    | Undecodable(reason: string)        // the payload is not an order
    | Invalid(violation: ValidationError)
    | SaveFailed(cause: StoreError)

  /**
   * Checks the required fields one after another; the first failing check decides
   * the error. An order passes exactly when its UID, track number and entry are
   * non-empty and its payment transaction is its own UID (the separate check for an
   * empty transaction can then never be the one that lets an order through).
   */
  function ValidateOrder(order: Order): (r: Outcome<ValidationError>)
    ensures r.Pass? <==>
      order.orderUID != "" && order.trackNumber != "" && order.entry != "" &&
      order.payment.transaction == order.orderUID
    ensures order.orderUID == "" ==> r == Fail(MissingOrderUID)
    ensures r == Fail(MissingTrackNumber) <==> order.orderUID != "" && order.trackNumber == ""
    ensures r == Fail(MissingEntry) <==>
      order.orderUID != "" && order.trackNumber != "" && order.entry == ""
    ensures r == Fail(MissingTransaction) <==>
      order.orderUID != "" && order.trackNumber != "" && order.entry != "" &&
      order.payment.transaction == ""
    ensures r == Fail(TransactionMismatch) <==>
      order.trackNumber != "" && order.entry != "" && order.payment.transaction != "" &&
      order.orderUID != "" && order.payment.transaction != order.orderUID
  {
    if order.orderUID == "" then Fail(MissingOrderUID)
    else if order.trackNumber == "" then Fail(MissingTrackNumber)
    else if order.entry == "" then Fail(MissingEntry)
    else if order.payment.transaction == "" then Fail(MissingTransaction)
    else if order.payment.transaction != order.orderUID then Fail(TransactionMismatch)
    else Pass
  }

  /** A valid order is never turned away by the store for its payment key. */
  lemma ValidOrderSaves(rows: map<string, Order>, order: Order)
    requires ValidateOrder(order).Pass?
    ensures SaveOutcome(rows, order, None, None).Pass? <==> order.orderUID !in rows
  {
  }

  /**
   * `processMessage`: decode, validate, then save through the service. A message
   * that does not decode or validate never reaches the service.
   */
  method ProcessMessage(service: OrderService, decoded: Result<Order, string>,
                        checkFault: Option<string>, writeFault: Option<string>)
    returns (err: Outcome<IngestError>)
    requires service.Valid()
    modifies service.repo, service.cache
    ensures service.Valid()
    ensures decoded.Err? ==> err == Fail(Undecodable(decoded.error))
    ensures decoded.Ok? && ValidateOrder(decoded.value).Fail? ==>
      err == Fail(Invalid(ValidateOrder(decoded.value).error))
    ensures (decoded.Err? || ValidateOrder(decoded.value).Fail?) ==>
      unchanged(service.repo, service.cache)
    ensures decoded.Ok? && ValidateOrder(decoded.value).Pass? ==>
      var saved := SaveOutcome(old(service.repo.rows), decoded.value, checkFault, writeFault);
      && err == (if saved.Pass? then Pass else Fail(SaveFailed(saved.error)))
      && service.cache.data ==
         (if saved.Pass? then old(service.cache.data)[decoded.value.orderUID := decoded.value]
          else old(service.cache.data))
      && service.repo.rows ==
         (if saved.Pass? then old(service.repo.rows)[decoded.value.orderUID := decoded.value]
          else old(service.repo.rows))
    ensures err.Pass? ==> decoded.Ok? && ValidateOrder(decoded.value).Pass?
  {
    if decoded.Err? {
      return Fail(Undecodable(decoded.error));
    }
    var order := decoded.value;
    var invalid := ValidateOrder(order);
    if invalid.Fail? {
      return Fail(Invalid(invalid.error));
    }
    var saved := service.SaveOrder(order, checkFault, writeFault);
    if saved.Fail? {
      return Fail(SaveFailed(saved.error));
    }
    err := Pass;
  }
}
