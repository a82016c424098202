/**
 * The order record exchanged by every component. Only `orderUID`, `trackNumber`,
 * `entry` and `payment.transaction` are inspected by the modelled code; the other
 * fields are carried along unchanged.
 */
module Orders {

  datatype Delivery = Delivery(
    name: string, phone: string, zip: string, city: string,
    address: string, region: string, email: string)

  datatype Payment = Payment(
    transaction: string, requestID: string, currency: string, provider: string,
    amount: int, paymentDt: int, bank: string,
    deliveryCost: int, goodsTotal: int, customFee: int)

  datatype Item = Item(
    chrtID: int, trackNumber: string, price: int, rid: string, name: string,
    sale: int, size: string, totalPrice: int, nmID: int, brand: string, status: int)

  /** `dateCreated` stands for the creation timestamp, which no modelled code reads. */
  datatype Order = Order(
    orderUID: string, trackNumber: string, entry: string, locale: string,
    internalSignature: string, customerID: string, deliveryService: string,
    shardkey: string, smID: int, dateCreated: int, oofShard: string,
    delivery: Delivery, payment: Payment, items: seq<Item>)

  /** The keys of a list of orders. */
  function UIDs(orders: seq<Order>): set<string> {
    set i | 0 <= i < |orders| :: orders[i].orderUID
  }

  /** No two orders of the list share a key. */
  predicate DistinctUIDs(orders: seq<Order>) {
    forall i, j :: 0 <= i < j < |orders| ==> orders[i].orderUID != orders[j].orderUID
  }

  /** `orders` lists every entry of `m` exactly once, each under its own key. */
  predicate Enumerates(orders: seq<Order>, m: map<string, Order>) {
    && DistinctUIDs(orders)
    && UIDs(orders) == m.Keys
    && forall i :: 0 <= i < |orders| ==> orders[i].orderUID in m && m[orders[i].orderUID] == orders[i]
  }

  /** Every entry of `a` is also in `b`, with the same order. */
  predicate SubMap(a: map<string, Order>, b: map<string, Order>) {
    forall k :: k in a ==> k in b && a[k] == b[k]
  }

  /** Appending one order adds exactly its UID to the list's keys. */
  lemma UIDsAppend(orders: seq<Order>, o: Order)
    ensures UIDs(orders + [o]) == UIDs(orders) + {o.orderUID}
  {
    var s := orders + [o];
    forall k | k in UIDs(s) ensures k in UIDs(orders) + {o.orderUID} {
      var i :| 0 <= i < |s| && s[i].orderUID == k;
      if i < |orders| { assert s[i] == orders[i]; }
    }
    forall k | k in UIDs(orders) ensures k in UIDs(s) {
      var i :| 0 <= i < |orders| && orders[i].orderUID == k;
      assert s[i] == orders[i];
    }
    assert s[|orders|] == o;
  }
}
