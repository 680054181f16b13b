/** `summarizeCustomers`: number of orders and spend per customer key. */
module Customers {
  import opened Wrappers
  import opened Dict
  import opened Orders

  /** The record `{ ordersCount, totalSpent }` kept per customer. */
  datatype CustomerRecord = CustomerRecord(ordersCount: nat, totalSpent: int)

  /** The key that collects the orders without a usable billing email. */
  const Unknown: string := "unknown"

  /** The order carries a billing email that JavaScript treats as truthy (a non-empty string). */
  predicate HasEmail(order: Order)
  {
    order.billing.Some? && order.billing.value.email.Some? && |order.billing.value.email.value| > 0
  }

  /** `order.billing?.email || 'unknown'`. */
  function CustomerKey(order: Order): (key: string)
    ensures |key| > 0
    ensures HasEmail(order) ==> key == order.billing.value.email.value
    ensures !HasEmail(order) ==> key == Unknown
  {
    match order.billing
    case Some(Billing(Some(email))) => if email == "" then Unknown else email
    case _ => Unknown
  }

  /** The loop body for one order: create the record if absent, then count the order and add its amount. */
  function RecordOrder(customers: Dict<CustomerRecord>, order: Order): (r: Dict<CustomerRecord>)
    ensures var key := CustomerKey(order);
            var before := if key in customers.values then customers.values[key] else CustomerRecord(0, 0);
            key in r.values && r.values[key] == CustomerRecord(before.ordersCount + 1, before.totalSpent + Amount(order))
    ensures r.values - {CustomerKey(order)} == customers.values - {CustomerKey(order)}
  {
    var key := CustomerKey(order);
    var record := if key in customers.values then customers.values[key] else CustomerRecord(0, 0);
    customers.Put(key, CustomerRecord(record.ordersCount + 1, record.totalSpent + Amount(order)))
  }

  /** What `summarizeCustomers` returns: the loop body applied to every order, first to last. */
  function CustomerStats(orders: seq<Order>): (r: Dict<CustomerRecord>)
    ensures |orders| > 0 ==> CustomerKey(orders[|orders| - 1]) in r.values
  {
    if orders == [] then Empty()
    else RecordOrder(CustomerStats(orders[..|orders| - 1]), orders[|orders| - 1])
  }

  // ---------------------------------------------------------------------------
  // Reference definitions

  /** The number of orders that resolve to `key`. */
  function OrdersOf(orders: seq<Order>, key: string): nat
  {
    if orders == [] then 0
    else OrdersOf(orders[..|orders| - 1], key) + (if CustomerKey(orders[|orders| - 1]) == key then 1 else 0)
  }

  /** The sum of the amounts of the orders that resolve to `key`. */
  function SpentBy(orders: seq<Order>, key: string): int
  {
    if orders == [] then 0
    else SpentBy(orders[..|orders| - 1], key) + (if CustomerKey(orders[|orders| - 1]) == key then Amount(orders[|orders| - 1]) else 0)
  }

  /** Some order resolves to `key`. */
  predicate Ordered(orders: seq<Order>, key: string)
  {
    exists i :: 0 <= i < |orders| && CustomerKey(orders[i]) == key
  }

  /** The `ordersCount` stored at `key`, 0 when there is none. */
  function CountAt(values: map<string, CustomerRecord>, key: string): nat
  {
    if key in values then values[key].ordersCount else 0
  }

  /** The sum of `ordersCount` over the listed keys. */
  function SumOver(keys: seq<string>, values: map<string, CustomerRecord>): int
  {
    if keys == [] then 0
    else SumOver(keys[..|keys| - 1], values) + CountAt(values, keys[|keys| - 1])
  }

  /** The sum of `ordersCount` over all entries of the customer dictionary. */
  function SumCounts(customers: Dict<CustomerRecord>): int
  {
    SumOver(customers.keys, customers.values)
  }

  // ---------------------------------------------------------------------------
  // Lemmas

  /** The customer dictionary is well formed: each key listed once, and exactly the listed keys hold a record. */
  lemma {:induction false} CustomerStatsValid(orders: seq<Order>)
    ensures CustomerStats(orders).Valid()
  {
    if orders != [] {
      var before := CustomerStats(orders[..|orders| - 1]);
      var order := orders[|orders| - 1];
      var key := CustomerKey(order);
      var record := if key in before.values then before.values[key] else CustomerRecord(0, 0);
      CustomerStatsValid(orders[..|orders| - 1]);
      PutValid(before, key, CustomerRecord(record.ordersCount + 1, record.totalSpent + Amount(order)));
    }
  }

  lemma OrderedFront(orders: seq<Order>, key: string)
    requires orders != []
    ensures Ordered(orders, key) <==>
            Ordered(orders[..|orders| - 1], key) || CustomerKey(orders[|orders| - 1]) == key
  {
  }

  lemma {:induction false} NoOrdersNoTotals(orders: seq<Order>, key: string)
    requires !Ordered(orders, key)
    ensures OrdersOf(orders, key) == 0 && SpentBy(orders, key) == 0
  {
    if orders != [] {
      OrderedFront(orders, key);
      NoOrdersNoTotals(orders[..|orders| - 1], key);
    }
  }

  /**
   * An entry exists exactly for the keys some order resolves to, and it
   * holds the number of those orders and the sum of their amounts.
   */
  lemma {:induction false} CustomerStatsAreCounts(orders: seq<Order>, key: string)
    ensures key in CustomerStats(orders).values <==> Ordered(orders, key)
    ensures key in CustomerStats(orders).values ==>
              CustomerStats(orders).values[key] == CustomerRecord(OrdersOf(orders, key), SpentBy(orders, key))
  {
    if orders != [] {
      var front := orders[..|orders| - 1];
      CustomerStatsAreCounts(front, key);
      OrderedFront(orders, key);
      if !Ordered(front, key) {
        NoOrdersNoTotals(front, key);
      }
    }
  }

  /** An entry is created only just before it is incremented, so every count is at least 1. */
  lemma {:induction false} CountsPositive(orders: seq<Order>, key: string)
    requires key in CustomerStats(orders).values
    ensures CustomerStats(orders).values[key].ordersCount >= 1
  {
    var front := orders[..|orders| - 1];
    if key in CustomerStats(front).values {
      CountsPositive(front, key);
    }
  }

  lemma {:induction false} SumOverFrame(keys: seq<string>, values: map<string, CustomerRecord>, k: string, v: CustomerRecord)
    requires k !in keys
    ensures SumOver(keys, values[k := v]) == SumOver(keys, values)
  {
    if keys != [] {
      SumOverFrame(keys[..|keys| - 1], values, k, v);
    }
  }

  lemma {:induction false} SumOverUpdate(keys: seq<string>, values: map<string, CustomerRecord>, k: string, v: CustomerRecord)
    requires Distinct(keys) && k in keys
    ensures SumOver(keys, values[k := v]) == SumOver(keys, values) - CountAt(values, k) + v.ordersCount
  {
    var front := keys[..|keys| - 1];
    if keys[|keys| - 1] == k {
      assert k !in front;
      SumOverFrame(front, values, k, v);
    } else {
      assert k in front by {
        var i :| 0 <= i < |keys| && keys[i] == k;
        assert front[i] == k;
      }
      SumOverUpdate(front, values, k, v);
    }
  }

  lemma SumCountsPut(customers: Dict<CustomerRecord>, k: string, v: CustomerRecord)
    requires customers.Valid()
    ensures SumCounts(customers.Put(k, v)) == SumCounts(customers) + v.ordersCount - CountAt(customers.values, k)
  {
    if k in customers.values {
      SumOverUpdate(customers.keys, customers.values, k, v);
    } else {
      var keys := customers.keys + [k];
      assert keys[..|keys| - 1] == customers.keys;
      SumOverFrame(customers.keys, customers.values, k, v);
    }
  }

  /** Every order is counted exactly once: the counts add up to the number of orders. */
  lemma {:induction false} CountsSumToOrders(orders: seq<Order>)
    ensures SumCounts(CustomerStats(orders)) == |orders|
  {
    if orders != [] {
      var front := orders[..|orders| - 1];
      var order := orders[|orders| - 1];
      CountsSumToOrders(front);
      CustomerStatsValid(front);
      SumCountsRecordOrder(CustomerStats(front), order);
    }
  }

  /** One loop iteration adds exactly one to the sum of the counts. */
  lemma SumCountsRecordOrder(customers: Dict<CustomerRecord>, order: Order)
    requires customers.Valid()
    ensures SumCounts(RecordOrder(customers, order)) == SumCounts(customers) + 1
  {
    var key := CustomerKey(order);
    var record := if key in customers.values then customers.values[key] else CustomerRecord(0, 0);
    var updated := CustomerRecord(record.ordersCount + 1, record.totalSpent + Amount(order));
    SumCountsPut(customers, key, updated);
  }

  /**
   * The three statements of the loop body (create the record when the key is
   * new, increment `ordersCount`, add to `totalSpent`) together are `RecordOrder`.
   */
  lemma RecordOrderSteps(customers: Dict<CustomerRecord>, order: Order, created: Dict<CustomerRecord>,
                         counted: Dict<CustomerRecord>, spent: Dict<CustomerRecord>)
    requires var key := CustomerKey(order);
             && created == (if key !in customers.values then customers.Put(key, CustomerRecord(0, 0)) else customers)
             && key in created.values
             && counted == created.Put(key, created.values[key].(ordersCount := created.values[key].ordersCount + 1))
             && key in counted.values
             && spent == counted.Put(key, counted.values[key].(totalSpent := counted.values[key].totalSpent + Amount(order)))
    ensures spent == RecordOrder(customers, order)
  {
  }

  /**
   * Two orders billed to x@y.com (totals 1050 and 500) and one without
   * billing (total 200) give two customers, in first-order order.
   */
  lemma ExampleThreeOrders()
    ensures CustomerStats([Order(Some(Billing(Some("x@y.com"))), Some(1050), Some([])),
                           Order(Some(Billing(Some("x@y.com"))), Some(500), Some([])),
                           Order(None, Some(200), Some([]))])
            == Dict(["x@y.com", Unknown],
                    map["x@y.com" := CustomerRecord(2, 1550), Unknown := CustomerRecord(1, 200)])
  {
    var a := Order(Some(Billing(Some("x@y.com"))), Some(1050), Some([]));
    var b := Order(Some(Billing(Some("x@y.com"))), Some(500), Some([]));
    var c := Order(None, Some(200), Some([]));
    var orders := [a, b, c];
    assert orders[..2] == [a, b];
    assert [a, b][..1] == [a];
    assert [a][..0] == [];
    assert CustomerStats([a]) == Dict(["x@y.com"], map["x@y.com" := CustomerRecord(1, 1050)]);
    assert CustomerStats([a, b]) == Dict(["x@y.com"], map["x@y.com" := CustomerRecord(2, 1550)]);
  }

  lemma CustomerStatsStep(orders: seq<Order>, i: nat)
    requires i < |orders|
    ensures CustomerStats(orders[..i + 1]) == RecordOrder(CustomerStats(orders[..i]), orders[i])
  {
    assert orders[..i + 1][..i] == orders[..i];
  }

  // ---------------------------------------------------------------------------
  // The imperative pass

  /**
   * `summarizeCustomers(orders)`: one loop that resolves each order's key,
   * creates `{ ordersCount: 0, totalSpent: 0 }` when the key is new, and then
   * increments the count and adds the amount in place.
   */
  method SummarizeCustomers(orders: seq<Order>) returns (customers: Dict<CustomerRecord>)
    ensures customers == CustomerStats(orders)
  {
    customers := Empty();
    var i := 0;
    while i < |orders|
      invariant 0 <= i <= |orders|
      invariant customers == CustomerStats(orders[..i])
    {
      CustomerStatsStep(orders, i);
      customers := AddCustomerOrder(customers, orders[i]);
      i := i + 1;
    }
    assert orders[..i] == orders;
  }

  /** The body of the `summarizeCustomers` loop for one order, as three updates of the entry. */
  method AddCustomerOrder(customers: Dict<CustomerRecord>, order: Order) returns (updated: Dict<CustomerRecord>)
    ensures updated == RecordOrder(customers, order)
  {
    updated := customers;
    var email := CustomerKey(order);
    if email !in updated.values {
      updated := updated.Put(email, CustomerRecord(0, 0));
    }
    ghost var created := updated;
    var record := updated.values[email];
    updated := updated.Put(email, record.(ordersCount := record.ordersCount + 1));
    ghost var counted := updated;
    record := updated.values[email];
    updated := updated.Put(email, record.(totalSpent := record.totalSpent + Amount(order)));
    RecordOrderSteps(customers, order, created, counted, updated);
  }
}
