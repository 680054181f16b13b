/**
 * The top-level runner: fetch, stop when nothing came back, otherwise run
 * both aggregations and render the product list for the insight prompt.
 * The fetch and the language-model call are outside the model; the fetch
 * arrives as a value.
 */
module Runner {
  import opened Wrappers
  import opened Dict
  import opened Orders
  import opened Products
  import opened Customers
  import opened Render

  /** What `await fetchOrders()` produced: it threw, or it returned a body (None for null/undefined). */
  datatype Fetch = FetchFailed | Fetched(body: Option<seq<Order>>)

  /** How one run ends, with what it reports. */
  datatype Outcome =
    | Aborted
    | NoOrders
    | Completed(ordersCount: nat, products: Dict<nat>, customers: Dict<CustomerRecord>, productList: string)

  /** One run of the runner, given the outcome of the fetch. */
  function Run(fetch: Fetch): Outcome
  {
    match fetch
    case FetchFailed => Aborted
    case Fetched(None) => NoOrders
    case Fetched(Some(orders)) =>
      if |orders| == 0 then NoOrders
      else
        var products := ProductStats(orders);
        Completed(|orders|, products, CustomerStats(orders), ProductList(products))
  }

  /**
   * A failed fetch aborts before any aggregation; an absent or empty order
   * list stops with the no-orders warning; only a non-empty list reaches
   * the aggregators, and then the report is consistent: the customer counts
   * add up to the reported number of orders, every customer has at least one
   * order, and the product list is empty only when no product was summarized.
   */
  lemma RunOutcome(fetch: Fetch)
    ensures Run(fetch).Aborted? <==> fetch.FetchFailed?
    ensures Run(fetch).NoOrders? <==> fetch.Fetched? && (fetch.body.None? || |fetch.body.value| == 0)
    ensures Run(fetch).Completed? ==>
              && fetch.Fetched? && fetch.body.Some?
              && Run(fetch).ordersCount == |fetch.body.value|
              && Run(fetch).products == ProductStats(fetch.body.value)
              && Run(fetch).customers == CustomerStats(fetch.body.value)
              && Run(fetch).ordersCount >= 1
              && SumCounts(Run(fetch).customers) == Run(fetch).ordersCount
              && (forall k :: k in Run(fetch).customers.values ==> Run(fetch).customers.values[k].ordersCount >= 1)
              && (Run(fetch).productList == "" <==> |Run(fetch).products.keys| == 0)
  {
    if fetch.Fetched? && fetch.body.Some? && |fetch.body.value| > 0 {
      var orders := fetch.body.value;
      CountsSumToOrders(orders);
      forall k | k in CustomerStats(orders).values ensures CustomerStats(orders).values[k].ordersCount >= 1 {
        CountsPositive(orders, k);
      }
      ProductListEmptyIff(ProductStats(orders));
    }
  }

  /**
   * For well-formed orders whose product names hold no newline, line `i` of
   * the rendered list names the `i`-th product and its total quantity over
   * all orders.
   */
  lemma RenderedTotals(orders: seq<Order>, i: nat)
    requires WellFormed(orders)
    requires i < |ProductStats(orders).keys|
    requires forall k :: k in ProductStats(orders).keys ==> '\n' !in k
    ensures var name := ProductStats(orders).keys[i];
            |Split(ProductList(ProductStats(orders)), '\n')| == |ProductStats(orders).keys|
            && Split(ProductList(ProductStats(orders)), '\n')[i]
               == name + ": " + DecimalString(OrdersQuantityOf(orders, name)) + " pwliseis"
  {
    var stats := ProductStats(orders);
    ProductStatsValid(orders);
    RenderedLines(stats);
    ProductStatsAreSums(orders, stats.keys[i]);
  }
}
