/** The order records returned by the store's orders endpoint, as far as index.js reads them. */
module Orders {
  import opened Wrappers

  /** One product/quantity pair of an order; `name` is the product's identity. */
  datatype LineItem = LineItem(name: string, quantity: nat)

  /** The billing block of an order; `email` is None when the field is absent or null. */
  datatype Billing = Billing(email: Option<string>)

  /**
   * An order. `billing` is None when the order has no billing block, `total`
   * is the order total in integer minor units (None when absent), and
   * `lineItems` is None when `line_items` is missing or cannot be iterated.
   */
  datatype Order = Order(billing: Option<Billing>, total: Option<int>, lineItems: Option<seq<LineItem>>)

  /** The amount an order adds to its customer's spend: `order.total || 0`. */
  function Amount(order: Order): int
  {
    match order.total
    case None => 0
    case Some(t) => t
  }
}
