# Order aggregation of the WooCommerce insight demo, in Dafny

The demo fetches recent orders from a WooCommerce store, folds them into two
dictionaries and sends a rendered product list to a language model. This
project models the part of `index.js` that is plain computation:

- **`summarizeProducts`**: nested loops over orders and their line items that
  add each item's quantity to `stats[item.name]`. When an order's
  `line_items` cannot be iterated, the loop throws. The `catch` then returns
  `{}` and drops everything gathered so far.
- **`summarizeCustomers`**: one loop that resolves each order's customer key
  (`order.billing?.email || 'unknown'`). It creates `{ordersCount: 0,
  totalSpent: 0}` for a new key, then increments the count and adds the
  order's total.
- **the product list** inside `generateInsights`: one
  `"name: qty pwliseis"` line per entry of the product dictionary, joined
  with `'\n'`.
- **the runner's control flow**: a failed fetch ends the run, an absent or
  empty order list stops with a warning, and otherwise both aggregations run
  and the product list is rendered.

Layout, one module per file:

- `dict.dfy` (`Dict`): a JavaScript plain object used as a dictionary. It
  holds its own keys in insertion order (the order `Object.entries` reports
  them in) and a map from key to value. `Put` is `obj[k] = v`.
- `orders.dfy` (`Orders`): the order record. `billing` and `email` are
  optional. `total` is an integer amount in minor units. `lineItems` is None
  when `line_items` is missing or not iterable.
- `products.dfy` (`Products`): the specification `ProductStats` is a
  recursive fold in loop order. Beside it are reference definitions
  (`OrdersQuantityOf`, `Sold`), lemmas tying the fold to them, and the
  imperative `SummarizeProducts` with its inner loop `AddOrderItems`, both
  proved equal to the fold.
- `customers.dfy` (`Customers`): the same structure for `CustomerStats`,
  with the reference counts `OrdersOf` and `SpentBy` and the imperative
  `SummarizeCustomers`.
- `render.dfy` (`Render`): decimal rendering of a quantity, `join`, `split`
  and the product list.
- `runner.dfy` (`Runner`): the outcome of one run, for a given fetch result.

In `index.js`, an order whose `line_items` is missing makes the inner
`for...of` throw (index.js:41), and the `catch` then returns `{}` for the
whole batch (index.js:46-48). A missing `quantity` makes
`(stats[item.name] || 0) + item.quantity` evaluate to `NaN` (index.js:42).
The model follows this code: a missing `line_items` empties the result; quantities
are natural numbers, so the `NaN` case does not arise (see ## Left out). An order whose billing email is literally
`"unknown"` shares its entry with the orders that have no email, as it does
in the code.

## Model

| member | source | states |
|---|---|---|
| Dict.Put | index.js:42 | `obj[k] = v`: afterwards `k` holds `v`; an existing key keeps its place in the key list and a new key is appended at its end; every other key keeps its presence and its value (line 42, and the record writes at lines 63-66) |
| Dict.Empty | index.js:39 | the object literal `{}` (lines 39, 48 and 59): no keys, no values, and well formed |
| Dict.Total | index.js:42 | `stats[item.name]` with the fallback to 0: the stored total, or 0 for an absent name, so a positive total is always a stored one |
| Orders.Amount | index.js:66 | defines `order.total` with the fallback to 0, in integer minor units; what these amounts add up to per customer is stated by `CustomerStatsAreCounts` through `SpentBy` |
| Products.AddItem | index.js:42 | the loop body: afterwards `item.name` is a key and its total has grown by exactly `item.quantity` (from 0 when it was absent); every other name keeps its presence and its total |
| Products.ProductStats | index.js:37-50 | the value `summarizeProducts` returns (the fold of the loop body, or `{}` after the catch); a non-empty result implies every order's `line_items` was iterable; its meaning is given by `ProductStatsAreSums` and `EmptyStatsIff` |
| Customers.RecordOrder | index.js:61-66 | one loop iteration: afterwards the order's key holds its previous record, or `(0, 0)` for a new key, with `ordersCount` one higher and `Amount(order)` added to `totalSpent`; every other key keeps its presence and its record |
| Customers.CustomerStats | index.js:57-73 | the value `summarizeCustomers` returns (the fold of the loop body); the last order's key always has an entry; its meaning is given by `CustomerStatsAreCounts` and `CountsSumToOrders` |
| Render.Line | index.js:85 | `${name}: ${qty} pwliseis`: the line starts with `name + ": "`, ends with `" pwliseis"`, and the digits between read back as `qty` |
| Render.Join | index.js:86 | `.join('\n')`: the parts with the separator between neighbours, `""` for none; `SplitJoin` proves it can be undone |
| Render.ProductList | index.js:84-86 | the whole `productList` expression; `RenderedLines` and `ProductListEmptyIff` state its shape |
| Runner.Run | index.js:116-140 | one run for a given fetch result: abort, no-orders warning, or the report with both aggregates and the product list; `RunOutcome` states its cases |
| Dict.PutValid | index.js:42 | assigning `obj[k] = v` keeps every key listed once and the listed keys equal to the keys holding a value, and `k` is then a key |
| Products.AllLineItems | index.js:40-41 | the walk over all line items fails (None) exactly when some order's `line_items` cannot be iterated |
| Products.TallyValid | index.js:39-44 | the product totals form a well-formed dictionary: each name appears once among the keys, and exactly those names hold a total |
| Products.TallyIsSum | index.js:39-44 | after the loop, a name is a key exactly when some item has that name, and its total is the sum of that name's quantities |
| Products.ProductStatsAreSums | index.js:37-50 | for well-formed orders, each name's total is the sum of `quantity` over its line items in all orders, and the keys are exactly the names sold at least once |
| Products.MalformedDiscardsAll | index.js:38-49 | one order with non-iterable `line_items` makes the result `{}`, even when earlier orders had items |
| Products.EmptyStatsIff | index.js:38-49 | the result has no keys exactly when some order is malformed or no order has any line item (so also for an empty order list) |
| Products.ProductStatsConcat | index.js:40-44 | summarizing `a + b` gives at every name the total over `a` plus the total over `b`; a malformed order in either part gives `{}` |
| Products.ExampleTwoOrders | index.js:37-50 | orders with items A×2 and A×3, B×1 give `{A: 5, B: 1}` with keys in first-sale order |
| Products.AddOrderItems | index.js:41-43 | the inner loop over one order's line items leaves the dictionary equal to the fold of the loop body over those items |
| Products.SummarizeProducts | index.js:37-50 | the nested loops, including the throw-and-catch for a non-iterable `line_items`, return exactly `ProductStats(orders)` |
| Customers.CustomerKey | index.js:61 | the key is the billing email when billing is present and the email is present and non-empty, otherwise `"unknown"`; it is never empty |
| Customers.CustomerStatsValid | index.js:59-67 | the customer dictionary is well formed: each key appears once, and exactly those keys hold a record |
| Customers.CustomerStatsAreCounts | index.js:60-67 | a key has an entry exactly when some order resolves to it, and the entry is the number of those orders and the sum of their amounts |
| Customers.CountsPositive | index.js:62-65 | every entry has `ordersCount >= 1`, since a record is created only just before it is incremented |
| Customers.CountsSumToOrders | index.js:60-66 | the `ordersCount` values of all entries add up to the number of orders |
| Customers.SumCountsRecordOrder | index.js:62-65 | one loop iteration raises the sum of all `ordersCount` values by exactly one |
| Customers.RecordOrderSteps | index.js:61-66 | creating the record for a new key, then incrementing the count, then adding the amount, has the same effect as one step of the specification fold |
| Customers.ExampleThreeOrders | index.js:57-73 | two orders billed to x@y.com (1050 and 500) and one without billing (200) give `{x@y.com: (2, 1550), unknown: (1, 200)}` |
| Customers.AddCustomerOrder | index.js:61-66 | the three in-place statements of one iteration (create the record for a new key, increment the count, add the amount) leave the dictionary equal to `RecordOrder` |
| Customers.SummarizeCustomers | index.js:57-73 | the loop that updates records in place returns exactly `CustomerStats(orders)` |
| Render.DecimalString | index.js:85 | `${qty}` is a non-empty string of decimal digits without a leading zero |
| Render.DecimalRoundTrip | index.js:85 | the digits written for a quantity read back as that quantity |
| Render.EntryLines | index.js:84-85 | mapping the entries gives one line per key, in key order, and line `i` is `key + ": " + qty + " pwliseis"` |
| Render.SplitJoin | index.js:86 | splitting `join(sep)` at `sep` gives the parts back when no part contains `sep` |
| Render.RenderedLines | index.js:84-86 | when no product name contains a newline, the rendered list has exactly one line per entry, in key order, each naming the entry and its quantity |
| Render.ProductListEmptyIff | index.js:84-86 | the rendered list is the empty string exactly when the dictionary has no entries |
| Runner.RunOutcome | index.js:116-140 | a failed fetch aborts before any aggregation; an absent or empty order list stops with the warning; otherwise the fetch succeeded with a list of orders, and the report counts exactly those orders, holds their `ProductStats` and `CustomerStats`, its customer counts add up to the order count, each customer has at least one order, and the product list is empty only when there are no product entries |
| Runner.RenderedTotals | index.js:84-86 | for well-formed orders whose product names have no newline, line `i` of the list sent to the model names the `i`-th product and its total over all orders |

## Left out

- `fetchOrders` (index.js:12-30) is left out. It does an HTTP GET with Basic Auth, reads environment variables and uses `Date.now()`. Its result enters the model as the `Runner.Fetch` value.
- The OpenAI client, the prompt template, the completion request, `trim()` and the fallback text of `generateInsights` (index.js:82, 88-106) are a foreign library and the network. Only the product list that fills the template is modelled.
- Console logging and error reporting (`console.log`, `console.warn`, `console.error`) are output only.
- Customers.CustomerStatsAreCounts: `totalSpent` is summed as integer minor units. The source applies `parseFloat` to strings and adds floating-point numbers, and an unparseable total gives `NaN`, which the model does not have. An absent total adds 0, as `order.total || 0` does.
- Products.ProductStatsAreSums: quantities are natural numbers. In the source, a missing or non-numeric `quantity` gives `NaN` or string concatenation.
- Render.DecimalString: JavaScript writes numbers of 10^21 and above in exponent notation, and loses integer precision above 2^53. The model writes every natural number in plain decimal.
- `Object.entries` lists integer-like keys (such as a product named `"42"`) first, in ascending order. The model lists all keys in insertion order.
- The source's dictionaries are objects that inherit from `Object.prototype`, so names such as `"constructor"` or `"__proto__"` behave differently there from other keys. The model's dictionary starts truly empty.
- A `null` order, a `null` line item, a string `line_items` or an `orders` value that is not an array are not modelled. So the `catch` of `summarizeCustomers` (index.js:69-72) can never be reached in the model, and `summarizeProducts` fails only on a missing or non-iterable `line_items`.
- An email that is truthy but not a string is not modelled: `email` is an optional string.
- Determinism of the aggregators (same input, same output) holds by construction, because they are functions. No lemma states it.
