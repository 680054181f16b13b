/** `summarizeProducts`: total quantity sold per product name. */
module Products {
  import opened Wrappers
  import opened Dict
  import opened Orders

  /** Every order's `line_items` can be iterated. */
  predicate WellFormed(orders: seq<Order>)
  {
    forall i :: 0 <= i < |orders| ==> orders[i].lineItems.Some?
  }

  /**
   * The line items of all orders, in the order the nested loops visit them,
   * or None when the walk reaches an order whose `line_items` it cannot iterate.
   */
  function AllLineItems(orders: seq<Order>): (r: Option<seq<LineItem>>)
    ensures r.None? <==> !WellFormed(orders)
  {
    if orders == [] then Some([])
    else
      match (AllLineItems(orders[..|orders| - 1]), orders[|orders| - 1].lineItems)
      case (Some(front), Some(last)) => Some(front + last)
      case _ => None
  }

  /** The loop body: `stats[item.name] = (stats[item.name] || 0) + item.quantity`. */
  function AddItem(stats: Dict<nat>, item: LineItem): (r: Dict<nat>)
    ensures item.name in r.values
    ensures Total(r, item.name) == Total(stats, item.name) + item.quantity
    ensures r.values - {item.name} == stats.values - {item.name}
  {
    stats.Put(item.name, Total(stats, item.name) + item.quantity)
  }

  /** The totals after the loop body has run on every item, first to last. */
  function Tally(items: seq<LineItem>): Dict<nat>
  {
    if items == [] then Empty()
    else AddItem(Tally(items[..|items| - 1]), items[|items| - 1])
  }

  /** What `summarizeProducts` returns: the totals, or `{}` when the walk throws. */
  function ProductStats(orders: seq<Order>): (r: Dict<nat>)
    ensures |r.keys| > 0 ==> WellFormed(orders)
  {
    match AllLineItems(orders)
    case None => Empty()
    case Some(items) => Tally(items)
  }

  // ---------------------------------------------------------------------------
  // Reference definitions: the intended meaning, independent of the fold

  /** The sum of `quantity` over the items named `name`. */
  function QuantityOf(items: seq<LineItem>, name: string): nat
  {
    if items == [] then 0
    else QuantityOf(items[..|items| - 1], name)
         + (if items[|items| - 1].name == name then items[|items| - 1].quantity else 0)
  }

  /** The sum of `quantity` over every line item named `name` in every order. */
  function OrdersQuantityOf(orders: seq<Order>, name: string): nat
    requires WellFormed(orders)
  {
    if orders == [] then 0
    else OrdersQuantityOf(orders[..|orders| - 1], name) + QuantityOf(orders[|orders| - 1].lineItems.value, name)
  }

  /** Some line item of some order is named `name`. */
  predicate Sold(orders: seq<Order>, name: string)
    requires WellFormed(orders)
  {
    exists i, j :: 0 <= i < |orders| && 0 <= j < |orders[i].lineItems.value| && orders[i].lineItems.value[j].name == name
  }

  // ---------------------------------------------------------------------------
  // Lemmas

  /** The totals are a well-formed dictionary: each name listed once, and exactly the listed names hold a total. */
  lemma {:induction false} TallyValid(items: seq<LineItem>)
    ensures Tally(items).Valid()
  {
    if items != [] {
      var last := items[|items| - 1];
      var front := Tally(items[..|items| - 1]);
      TallyValid(items[..|items| - 1]);
      PutValid(front, last.name, Total(front, last.name) + last.quantity);
    }
  }

  lemma ProductStatsValid(orders: seq<Order>)
    ensures ProductStats(orders).Valid()
  {
    if AllLineItems(orders).Some? {
      TallyValid(AllLineItems(orders).value);
    }
  }

  lemma {:induction false} QuantityOfConcat(a: seq<LineItem>, b: seq<LineItem>, name: string)
    ensures QuantityOf(a + b, name) == QuantityOf(a, name) + QuantityOf(b, name)
    decreases |b|
  {
    if b == [] {
      assert a + b == a;
    } else {
      assert (a + b)[..|a + b| - 1] == a + b[..|b| - 1];
      QuantityOfConcat(a, b[..|b| - 1], name);
    }
  }

  /** The fold computes, for every name, the sum of its quantities, and holds exactly the names that occur. */
  lemma {:induction false} TallyIsSum(items: seq<LineItem>, name: string)
    ensures name in Tally(items).values <==> exists j :: 0 <= j < |items| && items[j].name == name
    ensures Total(Tally(items), name) == QuantityOf(items, name)
  {
    if items != [] {
      var front := items[..|items| - 1];
      var last := items[|items| - 1];
      TallyIsSum(front, name);
      assert Tally(items) == AddItem(Tally(front), last);
      if last.name != name {
        assert name in Tally(items).values <==> name in Tally(front).values;
        assert Total(Tally(items), name) == Total(Tally(front), name);
      }
      if name in Tally(items).values && last.name != name {
        var j :| 0 <= j < |front| && front[j].name == name;
        assert items[j].name == name;
      }
      if exists j :: 0 <= j < |items| && items[j].name == name {
        var j :| 0 <= j < |items| && items[j].name == name;
        if j < |front| { assert front[j].name == name; }
      }
    }
  }

  lemma WellFormedFront(orders: seq<Order>)
    requires orders != [] && WellFormed(orders)
    ensures WellFormed(orders[..|orders| - 1])
    ensures AllLineItems(orders).value
            == AllLineItems(orders[..|orders| - 1]).value + orders[|orders| - 1].lineItems.value
  {
  }

  lemma {:induction false} AllLineItemsSum(orders: seq<Order>, name: string)
    requires WellFormed(orders)
    ensures QuantityOf(AllLineItems(orders).value, name) == OrdersQuantityOf(orders, name)
  {
    if orders != [] {
      var front := orders[..|orders| - 1];
      WellFormedFront(orders);
      AllLineItemsSum(front, name);
      QuantityOfConcat(AllLineItems(front).value, orders[|orders| - 1].lineItems.value, name);
    }
  }

  lemma {:induction false} AllLineItemsNames(orders: seq<Order>, name: string)
    requires WellFormed(orders)
    ensures (exists j :: 0 <= j < |AllLineItems(orders).value| && AllLineItems(orders).value[j].name == name)
            <==> Sold(orders, name)
  {
    if orders != [] {
      var front := orders[..|orders| - 1];
      var last := orders[|orders| - 1].lineItems.value;
      WellFormedFront(orders);
      AllLineItemsNames(front, name);
      var f := AllLineItems(front).value;
      var all := f + last;
      if exists j :: 0 <= j < |all| && all[j].name == name {
        var j :| 0 <= j < |all| && all[j].name == name;
        if j < |f| {
          assert f[j].name == name;
          var i, k :| 0 <= i < |front| && 0 <= k < |front[i].lineItems.value| && front[i].lineItems.value[k].name == name;
          assert orders[i] == front[i];
        } else {
          assert last[j - |f|].name == name;
        }
      }
      if Sold(orders, name) {
        var i, k :| 0 <= i < |orders| && 0 <= k < |orders[i].lineItems.value| && orders[i].lineItems.value[k].name == name;
        if i < |front| {
          assert front[i] == orders[i];
          assert Sold(front, name);
          var j :| 0 <= j < |f| && f[j].name == name;
          assert all[j] == f[j];
        } else {
          assert all[|f| + k] == last[k];
        }
      }
    }
  }

  /**
   * For well-formed orders, the total of each name is the sum of the
   * quantities of its line items across all orders, and the keys are
   * exactly the names sold.
   */
  lemma ProductStatsAreSums(orders: seq<Order>, name: string)
    requires WellFormed(orders)
    ensures Total(ProductStats(orders), name) == OrdersQuantityOf(orders, name)
    ensures name in ProductStats(orders).keys <==> Sold(orders, name)
  {
    ProductStatsValid(orders);
    TallyIsSum(AllLineItems(orders).value, name);
    AllLineItemsSum(orders, name);
    AllLineItemsNames(orders, name);
  }

  /**
   * A single order whose `line_items` cannot be iterated empties the whole
   * result: the totals gathered from the orders before it are discarded.
   */
  lemma MalformedDiscardsAll(orders: seq<Order>, i: nat)
    requires i < |orders| && orders[i].lineItems.None?
    ensures ProductStats(orders) == Empty()
  {
  }

  /** The result is `{}` exactly when some order is malformed or no order has a line item. */
  lemma EmptyStatsIff(orders: seq<Order>)
    ensures ProductStats(orders).keys == [] <==>
            !WellFormed(orders) || forall i :: 0 <= i < |orders| ==> orders[i].lineItems.value == []
  {
    if WellFormed(orders) {
      var all := AllLineItems(orders).value;
      if ProductStats(orders).keys == [] {
        forall i | 0 <= i < |orders| ensures orders[i].lineItems.value == [] {
          if orders[i].lineItems.value != [] {
            var name := orders[i].lineItems.value[0].name;
            assert Sold(orders, name);
            ProductStatsAreSums(orders, name);
          }
        }
      }
      if forall i :: 0 <= i < |orders| ==> orders[i].lineItems.value == [] {
        if ProductStats(orders).keys != [] {
          var name := ProductStats(orders).keys[0];
          ProductStatsAreSums(orders, name);
          assert false;
        }
      }
    }
  }

  /**
   * The loop only accumulates: summarizing `a + b` gives at every name the
   * total over `a` plus the total over `b`, and a malformed order on either
   * side empties the result.
   */
  lemma ProductStatsConcat(a: seq<Order>, b: seq<Order>, name: string)
    ensures WellFormed(a) && WellFormed(b) ==>
              Total(ProductStats(a + b), name) == Total(ProductStats(a), name) + Total(ProductStats(b), name)
    ensures !WellFormed(a) || !WellFormed(b) ==> ProductStats(a + b) == Empty()
  {
    if WellFormed(a) && WellFormed(b) {
      assert WellFormed(a + b) by {
        forall i | 0 <= i < |a + b| ensures (a + b)[i].lineItems.Some? {
          if i < |a| { assert (a + b)[i] == a[i]; } else { assert (a + b)[i] == b[i - |a|]; }
        }
      }
      ProductStatsAreSums(a, name);
      ProductStatsAreSums(b, name);
      ProductStatsAreSums(a + b, name);
      OrdersQuantityOfConcat(a, b, name);
    } else if !WellFormed(a) {
      var i :| 0 <= i < |a| && a[i].lineItems.None?;
      assert (a + b)[i] == a[i];
      MalformedDiscardsAll(a + b, i);
    } else {
      var i :| 0 <= i < |b| && b[i].lineItems.None?;
      assert (a + b)[|a| + i] == b[i];
      MalformedDiscardsAll(a + b, |a| + i);
    }
  }

  lemma {:induction false} OrdersQuantityOfConcat(a: seq<Order>, b: seq<Order>, name: string)
    requires WellFormed(a) && WellFormed(b) && WellFormed(a + b)
    ensures OrdersQuantityOf(a + b, name) == OrdersQuantityOf(a, name) + OrdersQuantityOf(b, name)
    decreases |b|
  {
    if b == [] {
      assert a + b == a;
    } else {
      var b' := b[..|b| - 1];
      assert (a + b)[..|a + b| - 1] == a + b';
      assert WellFormed(b') by {
        forall i | 0 <= i < |b'| ensures b'[i].lineItems.Some? { assert b'[i] == b[i]; }
      }
      assert WellFormed(a + b') by {
        forall i | 0 <= i < |a + b'| ensures (a + b')[i].lineItems.Some? { assert (a + b')[i] == (a + b)[i]; }
      }
      OrdersQuantityOfConcat(a, b', name);
    }
  }

  /** The totals after the loop body has run on `items`, first to last, starting from `stats`. */
  function AddItems(stats: Dict<nat>, items: seq<LineItem>): Dict<nat>
  {
    if items == [] then stats
    else AddItem(AddItems(stats, items[..|items| - 1]), items[|items| - 1])
  }

  lemma AddItemsStep(stats: Dict<nat>, items: seq<LineItem>, j: nat)
    requires j < |items|
    ensures var before := AddItems(stats, items[..j]);
            AddItems(stats, items[..j + 1]) == before.Put(items[j].name, Total(before, items[j].name) + items[j].quantity)
  {
    assert items[..j + 1][..j] == items[..j];
  }

  /** Two orders selling A twice and B once give `{ A: 5, B: 1 }`, keys in first-sale order. */
  lemma ExampleTwoOrders()
    ensures ProductStats([Order(None, None, Some([LineItem("A", 2)])),
                          Order(None, None, Some([LineItem("A", 3), LineItem("B", 1)]))])
            == Dict(["A", "B"], map["A" := 5, "B" := 1])
  {
    var first := Order(None, None, Some([LineItem("A", 2)]));
    var second := Order(None, None, Some([LineItem("A", 3), LineItem("B", 1)]));
    var orders := [first, second];
    assert orders[..1] == [first];
    assert [first][..0] == [];
    assert AllLineItems([first]) == Some([] + [LineItem("A", 2)]);
    assert [] + [LineItem("A", 2)] == [LineItem("A", 2)];
    var items := [LineItem("A", 2), LineItem("A", 3), LineItem("B", 1)];
    assert AllLineItems(orders[..1]) == Some([LineItem("A", 2)]);
    assert [LineItem("A", 2)] + [LineItem("A", 3), LineItem("B", 1)] == items;
    assert AllLineItems(orders) == Some(items);
    assert items[..2] == [LineItem("A", 2), LineItem("A", 3)];
    assert items[..2][..1] == [LineItem("A", 2)];
    assert items[..2][..1][..0] == [];
    assert Tally([LineItem("A", 2)]) == Dict(["A"], map["A" := 2]);
    assert Tally(items[..2]) == Dict(["A"], map["A" := 5]);
  }

  /** Running the loop body on more items continues the same fold. */
  lemma {:induction false} TallyExtend(visited: seq<LineItem>, items: seq<LineItem>)
    ensures Tally(visited + items) == AddItems(Tally(visited), items)
    decreases |items|
  {
    if items == [] {
      assert visited + items == visited;
    } else {
      assert (visited + items)[..|visited + items| - 1] == visited + items[..|items| - 1];
      TallyExtend(visited, items[..|items| - 1]);
    }
  }

  lemma AllLineItemsStep(orders: seq<Order>, i: nat, visited: seq<LineItem>)
    requires i < |orders| && AllLineItems(orders[..i]) == Some(visited) && orders[i].lineItems.Some?
    ensures AllLineItems(orders[..i + 1]) == Some(visited + orders[i].lineItems.value)
  {
    assert orders[..i + 1][..i] == orders[..i];
  }

  // ---------------------------------------------------------------------------
  // The imperative pass

  /**
   * `summarizeProducts(orders)`: two nested loops update one dictionary in
   * place; when an order's `line_items` cannot be iterated the loop throws and
   * the catch returns `{}`.
   */
  method SummarizeProducts(orders: seq<Order>) returns (stats: Dict<nat>)
    ensures stats == ProductStats(orders)
  {
    stats := Empty();
    ghost var visited: seq<LineItem> := [];
    var i := 0;
    while i < |orders|
      invariant 0 <= i <= |orders|
      invariant AllLineItems(orders[..i]) == Some(visited)
      invariant stats == Tally(visited)
    {
      if orders[i].lineItems.None? {
        assert !WellFormed(orders);
        return Empty();
      }
      var items := orders[i].lineItems.value;
      stats := AddOrderItems(stats, items);
      TallyExtend(visited, items);
      AllLineItemsStep(orders, i, visited);
      visited := visited + items;
      i := i + 1;
    }
    assert orders[..i] == orders;
  }

  /** The inner loop `for (const item of order.line_items)`, updating the totals in place. */
  method AddOrderItems(stats: Dict<nat>, items: seq<LineItem>) returns (updated: Dict<nat>)
    ensures updated == AddItems(stats, items)
  {
    updated := stats;
    var j := 0;
    while j < |items|
      invariant 0 <= j <= |items|
      invariant updated == AddItems(stats, items[..j])
    {
      var item := items[j];
      AddItemsStep(stats, items, j);
      updated := updated.Put(item.name, Total(updated, item.name) + item.quantity);
      j := j + 1;
    }
    assert items[..j] == items;
  }
}
