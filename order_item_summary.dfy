/** The "my orders" line (`model.entities.OrderItemSummary`): a product name, a quantity and
    the unit price stored with the order, any of which the query may leave `null`. */
module OrderItemSummary {
  import opened Common
  import opened Checkout
  import opened ViewCheckout

  datatype OrderItemSummary = OrderItemSummary(productName: Option<string>, quantity: Option<int>, priceAtMoment: Option<int>)
  {
    /** `getTotal()`: price times quantity, a missing price counting as 0 and a missing quantity as 0. */
    function Total(): (t: int)
      ensures priceAtMoment.Some? && quantity.Some? ==> t == priceAtMoment.value * quantity.value
      ensures priceAtMoment.None? || quantity.None? ==> t == 0
    {
      (if priceAtMoment.Some? then priceAtMoment.value else 0) * (if quantity.Some? then quantity.value else 0)
    }
  }

  /** The summary a stored item is listed as, with the product's name. */
  function SummaryOf(item: OrderItem, name: string): (s: OrderItemSummary)
    ensures s.productName == Some(name) && s.quantity == Some(item.quantity) && s.priceAtMoment == Some(item.priceAtMoment)
  {
    OrderItemSummary(Some(name), Some(item.quantity), Some(item.priceAtMoment))
  }

  function SummariesTotal(ss: seq<OrderItemSummary>): int
    decreases |ss|
  {
    if ss == [] then 0 else SummariesTotal(ss[..|ss| - 1]) + ss[|ss| - 1].Total()
  }

  /** Listing an order's stored items line by line adds up to the same amount as the items. */
  lemma {:induction false} SummariesAddUpToItems(items: seq<OrderItem>, names: seq<string>)
    requires |names| == |items|
    ensures SummariesTotal(seq(|items|, i requires 0 <= i < |items| => SummaryOf(items[i], names[i]))) == ItemsTotal(items)
    decreases |items|
  {
    if items != [] {
      var n := |items| - 1;
      SummariesAddUpToItems(items[..n], names[..n]);
      var all := seq(|items|, i requires 0 <= i < |items| => SummaryOf(items[i], names[i]));
      var front := seq(n, i requires 0 <= i < n => SummaryOf(items[..n][i], names[..n][i]));
      assert all[..n] == front;
    }
  }
}
