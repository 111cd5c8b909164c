/** The cart screen's controller (`controller.ControllerCartView`): turns the cart's entries
    into priced table rows and a subtotal, looking each product up in the catalogue. */
module CartView {
  import opened Common
  import opened Entities
  import opened Pricing
  import opened CartSession

  /** One table row: the cart key, the product's name, the quantity, unit price and line total. */
  datatype CartRow = CartRow(productId: int, productName: string, qty: int, unit: int, total: int)

  datatype CartViewData = CartViewData(rows: seq<CartRow>, subtotal: int)

  /** `ControllerShop.findProductById` turns an `SQLException` into this. */
  const FETCH_FAILED: Failure := DataAccess("Erro ao buscar produto do carrinho.")

  /** An entry the loop prices: its id and quantity are present and the quantity is positive. */
  predicate Usable(e: Entry) {
    e.productId.Some? && e.qty.Some? && e.qty.value > 0
  }

  /** An entry that becomes a row: usable, and its product is found. */
  predicate Listed(e: Entry, catalog: map<int, Lookup<Product>>) {
    Usable(e) && Fetch(catalog, e.productId.value).Found?
  }

  function RowFor(e: Entry, p: Product): (row: CartRow)
    requires Usable(e)
    ensures row.productId == e.productId.value && row.qty == e.qty.value
    ensures row.unit == UnitPrice(p) && row.total == row.unit * row.qty && row.productName == p.name
  {
    CartRow(e.productId.value, p.name, e.qty.value, UnitPrice(p), UnitPrice(p) * e.qty.value)
  }

  /** One step of the loop in `loadCartData`: skip, add a row, or stop with the lookup failure. */
  function Step(rows: seq<CartRow>, e: Entry, catalog: map<int, Lookup<Product>>): Result<seq<CartRow>, Failure> {
    if !Usable(e) then Ok(rows)
    else match Fetch(catalog, e.productId.value)
      case SqlError => Err(FETCH_FAILED)
      case Absent => Ok(rows)
      case Found(p) => Ok(rows + [RowFor(e, p)])
  }

  /** The rows the loop has produced after the entries `es`, or the failure that stopped it. */
  function Rows(es: seq<Entry>, catalog: map<int, Lookup<Product>>): (r: Result<seq<CartRow>, Failure>)
    ensures r.Err? ==> r.error == FETCH_FAILED
    ensures r.Ok? ==> |r.value| <= |es|
    decreases |es|
  {
    if es == [] then Ok([])
    else match Rows(es[..|es| - 1], catalog)
      case Err(f) => Err(f)
      case Ok(rows) => Step(rows, es[|es| - 1], catalog)
  }

  function SumTotals(rows: seq<CartRow>): int
    decreases |rows|
  {
    if rows == [] then 0 else SumTotals(rows[..|rows| - 1]) + rows[|rows| - 1].total
  }

  /** What `loadCartData` returns for the entries `es`. */
  /** The screen's data: only a failed product lookup fails it, and there is at most one row
      per entry. */
  function View(es: seq<Entry>, catalog: map<int, Lookup<Product>>): (r: Result<CartViewData, Failure>)
    ensures r.Err? ==> r.error == FETCH_FAILED
    ensures r.Ok? ==> |r.value.rows| <= |es| && r.value.subtotal == SumTotals(r.value.rows)
  {
    match Rows(es, catalog)
    case Err(f) => Err(f)
    case Ok(rows) => Ok(CartViewData(rows, SumTotals(rows)))
  }

  /** `loadCartData()`: walks the cart's entries in iteration order. */
  method LoadCartData(cart: Cart, catalog: map<int, Lookup<Product>>) returns (r: Result<CartViewData, Failure>)
    requires cart.Valid()
    ensures r == View(EntriesOf(cart.Contents()), catalog)
  {
    var entries := cart.GetItems();
    var rows: seq<CartRow> := [];
    var subtotal := 0;
    var i := 0;
    while i < |entries|
      invariant 0 <= i <= |entries|
      invariant Rows(entries[..i], catalog) == Ok(rows)
      invariant subtotal == SumTotals(rows)
    {
      assert entries[..i + 1][..i] == entries[..i];
      assert Rows(entries[..i + 1], catalog) == Step(rows, entries[i], catalog);
      var productId := entries[i].productId;
      var qty := entries[i].qty;
      if productId.None? || qty.None? || qty.value <= 0 {
        i := i + 1;
        continue;
      }
      var found := Fetch(catalog, productId.value);
      if found.SqlError? {
        RowsFailureStops(entries, i + 1, catalog);
        return Err(FETCH_FAILED);
      }
      if found.Absent? {
        i := i + 1;
        continue;
      }
      var p := found.value;
      var unit := UnitPrice(p);
      var total := unit * qty.value;
      subtotal := subtotal + total;
      rows := rows + [CartRow(productId.value, p.name, qty.value, unit, total)];
      i := i + 1;
    }
    assert entries[..i] == entries;
    return Ok(CartViewData(rows, subtotal));
  }

  /** `removeByProductId(productId)`: a null id does nothing, any other id goes to `CartSession.remove`. */
  method RemoveByProductId(cart: Cart, productId: Option<int>)
    requires cart.Valid()
    modifies cart
    ensures cart.Valid()
    ensures cart.Contents() == RemoveOp(old(cart.Contents()), productId)
    ensures productId.Some? ==> productId.value !in cart.quantities
  {
    if productId.None? {
      return;
    }
    cart.Remove(productId);
  }

  // ----- What the rows say about the cart -----

  /** The loop fails exactly when some entry it would price hits a lookup failure. */
  lemma {:induction false} RowsOkIff(es: seq<Entry>, catalog: map<int, Lookup<Product>>)
    ensures Rows(es, catalog).Ok? <==>
      forall i :: 0 <= i < |es| && Usable(es[i]) ==> Fetch(catalog, es[i].productId.value) != SqlError
    ensures Rows(es, catalog).Err? ==> Rows(es, catalog).error == FETCH_FAILED
    decreases |es|
  {
    if es != [] {
      var front := es[..|es| - 1];
      RowsOkIff(front, catalog);
      forall i | 0 <= i < |front| ensures front[i] == es[i] {}
    }
  }

  /** Once a lookup has failed, later entries do not matter: the loop has stopped. */
  lemma {:induction false} RowsFailureStops(es: seq<Entry>, n: int, catalog: map<int, Lookup<Product>>)
    requires 0 <= n <= |es| && Rows(es[..n], catalog).Err?
    ensures Rows(es, catalog) == Rows(es[..n], catalog)
    decreases |es|
  {
    if n < |es| {
      var front := es[..|es| - 1];
      assert front[..n] == es[..n];
      RowsFailureStops(front, n, catalog);
    } else {
      assert es[..n] == es;
    }
  }

  /** The rows are, in cart order, exactly the usable entries whose product was found: `idx`
      lists the position of each row's entry, strictly increasing, and misses no listed entry. */
  lemma {:induction false} RowsFollowCart(es: seq<Entry>, catalog: map<int, Lookup<Product>>) returns (idx: seq<int>)
    requires Rows(es, catalog).Ok?
    ensures var rows := Rows(es, catalog).value;
      && |idx| == |rows|
      && (forall k :: 0 <= k < |idx| ==>
            0 <= idx[k] < |es| && Listed(es[idx[k]], catalog)
            && rows[k] == RowFor(es[idx[k]], Fetch(catalog, es[idx[k]].productId.value).value))
      && (forall k, l :: 0 <= k < l < |idx| ==> idx[k] < idx[l])
      && (forall i :: 0 <= i < |es| && Listed(es[i], catalog) ==> i in idx)
    decreases |es|
  {
    if es == [] {
      idx := [];
    } else {
      var n := |es| - 1;
      var front := es[..n];
      var prev := RowsFollowCart(front, catalog);
      forall i | 0 <= i < n ensures front[i] == es[i] {}
      if Listed(es[n], catalog) {
        idx := prev + [n];
      } else {
        idx := prev;
      }
    }
  }

  /** The cart holds each product once, so the table lists each product at most once. */
  lemma RowsDistinct(it: Items, catalog: map<int, Lookup<Product>>)
    requires Inv(it)
    requires Rows(EntriesOf(it), catalog).Ok?
    ensures var rows := Rows(EntriesOf(it), catalog).value;
      forall k, l :: 0 <= k < l < |rows| ==> rows[k].productId != rows[l].productId
  {
    var es := EntriesOf(it);
    var idx := RowsFollowCart(es, catalog);
    var rows := Rows(es, catalog).value;
    forall k, l | 0 <= k < l < |rows| ensures rows[k].productId != rows[l].productId {
      assert rows[k].productId == it.order[idx[k]];
      assert rows[l].productId == it.order[idx[l]];
    }
  }

  /** With no negative price in the catalogue no line total is negative, and so neither is the
      subtotal. */
  lemma SubtotalNonNegative(es: seq<Entry>, catalog: map<int, Lookup<Product>>)
    requires forall id :: id in catalog && catalog[id].Found? ==> UnitPrice(catalog[id].value) >= 0
    requires View(es, catalog).Ok?
    ensures forall row :: row in View(es, catalog).value.rows ==> row.total >= 0
    ensures View(es, catalog).value.subtotal >= 0
  {
    var idx := RowsFollowCart(es, catalog);
    var rows := Rows(es, catalog).value;
    forall k | 0 <= k < |rows| ensures rows[k].total >= 0 {
      var e := es[idx[k]];
      assert e.productId.value in catalog;
    }
    SumNonNegative(rows);
    assert View(es, catalog).value == CartViewData(rows, SumTotals(rows));
  }

  lemma {:induction false} SumNonNegative(rows: seq<CartRow>)
    requires forall k :: 0 <= k < |rows| ==> rows[k].total >= 0
    ensures SumTotals(rows) >= 0
    decreases |rows|
  {
    if rows != [] {
      SumNonNegative(rows[..|rows| - 1]);
    }
  }

  /** An empty cart shows no rows and a subtotal of 0, whatever the catalogue holds. */
  lemma EmptyCartView(catalog: map<int, Lookup<Product>>)
    ensures View(EntriesOf(Empty), catalog) == Ok(CartViewData([], 0))
  {
    assert EntriesOf(Empty) == [];
  }
}
