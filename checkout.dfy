/** Order confirmation (`controller.ControllerCheckout.confirmOrder`): validate the request,
    write the order header, then one order item per cart entry that still resolves, priced
    afresh. The store is the two tables `order` and `order_items`; what the database answers
    to each write is a parameter. */
module Checkout {
  import opened Common
  import opened Entities
  import opened Pricing
  import opened JavaString
  import opened CartSession
  import opened CartView

  /** A row of table `order`; `id` is the generated key when the driver returned one. */
  datatype OrderHeader = OrderHeader(
    id: Option<int>, idUser: int, datetime: int, totalPrice: int, delivery: string, observations: Option<string>)

  /** A row of table `order_items`. */
  datatype OrderItem = OrderItem(idOrder: int, idProduct: int, quantity: int, priceAtMoment: int)

  /** What `RepositoryOrder.createOrderAndReturnId` does: a row and its key; no row
      (`executeUpdate() == 0`); a row but no generated key; or an `SQLException`. */
  datatype HeaderReply = KeyReturned(key: int) | NoRowInserted | NoKeyReturned | HeaderSqlError

  /** What `RepositoryOrderItems.createOrderItem` does: `true` with a row, `false` with none,
      or an `SQLException`. */
  datatype ItemReply = RowInserted | NoItemRow | ItemSqlError

  /** The arguments of `confirmOrder`; `cartItems` is the map the screen passes, as its entries. */
  datatype OrderRequest = OrderRequest(
    idUser: Option<int>,
    totalPrice: Option<int>,
    delivery: Option<string>,
    observations: Option<string>,
    cartItems: Option<seq<Entry>>)

  const USER_INVALID: Failure := Validation("Usuário inválido. Faça login novamente.")
  const TOTAL_REQUIRED: Failure := Validation("Total do pedido é obrigatório.")
  const TOTAL_NEGATIVE: Failure := Validation("Total do pedido não pode ser negativo.")
  const DELIVERY_REQUIRED: Failure := Validation("Forma de recebimento é obrigatória.")
  const CART_EMPTY: Failure := Validation("Carrinho vazio. Adicione itens antes de finalizar.")
  const ORDER_NOT_CREATED: Failure := DataAccess("Não foi possível criar o pedido.")
  const ITEM_NOT_SAVED: Failure := DataAccess("Não foi possível salvar um item do pedido.")
  const CONFIRM_FAILED: Failure := DataAccess("Erro ao confirmar pedido.")

  /** The guards of `confirmOrder`, in their order: the first that fails, or none. */
  function ValidateOrder(req: OrderRequest): (r: Option<Failure>)
    ensures r.None? <==>
      && req.idUser.Some? && req.idUser.value > 0
      && req.totalPrice.Some? && req.totalPrice.value >= 0
      && !NullOrEmptyTrimmed(req.delivery)
      && req.cartItems.Some? && req.cartItems.value != []
    ensures r.Some? ==> r.value.Validation?
  {
    if req.idUser.None? || req.idUser.value <= 0 then Some(USER_INVALID)
    else if req.totalPrice.None? then Some(TOTAL_REQUIRED)
    else if req.totalPrice.value < 0 then Some(TOTAL_NEGATIVE)
    else if NullOrEmptyTrimmed(req.delivery) then Some(DELIVERY_REQUIRED)
    else if req.cartItems.None? || req.cartItems.value == [] then Some(CART_EMPTY)
    else None
  }

  /** Observations as stored: blank ones become `null`, any other value is kept as given. */
  function StoredObservations(o: Option<string>): (r: Option<string>)
    ensures r.None? <==> o.None? || Trim(o.value) == []
    ensures r.Some? ==> r == o
  {
    if o.Some? && Trim(o.value) == [] then None else o
  }

  /** The header `confirmOrder` writes for a validated request. */
  function HeaderFor(req: OrderRequest, now: int, id: Option<int>): OrderHeader
    requires ValidateOrder(req).None?
  {
    OrderHeader(id, req.idUser.value, now, req.totalPrice.value, Trim(req.delivery.value), StoredObservations(req.observations))
  }

  function ReplyFor(itemReplies: map<int, ItemReply>, productId: int): ItemReply {
    if productId in itemReplies then itemReplies[productId] else RowInserted
  }

  /** The item a listed entry gives: the cart's id and quantity, and the product's current unit price. */
  function ItemFor(idOrder: int, e: Entry, p: Product): (item: OrderItem)
    requires Usable(e)
    ensures item.idProduct == e.productId.value && item.quantity == e.qty.value
    ensures item.priceAtMoment == UnitPrice(p) && item.idOrder == idOrder
  {
    OrderItem(idOrder, e.productId.value, e.qty.value, UnitPrice(p))
  }

  /** The items written so far and, when the loop has stopped, why. */
  datatype ItemRun = ItemRun(written: seq<OrderItem>, failure: Option<Failure>)

  /** One pass of the item loop on entry `e`. */
  function ItemStep(run: ItemRun, idOrder: int, e: Entry, catalog: map<int, Lookup<Product>>, itemReplies: map<int, ItemReply>): ItemRun
    requires run.failure.None?
  {
    if !Usable(e) then run
    else match Fetch(catalog, e.productId.value)
      case SqlError => ItemRun(run.written, Some(CONFIRM_FAILED))
      case Absent => run
      case Found(p) =>
        match ReplyFor(itemReplies, e.productId.value)
        case RowInserted => ItemRun(run.written + [ItemFor(idOrder, e, p)], None)
        case NoItemRow => ItemRun(run.written, Some(ITEM_NOT_SAVED))
        case ItemSqlError => ItemRun(run.written, Some(CONFIRM_FAILED))
  }

  /** Every item in `items` belongs to the order `idOrder`. */
  predicate OfOrder(items: seq<OrderItem>, idOrder: int) {
    forall i :: 0 <= i < |items| ==> items[i].idOrder == idOrder
  }

  /** The item loop over the entries `es`, stopping at the first failure. */
  function ItemWrites(idOrder: int, es: seq<Entry>, catalog: map<int, Lookup<Product>>, itemReplies: map<int, ItemReply>): (run: ItemRun)
    ensures |run.written| <= |es|
    ensures OfOrder(run.written, idOrder)
    decreases |es|
  {
    if es == [] then ItemRun([], None)
    else
      var prev := ItemWrites(idOrder, es[..|es| - 1], catalog, itemReplies);
      if prev.failure.Some? then prev else ItemStep(prev, idOrder, es[|es| - 1], catalog, itemReplies)
  }

  /** What one call does: its result, and the header and item rows it adds to the store. */
  datatype Outcome = Outcome(result: Result<int, Failure>, headers: seq<OrderHeader>, items: seq<OrderItem>)

  /** `confirmOrder` as a function of the request, the clock, and the database's answers. */
  function Confirm(req: OrderRequest, now: int, headerReply: HeaderReply,
                   catalog: map<int, Lookup<Product>>, itemReplies: map<int, ItemReply>): (o: Outcome)
    ensures ValidateOrder(req).Some? ==> o == Outcome(Err(ValidateOrder(req).value), [], [])
    ensures |o.headers| <= 1
    ensures o.headers == [] ==> o.items == [] && o.result.Err?
    ensures o.result.Ok? ==> o.headers[0].id == Some(o.result.value)
    ensures o.items != [] ==> o.headers[0].id.Some? && |o.items| <= |req.cartItems.value|
    ensures o.items != [] ==> OfOrder(o.items, o.headers[0].id.value)
  {
    match ValidateOrder(req)
    case Some(f) => Outcome(Err(f), [], [])
    case None =>
      match headerReply
      case HeaderSqlError => Outcome(Err(CONFIRM_FAILED), [], [])
      case NoRowInserted => Outcome(Err(ORDER_NOT_CREATED), [], [])
      case NoKeyReturned => Outcome(Err(ORDER_NOT_CREATED), [HeaderFor(req, now, None)], [])
      case KeyReturned(id) =>
        var run := ItemWrites(id, req.cartItems.value, catalog, itemReplies);
        Outcome(if run.failure.Some? then Err(run.failure.value) else Ok(id), [HeaderFor(req, now, Some(id))], run.written)
  }

  /** The two order tables. */
  class OrderStore {
    var headers: seq<OrderHeader>
    var items: seq<OrderItem>

    constructor ()
      ensures headers == [] && items == []
    {
      headers := [];
      items := [];
    }

    /** `confirmOrder(...)`: the returned id or failure, and the rows it leaves behind, are
        those of `Confirm`; nothing written is ever taken back. */
    method ConfirmOrder(req: OrderRequest, now: int, headerReply: HeaderReply,
                        catalog: map<int, Lookup<Product>>, itemReplies: map<int, ItemReply>)
      returns (r: Result<int, Failure>)
      modifies this
      ensures var o := Confirm(req, now, headerReply, catalog, itemReplies);
        r == o.result && headers == old(headers) + o.headers && items == old(items) + o.items
    {
      var check := ValidateOrder(req);
      if check.Some? {
        assert headers == old(headers) + [] && items == old(items) + [];
        return Err(check.value);
      }
      var del := Trim(req.delivery.value);
      var obs := StoredObservations(req.observations);
      match headerReply {
        case HeaderSqlError =>
          assert headers == old(headers) + [] && items == old(items) + [];
          return Err(CONFIRM_FAILED);
        case NoRowInserted =>
          assert headers == old(headers) + [] && items == old(items) + [];
          return Err(ORDER_NOT_CREATED);
        case NoKeyReturned =>
          headers := headers + [OrderHeader(None, req.idUser.value, now, req.totalPrice.value, del, obs)];
          assert items == old(items) + [];
          return Err(ORDER_NOT_CREATED);
        case KeyReturned(idOrder) =>
          headers := headers + [OrderHeader(Some(idOrder), req.idUser.value, now, req.totalPrice.value, del, obs)];
          var failure := WriteItems(idOrder, req.cartItems.value, catalog, itemReplies);
          if failure.Some? {
            return Err(failure.value);
          }
          return Ok(idOrder);
      }
    }

    /** The item loop of `confirmOrder`: one insert per listed entry, in cart order, stopping
        at the first lookup or insert that fails. */
    method WriteItems(idOrder: int, entries: seq<Entry>, catalog: map<int, Lookup<Product>>,
                      itemReplies: map<int, ItemReply>)
      returns (failure: Option<Failure>)
      modifies this
      ensures var run := ItemWrites(idOrder, entries, catalog, itemReplies);
        failure == run.failure && items == old(items) + run.written && headers == old(headers)
    {
      var i := 0;
      while i < |entries|
        invariant 0 <= i <= |entries|
        invariant headers == old(headers)
        invariant ItemWrites(idOrder, entries[..i], catalog, itemReplies).failure.None?
        invariant items == old(items) + ItemWrites(idOrder, entries[..i], catalog, itemReplies).written
      {
        assert entries[..i + 1][..i] == entries[..i];
        var productId := entries[i].productId;
        var qty := entries[i].qty;
        if productId.None? || qty.None? || qty.value <= 0 {
          i := i + 1;
          continue;
        }
        var found := Fetch(catalog, productId.value);
        if found.SqlError? {
          ItemFailureStops(idOrder, entries, i + 1, catalog, itemReplies);
          return Some(CONFIRM_FAILED);
        }
        if found.Absent? {
          i := i + 1;
          continue;
        }
        var unit := UnitPrice(found.value);
        var reply := ReplyFor(itemReplies, productId.value);
        if reply.ItemSqlError? {
          ItemFailureStops(idOrder, entries, i + 1, catalog, itemReplies);
          return Some(CONFIRM_FAILED);
        }
        if reply.NoItemRow? {
          ItemFailureStops(idOrder, entries, i + 1, catalog, itemReplies);
          return Some(ITEM_NOT_SAVED);
        }
        items := items + [OrderItem(idOrder, productId.value, qty.value, unit)];
        i := i + 1;
      }
      assert entries[..i] == entries;
      return None;
    }
  }

  /** Once an item write has failed the loop is over: later entries change nothing. */
  lemma {:induction false} ItemFailureStops(idOrder: int, es: seq<Entry>, n: int,
                                            catalog: map<int, Lookup<Product>>, itemReplies: map<int, ItemReply>)
    requires 0 <= n <= |es| && ItemWrites(idOrder, es[..n], catalog, itemReplies).failure.Some?
    ensures ItemWrites(idOrder, es, catalog, itemReplies) == ItemWrites(idOrder, es[..n], catalog, itemReplies)
    decreases |es|
  {
    if n < |es| {
      var front := es[..|es| - 1];
      assert front[..n] == es[..n];
      ItemFailureStops(idOrder, front, n, catalog, itemReplies);
    } else {
      assert es[..n] == es;
    }
  }

  // ----- Properties of a confirmation -----

  /** The guards run in their order, and a failed guard writes nothing. */
  lemma ValidationFirst(req: OrderRequest, now: int, headerReply: HeaderReply,
                        catalog: map<int, Lookup<Product>>, itemReplies: map<int, ItemReply>)
    ensures var o := Confirm(req, now, headerReply, catalog, itemReplies);
      ValidateOrder(req).Some? ==> o.result == Err(ValidateOrder(req).value) && o.headers == [] && o.items == []
    ensures req.idUser.None? || req.idUser.value <= 0 ==> ValidateOrder(req) == Some(USER_INVALID)
    ensures req.idUser.Some? && req.idUser.value > 0 && req.totalPrice.None? ==> ValidateOrder(req) == Some(TOTAL_REQUIRED)
    ensures req.idUser.Some? && req.idUser.value > 0 && req.totalPrice.Some? && req.totalPrice.value < 0 ==>
      ValidateOrder(req) == Some(TOTAL_NEGATIVE)
    ensures (req.idUser.Some? && req.idUser.value > 0 && req.totalPrice.Some? && req.totalPrice.value >= 0
             && NullOrEmptyTrimmed(req.delivery)) ==> ValidateOrder(req) == Some(DELIVERY_REQUIRED)
    ensures (req.idUser.Some? && req.idUser.value > 0 && req.totalPrice.Some? && req.totalPrice.value >= 0
             && !NullOrEmptyTrimmed(req.delivery) && (req.cartItems.None? || req.cartItems.value == [])) ==>
      ValidateOrder(req) == Some(CART_EMPTY)
  {
  }

  /** A validated request writes exactly one header, before any item, carrying the caller's
      user, total, the trimmed delivery and the normalised observations; unless the insert
      itself failed, in which case nothing is written at all. */
  lemma OneHeaderFirst(req: OrderRequest, now: int, headerReply: HeaderReply,
                       catalog: map<int, Lookup<Product>>, itemReplies: map<int, ItemReply>)
    requires ValidateOrder(req).None?
    ensures var o := Confirm(req, now, headerReply, catalog, itemReplies);
      (headerReply.KeyReturned? || headerReply.NoKeyReturned?) ==>
        && |o.headers| == 1
        && o.headers[0].idUser == req.idUser.value
        && o.headers[0].totalPrice == req.totalPrice.value
        && o.headers[0].delivery == Trim(req.delivery.value)
        && o.headers[0].observations == StoredObservations(req.observations)
        && o.headers[0].datetime == now
    ensures var o := Confirm(req, now, headerReply, catalog, itemReplies);
      (headerReply.NoRowInserted? || headerReply.HeaderSqlError?) ==> o.headers == [] && o.items == []
  {
  }

  /** Without a generated key the call fails with no item written; a header row written
      without a returned key stays in the table. */
  lemma NoKeyNoItems(req: OrderRequest, now: int, headerReply: HeaderReply,
                     catalog: map<int, Lookup<Product>>, itemReplies: map<int, ItemReply>)
    requires ValidateOrder(req).None? && !headerReply.KeyReturned?
    ensures var o := Confirm(req, now, headerReply, catalog, itemReplies);
      o.items == [] && o.result.Err?
      && (headerReply.HeaderSqlError? ==> o.result.error == CONFIRM_FAILED)
      && (!headerReply.HeaderSqlError? ==> o.result.error == ORDER_NOT_CREATED)
      && (headerReply.NoKeyReturned? ==> o.headers == [HeaderFor(req, now, None)])
  {
  }

  /** The items written are, in cart order, listed entries of the cart: each carries the cart's
      id and quantity, the new order's id, and the unit price of the product as looked up now.
      `idx` gives each item's entry, strictly increasing. When the loop did not stop early,
      every listed entry was written. */
  lemma {:induction false} ItemsFollowCart(idOrder: int, es: seq<Entry>, catalog: map<int, Lookup<Product>>,
                                           itemReplies: map<int, ItemReply>) returns (idx: seq<int>)
    ensures var run := ItemWrites(idOrder, es, catalog, itemReplies);
      && |idx| == |run.written| <= |es|
      && (forall k :: 0 <= k < |idx| ==>
            0 <= idx[k] < |es| && Listed(es[idx[k]], catalog)
            && run.written[k] == ItemFor(idOrder, es[idx[k]], Fetch(catalog, es[idx[k]].productId.value).value))
      && (forall k, l :: 0 <= k < l < |idx| ==> idx[k] < idx[l])
      && (run.failure.None? ==> forall i :: 0 <= i < |es| && Listed(es[i], catalog) ==> i in idx)
    decreases |es|
  {
    if es == [] {
      idx := [];
    } else {
      var n := |es| - 1;
      var front := es[..n];
      var prev := ItemsFollowCart(idOrder, front, catalog, itemReplies);
      forall i | 0 <= i < n ensures front[i] == es[i] {}
      var run := ItemWrites(idOrder, es, catalog, itemReplies);
      var before := ItemWrites(idOrder, front, catalog, itemReplies);
      assert run == if before.failure.Some? then before else ItemStep(before, idOrder, es[n], catalog, itemReplies);
      if |run.written| > |before.written| {
        idx := prev + [n];
      } else {
        idx := prev;
      }
    }
  }

  /** A failing item write keeps what came before it: the header and the items of the entries
      before the failing one all stay written, and the failure is the one of that entry. */
  lemma {:induction false} FailureKeepsEarlierItems(idOrder: int, es: seq<Entry>, catalog: map<int, Lookup<Product>>,
                                                    itemReplies: map<int, ItemReply>) returns (n: int)
    requires ItemWrites(idOrder, es, catalog, itemReplies).failure.Some?
    ensures 0 <= n < |es|
    ensures var before := ItemWrites(idOrder, es[..n], catalog, itemReplies);
      && before.failure.None?
      && ItemWrites(idOrder, es, catalog, itemReplies) == ItemStep(before, idOrder, es[n], catalog, itemReplies)
      && ItemWrites(idOrder, es, catalog, itemReplies).written == before.written
      && Usable(es[n])
    decreases |es|
  {
    var front := es[..|es| - 1];
    if ItemWrites(idOrder, front, catalog, itemReplies).failure.Some? {
      n := FailureKeepsEarlierItems(idOrder, front, catalog, itemReplies);
      assert front[..n] == es[..n];
    } else {
      n := |es| - 1;
    }
  }

  /** A successful call returns the generated key, and has written one item for every entry
      with a positive quantity whose product still exists. */
  lemma SuccessReturnsKey(req: OrderRequest, now: int, headerReply: HeaderReply,
                          catalog: map<int, Lookup<Product>>, itemReplies: map<int, ItemReply>)
    requires Confirm(req, now, headerReply, catalog, itemReplies).result.Ok?
    ensures headerReply.KeyReturned? && ValidateOrder(req).None?
    ensures Confirm(req, now, headerReply, catalog, itemReplies).result.value == headerReply.key
    ensures var es := req.cartItems.value;
      var written := Confirm(req, now, headerReply, catalog, itemReplies).items;
      forall i :: 0 <= i < |es| && Listed(es[i], catalog) ==>
        exists k :: 0 <= k < |written| && written[k] == ItemFor(headerReply.key, es[i], Fetch(catalog, es[i].productId.value).value)
  {
    var es := req.cartItems.value;
    var idx := ItemsFollowCart(headerReply.key, es, catalog, itemReplies);
    var written := ItemWrites(headerReply.key, es, catalog, itemReplies).written;
    forall i | 0 <= i < |es| && Listed(es[i], catalog)
      ensures exists k :: 0 <= k < |written| && written[k] == ItemFor(headerReply.key, es[i], Fetch(catalog, es[i].productId.value).value)
    {
      var k :| 0 <= k < |idx| && idx[k] == i;
      assert written[k] == ItemFor(headerReply.key, es[i], Fetch(catalog, es[i].productId.value).value);
    }
  }

  /** The header total is whatever the caller passed; the items do not depend on it. */
  lemma TotalDoesNotAffectItems(req: OrderRequest, t1: int, t2: int, now: int, headerReply: HeaderReply,
                                catalog: map<int, Lookup<Product>>, itemReplies: map<int, ItemReply>)
    requires t1 >= 0 && t2 >= 0
    ensures var o1 := Confirm(req.(totalPrice := Some(t1)), now, headerReply, catalog, itemReplies);
      var o2 := Confirm(req.(totalPrice := Some(t2)), now, headerReply, catalog, itemReplies);
      o1.items == o2.items && o1.result == o2.result
      && (forall k :: 0 <= k < |o1.headers| ==> o1.headers[k].totalPrice == t1)
  {
  }
}
