/** The decision logic of the checkout screen (`view.ViewCheckout`): its guards, the subtotal
    and delivery fee it shows, and what pressing "confirm" does. Swing widgets are reduced to
    what they hold: whether "delivery" is selected, and the observations text. */
module ViewCheckout {
  import opened Common
  import opened Entities
  import opened Pricing
  import opened JavaString
  import opened CartSession
  import opened CartView
  import opened Checkout
  import opened Session

  /** Entries with both key and value present, as the cart always hands out. */
  predicate Complete(es: seq<Entry>) {
    forall i :: 0 <= i < |es| ==> es[i].productId.Some? && es[i].qty.Some?
  }

  /** The loop of `computeSubtotalFromCart` over `es`: the running sum, or `None` once a
      lookup has thrown. Unlike the cart screen, no entry is skipped for its quantity. */
  function SubtotalRun(es: seq<Entry>, catalog: map<int, Lookup<Product>>): Option<int>
    requires Complete(es)
    decreases |es|
  {
    if es == [] then Some(0)
    else
      var e := es[|es| - 1];
      match SubtotalRun(es[..|es| - 1], catalog)
      case None => None
      case Some(s) =>
        match Fetch(catalog, e.productId.value)
        case SqlError => None
        case Absent => Some(s)
        case Found(p) => Some(s + UnitPrice(p) * e.qty.value)
  }

  /** `computeSubtotalFromCart()`: the sum, or 0.0 after an `SQLException`. */
  function Subtotal(es: seq<Entry>, catalog: map<int, Lookup<Product>>): (s: int)
    requires Complete(es)
    ensures es == [] ==> s == 0
    ensures (exists i :: 0 <= i < |es| && Fetch(catalog, es[i].productId.value) == SqlError) ==> s == 0
  {
    SubtotalFailsIff(es, catalog);
    match SubtotalRun(es, catalog)
    case None => 0
    case Some(s) => s
  }

  /** `computeDeliveryFeeFromUserArea()` given what `findByEmailPerson` answered for the
      logged-in user's email: the area's fee, or 0 when anything is missing or the query failed. */
  function DeliveryFee(person: Lookup<Person>): (fee: int)
    ensures (person.Found? && person.value.address.Some? && person.value.address.value.area.Some?) ==>
      fee == person.value.address.value.area.value.fee
    ensures person.SqlError? || person.Absent? ==> fee == 0
    ensures person.Found? && (person.value.address.None? || person.value.address.value.area.None?) ==> fee == 0
  {
    if person.Found? && person.value.address.Some? && person.value.address.value.area.Some?
    then person.value.address.value.area.value.fee
    else 0
  }

  /** The delivery string `onConfirm` sends. */
  const DELIVERY := "ENTREGA"
  const PICKUP := "RETIRADA"

  function DeliveryLabel(deliverySelected: bool): string {
    if deliverySelected then DELIVERY else PICKUP
  }

  /** Neither label is blank or has surrounding whitespace. */
  lemma LabelKept(deliverySelected: bool)
    ensures Trim(DeliveryLabel(deliverySelected)) == DeliveryLabel(deliverySelected) != []
  {
    if deliverySelected {
      assert DELIVERY[0] == 'E' && DELIVERY[|DELIVERY| - 1] == 'A';
      TrimOfTrimmed(DELIVERY);
    } else {
      assert PICKUP[0] == 'R' && PICKUP[|PICKUP| - 1] == 'A';
      TrimOfTrimmed(PICKUP);
    }
  }

  /** The observations `onConfirm` sends: the text area's content, trimmed. */
  function ObservationsSent(text: Option<string>): Option<string> {
    if text.Some? then Some(Trim(text.value)) else None
  }

  lemma {:induction false} SubtotalFailureStops(es: seq<Entry>, n: int, catalog: map<int, Lookup<Product>>)
    requires Complete(es) && 0 <= n <= |es|
    requires SubtotalRun(es[..n], catalog).None?
    ensures SubtotalRun(es, catalog).None?
    decreases |es|
  {
    if n < |es| {
      var front := es[..|es| - 1];
      assert front[..n] == es[..n];
      SubtotalFailureStops(front, n, catalog);
    } else {
      assert es[..n] == es;
    }
  }

  /** The subtotal loop, over the cart's current entries. */
  method ComputeSubtotalFromCart(cart: Cart, catalog: map<int, Lookup<Product>>) returns (sum: int)
    requires cart.Valid()
    ensures Complete(EntriesOf(cart.Contents()))
    ensures sum == Subtotal(EntriesOf(cart.Contents()), catalog)
  {
    var entries := cart.GetItems();
    sum := 0;
    var i := 0;
    while i < |entries|
      invariant 0 <= i <= |entries|
      invariant SubtotalRun(entries[..i], catalog) == Some(sum)
    {
      assert entries[..i + 1][..i] == entries[..i];
      var found := Fetch(catalog, entries[i].productId.value);
      if found.SqlError? {
        SubtotalFailureStops(entries, i + 1, catalog);
        return 0;
      }
      if found.Found? {
        sum := sum + UnitPrice(found.value) * entries[i].qty.value;
      }
      i := i + 1;
    }
    assert entries[..i] == entries;
  }

  /** How a press of "confirm" ends. */
  datatype ConfirmOutcome =
    | CartWasEmpty                  // "Carrinho vazio." and nothing else
    | NoSession                     // `Session.getLoggedUser()` is null: the call dereferences it and throws
    | Confirmed(idOrder: int)       // the order was confirmed; the cart is cleared and the screen closed
    | Rejected(failure: Failure)    // the controller threw; its message is shown, nothing else changes

  /** The request `onConfirm` sends for given screen state and cart. */
  function RequestFrom(user: User, subtotal: int, fee: int, deliverySelected: bool,
                       obsText: Option<string>, entries: seq<Entry>): (req: OrderRequest)
    ensures req.idUser == user.idUser && req.cartItems == Some(entries)
    ensures ValidateOrder(req).None? <==>
      user.idUser.Some? && user.idUser.value > 0 && subtotal + fee >= 0 && entries != []
  {
    LabelKept(deliverySelected);
    OrderRequest(user.idUser, Some(subtotal + fee), Some(DeliveryLabel(deliverySelected)), ObservationsSent(obsText), Some(entries))
  }

  /** What a press of "confirm" leaves behind: its outcome, the cart, the header and item rows
      added to the store, and whether the screen is closed. */
  datatype ScreenEffect = ScreenEffect(outcome: ConfirmOutcome, cart: Items, headers: seq<OrderHeader>,
                                       items: seq<OrderItem>, closes: bool)

  /** `onConfirm()` on the cart `it` and the logged-in user, with the totals as last computed. */
  function ConfirmEffect(it: Items, loggedUser: Option<User>, subtotal: int, fee: int, deliverySelected: bool,
                         obsText: Option<string>, now: int, headerReply: HeaderReply,
                         catalog: map<int, Lookup<Product>>, itemReplies: map<int, ItemReply>): (e: ScreenEffect)
    requires Inv(it)
    ensures it.order == [] ==> e == ScreenEffect(CartWasEmpty, it, [], [], false)
    ensures it.order != [] && loggedUser.None? ==> e == ScreenEffect(NoSession, it, [], [], false)
    ensures e.closes <==> e.outcome.Confirmed?
    ensures if e.closes then e.cart == Empty else e.cart == it
    ensures |e.headers| <= 1 && (e.headers == [] ==> e.items == [])
    ensures e.outcome.Confirmed? ==> |e.headers| == 1 && e.headers[0].id == Some(e.outcome.idOrder)
  {
    if it.order == [] then ScreenEffect(CartWasEmpty, it, [], [], false)
    else if loggedUser.None? then ScreenEffect(NoSession, it, [], [], false)
    else Settle(it, Confirm(RequestFrom(loggedUser.value, subtotal, fee, deliverySelected, obsText, EntriesOf(it)),
                            now, headerReply, catalog, itemReplies))
  }

  /** What the screen does with the store's answer: a confirmed order empties the cart and
      closes the screen; a failure keeps both. The rows written are the store's either way. */
  function Settle(it: Items, o: Outcome): ScreenEffect
  {
    if o.result.Ok? then ScreenEffect(Confirmed(o.result.value), Empty, o.headers, o.items, true)
    else ScreenEffect(Rejected(o.result.error), it, o.headers, o.items, false)
  }

  /** Whatever `onConfirm()` does, the cart it leaves keeps the cart invariant. */
  lemma ConfirmEffectKeepsInv(it: Items, loggedUser: Option<User>, subtotal: int, fee: int, deliverySelected: bool,
                              obsText: Option<string>, now: int, headerReply: HeaderReply,
                              catalog: map<int, Lookup<Product>>, itemReplies: map<int, ItemReply>)
    requires Inv(it)
    ensures Inv(ConfirmEffect(it, loggedUser, subtotal, fee, deliverySelected, obsText, now, headerReply, catalog, itemReplies).cart)
  {
  }

  class CheckoutScreen {
    /** False once the screen has been disposed. */
    var open: bool
    /** `radioEntrega.isSelected()`; "delivery" starts selected. */
    var deliverySelected: bool
    var subtotal: int
    /** `taxaEntrega`. */
    var deliveryFee: int

    /** The constructor: not logged in, or an empty cart, disposes the screen before anything
        is computed; otherwise the totals are computed once with "delivery" selected. */
    constructor (session: SessionState, cart: Cart, catalog: map<int, Lookup<Product>>, person: Lookup<Person>)
      requires cart.Valid()
      ensures deliverySelected
      ensures open <==> LoggedIn(session.loggedUser) && cart.keys != []
      ensures open ==> subtotal == Subtotal(EntriesOf(cart.Contents()), catalog) && deliveryFee == DeliveryFee(person)
      ensures !open ==> subtotal == 0 && deliveryFee == 0
    {
      open := false;
      deliverySelected := true;
      subtotal := 0;
      deliveryFee := 0;
      new;
      var loggedIn := session.IsLoggedIn();
      if !loggedIn {
        return;
      }
      var empty := cart.IsEmpty();
      if empty {
        return;
      }
      open := true;
      RecalcTotals(cart, catalog, person);
    }

    /** `recalcTotals()`: a fresh subtotal, and the fee only when "delivery" is selected. */
    method RecalcTotals(cart: Cart, catalog: map<int, Lookup<Product>>, person: Lookup<Person>)
      requires cart.Valid()
      modifies this
      ensures subtotal == Subtotal(EntriesOf(cart.Contents()), catalog)
      ensures deliveryFee == (if deliverySelected then DeliveryFee(person) else 0)
      ensures open == old(open) && deliverySelected == old(deliverySelected)
    {
      subtotal := ComputeSubtotalFromCart(cart, catalog);
      deliveryFee := if deliverySelected then DeliveryFee(person) else 0;
    }

    /** Choosing "delivery" or "pickup": the radio listeners call `recalcTotals()`. */
    method ChooseDelivery(delivery: bool, cart: Cart, catalog: map<int, Lookup<Product>>, person: Lookup<Person>)
      requires cart.Valid()
      modifies this
      ensures deliverySelected == delivery && open == old(open)
      ensures subtotal == Subtotal(EntriesOf(cart.Contents()), catalog)
      ensures !delivery ==> deliveryFee == 0
      ensures delivery ==> deliveryFee == DeliveryFee(person)
    {
      deliverySelected := delivery;
      RecalcTotals(cart, catalog, person);
    }

    /** `onConfirm()`: what it returns and leaves behind is `ConfirmEffect` of the cart, the
        session and the totals as last computed; the totals themselves are not recomputed. */
    method OnConfirm(cart: Cart, session: SessionState, store: OrderStore, obsText: Option<string>, now: int,
                     headerReply: HeaderReply, catalog: map<int, Lookup<Product>>, itemReplies: map<int, ItemReply>)
      returns (outcome: ConfirmOutcome)
      requires cart.Valid()
      modifies this`open, cart, store
      ensures cart.Valid()
      ensures var e := old(ConfirmEffect(cart.Contents(), session.loggedUser, subtotal, deliveryFee, deliverySelected,
                                         obsText, now, headerReply, catalog, itemReplies));
        && outcome == e.outcome && cart.Contents() == e.cart
        && store.headers == old(store.headers) + e.headers && store.items == old(store.items) + e.items
        && open == (old(open) && !e.closes)
    {
      ghost var it := cart.Contents();
      ConfirmEffectKeepsInv(it, session.loggedUser, subtotal, deliveryFee, deliverySelected, obsText, now,
                            headerReply, catalog, itemReplies);
      ghost var e := ConfirmEffect(cart.Contents(), session.loggedUser, subtotal, deliveryFee, deliverySelected,
                                   obsText, now, headerReply, catalog, itemReplies);
      var empty := cart.IsEmpty();
      var user := session.GetLoggedUser();
      if empty {
        outcome := CartWasEmpty;
        assert e == ScreenEffect(CartWasEmpty, it, [], [], false);
        assert store.headers == old(store.headers) + [] && store.items == old(store.items) + [];
      } else if user.None? {
        outcome := NoSession;
        assert e == ScreenEffect(NoSession, it, [], [], false);
        assert store.headers == old(store.headers) + [] && store.items == old(store.items) + [];
      } else {
        assert e == Settle(it, Confirm(RequestFrom(user.value, subtotal, deliveryFee, deliverySelected, obsText,
                                                   EntriesOf(it)), now, headerReply, catalog, itemReplies));
        outcome := SubmitCart(cart, user.value, store, obsText, now, headerReply, catalog, itemReplies);
        assert outcome == e.outcome && cart.Contents() == e.cart && open == (old(open) && !e.closes);
        assert store.headers == old(store.headers) + e.headers && store.items == old(store.items) + e.items;
      }
    }

    /** The call to `confirmOrder` in `onConfirm()`: the request carries the cart's entries and
        the totals as last computed; the store answers as `Confirm` says. */
    method PlaceOrder(cart: Cart, user: User, store: OrderStore, obsText: Option<string>, now: int,
                      headerReply: HeaderReply, catalog: map<int, Lookup<Product>>, itemReplies: map<int, ItemReply>)
      returns (r: Result<int, Failure>)
      requires cart.Valid()
      modifies store
      ensures var o := old(Confirm(RequestFrom(user, subtotal, deliveryFee, deliverySelected, obsText, EntriesOf(cart.Contents())),
                                   now, headerReply, catalog, itemReplies));
        r == o.result && store.headers == old(store.headers) + o.headers && store.items == old(store.items) + o.items
    {
      var entries := cart.GetItems();
      var req := RequestFrom(user, subtotal, deliveryFee, deliverySelected, obsText, entries);
      r := store.ConfirmOrder(req, now, headerReply, catalog, itemReplies);
    }

    /** The non-empty, logged-in branch of `onConfirm()`: the cart's entries are submitted with
        the totals as last computed, and only a confirmed order empties the cart and closes the
        screen. */
    method SubmitCart(cart: Cart, user: User, store: OrderStore, obsText: Option<string>, now: int,
                      headerReply: HeaderReply, catalog: map<int, Lookup<Product>>, itemReplies: map<int, ItemReply>)
      returns (outcome: ConfirmOutcome)
      requires cart.Valid()
      modifies this`open, cart, store
      ensures var e := old(Settle(cart.Contents(), Confirm(RequestFrom(user, subtotal, deliveryFee, deliverySelected,
                                                                       obsText, EntriesOf(cart.Contents())),
                                                           now, headerReply, catalog, itemReplies)));
        && outcome == e.outcome && cart.Contents() == e.cart
        && store.headers == old(store.headers) + e.headers && store.items == old(store.items) + e.items
        && open == (old(open) && !e.closes)
    {
      var r := PlaceOrder(cart, user, store, obsText, now, headerReply, catalog, itemReplies);
      if r.Ok? {
        cart.Clear();
        open := false;   // `dispose()`
        outcome := Confirmed(r.value);
      } else {
        outcome := Rejected(r.error);
      }
    }
  }

  // ----- How the screen's numbers relate to what is stored -----

  /** The subtotal is 0 when some lookup failed, and otherwise the sum over the entries whose
      product was found. */
  lemma {:induction false} SubtotalFailsIff(es: seq<Entry>, catalog: map<int, Lookup<Product>>)
    requires Complete(es)
    ensures SubtotalRun(es, catalog).None? <==>
      exists i :: 0 <= i < |es| && Fetch(catalog, es[i].productId.value) == SqlError
    decreases |es|
  {
    if es != [] {
      var front := es[..|es| - 1];
      SubtotalFailsIff(front, catalog);
      forall i | 0 <= i < |front| ensures front[i] == es[i] {}
      if SubtotalRun(front, catalog).Some? && Fetch(catalog, es[|es| - 1].productId.value) == SqlError {
        assert 0 <= |es| - 1 < |es|;
      }
    }
  }

  function ItemsTotal(items: seq<OrderItem>): int
    decreases |items|
  {
    if items == [] then 0 else ItemsTotal(items[..|items| - 1]) + items[|items| - 1].priceAtMoment * items[|items| - 1].quantity
  }

  /** When no lookup fails and every item is written, the screen's subtotal over the same
      catalogue is exactly the sum of the stored items' `priceAtMoment * quantity`. */
  lemma {:induction false} SubtotalMatchesItems(idOrder: int, es: seq<Entry>, catalog: map<int, Lookup<Product>>,
                                                itemReplies: map<int, ItemReply>)
    requires Complete(es) && forall i :: 0 <= i < |es| ==> Usable(es[i])
    requires ItemWrites(idOrder, es, catalog, itemReplies).failure.None?
    ensures SubtotalRun(es, catalog) == Some(ItemsTotal(ItemWrites(idOrder, es, catalog, itemReplies).written))
    decreases |es|
  {
    if es != [] {
      var front := es[..|es| - 1];
      assert Usable(es[|es| - 1]);
      assert forall i :: 0 <= i < |front| ==> front[i] == es[i];
      SubtotalMatchesItems(idOrder, front, catalog, itemReplies);
      var before := ItemWrites(idOrder, front, catalog, itemReplies);
      assert ItemWrites(idOrder, es, catalog, itemReplies) == ItemStep(before, idOrder, es[|es| - 1], catalog, itemReplies);
      var prev := before.written;
      var now := ItemWrites(idOrder, es, catalog, itemReplies).written;
      if |now| > |prev| {
        assert now[..|now| - 1] == prev;
      }
    }
  }

  /** The same subtotal as the cart screen shows, whenever that screen shows one. */
  lemma {:induction false} SubtotalMatchesCartView(es: seq<Entry>, catalog: map<int, Lookup<Product>>)
    requires Complete(es) && forall i :: 0 <= i < |es| ==> Usable(es[i])
    requires View(es, catalog).Ok?
    ensures Subtotal(es, catalog) == View(es, catalog).value.subtotal
    ensures SubtotalRun(es, catalog) == Some(SumTotals(Rows(es, catalog).value))
    decreases |es|
  {
    if es != [] {
      var front := es[..|es| - 1];
      assert Usable(es[|es| - 1]);
      assert forall i :: 0 <= i < |front| ==> front[i] == es[i];
      SubtotalMatchesCartView(front, catalog);
      var prev := Rows(front, catalog).value;
      var now := Rows(es, catalog).value;
      if |now| > |prev| {
        assert now[..|now| - 1] == prev;
      }
    }
  }

  /** With an unchanged catalogue and a fully written order, the header's total is the sum
      of its items plus the delivery fee. */
  lemma HeaderTotalMatchesItems(it: Items, user: User, fee: int, deliverySelected: bool, obsText: Option<string>,
                                now: int, key: int, catalog: map<int, Lookup<Product>>, itemReplies: map<int, ItemReply>)
    requires Inv(it)
    requires var req := RequestFrom(user, Subtotal(EntriesOf(it), catalog), fee, deliverySelected, obsText, EntriesOf(it));
      Confirm(req, now, KeyReturned(key), catalog, itemReplies).result.Ok?
    ensures var req := RequestFrom(user, Subtotal(EntriesOf(it), catalog), fee, deliverySelected, obsText, EntriesOf(it));
      var o := Confirm(req, now, KeyReturned(key), catalog, itemReplies);
      o.headers[0].totalPrice == ItemsTotal(o.items) + fee
  {
    var es := EntriesOf(it);
    forall i | 0 <= i < |es| ensures Usable(es[i]) {
      var k := it.order[i];
      assert k in it.qty;
    }
    SubtotalMatchesItems(key, es, catalog, itemReplies);
  }

  /** The product of the example below: a cake with only a base price. */
  function Cake(base: int): Product {
    Product(Some(1), "Bolo", None, None, Some(base), None)
  }

  lemma CakeSubtotal(base: int)
    ensures Subtotal([Entry(Some(1), Some(2))], map[1 := Found(Cake(base))]) == 2 * base
  {
    var es := [Entry(Some(1), Some(2))];
    assert es[..0] == [];
  }

  lemma CakeItems(base: int)
    ensures ItemWrites(9, [Entry(Some(1), Some(2))], map[1 := Found(Cake(base))], map[])
      == ItemRun([OrderItem(9, 1, 2, base)], None)
  {
    var es := [Entry(Some(1), Some(2))];
    assert es[..0] == [];
  }

  /** The validation's accepting direction, for a request given as a whole. */
  lemma RequestAccepted(req: OrderRequest)
    requires req.idUser.Some? && req.idUser.value > 0
    requires req.totalPrice.Some? && req.totalPrice.value >= 0
    requires req.delivery.Some? && Trim(req.delivery.value) != []
    requires req.cartItems.Some? && req.cartItems.value != []
    ensures ValidateOrder(req).None?
  {
  }

  /** The total is taken from the screen, so a price that changes between `recalcTotals` and
      the confirmation is stored with the new price in the item and the old one in the header:
      two cakes at 10.00 shown, 15.00 by the time the order is written. */
  lemma TotalCanDisagreeWithItems()
    ensures var es := [Entry(Some(1), Some(2))];
      var req := RequestFrom(User(Some(5), None, "Ana", None, Some("a@b.com"), None),
                             Subtotal(es, map[1 := Found(Cake(1000))]), 0, false, None, es);
      var o := Confirm(req, 0, KeyReturned(9), map[1 := Found(Cake(1500))], map[]);
      && o.result == Ok(9)
      && o.headers[0].totalPrice == 2000
      && ItemsTotal(o.items) == 3000
  {
    var es := [Entry(Some(1), Some(2))];
    var user := User(Some(5), None, "Ana", None, Some("a@b.com"), None);
    CakeSubtotal(1000);
    CakeItems(1500);
    var item := OrderItem(9, 1, 2, 1500);
    assert [item][..0] == [];
  }
}
