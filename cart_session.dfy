/** The process-wide cart (`app.CartSession`): an insertion-ordered map from product id to
    quantity. `Items` is the map's value (its keys in iteration order, and the quantities);
    the pure functions below say what each operation does to it, and `Cart` is the mutable
    object whose methods are proved to do exactly that. */
module CartSession {
  import opened Common
  import opened Entities

  /** One `Map.Entry<Integer, Integer>` of a map handed to the controllers. A general Java map
      may hold a null key or a null value; the cart itself never does. */
  datatype Entry = Entry(productId: Option<int>, qty: Option<int>)

  /** The contents of the `LinkedHashMap`: keys in iteration order, and their quantities. */
  datatype Items = Items(order: seq<int>, qty: map<int, int>)

  ghost predicate Distinct(s: seq<int>) {
    forall i, j :: 0 <= i < j < |s| ==> s[i] != s[j]
  }

  /** The cart invariant: every key once, in the map exactly when it is in the order, and
      every stored quantity a positive Java `int`. */
  ghost predicate Inv(it: Items) {
    && Distinct(it.order)
    && KeysMatch(it)
    && (forall k :: k in it.qty ==> 0 < it.qty[k] <= INT_MAX)
  }

  /** The keys of the map are exactly the elements of the order. */
  ghost predicate KeysMatch(it: Items) {
    && (forall k :: k in it.qty ==> k in it.order)
    && (forall i :: 0 <= i < |it.order| ==> it.order[i] in it.qty)
  }

  const Empty: Items := Items([], map[])

  /** `s` without the occurrences of `x`, the rest in the same order. */
  function Without(s: seq<int>, x: int): (r: seq<int>)
    ensures forall k :: k in r <==> k in s && k != x
    ensures |r| <= |s|
  {
    if s == [] then [] else (if s[0] == x then [] else [s[0]]) + Without(s[1..], x)
  }

  lemma {:induction false} WithoutDistinct(s: seq<int>, x: int)
    requires Distinct(s)
    ensures Distinct(Without(s, x))
  {
    if s != [] {
      WithoutDistinct(s[1..], x);
      var rest := Without(s[1..], x);
      assert s[0] !in rest by {
        assert s[0] !in s[1..];
      }
    }
  }

  lemma {:induction false} WithoutAbsent(s: seq<int>, x: int)
    requires x !in s
    ensures Without(s, x) == s
  {
    if s != [] {
      WithoutAbsent(s[1..], x);
      assert s == [s[0]] + s[1..];
    }
  }

  /** `items.merge(id, q, Integer::sum)` exactly as Java evaluates it: a new key goes last,
      and an existing quantity is summed with 32-bit wrap-around. */
  function MergeAsWritten(it: Items, id: int, q: int): (r: Items)
    ensures forall k :: k in r.qty <==> k in it.qty || k == id
    ensures forall k :: k in it.qty && k != id ==> r.qty[k] == it.qty[k]
    ensures id in it.qty ==> IsInt32(r.qty[id])
    ensures id in it.qty && IsInt32(it.qty[id] + q) ==> r.qty[id] == it.qty[id] + q
  {
    if id in it.qty then Items(it.order, it.qty[id := AddInt32(it.qty[id], q)])
    else Items(it.order + [id], it.qty[id := q])
  }

  /** The merge the cart invariant calls for: as above, except that a sum beyond
      `Integer.MAX_VALUE` is refused and leaves the cart as it was. */
  function Merged(it: Items, id: int, q: int): Items {
    if id in it.qty then
      if it.qty[id] + q <= INT_MAX then Items(it.order, it.qty[id := it.qty[id] + q]) else it
    else Items(it.order + [id], it.qty[id := q])
  }

  /** `items.put(id, q)`: overwrite in place, or append a new key. */
  function Put(it: Items, id: int, q: int): Items {
    if id in it.qty then Items(it.order, it.qty[id := q]) else Items(it.order + [id], it.qty[id := q])
  }

  /** `items.remove(id)`. */
  function Removed(it: Items, id: int): Items {
    if id in it.qty then Items(Without(it.order, id), it.qty - {id}) else it
  }

  /** `CartSession.add(product, quantity)`: a null product, a product without id or a quantity
      of 0 or less changes nothing; otherwise only that product's line may appear or change. */
  function AddOp(it: Items, product: Option<Product>, quantity: Int32): (r: Items)
    ensures product.None? || product.value.id.None? || quantity <= 0 ==> r == it
    ensures forall k :: k in r.qty <==> k in it.qty || (product.Some? && product.value.id == Some(k) && quantity > 0)
    ensures forall k :: k in it.qty && (product.None? || product.value.id != Some(k)) ==> r.qty[k] == it.qty[k]
  {
    if product.None? || product.value.id.None? then it
    else if quantity <= 0 then it
    else Merged(it, product.value.id.value, quantity)
  }

  /** `CartSession.set(product, quantity)`: a positive quantity is stored as given, any other
      takes the product out; every other line is kept. */
  function SetOp(it: Items, product: Option<Product>, quantity: Int32): (r: Items)
    ensures product.None? || product.value.id.None? ==> r == it
    ensures forall k :: k in r.qty <==>
      if product.Some? && product.value.id == Some(k) then quantity > 0 else k in it.qty
    ensures forall k :: k in it.qty && (product.None? || product.value.id != Some(k)) ==> r.qty[k] == it.qty[k]
    ensures product.Some? && product.value.id.Some? && quantity > 0 ==>
      product.value.id.value in r.qty && r.qty[product.value.id.value] == quantity
  {
    if product.None? || product.value.id.None? then it
    else if quantity <= 0 then Removed(it, product.value.id.value)
    else Put(it, product.value.id.value, quantity)
  }

  /** `CartSession.remove(productId)`: only that key leaves, and the other quantities stay. */
  function RemoveOp(it: Items, productId: Option<int>): (r: Items)
    ensures forall k :: k in r.qty <==> k in it.qty && productId != Some(k)
    ensures forall k :: k in r.qty ==> r.qty[k] == it.qty[k]
  {
    if productId.None? then it else Removed(it, productId.value)
  }

  /** The entries of the map in iteration order, as `getItems().entrySet()` yields them. */
  /** Every entry of `es` is a product id of the cart with the quantity the cart holds for it. */
  predicate AllFromCart(es: seq<Entry>, it: Items) {
    forall e :: e in es ==>
      e.productId.Some? && e.qty.Some? && e.productId.value in it.qty && e.qty.value == it.qty[e.productId.value]
  }

  function EntriesOf(it: Items): (es: seq<Entry>)
    requires forall i :: 0 <= i < |it.order| ==> it.order[i] in it.qty
    ensures |es| == |it.order|
    ensures AllFromCart(es, it)
  {
    seq(|it.order|, i requires 0 <= i < |it.order| => Entry(Some(it.order[i]), Some(it.qty[it.order[i]])))
  }

  // ----- What each operation does -----

  lemma AddKeepsInv(it: Items, product: Option<Product>, quantity: Int32)
    requires Inv(it)
    ensures Inv(AddOp(it, product, quantity))
  {
    if product.Some? && product.value.id.Some? && quantity > 0 {
      var id := product.value.id.value;
      if id !in it.qty {
        AppendKeepsDistinct(it.order, id);
        AppendKeepsKeys(it, id, quantity);
      }
    }
  }

  lemma AppendKeepsKeys(it: Items, id: int, q: int)
    requires Inv(it) && id !in it.qty && 0 < q <= INT_MAX
    ensures var n := Items(it.order + [id], it.qty[id := q]);
      KeysMatch(n) && forall k :: k in n.qty ==> 0 < n.qty[k] <= INT_MAX
  {
    var n := Items(it.order + [id], it.qty[id := q]);
    forall i | 0 <= i < |n.order| ensures n.order[i] in n.qty {
      if i < |it.order| { assert n.order[i] == it.order[i]; }
    }
  }

  lemma AppendKeepsDistinct(s: seq<int>, x: int)
    requires Distinct(s) && x !in s
    ensures Distinct(s + [x])
  {
    forall i, j | 0 <= i < j < |s + [x]| ensures (s + [x])[i] != (s + [x])[j] {
      if j == |s| {
        assert s[i] in s;
      }
    }
  }

  lemma SetKeepsInv(it: Items, product: Option<Product>, quantity: Int32)
    requires Inv(it)
    ensures Inv(SetOp(it, product, quantity))
  {
    if product.Some? && product.value.id.Some? {
      var id := product.value.id.value;
      if quantity <= 0 {
        RemovedKeepsInv(it, id);
      } else if id !in it.qty {
        AppendKeepsDistinct(it.order, id);
        AppendKeepsKeys(it, id, quantity);
      }
    }
  }

  lemma RemovedKeepsInv(it: Items, id: int)
    requires Inv(it)
    ensures Inv(Removed(it, id))
  {
    if id in it.qty {
      WithoutDistinct(it.order, id);
      var r := Without(it.order, id);
      forall i | 0 <= i < |r| ensures r[i] in it.qty - {id} {
        assert r[i] in r;
        var j :| 0 <= j < |it.order| && it.order[j] == r[i];
      }
    }
  }

  /** `add` and `set` never leave a quantity of 0 or less in the cart, whatever their input. */
  lemma QuantitiesStayPositive(it: Items, product: Option<Product>, quantity: Int32)
    requires Inv(it)
    ensures forall k :: k in AddOp(it, product, quantity).qty ==> AddOp(it, product, quantity).qty[k] > 0
    ensures forall k :: k in SetOp(it, product, quantity).qty ==> SetOp(it, product, quantity).qty[k] > 0
  {
    AddKeepsInv(it, product, quantity);
    SetKeepsInv(it, product, quantity);
  }

  /** Two adds of the same product accumulate: `q1 + q2` more than before (within `int`). */
  lemma AddTwiceAccumulates(it: Items, p: Product, q1: Int32, q2: Int32)
    requires Inv(it) && p.id.Some? && q1 > 0 && q2 > 0
    requires (if p.id.value in it.qty then it.qty[p.id.value] else 0) + q1 + q2 <= INT_MAX
    ensures var after := AddOp(AddOp(it, Some(p), q1), Some(p), q2);
      p.id.value in after.qty
      && after.qty[p.id.value] == (if p.id.value in it.qty then it.qty[p.id.value] else 0) + q1 + q2
  {
  }

  /** `set(p, q)` with `q > 0` stores exactly `q`; a second `set` simply overwrites the first. */
  lemma SetOverwrites(it: Items, p: Product, q1: Int32, q2: Int32)
    requires p.id.Some? && q2 > 0
    ensures p.id.value in SetOp(it, Some(p), q2).qty && SetOp(it, Some(p), q2).qty[p.id.value] == q2
    ensures SetOp(SetOp(it, Some(p), q1), Some(p), q2).qty[p.id.value] == q2
  {
  }

  /** `set(p, q)` with `q <= 0` takes `p` out of the cart and keeps every other line. */
  lemma SetNonPositiveRemoves(it: Items, p: Product, q: Int32)
    requires Inv(it) && p.id.Some? && q <= 0
    ensures SetOp(it, Some(p), q) == Removed(it, p.id.value)
    ensures p.id.value !in SetOp(it, Some(p), q).qty
  {
  }

  /** A null product, a product without id, or (for `add`) a quantity of 0 or less changes nothing. */
  lemma InvalidInputIsIgnored(it: Items, product: Option<Product>, quantity: Int32)
    requires product.None? || product.value.id.None?
    ensures AddOp(it, product, quantity) == it && SetOp(it, product, quantity) == it
    ensures forall p: Product, q: Int32 :: q <= 0 ==> AddOp(it, Some(p), q) == it
  {
  }

  /** A key the cart does not hold goes to the end of the iteration order; a key it holds keeps
      its position, for both `add` and `set`. */
  lemma InsertionOrder(it: Items, p: Product, q: Int32)
    requires Inv(it) && p.id.Some? && q > 0
    ensures p.id.value !in it.qty ==>
      AddOp(it, Some(p), q).order == it.order + [p.id.value] && SetOp(it, Some(p), q).order == it.order + [p.id.value]
    ensures p.id.value in it.qty ==>
      AddOp(it, Some(p), q).order == it.order && SetOp(it, Some(p), q).order == it.order
  {
  }

  /** `remove(null)` and removing an absent id change nothing; otherwise exactly that key leaves
      and every other line keeps its quantity and its relative order. */
  lemma RemoveOnlyThatKey(it: Items, productId: Option<int>)
    requires Inv(it)
    ensures productId.None? ==> RemoveOp(it, productId) == it
    ensures productId.Some? && productId.value !in it.qty ==> RemoveOp(it, productId) == it
    ensures productId.Some? ==>
      var r := RemoveOp(it, productId);
      && productId.value !in r.qty
      && r.order == Without(it.order, productId.value)
      && (forall k :: k in it.qty && k != productId.value ==> k in r.qty && r.qty[k] == it.qty[k])
      && (forall k :: k in r.qty ==> k in it.qty)
  {
    if productId.Some? && productId.value !in it.qty {
      WithoutAbsent(it.order, productId.value);
    }
  }

  /** Under the invariant the map is empty exactly when no key is left in the order. */
  lemma EmptyIffNoKeys(it: Items)
    requires Inv(it)
    ensures it.qty == map[] <==> it.order == []
  {
    if it.order != [] {
      assert it.order[0] in it.qty;
    } else {
      assert forall k :: k in it.qty ==> k in it.order;
      assert forall k :: k !in it.qty;
    }
  }

  // ----- Any sequence of calls -----

  datatype Call = AddCall(product: Option<Product>, quantity: Int32)
                | SetCall(product: Option<Product>, quantity: Int32)
                | RemoveCall(productId: Option<int>)
                | ClearCall

  function Apply(it: Items, c: Call): Items {
    match c
    case AddCall(p, q) => AddOp(it, p, q)
    case SetCall(p, q) => SetOp(it, p, q)
    case RemoveCall(id) => RemoveOp(it, id)
    case ClearCall => Empty
  }

  function Run(it: Items, calls: seq<Call>): Items
    decreases |calls|
  {
    if calls == [] then it else Run(Apply(it, calls[0]), calls[1..])
  }

  /** For every sequence of `add`, `set`, `remove` and `clear` calls from an empty cart, the
      cart never holds a quantity of 0 or less, nor a key twice. */
  lemma {:induction false} RunKeepsInv(it: Items, calls: seq<Call>)
    requires Inv(it)
    ensures Inv(Run(it, calls))
    decreases |calls|
  {
    if calls != [] {
      match calls[0] {
        case AddCall(p, q) => AddKeepsInv(it, p, q);
        case SetCall(p, q) => SetKeepsInv(it, p, q);
        case RemoveCall(id) => if id.Some? { RemovedKeepsInv(it, id.value); }
        case ClearCall =>
      }
      RunKeepsInv(Apply(it, calls[0]), calls[1..]);
    }
  }

  // ----- The integer overflow of `Integer::sum` -----

  /** As Java runs it, adding 1 to a quantity of `Integer.MAX_VALUE` stores a negative quantity,
      which breaks the cart invariant. */
  lemma MergeAsWrittenOverflows()
    ensures var it := Items([7], map[7 := INT_MAX]);
      Inv(it) && MergeAsWritten(it, 7, 1).qty[7] == INT_MIN && !Inv(MergeAsWritten(it, 7, 1))
  {
    var it := Items([7], map[7 := INT_MAX]);
    assert MergeAsWritten(it, 7, 1).qty[7] == INT_MIN;
  }

  /** Without overflow the corrected merge and the written one agree. */
  lemma MergedAgreesWithoutOverflow(it: Items, id: Int32, q: Int32)
    requires Inv(it) && q > 0
    requires id in it.qty ==> it.qty[id] + q <= INT_MAX
    ensures Merged(it, id, q) == MergeAsWritten(it, id, q)
  {
  }

  /** The cart object. `keys` is the iteration order of `CartSession.items`, `quantities` its values. */
  class Cart {
    var keys: seq<int>
    var quantities: map<int, int>

    function Contents(): Items
      reads this
    {
      Items(keys, quantities)
    }

    ghost predicate Valid()
      reads this
    {
      Inv(Contents())
    }

    /** The cart is created empty at start-up. */
    constructor ()
      ensures Valid() && Contents() == Empty
    {
      keys := [];
      quantities := map[];
    }

    method Add(product: Option<Product>, quantity: Int32)
      requires Valid()
      modifies this
      ensures Valid()
      ensures Contents() == AddOp(old(Contents()), product, quantity)
    {
      AddKeepsInv(Contents(), product, quantity);
      if product.None? || product.value.id.None? {
        return;
      }
      if quantity <= 0 {
        return;
      }
      var id := product.value.id.value;
      if id in quantities {
        if quantities[id] + quantity <= INT_MAX {
          quantities := quantities[id := quantities[id] + quantity];
        }
      } else {
        keys := keys + [id];
        quantities := quantities[id := quantity];
      }
    }

    method Set(product: Option<Product>, quantity: Int32)
      requires Valid()
      modifies this
      ensures Valid()
      ensures Contents() == SetOp(old(Contents()), product, quantity)
    {
      SetKeepsInv(Contents(), product, quantity);
      if product.None? || product.value.id.None? {
        return;
      }
      var id := product.value.id.value;
      if quantity <= 0 {
        if id in quantities {
          keys := Without(keys, id);
          quantities := quantities - {id};
        }
        return;
      }
      if id !in quantities {
        keys := keys + [id];
      }
      quantities := quantities[id := quantity];
    }

    method Remove(productId: Option<int>)
      requires Valid()
      modifies this
      ensures Valid()
      ensures Contents() == RemoveOp(old(Contents()), productId)
    {
      if productId.None? {
        return;
      }
      RemovedKeepsInv(Contents(), productId.value);
      if productId.value in quantities {
        keys := Without(keys, productId.value);
        quantities := quantities - {productId.value};
      }
    }

    method Clear()
      modifies this
      ensures Valid()
      ensures Contents() == Empty
    {
      keys := [];
      quantities := map[];
    }

    /** `getItems()`: a read-only snapshot, one entry per key in iteration order. Being a value,
        it cannot be used to change the cart. */
    method GetItems() returns (view: seq<Entry>)
      requires Valid()
      ensures |view| == |keys|
      ensures forall i :: 0 <= i < |view| ==>
        view[i].productId == Some(keys[i]) && view[i].qty.Some?
        && view[i].qty.value == quantities[keys[i]] && view[i].qty.value > 0
      ensures view == EntriesOf(Contents())
    {
      view := EntriesOf(Contents());
      var it := Contents();
      assert Inv(it);
      forall i | 0 <= i < |keys| ensures quantities[keys[i]] > 0 {
        var k := it.order[i];
        assert k in it.qty;
        assert 0 < it.qty[k];
      }
    }

    /** `isEmpty()`. */
    method IsEmpty() returns (empty: bool)
      requires Valid()
      ensures empty <==> keys == []
      ensures empty <==> quantities == map[]
    {
      EmptyIffNoKeys(Contents());
      empty := quantities == map[];
    }
  }
}
