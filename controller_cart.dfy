/** The shop's add-to-cart controller (`controller.ControllerCart`): validates the request,
    then hands it to the cart. */
module ControllerCart {
  import opened Common
  import opened Entities
  import opened CartSession

  /** The validation `addProduct` performs, in its order: the first failed check, or none. */
  function AddProductCheck(product: Option<Product>, qty: Option<Int32>): (r: Option<Failure>)
    ensures r.None? <==> product.Some? && qty.Some? && qty.value > 0
    ensures product.None? ==> r == Some(Validation("Produto inválido."))
    ensures product.Some? && qty.None? ==> r == Some(Validation("Quantidade é obrigatória."))
    ensures product.Some? && qty.Some? && qty.value <= 0 ==> r == Some(Validation("Quantidade deve ser maior que zero."))
  {
    if product.None? then Some(Validation("Produto inválido."))
    else if qty.None? then Some(Validation("Quantidade é obrigatória."))
    else if qty.value <= 0 then Some(Validation("Quantidade deve ser maior que zero."))
    else None
  }

  /** `addProduct(product, qty)`: a rejected request throws and leaves the cart alone; an
      accepted one is exactly `CartSession.add`. */
  method AddProduct(cart: Cart, product: Option<Product>, qty: Option<Int32>) returns (r: Result<(), Failure>)
    requires cart.Valid()
    modifies cart
    ensures cart.Valid()
    ensures r.Err? <==> AddProductCheck(product, qty).Some?
    ensures r.Err? ==> r.error == AddProductCheck(product, qty).value && cart.Contents() == old(cart.Contents())
    ensures r.Ok? ==> cart.Contents() == AddOp(old(cart.Contents()), product, qty.value)
  {
    var check := AddProductCheck(product, qty);
    if check.Some? {
      return Err(check.value);
    }
    cart.Add(product, qty.value);
    return Ok(());
  }

  /** An accepted request for a product with an id adds its quantity to the line (a new line
      when the product was not in the cart), unless the sum leaves the `int` range. */
  lemma AcceptedAddGrowsLine(it: Items, p: Product, q: Int32)
    requires Inv(it) && p.id.Some? && AddProductCheck(Some(p), Some(q)).None?
    requires p.id.value in it.qty ==> it.qty[p.id.value] + q <= INT_MAX
    ensures p.id.value in AddOp(it, Some(p), q).qty
    ensures AddOp(it, Some(p), q).qty[p.id.value] == (if p.id.value in it.qty then it.qty[p.id.value] else 0) + q
    ensures forall k :: k in it.qty && k != p.id.value ==> k in AddOp(it, Some(p), q).qty && AddOp(it, Some(p), q).qty[k] == it.qty[k]
  {
  }
}
