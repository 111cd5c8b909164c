/** The unit-price rule `base + size.price + flavor.level.price`, an absent part counting as 0.
    The source repeats this rule in every screen and controller that prices a product;
    it is stated once here. */
module Pricing {
  import opened Common
  import opened Entities

  function BasePart(p: Product): int {
    if p.basePrice.Some? then p.basePrice.value else 0
  }

  function SizePart(p: Product): int {
    if p.size.Some? && p.size.value.price.Some? then p.size.value.price.value else 0
  }

  function LevelPart(p: Product): int {
    if p.flavor.Some? && p.flavor.value.level.Some? && p.flavor.value.level.value.price.Some?
    then p.flavor.value.level.value.price.value
    else 0
  }

  /** `computeUnitPrice(Product)`: never negative when no recorded price is, and 0 for a
      product with no price recorded anywhere. */
  function UnitPrice(p: Product): (price: int)
    ensures BasePart(p) >= 0 && SizePart(p) >= 0 && LevelPart(p) >= 0 ==> price >= 0
    ensures p.basePrice.None? && p.size.None? && p.flavor.None? ==> price == 0
  {
    BasePart(p) + SizePart(p) + LevelPart(p)
  }

  /** A product whose three prices are all recorded costs exactly their sum. */
  lemma UnitPriceOfCompleteProduct(p: Product, base: int, size: int, level: int)
    requires p.basePrice == Some(base)
    requires p.size.Some? && p.size.value.price == Some(size)
    requires p.flavor.Some? && p.flavor.value.level.Some? && p.flavor.value.level.value.price == Some(level)
    ensures UnitPrice(p) == base + size + level
  {
  }

  /** A missing size, flavor, level or price contributes nothing: dropping any part gives the
      same price as recording that part with price 0. */
  lemma MissingPartsCountAsZero(p: Product)
    ensures UnitPrice(p.(basePrice := None)) == UnitPrice(p.(basePrice := Some(0)))
    ensures p.size.Some? ==> UnitPrice(p.(size := None)) == UnitPrice(p.(size := Some(p.size.value.(price := Some(0)))))
    ensures p.flavor.Some? && p.flavor.value.level.Some? ==>
      UnitPrice(p.(flavor := None))
      == UnitPrice(p.(flavor := Some(p.flavor.value.(level := Some(p.flavor.value.level.value.(price := Some(0)))))))
    ensures p.flavor.Some? ==>
      UnitPrice(p.(flavor := Some(p.flavor.value.(level := None)))) == UnitPrice(p.(flavor := None))
    ensures UnitPrice(Product(p.id, p.name, None, None, None, p.description)) == 0
  {
  }

  /** Raising any one of the three prices never lowers the unit price, and it raises the unit
      price by exactly the same amount. */
  lemma UnitPriceMonotonic(p: Product, q: Product)
    requires BasePart(p) <= BasePart(q) && SizePart(p) <= SizePart(q) && LevelPart(p) <= LevelPart(q)
    ensures UnitPrice(p) <= UnitPrice(q)
    ensures UnitPrice(q) - UnitPrice(p) == (BasePart(q) - BasePart(p)) + (SizePart(q) - SizePart(p)) + (LevelPart(q) - LevelPart(p))
  {
  }

  /** A product none of whose recorded prices is negative has a non-negative unit price. */
  lemma UnitPriceNonNegative(p: Product)
    requires p.basePrice.Some? ==> p.basePrice.value >= 0
    requires p.size.Some? && p.size.value.price.Some? ==> p.size.value.price.value >= 0
    requires p.flavor.Some? && p.flavor.value.level.Some? && p.flavor.value.level.value.price.Some? ==>
      p.flavor.value.level.value.price.value >= 0
    ensures UnitPrice(p) >= 0
  {
  }
}
