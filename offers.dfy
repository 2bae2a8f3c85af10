/** Offer discount rules: a percentage off the line price, or every (n+1)-th unit free.
    Parameters are stored as given and validated each time a discount is computed. */
module Offers {
  import opened PricingErrors

  datatype Offer =
    | Percentage(discountPercent: real)
    | EveryXFree(oneFreeAfter: int)

  const NegativePercentMessage: string := "Discount percentage cannot be negative"
  const PercentAbove100Message: string := "Discount percentage cannot be higher than 100%"
  const NegativeFreeAfterMessage: string := "One free after X bought value cannot be negative"

  /** The parameter ranges that the two discount rules accept. */
  predicate ValidOffer(offer: Offer) {
    match offer
    case Percentage(p) => 0.0 <= p <= 100.0
    case EveryXFree(n) => n >= 0
  }

  /** Undiscounted price of `quantity` units at `price` each. */
  function LinePrice(price: real, quantity: int): real {
    price * quantity as real
  }

  /** Percentage rule: the negative check comes first, then the upper bound,
      and only a percent in [0, 100] yields a discount. */
  function PercentageDiscount(discountPercent: real, price: real, quantity: int): (r: Result<real>)
    ensures r.Ok? <==> 0.0 <= discountPercent <= 100.0
    ensures discountPercent < 0.0 ==> r == Err(OfferConfigurationError(NegativePercentMessage))
    ensures discountPercent > 100.0 ==> r == Err(OfferConfigurationError(PercentAbove100Message))
    ensures r.Ok? ==> r.value * 100.0 == LinePrice(price, quantity) * discountPercent
  {
    if discountPercent < 0.0 then
      Err(OfferConfigurationError(NegativePercentMessage))
    else if discountPercent > 100.0 then
      Err(OfferConfigurationError(PercentAbove100Message))
    else
      Ok((price * quantity as real * discountPercent) / 100.0)
  }

  /** Number of free units when one in every `oneFreeAfter + 1` is free: the floor of the
      quotient, also for a negative quantity (so this is floor division, not truncation). */
  function FreeUnits(quantity: int, oneFreeAfter: nat): (k: int)
    ensures k * (oneFreeAfter + 1) <= quantity < (k + 1) * (oneFreeAfter + 1)
  {
    quantity / (oneFreeAfter + 1)
  }

  /** Every-X-free rule: a negative parameter is rejected before anything is divided,
      so the divisor is at least one. */
  function EveryXFreeDiscount(oneFreeAfter: int, price: real, quantity: int): (r: Result<real>)
    ensures r.Ok? <==> oneFreeAfter >= 0
    ensures r.Err? ==> r.error == OfferConfigurationError(NegativeFreeAfterMessage)
    ensures r.Ok? ==> r.value == FreeUnits(quantity, oneFreeAfter) as real * price
  {
    if oneFreeAfter < 0 then
      Err(OfferConfigurationError(NegativeFreeAfterMessage))
    else
      var numberOfFreeProducts := quantity / (oneFreeAfter + 1);
      Ok(numberOfFreeProducts as real * price)
  }

  /** The common discount capability of both offer kinds. */
  function CalculateDiscount(offer: Offer, price: real, quantity: int): (r: Result<real>)
    ensures r.Ok? <==> ValidOffer(offer)
    ensures r.Err? ==> r.error.OfferConfigurationError?
    ensures offer.Percentage? ==> r == PercentageDiscount(offer.discountPercent, price, quantity)
    ensures offer.EveryXFree? ==> r == EveryXFreeDiscount(offer.oneFreeAfter, price, quantity)
  {
    match offer
    case Percentage(p) => PercentageDiscount(p, price, quantity)
    case EveryXFree(n) => EveryXFreeDiscount(n, price, quantity)
  }

  /** A percent in [0, 100] on a non-negative line price never gives a negative discount
      nor one larger than the line price. */
  lemma PercentageDiscountWithinLinePrice(discountPercent: real, price: real, quantity: int)
    requires 0.0 <= discountPercent <= 100.0
    requires price >= 0.0 && quantity >= 0
    ensures PercentageDiscount(discountPercent, price, quantity).Ok?
    ensures 0.0 <= PercentageDiscount(discountPercent, price, quantity).value <= LinePrice(price, quantity)
  {
  }

  /** At 100 percent the whole line price is given back. */
  lemma FullPercentageIsLinePrice(price: real, quantity: int)
    ensures PercentageDiscount(100.0, price, quantity) == Ok(LinePrice(price, quantity))
  {
  }

  /** With `oneFreeAfter = 0` every unit is free. */
  lemma EveryUnitFreeAfterZero(price: real, quantity: int)
    ensures EveryXFreeDiscount(0, price, quantity) == Ok(LinePrice(price, quantity))
  {
    assert FreeUnits(quantity, 0) == quantity;
    assert EveryXFreeDiscount(0, price, quantity).value == quantity as real * price;
    assert quantity as real * price == price * quantity as real;
  }

  /** For a non-negative quantity and price the every-X-free discount lies between zero and
      the line price. */
  lemma EveryXFreeDiscountWithinLinePrice(oneFreeAfter: nat, price: real, quantity: int)
    requires price >= 0.0 && quantity >= 0
    ensures EveryXFreeDiscount(oneFreeAfter, price, quantity).Ok?
    ensures 0.0 <= EveryXFreeDiscount(oneFreeAfter, price, quantity).value <= LinePrice(price, quantity)
  {
    var k := FreeUnits(quantity, oneFreeAfter);
    assert 0 <= k <= quantity by { FreeUnitsBounds(quantity, oneFreeAfter); }
    assert k as real * price <= quantity as real * price;
  }

  /** For a valid offer, a non-negative price and quantity, either rule stays within the line price. */
  lemma DiscountWithinLinePrice(offer: Offer, price: real, quantity: int)
    requires ValidOffer(offer)
    requires price >= 0.0 && quantity >= 0
    ensures CalculateDiscount(offer, price, quantity).Ok?
    ensures 0.0 <= CalculateDiscount(offer, price, quantity).value <= LinePrice(price, quantity)
  {
    match offer
    case Percentage(p) => PercentageDiscountWithinLinePrice(p, price, quantity);
    case EveryXFree(n) => EveryXFreeDiscountWithinLinePrice(n, price, quantity);
  }

  /** Values the rule tests pin down. */
  lemma PercentageDiscountExamples()
    ensures PercentageDiscount(10.0, 5.0, 1) == Ok(0.5)
    ensures PercentageDiscount(100.0, 5.0, 1) == Ok(5.0)
    ensures PercentageDiscount(10.0, 5.0, 3) == Ok(1.5)
    ensures PercentageDiscount(-3.0, 5.0, 1) == Err(OfferConfigurationError("Discount percentage cannot be negative"))
    ensures PercentageDiscount(101.0, 5.0, 1) == Err(OfferConfigurationError("Discount percentage cannot be higher than 100%"))
  {
  }

  lemma EveryXFreeDiscountExamples()
    ensures EveryXFreeDiscount(2, 5.0, 3) == Ok(5.0)
    ensures EveryXFreeDiscount(2, 5.0, 8) == Ok(10.0)
    ensures EveryXFreeDiscount(2, 5.0, 0) == Ok(0.0)
    ensures EveryXFreeDiscount(0, 5.0, 1) == Ok(5.0)
    ensures EveryXFreeDiscount(-1, 5.0, 1) == Err(OfferConfigurationError("One free after X bought value cannot be negative"))
  {
  }

  /** The free-unit count of a non-negative quantity lies between zero and the quantity. */
  lemma FreeUnitsBounds(quantity: int, oneFreeAfter: nat)
    requires quantity >= 0
    ensures 0 <= FreeUnits(quantity, oneFreeAfter) <= quantity
  {
  }
}
