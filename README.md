# Shopping-basket pricer, modelled in Dafny

This project models the pricing logic of a small shopping-basket calculator. It covers:

- **Offers**: two discount rules behind one "calculate discount" capability. The first takes a percentage off the line price. The second makes one unit in every `oneFreeAfter + 1` free. Each rule checks its parameter only when a discount is computed, and fails with a fixed message when the parameter is out of range.
- **Catalogue lookup**: a SKU's unit price, or zero for a SKU the catalogue does not know.
- **Offer lookup**: the offers stored for a SKU, in order, or an empty list for a SKU it does not know.
- **Basket pricer**: it adds up unit price × quantity over the basket's entries. It fails with a negative-basket-price error if the final sum is negative. Otherwise it returns `{sub_total, discount: 0, total: 0}`.

Modelling decisions:

- Money is an exact `real`. Quantities are `int`, and zero or negative quantities are allowed.
- The percentage rule keeps the source's check order: it tests for a negative percent first, then for one above 100.
- Python's `//` stands for floor division. `FreeUnits` states floor division directly, as quotient bounds. These bounds also hold when the quantity is negative. The divisor is at least one because the negative-parameter check comes first.
- A basket is a `map<string, int>`. The sub-total loop takes the remaining SKUs in an arbitrary order, so the method is proved for every order of visiting them.
- `SumPrices` is the reference sum. `SumPricesRemove` proves that it does not depend on which entry is taken first.
- `SumItemsOrderIndependent` proves that summing any listing of the entries gives the same result, as in a dictionary's iteration order.
- The negative check runs once, on the final sum. `NegativeRunningSumDoesNotFail` shows a basket whose running sum goes negative and that still prices successfully.
- The pricer is modelled with the dictionary-backed catalogue. Catalogue, offer lookup, offers and basket are immutable values, so no operation can change them.

Where the design description and the code disagree, the model follows the code:

- The pricer does not consult offers.
- It does not select a best offer.
- It does not round.
- Both `discount` and `total` are the literal `0`.
- The only negativity check is on the sub-total.

`calculate_basket_prices` only wraps one call. It is a method here, `Pricer.CalculateBasketPrices`, because the sub-total it calls is computed by a loop method.

## Model

| member | source | states |
|---|---|---|
| `Offers.PercentageDiscount` | shopping_basket/basket_pricer/offers.py:20-28 | succeeds exactly when 0 ≤ percent ≤ 100; a negative percent fails with "Discount percentage cannot be negative", one above 100 with "Discount percentage cannot be higher than 100%"; on success discount × 100 = price × quantity × percent |
| `Offers.FreeUnits` | shopping_basket/basket_pricer/offers.py:42 | the number of free units is the floor of quantity / (n+1): k·(n+1) ≤ quantity < (k+1)·(n+1), for every integer quantity |
| `Offers.EveryXFreeDiscount` | shopping_basket/basket_pricer/offers.py:37-43 | fails exactly when one_free_after < 0, with "One free after X bought value cannot be negative", before any division; otherwise the discount is the floor count of free units times the price |
| `Offers.CalculateDiscount` | shopping_basket/basket_pricer/offers.py:8-11 | the common capability: succeeds exactly for a valid offer, fails only with an offer-configuration error, and dispatches to the rule of the offer's kind |
| `Offers.PercentageDiscountWithinLinePrice` | shopping_basket/basket_pricer/offers.py:21-28 | with a percent in [0, 100], price ≥ 0 and quantity ≥ 0, 0 ≤ discount ≤ price × quantity |
| `Offers.FullPercentageIsLinePrice` | shopping_basket/basket_pricer/offers.py:28 | at 100 percent the discount is the whole line price |
| `Offers.EveryUnitFreeAfterZero` | shopping_basket/basket_pricer/offers.py:42-43 | with one_free_after = 0 every unit is free: discount = quantity × price |
| `Offers.EveryXFreeDiscountWithinLinePrice` | shopping_basket/basket_pricer/offers.py:38-43 | with one_free_after ≥ 0, price ≥ 0 and quantity ≥ 0, 0 ≤ discount ≤ quantity × price |
| `Offers.DiscountWithinLinePrice` | shopping_basket/basket_pricer/offers.py:20-43 | for any valid offer and non-negative price and quantity, the discount succeeds and lies within [0, line price] |
| `Offers.PercentageDiscountExamples` | shopping_basket/shopping_basket_tests/test_offers.py:9-47 | 10% of 5×1 is 0.5, 100% of 5×1 is 5, 10% of 5×3 is 1.5; -3% and 101% fail with the exact messages |
| `Offers.EveryXFreeDiscountExamples` | shopping_basket/shopping_basket_tests/test_offers.py:50-85 | with n = 2 and price 5: quantity 3 gives 5, 8 gives 10, 0 gives 0; n = 0 and quantity 1 gives 5; n = -1 fails with the exact message |
| `CatalogueProviders.GetPrice` | shopping_basket/basket_pricer/catalogues_providers.py:18-19 | total lookup: the stored price for a known SKU, 0 for an unknown one |
| `CatalogueProviders.NonZeroPriceIsStored` | shopping_basket/basket_pricer/catalogues_providers.py:19 | a non-zero price can only come from a SKU stored in the catalogue |
| `CatalogueProviders.GetPriceExamples` | shopping_basket/shopping_basket_tests/test_catalogue_providers.py:6-13 | {PAN: 2} prices PAN at 2; the empty catalogue prices PAN at 0 |
| `OfferProviders.GetOffers` | shopping_basket/basket_pricer/offer_providers.py:19-20 | total lookup: the stored offer list (same order) for a known SKU, the empty list for an unknown one |
| `OfferProviders.GetOffersKeepsOrder` | shopping_basket/basket_pricer/offer_providers.py:20 | the i-th returned offer is the i-th stored offer of that SKU |
| `OfferProviders.GetOffersExamples` | shopping_basket/shopping_basket_tests/test_offer_providers.py:7-34 | one and two stored offers come back as stored; a SKU mapped to [] and an absent SKU both give [] |
| `Pricer.CalculateSubTotal` | shopping_basket/basket_pricer/pricer.py:13-20 | the loop accumulates price × quantity over the entries in any visiting order; the result is the sum over the basket, or the negative-basket-price error exactly when that final sum is negative |
| `Pricer.CalculateBasketPrices` | shopping_basket/basket_pricer/pricer.py:22-31 | succeeds exactly when the sum is non-negative, returning {sub_total: the sum, discount: 0, total: 0}; otherwise the negative-basket-price error and no record |
| `Pricer.SumPricesRemove` | shopping_basket/basket_pricer/pricer.py:15-16 | the sum is independent of visiting order: any entry may be taken first, leaving the sum of the rest |
| `Pricer.SumItemsOrderIndependent` | shopping_basket/basket_pricer/pricer.py:15-16 | summing any listing of the basket's entries (each exactly once, in any order) gives the same sub-total |
| `Pricer.SumPricesEmpty` | shopping_basket/basket_pricer/pricer.py:14 | the empty basket sums to 0, so it is priced {0, 0, 0} without error |
| `Pricer.SumPricesNonNegative` | shopping_basket/basket_pricer/pricer.py:14-20 | if every looked-up price and every quantity is ≥ 0, the sum is ≥ 0, so pricing never fails |
| `Pricer.UnknownSkuContributesZero` | shopping_basket/basket_pricer/pricer.py:16 | an entry whose SKU is absent from the catalogue does not change the sum |
| `Pricer.NegativeRunningSumDoesNotFail` | shopping_basket/basket_pricer/pricer.py:15-19 | prices -5 and 10, one of each: the sum is 5 whatever the order, so a negative running sum does not fail |
| `Pricer.NegativePriceFails` | shopping_basket/basket_pricer/pricer.py:18-19 | a single APPLE at -5 sums to -5, so the pricer raises the negative-basket-price error |

## Left out

- Python `Decimal` context: the 28-digit precision, quantization and signals are not modelled. The operations used (addition, multiplication by an integer, division by 100) are exact on `real`.
- Best-offer selection, rounding, and `total = sub_total - discount`: the pricer code does not implement them, so they are not modelled.
- The abstract interfaces (`BaseOffer`, `BaseCatalogueProvider`, `BaseOfferProvider`, and `interfaces.py`) are not modelled as interfaces. The offer capability is a function over the two offer kinds. The pricer uses the dictionary-backed catalogue.
- Exception classes: they are modelled as the two variants of `PricingError`. The negative-basket-price exception carries no message.
- Dictionary insertion order: the model's basket is a map with no order. Order only matters through the iteration, and `SumItemsOrderIndependent` shows that it makes no difference.
- The demo script is left out. It only prints results, and its two-argument `BasketPricer(CATALOGUE, OFFERS)` call does not match the single-field pricer. The tests are used only for the concrete values in the example lemmas.
