/** The basket pricer: it sums unit price times quantity over the basket and rejects a
    negative sum. Offers are not consulted; discount and total are always zero. */
module Pricer {
  import opened PricingErrors
  import opened CatalogueProviders

  /** SKU to quantity; quantities may be zero or negative. */
  type Basket = map<Sku, int>

  datatype BasketPricer = BasketPricer(catalogueProvider: CatalogueProvider)

  datatype BasketPrices = BasketPrices(subTotal: real, discount: real, total: real)

  /** Contribution of one basket entry. */
  function LineTotal(catalogue: CatalogueProvider, sku: Sku, quantity: int): real {
    GetPrice(catalogue, sku) * quantity as real
  }

  /** Sum of the line totals of all entries, taken in an arbitrary order of the keys. */
  ghost function SumPrices(catalogue: CatalogueProvider, basket: Basket): real
    decreases |basket|
  {
    if basket == map[] then 0.0
    else
      var sku :| sku in basket;
      LineTotal(catalogue, sku, basket[sku]) + SumPrices(catalogue, basket - {sku})
  }

  /** Order independence: whichever entry is taken first, the sum is the same. */
  lemma {:induction false} SumPricesRemove(catalogue: CatalogueProvider, basket: Basket, sku: Sku)
    requires sku in basket
    ensures SumPrices(catalogue, basket)
            == LineTotal(catalogue, sku, basket[sku]) + SumPrices(catalogue, basket - {sku})
    decreases |basket|
  {
    var first :| first in basket && SumPrices(catalogue, basket)
      == LineTotal(catalogue, first, basket[first]) + SumPrices(catalogue, basket - {first});
    if first != sku {
      var rest := basket - {first} - {sku};
      assert |basket - {first}| == |basket| - 1;
      SumPricesRemove(catalogue, basket - {first}, sku);
      assert (basket - {first}) - {sku} == rest;
      SumPricesRemove(catalogue, basket - {sku}, first);
      assert (basket - {sku}) - {first} == rest;
    }
  }

  /** The entries processed so far: `done` agrees with `basket` on its keys. */
  ghost predicate SubBasket(done: Basket, basket: Basket) {
    forall sku :: sku in done ==> sku in basket && done[sku] == basket[sku]
  }

  /** Sub-total of the basket: the line totals are accumulated in whatever order the
      entries are visited, and only the final sum is checked for being negative. */
  method CalculateSubTotal(pricer: BasketPricer, basket: Basket) returns (r: Result<real>)
    ensures SumPrices(pricer.catalogueProvider, basket) < 0.0 ==> r == Err(NegativeBasketPriceError)
    ensures SumPrices(pricer.catalogueProvider, basket) >= 0.0 ==> r == Ok(SumPrices(pricer.catalogueProvider, basket))
  {
    var catalogue := pricer.catalogueProvider;
    var subTotal := 0.0;
    var remaining := basket.Keys;
    ghost var done: Basket := map[];
    while remaining != {}
      invariant remaining <= basket.Keys
      invariant done.Keys == basket.Keys - remaining
      invariant SubBasket(done, basket)
      invariant subTotal == SumPrices(catalogue, done)
      decreases |remaining|
    {
      var sku :| sku in remaining;
      var quantity := basket[sku];
      subTotal := subTotal + GetPrice(catalogue, sku) * quantity as real;
      SumPricesRemove(catalogue, done[sku := quantity], sku);
      assert done[sku := quantity] - {sku} == done;
      done := done[sku := quantity];
      remaining := remaining - {sku};
    }
    assert done == basket;
    if subTotal < 0.0 {
      r := Err(NegativeBasketPriceError);
    } else {
      r := Ok(subTotal);
    }
  }

  /** The priced basket: the sub-total, with discount and total fixed at zero. */
  method CalculateBasketPrices(pricer: BasketPricer, basket: Basket) returns (r: Result<BasketPrices>)
    ensures r.Ok? <==> SumPrices(pricer.catalogueProvider, basket) >= 0.0
    ensures r.Ok? ==> r.value == BasketPrices(SumPrices(pricer.catalogueProvider, basket), 0.0, 0.0)
    ensures r.Err? ==> r.error == NegativeBasketPriceError
  {
    var subTotal := CalculateSubTotal(pricer, basket);
    match subTotal
    case Err(e) =>
      r := Err(e);
    case Ok(s) =>
      r := Ok(BasketPrices(s, 0.0, 0.0));
  }

  /** An empty basket sums to zero, so it is priced {0, 0, 0}. */
  lemma SumPricesEmpty(catalogue: CatalogueProvider)
    ensures SumPrices(catalogue, map[]) == 0.0
  {
  }

  /** Non-negative prices and quantities give a non-negative sum, so pricing cannot fail. */
  lemma {:induction false} SumPricesNonNegative(catalogue: CatalogueProvider, basket: Basket)
    requires forall sku :: sku in basket ==> GetPrice(catalogue, sku) >= 0.0 && basket[sku] >= 0
    ensures SumPrices(catalogue, basket) >= 0.0
    decreases |basket|
  {
    if basket != map[] {
      var sku :| sku in basket;
      SumPricesRemove(catalogue, basket, sku);
      SumPricesNonNegative(catalogue, basket - {sku});
      var price := GetPrice(catalogue, sku);
      var quantity := basket[sku] as real;
      assert price * quantity >= 0.0;
    }
  }

  /** A SKU the catalogue does not know contributes nothing. */
  lemma UnknownSkuContributesZero(catalogue: CatalogueProvider, basket: Basket, sku: Sku)
    requires sku in basket && sku !in catalogue.skuPrice
    ensures SumPrices(catalogue, basket) == SumPrices(catalogue, basket - {sku})
  {
    SumPricesRemove(catalogue, basket, sku);
  }

  /** Sum over an explicit listing of the entries, in the listed order (the way a dictionary's
      items are iterated). */
  function SumItems(catalogue: CatalogueProvider, items: seq<(Sku, int)>): real {
    if items == [] then 0.0
    else LineTotal(catalogue, items[0].0, items[0].1) + SumItems(catalogue, items[1..])
  }

  /** `items` lists every entry of `basket` exactly once, in some order. */
  ghost predicate Lists(items: seq<(Sku, int)>, basket: Basket) {
    && |items| == |basket|
    && (forall i :: 0 <= i < |items| ==> items[i].0 in basket && basket[items[i].0] == items[i].1)
    && (forall i, j :: 0 <= i < j < |items| ==> items[i].0 != items[j].0)
  }

  /** Every listing order of the basket's entries gives the same sum. */
  lemma {:induction false} SumItemsOrderIndependent(catalogue: CatalogueProvider, items: seq<(Sku, int)>, basket: Basket)
    requires Lists(items, basket)
    ensures SumItems(catalogue, items) == SumPrices(catalogue, basket)
    decreases |items|
  {
    if items == [] {
      assert basket == map[];
    } else {
      var sku := items[0].0;
      SumPricesRemove(catalogue, basket, sku);
      var rest := basket - {sku};
      assert |rest| == |basket| - 1;
      assert Lists(items[1..], rest) by {
        forall i | 0 <= i < |items[1..]|
          ensures items[1..][i].0 in rest && rest[items[1..][i].0] == items[1..][i].1
        {
          assert items[1..][i] == items[i + 1];
          assert items[0].0 != items[i + 1].0;
        }
        forall i, j | 0 <= i < j < |items[1..]|
          ensures items[1..][i].0 != items[1..][j].0
        {
          assert items[1..][i] == items[i + 1] && items[1..][j] == items[j + 1];
        }
      }
      SumItemsOrderIndependent(catalogue, items[1..], rest);
    }
  }

  /** A running sum may go negative on the way; only the final sum is judged: with
      prices -5 and 10 and one of each, the sum is 5 whichever entry comes first. */
  lemma NegativeRunningSumDoesNotFail()
    ensures SumPrices(CatalogueProvider(map["A" := -5.0, "B" := 10.0]), map["A" := 1, "B" := 1]) == 5.0
  {
    var catalogue := CatalogueProvider(map["A" := -5.0, "B" := 10.0]);
    var basket := map["A" := 1, "B" := 1];
    SumPricesRemove(catalogue, basket, "A");
    assert basket - {"A"} == map["B" := 1];
    SumPricesRemove(catalogue, map["B" := 1], "B");
    assert map["B" := 1] - {"B"} == map[];
  }

  /** A single item at a negative price makes the sum negative, so pricing fails. */
  lemma NegativePriceFails()
    ensures SumPrices(CatalogueProvider(map["APPLE" := -5.0]), map["APPLE" := 1]) == -5.0
  {
    var catalogue := CatalogueProvider(map["APPLE" := -5.0]);
    SumPricesRemove(catalogue, map["APPLE" := 1], "APPLE");
    assert map["APPLE" := 1] - {"APPLE"} == map[];
  }
}
