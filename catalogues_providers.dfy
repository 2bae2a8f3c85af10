/** The dictionary-backed catalogue: a SKU's unit price, or zero for an unknown SKU. */
module CatalogueProviders {

  type Sku = string

  datatype CatalogueProvider = CatalogueProvider(skuPrice: map<Sku, real>)

  /** Never fails; an absent SKU is priced at zero. */
  function GetPrice(catalogue: CatalogueProvider, sku: Sku): (price: real)
    ensures sku in catalogue.skuPrice ==> price == catalogue.skuPrice[sku]
    ensures sku !in catalogue.skuPrice ==> price == 0.0
  {
    if sku in catalogue.skuPrice then catalogue.skuPrice[sku] else 0.0
  }

  /** A price is non-zero only for a SKU that the catalogue stores. */
  lemma NonZeroPriceIsStored(catalogue: CatalogueProvider, sku: Sku)
    requires GetPrice(catalogue, sku) != 0.0
    ensures sku in catalogue.skuPrice && catalogue.skuPrice[sku] == GetPrice(catalogue, sku)
  {
  }

  /** The two catalogue tests. */
  lemma GetPriceExamples()
    ensures GetPrice(CatalogueProvider(map["PAN" := 2.0]), "PAN") == 2.0
    ensures GetPrice(CatalogueProvider(map[]), "PAN") == 0.0
  {
  }
}
