/** The dictionary-backed offer lookup: the offers stored for a SKU, in their stored order,
    or none for an unknown SKU. */
module OfferProviders {
  import opened Offers

  datatype OfferProvider = OfferProvider(skuOffers: map<string, seq<Offer>>)

  /** Never fails; an absent SKU has no offers. */
  function GetOffers(provider: OfferProvider, sku: string): (offers: seq<Offer>)
    ensures sku in provider.skuOffers ==> offers == provider.skuOffers[sku]
    ensures sku !in provider.skuOffers ==> offers == []
  {
    if sku in provider.skuOffers then provider.skuOffers[sku] else []
  }

  /** Every offer returned is one stored for that SKU, at the same position. */
  lemma GetOffersKeepsOrder(provider: OfferProvider, sku: string, i: nat)
    requires i < |GetOffers(provider, sku)|
    ensures sku in provider.skuOffers && i < |provider.skuOffers[sku]|
    ensures GetOffers(provider, sku)[i] == provider.skuOffers[sku][i]
  {
  }

  /** The offer-lookup tests. */
  lemma GetOffersExamples()
    ensures GetOffers(OfferProvider(map["PAN" := [Percentage(10.0)]]), "PAN") == [Percentage(10.0)]
    ensures GetOffers(OfferProvider(map["PAN" := [Percentage(10.0), Percentage(5.0)]]), "PAN")
            == [Percentage(10.0), Percentage(5.0)]
    ensures GetOffers(OfferProvider(map["PAN" := []]), "PAN") == []
    ensures GetOffers(OfferProvider(map[]), "PAN") == []
  {
  }
}
