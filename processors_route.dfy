/**
  `GET /api/data/processors`: the normalised offers of the vendor dataset and
  the metadata a filter sidebar needs (the number of offers, the distinct
  non-empty brands, generations, series and vendors in code-point order, and the
  price range). The dataset is a parameter.
 */
module ProcessorsRoute {
  import opened Wrappers
  import opened Seqs
  import opened Text
  import opened JsNumber
  import opened Facets
  import opened Processors

  datatype Meta = Meta(
    count: nat,
    brands: seq<string>,
    generations: seq<string>,
    series: seq<string>,
    vendors: seq<string>,
    priceRange: (Num, Num))

  /** The JSON body of the answer. */
  datatype Body = Body(offers: seq<Offer>, meta: Meta)

  predicate NonBlank(s: string) { s != "" }

  /** A facet lists distinct non-empty values in strictly increasing code-point order. */
  predicate FacetShape(xs: seq<string>) {
    && Distinct(xs)
    && (forall i :: 0 <= i < |xs| ==> xs[i] != "")
    && (forall i, j :: 0 <= i < j < |xs| ==> LexLess(xs[i], xs[j]))
  }

  /** `Array.from(new Set(xs.filter(Boolean))).sort()`. */
  function FieldFacet(xs: seq<string>): (r: seq<string>)
    ensures FacetShape(r)
    ensures forall v :: v in r <==> v != "" && v in xs
  {
    var kept := Filter(xs, NonBlank);
    FilterMembers(xs, NonBlank);
    forall v ensures v in kept <==> v != "" && v in xs {
      if v != "" && v in xs {
        var i :| 0 <= i < |xs| && xs[i] == v;
      }
    }
    var r := StringFacet(kept);
    assert forall i :: 0 <= i < |r| ==> r[i] in r;
    r
  }

  /** An absent brand is falsy, like the empty one. */
  function BrandOrEmpty(o: Offer): string {
    match o.brand
    case None => ""
    case Some(b) => b
  }

  function OfferBrand(o: Offer): Option<string> { o.brand }
  function OfferGeneration(o: Offer): string { o.generation }
  function OfferSeries(o: Offer): string { o.series }
  function OfferVendor(o: Offer): string { o.vendor }
  function Price(o: Offer): real { o.price }

  lemma BrandMembers(offers: seq<Offer>, v: string)
    requires v != ""
    ensures v in Map(offers, BrandOrEmpty) <==> Some(v) in Map(offers, OfferBrand)
  {
    if v in Map(offers, BrandOrEmpty) {
      var i :| 0 <= i < |offers| && Map(offers, BrandOrEmpty)[i] == v;
      assert Map(offers, OfferBrand)[i] == Some(v);
    }
    if Some(v) in Map(offers, OfferBrand) {
      var i :| 0 <= i < |offers| && Map(offers, OfferBrand)[i] == Some(v);
      assert Map(offers, BrandOrEmpty)[i] == v;
    }
  }

  /** The metadata over the offers: the count, four facets and the price range. */
  function MetaOf(offers: seq<Offer>): (m: Meta)
    ensures m.count == |offers|
    ensures FacetShape(m.brands) && FacetShape(m.generations) && FacetShape(m.series) && FacetShape(m.vendors)
    ensures forall v :: v in m.brands <==> v != "" && Some(v) in Map(offers, OfferBrand)
    ensures forall v :: v in m.generations <==> v != "" && v in Map(offers, OfferGeneration)
    ensures forall v :: v in m.series <==> v != "" && v in Map(offers, OfferSeries)
    ensures forall v :: v in m.vendors <==> v != "" && v in Map(offers, OfferVendor)
    ensures offers == [] ==> m.priceRange == (PosInf, NegInf)
    ensures offers != [] ==> m.priceRange.0.Finite? && m.priceRange.1.Finite?
    ensures forall i :: 0 <= i < |offers| ==>
              m.priceRange.0.Finite? && m.priceRange.1.Finite? &&
              m.priceRange.0.value <= offers[i].price <= m.priceRange.1.value
  {
    var brands := FieldFacet(Map(offers, BrandOrEmpty));
    forall v | v != "" ensures v in Map(offers, BrandOrEmpty) <==> Some(v) in Map(offers, OfferBrand) {
      BrandMembers(offers, v);
    }
    var prices := Map(offers, Price);
    assert forall i :: 0 <= i < |offers| ==> prices[i] == offers[i].price;
    Meta(
      |offers|,
      brands,
      FieldFacet(Map(offers, OfferGeneration)),
      FieldFacet(Map(offers, OfferSeries)),
      FieldFacet(Map(offers, OfferVendor)),
      (MinOf(prices), MaxOf(prices)))
  }

  /** Both ends of the price range are prices of offers. */
  lemma PriceRangeAttained(offers: seq<Offer>)
    requires offers != []
    ensures var (lo, hi) := MetaOf(offers).priceRange;
            && (exists i :: 0 <= i < |offers| && offers[i].price == lo.value)
            && (exists i :: 0 <= i < |offers| && offers[i].price == hi.value)
  {
    var prices := Map(offers, Price);
    var (lo, hi) := MetaOf(offers).priceRange;
    assert lo == MinOf(prices) && hi == MaxOf(prices);
    var a :| 0 <= a < |prices| && prices[a] == lo.value;
    var b :| 0 <= b < |prices| && prices[b] == hi.value;
    assert offers[a].price == lo.value && offers[b].price == hi.value;
  }

  /** `GET`: normalise the dataset and describe the result. */
  method Get(records: seq<ProcessorRecord>) returns (body: Body)
    ensures body.offers == NormalizedOffers(records)
    ensures body.meta == MetaOf(body.offers)
  {
    var offers := NormalizeAll(records);
    body := Body(offers, MetaOf(offers));
  }
}
