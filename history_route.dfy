/**
  The decision logic of `GET /api/history`: an offer id takes precedence over a
  processor id; a processor id may be narrowed by a comma-separated vendor list;
  an unknown offer or an empty result is NOT FOUND, and no parameter at all is
  BAD REQUEST. The catalogue the route reads is a parameter; the price series
  themselves (mock data) are not modelled.
 */
module HistoryRoute {
  import opened Wrappers
  import opened Seqs
  import opened Text
  import opened Groups
  import opened Processors
  import opened CpuData

  const NotFound: int := 404
  const BadRequest: int := 400

  /** One charted series: its vendor and brand (its data points are left out). */
  datatype Series = Series(vendor: string, brand: string)

  /** The JSON body and status the route answers with. */
  datatype Response =
    | Single(title: string, slug: string, vendor: string, series: seq<Series>)
    | Multi(title: string, slug: string, series: seq<Series>)
    | Failure(status: int, error: string)

  /** A query parameter that is present and not empty (`if (p)`). */
  predicate Given(p: Option<string>) {
    p.Some? && p.value != ""
  }

  function SeriesOf(o: OfferView): Series {
    Series(o.vendor, o.brand)
  }

  function SeriesVendor(s: Series): string { s.vendor }

  predicate NonEmpty(s: string) { s != "" }

  /** `vendorsParam?.split(",").map((v) => v.trim()).filter(Boolean)`; an absent parameter gives no list. */
  function VendorFilter(param: Option<string>): (vf: seq<string>)
    ensures param.None? ==> vf == []
    ensures forall i :: 0 <= i < |vf| ==> vf[i] != ""
  {
    match param
    case None => []
    case Some(p) =>
      var vf := Filter(Map(Split(p, ","), Trim), NonEmpty);
      FilterMembers(Map(Split(p, ","), Trim), NonEmpty);
      vf
  }

  function VendorIn(vf: seq<string>): OfferView -> bool {
    (o: OfferView) => o.vendor in vf
  }

  /** The offers left after the vendor list, which restricts nothing when it is empty. */
  function Remaining(offers: seq<OfferView>, vf: seq<string>): (r: seq<OfferView>)
    ensures |r| <= |offers|
  {
    if |vf| > 0 then Filter(offers, VendorIn(vf)) else offers
  }

  function SingleTitle(o: OfferView): string {
    o.brand + " " + o.series + " " + o.model + " \U{2014} " + o.vendor
  }

  function MultiTitle(o: OfferView): string {
    o.brand + " " + o.series + " " + o.model
  }

  /** `GET` over the catalogue `cpus`, given the `slug`, `offerId` and `vendors` query parameters. */
  function Get(cpus: seq<Cpu>, slug: Option<string>, offerId: Option<string>, vendors: Option<string>): (r: Response)
    ensures Given(offerId) ==> (r.Failure? <==> OfferById(cpus, offerId.value).None?)
    ensures Given(offerId) && r.Failure? ==> r.status == NotFound
    ensures Given(offerId) ==> !r.Multi?
    ensures r.Single? ==> |r.series| == 1 && r.series[0].vendor == r.vendor
    ensures r.Single? ==> Given(offerId) && OfferById(cpus, offerId.value).Some?
    ensures r.Single? ==> r.slug == OfferById(cpus, offerId.value).value.slug && r.vendor == OfferById(cpus, offerId.value).value.vendor
    ensures r.Single? ==> r.title == SingleTitle(OfferById(cpus, offerId.value).value)
    ensures r.Single? ==> r.series == [SeriesOf(OfferById(cpus, offerId.value).value)]
    ensures r.Multi? ==> Given(slug) && r.slug == slug.value && |r.series| > 0
    ensures r.Multi? ==> var offers := Remaining(OffersBySlug(cpus, slug.value), VendorFilter(vendors));
                         && offers != []
                         && r.title == MultiTitle(offers[0])
                         && r.series == Map(offers, SeriesOf)
    ensures !Given(offerId) && !Given(slug) ==> r == Failure(BadRequest, "Provide ?slug= or ?offerId=")
    ensures !Given(offerId) && Given(slug) && r.Failure? ==> r.status == NotFound
    ensures r.Multi? && |VendorFilter(vendors)| > 0 ==> forall i :: 0 <= i < |r.series| ==> r.series[i].vendor in VendorFilter(vendors)
  {
    if Given(offerId) then ByOfferId(cpus, offerId.value)
    else if Given(slug) then
      FilterMembers(OffersBySlug(cpus, slug.value), VendorIn(VendorFilter(vendors)));
      BySlug(cpus, slug.value, vendors)
    else
      Failure(BadRequest, "Provide ?slug= or ?offerId=")
  }

  /** The answer to an offer id: its one series, or NOT FOUND. */
  function ByOfferId(cpus: seq<Cpu>, offerId: string): Response {
    match OfferById(cpus, offerId)
    case None => Failure(NotFound, "Offer not found")
    case Some(o) => Single(SingleTitle(o), o.slug, o.vendor, [SeriesOf(o)])
  }

  /** The answer to a processor id: a series per remaining offer, or NOT FOUND when none remains. */
  function BySlug(cpus: seq<Cpu>, slug: string, vendors: Option<string>): Response {
    var offers := Remaining(OffersBySlug(cpus, slug), VendorFilter(vendors));
    if |offers| == 0 then Failure(NotFound, "No offers for slug")
    else Multi(MultiTitle(offers[0]), slug, Map(offers, SeriesOf))
  }

  // ---------------------------------------------------------------- what the route promises

  /** A present offer id decides the answer alone: the processor id and the vendor list are ignored. */
  lemma OfferIdFirst(cpus: seq<Cpu>, offerId: Option<string>, slug1: Option<string>, slug2: Option<string>,
                     vendors1: Option<string>, vendors2: Option<string>)
    requires Given(offerId)
    ensures Get(cpus, slug1, offerId, vendors1) == Get(cpus, slug2, offerId, vendors2)
  {
  }

  /** The vendor list holds exactly the non-empty trimmed pieces between the commas. */
  lemma VendorFilterMembers(p: string, v: string)
    ensures v in VendorFilter(Some(p)) <==> v != "" && v in Map(Split(p, ","), Trim)
  {
    var pieces := Map(Split(p, ","), Trim);
    FilterMembers(pieces, NonEmpty);
    if v != "" && v in pieces {
      var i :| 0 <= i < |pieces| && pieces[i] == v;
    }
  }

  /** The id of any offer of a processor whose id has no "__" and does not end in "_" is answered with one series for that processor. */
  lemma SingleForOfferId(cpus: seq<Cpu>, i: nat, k: nat, slug: Option<string>, vendors: Option<string>)
    requires i < |cpus| && k < |cpus[i].offers|
    requires Distinct(Map(cpus, CpuKey))
    requires !Contains(cpus[i].id, "__")
    requires cpus[i].id == [] || cpus[i].id[|cpus[i].id| - 1] != '_'
    ensures var c := cpus[i];
            var r := Get(cpus, slug, Some(OfferIdFor(c.id, c.offers[k].store)), vendors);
            && r.Single?
            && r.slug == c.id
            && |r.series| == 1
            && ToStoreSlug(r.vendor) == ToStoreSlug(c.offers[k].store)
  {
    var c := cpus[i];
    var id := OfferIdFor(c.id, c.offers[k].store);
    assert Given(Some(id)) by {
      assert id[|c.id|..|c.id| + 2] == "__";
    }
    assert Get(cpus, slug, Some(id), vendors) == ByOfferId(cpus, id);
    OfferByIdRoundTrip(cpus, i, k);
  }

  /** The vendors the list lets through: all of them when it is empty. */
  function Keep(vf: seq<string>): string -> bool {
    (v: string) => |vf| == 0 || v in vf
  }

  /** The vendors of the items with processor id `slug`, in item order, that the vendor list lets through. */
  function KeptVendors(items: seq<ProcessorRecord>, slug: string, vf: seq<string>): seq<string> {
    Filter(Map(Filter(items, HasKey(CpuIdOf, slug)), ItemVendor), Keep(vf))
  }

  /**
    On the catalogue built from `items`, a processor id is answered with one
    series per item of that id whose vendor the list lets through, in item
    order, and with NOT FOUND exactly when there is none.
   */
  lemma MultiOfItems(items: seq<ProcessorRecord>, slug: string, vendors: Option<string>)
    requires slug != ""
    ensures var r := Get(Cpus(items), Some(slug), None, vendors);
            var want := KeptVendors(items, slug, VendorFilter(vendors));
            && (r.Failure? <==> want == [])
            && (r.Multi? ==> Map(r.series, SeriesVendor) == want)
            && (r.Failure? || r.Multi?)
  {
    assert Get(Cpus(items), Some(slug), None, vendors) == BySlug(Cpus(items), slug, vendors);
    var vf := VendorFilter(vendors);
    var all := OffersBySlug(Cpus(items), slug);
    var offers := Remaining(all, vf);
    OffersBySlugOfItems(items, slug);
    var views := Map(all, ViewVendor);
    assert views == Map(Filter(items, HasKey(CpuIdOf, slug)), ItemVendor);
    FilterMap(all, ViewVendor, Keep(vf), KeepView(vf));
    if |vf| > 0 {
      FilterExt(all, VendorIn(vf), KeepView(vf));
    } else {
      FilterAll(all, KeepView(vf));
    }
    assert Map(offers, ViewVendor) == KeptVendors(items, slug, vf);
    SeriesVendors(offers);
  }

  function KeepView(vf: seq<string>): OfferView -> bool {
    (o: OfferView) => Keep(vf)(ViewVendor(o))
  }

  lemma SeriesVendors(offers: seq<OfferView>)
    ensures Map(Map(offers, SeriesOf), SeriesVendor) == Map(offers, ViewVendor)
  {
  }
}
