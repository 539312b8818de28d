/**
  The price-history page: the product picker (one entry per processor id,
  labelled from its first offer, sorted by label), the vendor checkboxes of the
  chosen processor, the selected-vendor toggle, and the query string that asks
  the history route for the chart. An unloaded catalogue is the empty list of
  offers: every derived list is then empty, as in the page.
 */
module HistoryBrowser {
  import opened Wrappers
  import opened Seqs
  import opened Sorting
  import opened Text
  import opened Facets
  import HistoryRoute

  /** A row of the catalogue as the page reads it. */
  datatype Offer = Offer(id: string, slug: string, brand: string, series: string, model: string, vendor: string)

  /** An entry of the product picker: a processor id and its label. */
  datatype Product = Product(slug: string, text: string)

  /** What the page remembers: the chosen processor and the ticked vendors. */
  datatype PageState = PageState(slug: Option<string>, selectedVendors: seq<string>)

  function Label(o: Offer): string {
    o.brand + " " + o.series + " " + o.model
  }

  function OfferSlug(o: Offer): string { o.slug }

  function OfferVendor(o: Offer): string { o.vendor }

  function ProductSlug(p: Product): string { p.slug }

  // ---------------------------------------------------------------- products

  /** The map `bySlug` after the `forEach`: a product is added only for a slug it does not hold yet. */
  function FirstBySlug(offers: seq<Offer>): (ps: seq<Product>)
  {
    if offers == [] then []
    else
      var ps := FirstBySlug(offers[..|offers| - 1]);
      var o := offers[|offers| - 1];
      if o.slug in Map(ps, ProductSlug) then ps else ps + [Product(o.slug, Label(o))]
  }

  /** `a.label.localeCompare(b.label)`. */
  function LabelCmp(a: Product, b: Product): real {
    LexCmp(a.text, b.text)
  }

  /** The picker's entries. */
  function ProductList(offers: seq<Offer>): seq<Product> {
    SortBy(FirstBySlug(offers), LabelCmp)
  }

  /** The `products` memo: fill `bySlug` offer by offer, then sort its values by label. */
  method Products(offers: seq<Offer>) returns (products: seq<Product>)
    ensures products == ProductList(offers)
  {
    var bySlug: seq<Product> := [];
    for i := 0 to |offers|
      invariant bySlug == FirstBySlug(offers[..i])
    {
      var o := offers[i];
      var name := Label(o);
      assert offers[..i + 1][..i] == offers[..i];
      if o.slug !in Map(bySlug, ProductSlug) {
        bySlug := bySlug + [Product(o.slug, name)];
      }
    }
    assert offers[..|offers|] == offers;
    products := SortBy(bySlug, LabelCmp);
  }

  /** The slugs of `bySlug` are the distinct slugs of the offers, in order of first appearance. */
  lemma {:induction false} FirstBySlugSlugs(offers: seq<Offer>)
    ensures Map(FirstBySlug(offers), ProductSlug) == Dedup(Map(offers, OfferSlug))
  {
    if offers != [] {
      var init := offers[..|offers| - 1];
      var o := offers[|offers| - 1];
      FirstBySlugSlugs(init);
      assert Map(offers, OfferSlug) == Map(init, OfferSlug) + [o.slug];
      DedupSnoc(Map(init, OfferSlug), o.slug);
      var ps := FirstBySlug(init);
      assert o.slug in Map(ps, ProductSlug) <==> o.slug in Map(init, OfferSlug);
      MapAppend(ps, [Product(o.slug, Label(o))], ProductSlug);
    }
  }

  /** The index of the first offer with slug `s` (`|offers|` when there is none). */
  function FirstOffer(offers: seq<Offer>, s: string): (i: nat)
    ensures i <= |offers|
    ensures i < |offers| ==> offers[i].slug == s
    ensures forall j :: 0 <= j < i ==> offers[j].slug != s
    ensures i == |offers| <==> s !in Map(offers, OfferSlug)
  {
    var i := Position(Map(offers, OfferSlug), s);
    assert forall j :: 0 <= j < |offers| ==> Map(offers, OfferSlug)[j] == offers[j].slug;
    i
  }

  /** A product is labelled from the first offer with its slug. */
  predicate LabelledFromFirst(offers: seq<Offer>, p: Product) {
    FirstOffer(offers, p.slug) < |offers| && p.text == Label(offers[FirstOffer(offers, p.slug)])
  }

  predicate AllLabelled(offers: seq<Offer>, ps: seq<Product>) {
    forall k :: 0 <= k < |ps| ==> LabelledFromFirst(offers, ps[k])
  }

  /** No slug has two entries. */
  predicate SlugsDistinct(ps: seq<Product>) {
    forall i, j :: 0 <= i < j < |ps| ==> ps[i].slug != ps[j].slug
  }

  /** No label is followed by a smaller one. */
  predicate InLabelOrder(ps: seq<Product>) {
    forall i, j :: 0 <= i < j < |ps| ==> !LexLess(ps[j].text, ps[i].text)
  }

  lemma FirstOfferSnoc(init: seq<Offer>, o: Offer, s: string)
    requires s in Map(init, OfferSlug)
    ensures FirstOffer(init + [o], s) == FirstOffer(init, s)
  {
    var offers := init + [o];
    assert forall k :: 0 <= k < |init| ==> offers[k] == init[k];
  }

  lemma {:induction false} FirstBySlugLabels(offers: seq<Offer>)
    ensures AllLabelled(offers, FirstBySlug(offers))
  {
    if offers != [] {
      var init := offers[..|offers| - 1];
      var o := offers[|offers| - 1];
      assert offers == init + [o];
      FirstBySlugLabels(init);
      FirstBySlugSlugs(init);
      var ps := FirstBySlug(init);
      var r := FirstBySlug(offers);
      forall k | 0 <= k < |r| ensures LabelledFromFirst(offers, r[k]) {
        if k < |ps| {
          assert r[k] == ps[k];
          assert LabelledFromFirst(init, ps[k]);
          FirstOfferSnoc(init, o, ps[k].slug);
          assert offers[FirstOffer(init, ps[k].slug)] == init[FirstOffer(init, ps[k].slug)];
        } else {
          assert r[k] == Product(o.slug, Label(o));
          assert o.slug !in Map(ps, ProductSlug);
          assert o.slug !in Map(init, OfferSlug);
          assert Map(offers, OfferSlug) == Map(init, OfferSlug) + [o.slug];
          assert FirstOffer(offers, o.slug) == |init|;
        }
      }
    }
  }

  lemma LabelCmpPreorder()
    ensures TotalPreorder(LabelCmp)
  {
    LexCmpPreorder();
    forall a: Product, b: Product ensures Le(LabelCmp, a, b) || Le(LabelCmp, b, a) {
      assert Le(LexCmp, a.text, b.text) || Le(LexCmp, b.text, a.text);
    }
    forall a: Product, b: Product, c: Product | Le(LabelCmp, a, b) && Le(LabelCmp, b, c)
      ensures Le(LabelCmp, a, c)
    {
      assert Le(LexCmp, a.text, b.text) && Le(LexCmp, b.text, c.text);
    }
  }

  /** Sorting keeps the entries of `bySlug`, which have distinct slugs, so the sorted slugs are distinct too. */
  lemma SortedSlugsDistinct(ps: seq<Product>)
    requires Distinct(Map(ps, ProductSlug))
    ensures SlugsDistinct(SortBy(ps, LabelCmp))
  {
    var r := SortBy(ps, LabelCmp);
    assert Distinct(ps) by {
      forall i, j | 0 <= i < j < |ps| ensures ps[i] != ps[j] {
        assert Map(ps, ProductSlug)[i] != Map(ps, ProductSlug)[j];
      }
    }
    DistinctByMultiset(ps, r);
    forall i, j | 0 <= i < j < |r| ensures r[i].slug != r[j].slug {
      SortByMembers(ps, LabelCmp, r[i]);
      SortByMembers(ps, LabelCmp, r[j]);
      var a :| 0 <= a < |ps| && ps[a] == r[i];
      var b :| 0 <= b < |ps| && ps[b] == r[j];
      assert Map(ps, ProductSlug)[a] == r[i].slug && Map(ps, ProductSlug)[b] == r[j].slug;
    }
  }

  /** Sorting by label puts the labels in code-point order. */
  lemma SortedLabels(ps: seq<Product>)
    ensures InLabelOrder(SortBy(ps, LabelCmp))
  {
    var r := SortBy(ps, LabelCmp);
    LabelCmpPreorder();
    SortBySorted(ps, LabelCmp);
    forall i, j | 0 <= i < j < |r| ensures !LexLess(r[j].text, r[i].text) {
      assert Le(LabelCmp, r[i], r[j]);
    }
  }

  /** Every sorted entry was an entry of `bySlug`. */
  lemma SortedLabelled(offers: seq<Offer>)
    ensures AllLabelled(offers, ProductList(offers))
  {
    FirstBySlugLabels(offers);
    SortByAll(FirstBySlug(offers), LabelCmp, (p: Product) => LabelledFromFirst(offers, p));
  }

  /**
    The picker holds one entry per distinct slug of the catalogue, labelled
    "brand series model" from the first offer with that slug, in label order.
   */
  lemma ProductListContents(offers: seq<Offer>)
    ensures SlugsDistinct(ProductList(offers))
    ensures forall s :: s in Map(ProductList(offers), ProductSlug) <==> s in Map(offers, OfferSlug)
    ensures AllLabelled(offers, ProductList(offers))
    ensures InLabelOrder(ProductList(offers))
  {
    var ps := FirstBySlug(offers);
    FirstBySlugSlugs(offers);
    forall s ensures s in Map(ProductList(offers), ProductSlug) <==> s in Map(offers, OfferSlug) {
      SortByMapMembers(ps, LabelCmp, ProductSlug, s);
    }
    SortedSlugsDistinct(ps);
    SortedLabelled(offers);
    SortedLabels(ps);
  }

  // ---------------------------------------------------------------- vendor checkboxes

  function HasSlug(s: string): Offer -> bool {
    (o: Offer) => o.slug == s
  }

  /** The vendors of the offers with slug `s`, through the filter and the map. */
  lemma VendorsOfSlug(offers: seq<Offer>, s: string, v: string)
    ensures v in Map(Filter(offers, HasSlug(s)), OfferVendor) <==>
            exists i :: 0 <= i < |offers| && offers[i].slug == s && offers[i].vendor == v
  {
    MapFilterMembers(offers, HasSlug(s), OfferVendor, v);
  }

  /** `vendorsForSelected`: the distinct vendors of the chosen processor's offers, sorted; none without a choice. */
  function VendorsForSelected(offers: seq<Offer>, slug: Option<string>): (r: seq<string>)
    ensures !HistoryRoute.Given(slug) ==> r == []
    ensures Distinct(r)
    ensures forall i, j :: 0 <= i < j < |r| ==> LexLess(r[i], r[j])
    ensures HistoryRoute.Given(slug) ==>
              forall v :: v in r <==> exists i :: 0 <= i < |offers| && offers[i].slug == slug.value && offers[i].vendor == v
  {
    if !HistoryRoute.Given(slug) then []
    else
      var vs := Map(Filter(offers, HasSlug(slug.value)), OfferVendor);
      forall v ensures v in vs <==> exists i :: 0 <= i < |offers| && offers[i].slug == slug.value && offers[i].vendor == v {
        VendorsOfSlug(offers, slug.value, v);
      }
      StringFacet(vs)
  }

  // ---------------------------------------------------------------- selected vendors

  function IsNot(v: string): string -> bool {
    (x: string) => x != v
  }

  /** `toggleVendor(v)`: drop every occurrence of a ticked vendor, or append an unticked one. */
  function ToggleVendor(prev: seq<string>, v: string): (r: seq<string>)
    ensures v in r <==> v !in prev
    ensures forall y :: y != v ==> (y in r <==> y in prev)
    ensures v in prev ==> |r| < |prev|
    ensures v !in prev ==> r == prev + [v]
  {
    FilterMembers(prev, IsNot(v));
    if v in prev then
      FilterShorter(prev, IsNot(v), v);
      Filter(prev, IsNot(v))
    else prev + [v]
  }

  lemma {:induction false} FilterShorter(s: seq<string>, p: string -> bool, x: string)
    requires x in s && !p(x)
    ensures |Filter(s, p)| < |s|
  {
    if s[0] != x {
      FilterShorter(s[1..], p, x);
    }
  }

  /** A selection without repeats stays without repeats. */
  lemma ToggleVendorDistinct(prev: seq<string>, v: string)
    requires Distinct(prev)
    ensures Distinct(ToggleVendor(prev, v))
  {
    if v in prev {
      FilterDistinct(prev, IsNot(v));
    }
  }

  /** Ticking and unticking a vendor that was not ticked restores the list exactly. */
  lemma ToggleVendorTwiceAbsent(prev: seq<string>, v: string)
    requires v !in prev
    ensures ToggleVendor(ToggleVendor(prev, v), v) == prev
  {
    FilterAppendOne(prev, v, IsNot(v));
    FilterAll(prev, IsNot(v));
  }

  /** Unticking and ticking a ticked vendor keeps the same vendors ticked, that one moved to the end. */
  lemma ToggleVendorTwicePresent(prev: seq<string>, v: string)
    requires v in prev
    ensures var r := ToggleVendor(ToggleVendor(prev, v), v);
            && (forall y :: y in r <==> y in prev)
            && r[|r| - 1] == v
  {
  }

  // ---------------------------------------------------------------- the history request

  /**
    `vendorsQuery`, with `encodeURIComponent` as the parameter `encode`: no
    query for an empty selection, else the selection joined by commas.
   */
  function VendorsQuery(selected: seq<string>, encode: string -> string): (q: string)
    ensures q == "" <==> selected == []
    ensures selected != [] ==> |q| >= 9 && q[..9] == "&vendors="
  {
    if |selected| > 0 then "&vendors=" + encode(Join(selected, ",")) else ""
  }

  /** The SWR key: the history URL once a processor is chosen, no request otherwise. */
  function HistoryKey(st: PageState, encode: string -> string): (k: Option<string>)
    ensures k.None? <==> !HistoryRoute.Given(st.slug)
    ensures k.Some? ==> k.value == "/api/history?slug=" + encode(st.slug.value) + VendorsQuery(st.selectedVendors, encode)
  {
    if HistoryRoute.Given(st.slug) then
      Some("/api/history?slug=" + encode(st.slug.value) + VendorsQuery(st.selectedVendors, encode))
    else None
  }

  /**
    The route reads back the vendor list the page sends, once the URL encoding
    is undone: ticked vendors that are non-empty, carry no comma and no edge
    spaces come back as the same list.
   */
  lemma VendorsRoundTrip(selected: seq<string>)
    requires selected != []
    requires forall i :: 0 <= i < |selected| ==> selected[i] != "" && ',' !in selected[i]
    requires forall i :: 0 <= i < |selected| ==> Trim(selected[i]) == selected[i]
    ensures HistoryRoute.VendorFilter(Some(Join(selected, ","))) == selected
  {
    assert "," == [','];
    SplitJoinChar(selected, ',');
    TrimAll(selected);
    FilterAll(selected, HistoryRoute.NonEmpty);
  }

  lemma TrimAll(ss: seq<string>)
    requires forall i :: 0 <= i < |ss| ==> Trim(ss[i]) == ss[i]
    ensures Map(ss, Trim) == ss
  {
  }

  /** `reset`: forget the processor and the ticked vendors. */
  function Reset(st: PageState): (r: PageState)
    ensures forall enc: string -> string :: HistoryKey(r, enc).None? && VendorsQuery(r.selectedVendors, enc) == ""
    ensures forall offers :: VendorsForSelected(offers, r.slug) == []
    ensures r.selectedVendors == []
  {
    PageState(None, [])
  }
}
