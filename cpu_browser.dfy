/**
  The catalogue page: the products of `/api/cpus` flattened into one tile per
  vendor offer, the facet lists and price bounds the sidebar offers, and the
  filtered, sorted list of tiles.
 */
module CpuBrowser {
  import opened Wrappers
  import opened Seqs
  import opened Sorting
  import opened Text
  import opened JsNumber
  import opened Groups
  import opened Facets
  import opened Processors
  import opened FilterSidebar
  import CpuTile

  /** One tile: a product's metadata together with one of its vendor offers. */
  datatype CPUOffer = CPUOffer(
    id: string,
    brand: string,
    model: string,
    generation: string,
    series: string,
    cores: real,
    threads: real,
    baseClockGHz: Option<real>,
    boostClockGHz: Option<real>,
    tdpW: Option<real>,
    vendor: string,
    priceUSD: real,
    url: string,
    inStock: bool,
    generationRank: nat)

  // ---------------------------------------------------------------- flattening

  /** The tile of offer `o` of product `c`; its id is `c.id`, "-", and the store lower-cased with white-space runs as "-". */
  function TileOf(c: CpuForApi): ApiOffer -> CPUOffer {
    (o: ApiOffer) => CPUOffer(
      c.id + "-" + HyphenateSpaces(o.store), c.brand, c.model, c.generation, c.series,
      c.cores, c.threads, c.baseClockGHz, c.boostClockGHz, c.tdpW,
      o.store, o.price, o.url, o.inStock, c.generationRank)
  }

  function TilesOf(c: CpuForApi): seq<CPUOffer> {
    Map(c.offers, TileOf(c))
  }

  /** All tiles, product by product, each product's offers in order. */
  function Flatten(cpus: seq<CpuForApi>): seq<CPUOffer> {
    Concat(Map(cpus, TilesOf))
  }

  /** The nested `for (const c of cpus) for (const o of c.offers) list.push(...)`. */
  method FlattenOffers(cpus: seq<CpuForApi>) returns (list: seq<CPUOffer>)
    ensures list == Flatten(cpus)
  {
    list := [];
    for i := 0 to |cpus|
      invariant list == Flatten(cpus[..i])
    {
      var c := cpus[i];
      ghost var before := list;
      for j := 0 to |c.offers|
        invariant list == before + Map(c.offers[..j], TileOf(c))
      {
        list := list + [TileOf(c)(c.offers[j])];
        assert c.offers[..j + 1] == c.offers[..j] + [c.offers[j]];
      }
      assert c.offers[..|c.offers|] == c.offers;
      assert cpus[..i + 1] == cpus[..i] + [c];
      assert Map(cpus[..i + 1], TilesOf) == Map(cpus[..i], TilesOf) + [TilesOf(c)];
    }
    assert cpus[..|cpus|] == cpus;
  }

  /** There is one tile per offer, and tile `j` of product `i` carries that offer's store, price, link and stock. */
  lemma FlattenTiles(cpus: seq<CpuForApi>, i: nat, j: nat)
    requires i < |cpus| && j < |cpus[i].offers|
    ensures |Flatten(cpus)| == SumLengths(Map(cpus, TilesOf))
    ensures SumLengths(Map(cpus[..i], TilesOf)) + j < |Flatten(cpus)|
    ensures var t := Flatten(cpus)[SumLengths(Map(cpus[..i], TilesOf)) + j];
            var c := cpus[i];
            var o := c.offers[j];
            && t.id == c.id + "-" + HyphenateSpaces(o.store)
            && t.vendor == o.store && t.priceUSD == o.price && t.url == o.url && t.inStock == o.inStock
            && t.brand == c.brand && t.model == c.model && t.generation == c.generation
            && t.series == c.series && t.cores == c.cores && t.threads == c.threads
            && t.baseClockGHz == c.baseClockGHz && t.boostClockGHz == c.boostClockGHz && t.tdpW == c.tdpW
            && t.generationRank == c.generationRank
  {
    var ss := Map(cpus, TilesOf);
    ConcatSumLengths(ss);
    assert ss[..i] == Map(cpus[..i], TilesOf);
    ConcatIndex(ss, i, j);
  }

  /**
    A catalogue tile's id is the product id, "-", and the hyphenated store, so
    for a product id made by `slugify` and a store name without `_` it holds no
    "__", and `productSlug` finds no product for it.
   */
  lemma TileHasNoProductSlug(c: CpuForApi, o: ApiOffer)
    requires SlugChars(c.id)
    requires forall k :: 0 <= k < |o.store| ==> o.store[k] != '_'
    ensures CpuTile.ProductSlugOf(TileOf(c)(o).id).None?
  {
    var h := HyphenateSpaces(o.store);
    HyphenateSpacesLacks(o.store, '_');
    var id := c.id + "-" + h;
    forall k | 0 <= k < |id| ensures id[k] != '_' {
      if k < |c.id| { assert id[k] == c.id[k] && IsSlugChar(c.id[k]); }
      else if k > |c.id| { assert id[k] == h[k - |c.id| - 1]; }
    }
    NoUnderscorePair(id);
  }

  /** The number of tiles is the number of offers over all products. */
  function OfferCount(cpus: seq<CpuForApi>): nat {
    if cpus == [] then 0 else OfferCount(cpus[..|cpus| - 1]) + |cpus[|cpus| - 1].offers|
  }

  lemma {:induction false} FlattenCount(cpus: seq<CpuForApi>)
    ensures |Flatten(cpus)| == OfferCount(cpus)
  {
    if cpus != [] {
      var init := cpus[..|cpus| - 1];
      FlattenCount(init);
      assert Map(cpus, TilesOf) == Map(init, TilesOf) + [TilesOf(cpus[|cpus| - 1])];
      assert Map(cpus, TilesOf)[..|cpus| - 1] == Map(init, TilesOf);
    }
  }

  // ---------------------------------------------------------------- facets

  function Brand(o: CPUOffer): string { o.brand }
  function SeriesOf(o: CPUOffer): string { o.series }
  function Vendor(o: CPUOffer): string { o.vendor }
  function Cores(o: CPUOffer): real { o.cores }
  function Threads(o: CPUOffer): real { o.threads }

  /** `Array.from(new Set(offers.map(f))).sort()`: each value of `f` that some tile has, once, in code-point order. */
  function StringFacetOf(offers: seq<CPUOffer>, f: CPUOffer -> string): (r: seq<string>)
    ensures Distinct(r)
    ensures forall i, j :: 0 <= i < j < |r| ==> LexLess(r[i], r[j])
    ensures forall x :: x in r <==> exists i :: 0 <= i < |offers| && f(offers[i]) == x
  {
    var r := StringFacet(Map(offers, f));
    assert forall i :: 0 <= i < |offers| ==> Map(offers, f)[i] == f(offers[i]);
    r
  }

  /** `Array.from(new Set(offers.map(f))).sort((a, b) => a - b)`, for cores and threads. */
  function NumberFacetOf(offers: seq<CPUOffer>, f: CPUOffer -> real): (r: seq<real>)
    ensures Distinct(r)
    ensures forall i, j :: 0 <= i < j < |r| ==> r[i] < r[j]
    ensures forall x :: x in r <==> exists i :: 0 <= i < |offers| && f(offers[i]) == x
  {
    var r := NumberFacet(Map(offers, f));
    assert forall i :: 0 <= i < |offers| ==> Map(offers, f)[i] == f(offers[i]);
    r
  }

  /** `allBrands`, `allSeries`, `allVendors`, `allCores` and `allThreads`. */
  function AllBrands(offers: seq<CPUOffer>): seq<string> { StringFacetOf(offers, Brand) }
  function AllSeries(offers: seq<CPUOffer>): seq<string> { StringFacetOf(offers, SeriesOf) }
  function AllVendors(offers: seq<CPUOffer>): seq<string> { StringFacetOf(offers, Vendor) }
  function AllCores(offers: seq<CPUOffer>): seq<real> { NumberFacetOf(offers, Cores) }
  function AllThreads(offers: seq<CPUOffer>): seq<real> { NumberFacetOf(offers, Threads) }

  // ---------------------------------------------------------------- allGenerations

  /** An entry of `byGen`: a generation and the largest rank seen for it. */
  datatype GenRank = GenRank(generation: string, rank: nat)

  function Generation(o: CPUOffer): string { o.generation }
  function EntryGeneration(e: GenRank): string { e.generation }

  /** The largest rank among the tiles, 0 when there are none (`byGen.get(g) ?? 0`). */
  function MaxRank(os: seq<CPUOffer>): (m: nat)
    ensures forall i :: 0 <= i < |os| ==> os[i].generationRank <= m
    ensures os != [] ==> exists i :: 0 <= i < |os| && os[i].generationRank == m
  {
    if os == [] then 0
    else
      var m := MaxRank(os[..|os| - 1]);
      var r := os[|os| - 1].generationRank;
      if m < r then r else m
  }

  function RankEntry(g: Group<string, CPUOffer>): GenRank {
    GenRank(g.key, MaxRank(g.items))
  }

  /** The map `byGen`: generations in order of first appearance, each with its largest rank. */
  function ByGeneration(offers: seq<CPUOffer>): seq<GenRank> {
    Map(GroupBy(offers, Generation), RankEntry)
  }

  /** The comparator `(a, b) => b[1] - a[1]`: larger ranks first. */
  function RankDesc(a: GenRank, b: GenRank): real {
    (b.rank - a.rank) as real
  }

  /** `allGenerations`: the generations sorted by decreasing largest rank, ties in order of first appearance. */
  function AllGenerationsOf(offers: seq<CPUOffer>): seq<string> {
    Map(SortBy(ByGeneration(offers), RankDesc), EntryGeneration)
  }

  /** The largest rank of the tiles of generation `g`. */
  function GenMaxRank(offers: seq<CPUOffer>, g: string): nat {
    MaxRank(Filter(offers, HasKey(Generation, g)))
  }

  /** The loop that fills `byGen`, then the sort and the projection to generations. */
  method AllGenerations(offers: seq<CPUOffer>) returns (gens: seq<string>)
    ensures gens == AllGenerationsOf(offers)
  {
    var byGen: seq<GenRank> := [];
    for i := 0 to |offers|
      invariant byGen == ByGeneration(offers[..i])
    {
      var o := offers[i];
      ghost var seen := offers[..i];
      AddRank(seen, o);
      assert offers[..i + 1] == seen + [o];
      var j := IndexBy(byGen, EntryGeneration, o.generation);
      if j == |byGen| {
        byGen := byGen + [GenRank(o.generation, o.generationRank)];
      } else {
        var m := if byGen[j].rank < o.generationRank then o.generationRank else byGen[j].rank;
        byGen := byGen[j := GenRank(o.generation, m)];
      }
    }
    assert offers[..|offers|] == offers;
    var sorted := SortBy(byGen, RankDesc);
    gens := Map(sorted, EntryGeneration);
  }

  /** A new generation is appended with its rank, a known one keeps the larger rank. */
  function WithRank(es: seq<GenRank>, o: CPUOffer): (r: seq<GenRank>)
    ensures |r| == |es| || |r| == |es| + 1
  {
    var j := IndexBy(es, EntryGeneration, o.generation);
    if j == |es| then es + [GenRank(o.generation, o.generationRank)]
    else es[j := GenRank(o.generation, if es[j].rank < o.generationRank then o.generationRank else es[j].rank)]
  }

  /** One step of the loop over the tiles. */
  lemma AddRank(seen: seq<CPUOffer>, o: CPUOffer)
    ensures ByGeneration(seen + [o]) == WithRank(ByGeneration(seen), o)
  {
    var gs := GroupBy(seen, Generation);
    GroupByKeys(seen, Generation);
    IndexByFind(gs, RankEntry, EntryGeneration, o.generation);
    MapAdd(gs, o.generation, o, RankEntry);
    assert (seen + [o])[..|seen|] == seen;
    var k := Find(gs, o.generation);
    if k < |gs| {
      assert (gs[k].items + [o])[..|gs[k].items|] == gs[k].items;
    }
  }

  /** Each `byGen` entry holds the largest rank of its generation; the generations are distinct and are those of the tiles. */
  lemma ByGenerationEntries(offers: seq<CPUOffer>)
    ensures var es := ByGeneration(offers);
            && Map(es, EntryGeneration) == Dedup(Map(offers, Generation))
            && forall i :: 0 <= i < |es| ==> es[i].rank == GenMaxRank(offers, es[i].generation)
  {
    var gs := GroupBy(offers, Generation);
    var es := ByGeneration(offers);
    GroupByKeys(offers, Generation);
    GroupByItems(offers, Generation);
    assert Map(es, EntryGeneration) == Keys(gs);
  }

  /** Distinct keys make distinct entries. */
  lemma DistinctKeysDistinct(es: seq<GenRank>)
    requires Distinct(Map(es, EntryGeneration))
    ensures Distinct(es)
  {
    forall i, j | 0 <= i < j < |es| ensures es[i] != es[j] {
      assert Map(es, EntryGeneration)[i] == es[i].generation;
      assert Map(es, EntryGeneration)[j] == es[j].generation;
    }
  }

  lemma RankDescPreorder()
    ensures TotalPreorder(RankDesc)
  {
  }

  /** After the sort, ranks never increase. */
  lemma RanksDescend(es: seq<GenRank>)
    ensures var sorted := SortBy(es, RankDesc);
            forall i, j :: 0 <= i < j < |sorted| ==> sorted[i].rank >= sorted[j].rank
  {
    var sorted := SortBy(es, RankDesc);
    RankDescPreorder();
    SortBySorted(es, RankDesc);
    forall i, j | 0 <= i < j < |sorted| ensures sorted[i].rank >= sorted[j].rank {
      assert Le(RankDesc, sorted[i], sorted[j]);
    }
  }

  /** Sorting entries with distinct generations keeps them, keeps the generations distinct and orders the ranks. */
  lemma SortedEntries(es: seq<GenRank>)
    requires Distinct(Map(es, EntryGeneration))
    ensures var sorted := SortBy(es, RankDesc);
            && Distinct(Map(sorted, EntryGeneration))
            && (forall e :: e in sorted <==> e in es)
            && forall i, j :: 0 <= i < j < |sorted| ==> sorted[i].rank >= sorted[j].rank
  {
    var sorted := SortBy(es, RankDesc);
    DistinctKeysDistinct(es);
    DistinctByMultiset(es, sorted);
    RanksDescend(es);
    forall e ensures e in sorted <==> e in es {
      SortByMembers(es, RankDesc, e);
    }
    var ks := Map(sorted, EntryGeneration);
    forall i, j | 0 <= i < j < |ks| ensures ks[i] != ks[j] {
      assert sorted[i] in sorted && sorted[j] in sorted;
      var a :| 0 <= a < |es| && es[a] == sorted[i];
      var b :| 0 <= b < |es| && es[b] == sorted[j];
      assert Map(es, EntryGeneration)[a] == ks[i];
      assert Map(es, EntryGeneration)[b] == ks[j];
    }
  }

  lemma GenerationsDistinct(offers: seq<CPUOffer>)
    ensures Distinct(Map(ByGeneration(offers), EntryGeneration))
  {
    ByGenerationEntries(offers);
  }

  /** An entry of `byGen` holds the largest rank of its generation. */
  lemma EntryRank(offers: seq<CPUOffer>, e: GenRank)
    requires e in ByGeneration(offers)
    ensures e.rank == GenMaxRank(offers, e.generation)
  {
    ByGenerationEntries(offers);
  }

  /**
    The generation facet lists each generation of the tiles exactly once, by
    decreasing largest rank.
   */
  lemma AllGenerationsOrdered(offers: seq<CPUOffer>)
    ensures var r := AllGenerationsOf(offers);
            && Distinct(r)
            && (forall g :: g in r <==> exists i :: 0 <= i < |offers| && offers[i].generation == g)
            && forall i, j :: 0 <= i < j < |r| ==> GenMaxRank(offers, r[i]) >= GenMaxRank(offers, r[j])
  {
    var es := ByGeneration(offers);
    var sorted := SortBy(es, RankDesc);
    var r := AllGenerationsOf(offers);
    GenerationsDistinct(offers);
    SortedEntries(es);
    forall i, j | 0 <= i < j < |r| ensures GenMaxRank(offers, r[i]) >= GenMaxRank(offers, r[j]) {
      assert sorted[i] in sorted && sorted[j] in sorted;
      EntryRank(offers, sorted[i]);
      EntryRank(offers, sorted[j]);
    }
    forall g ensures g in r <==> exists i :: 0 <= i < |offers| && offers[i].generation == g {
      GenerationMember(offers, g);
    }
  }

  /** The generations of `byGen` are those of the tiles. */
  lemma GenerationKeys(offers: seq<CPUOffer>, g: string)
    ensures g in Map(ByGeneration(offers), EntryGeneration) <==> exists i :: 0 <= i < |offers| && offers[i].generation == g
  {
    ByGenerationEntries(offers);
    if g in Map(offers, Generation) {
      var k :| 0 <= k < |offers| && Map(offers, Generation)[k] == g;
    }
    if exists i :: 0 <= i < |offers| && offers[i].generation == g {
      var k :| 0 <= k < |offers| && offers[k].generation == g;
      assert Map(offers, Generation)[k] == g;
    }
  }

  /** A generation is listed iff some tile has it. */
  lemma GenerationMember(offers: seq<CPUOffer>, g: string)
    ensures g in AllGenerationsOf(offers) <==> exists i :: 0 <= i < |offers| && offers[i].generation == g
  {
    var es := ByGeneration(offers);
    var sorted := SortBy(es, RankDesc);
    var r := AllGenerationsOf(offers);
    GenerationsDistinct(offers);
    SortedEntries(es);
    GenerationKeys(offers, g);
    if g in r {
      var i :| 0 <= i < |r| && r[i] == g;
      assert sorted[i] in sorted;
      var a :| 0 <= a < |es| && es[a] == sorted[i];
      assert Map(es, EntryGeneration)[a] == g;
    }
    if g in Map(es, EntryGeneration) {
      var a :| 0 <= a < |es| && Map(es, EntryGeneration)[a] == g;
      assert es[a] in es;
      var i :| 0 <= i < |sorted| && sorted[i] == es[a];
      assert r[i] == g;
    }
  }

  // ---------------------------------------------------------------- priceBounds

  function Price(o: CPUOffer): real { o.priceUSD }

  /** `[Math.floor(min), Math.ceil(max)]` of the tile prices, `[0, 0]` without tiles. */
  function PriceBoundsOf(offers: seq<CPUOffer>): (b: (int, int))
    ensures offers == [] ==> b == (0, 0)
    ensures forall i :: 0 <= i < |offers| ==> b.0 as real <= offers[i].priceUSD <= b.1 as real
    ensures offers != [] ==> exists i :: 0 <= i < |offers| && offers[i].priceUSD < b.0 as real + 1.0
    ensures offers != [] ==> exists i :: 0 <= i < |offers| && b.1 as real - 1.0 < offers[i].priceUSD
  {
    if offers == [] then (0, 0)
    else
      var prices := Map(offers, Price);
      assert forall i :: 0 <= i < |offers| ==> prices[i] == offers[i].priceUSD;
      (Floor(MinOf(prices).value), Ceil(MaxOf(prices).value))
  }

  /** The loop with `min` from `+Infinity` and `max` from `-Infinity`. */
  method PriceBounds(offers: seq<CPUOffer>) returns (bounds: (int, int))
    ensures bounds == PriceBoundsOf(offers)
  {
    if |offers| == 0 {
      return (0, 0);
    }
    var min: Num := PosInf;
    var max: Num := NegInf;
    for i := 0 to |offers|
      invariant min == MinOf(Map(offers[..i], Price))
      invariant max == MaxOf(Map(offers[..i], Price))
    {
      var p := offers[i].priceUSD;
      PricesSnoc(offers, i);
      MinStep(Map(offers[..i], Price), p);
      MaxStep(Map(offers[..i], Price), p);
      if NumLt(Finite(p), min) {
        min := Finite(p);
      }
      if NumLt(max, Finite(p)) {
        max := Finite(p);
      }
    }
    assert offers[..|offers|] == offers;
    bounds := (Floor(min.value), Ceil(max.value));
  }

  lemma PricesSnoc(offers: seq<CPUOffer>, i: nat)
    requires i < |offers|
    ensures Map(offers[..i + 1], Price) == Map(offers[..i], Price) + [offers[i].priceUSD]
  {
    assert offers[..i + 1] == offers[..i] + [offers[i]];
  }

  /** One more price lowers the running minimum exactly when it is below it. */
  lemma MinStep(xs: seq<real>, p: real)
    ensures MinOf(xs + [p]) == if NumLt(Finite(p), MinOf(xs)) then Finite(p) else MinOf(xs)
  {
    assert (xs + [p])[..|xs|] == xs;
  }

  /** One more price raises the running maximum exactly when it is above it. */
  lemma MaxStep(xs: seq<real>, p: real)
    ensures MaxOf(xs + [p]) == if NumLt(MaxOf(xs), Finite(p)) then Finite(p) else MaxOf(xs)
  {
    assert (xs + [p])[..|xs|] == xs;
  }

  // ---------------------------------------------------------------- filtered

  /** The fields the search looks in, including the combined "brand model" and "series model". */
  function SearchFields(o: CPUOffer): seq<string> {
    [o.model, o.brand, o.series, o.generation, o.vendor, o.brand + " " + o.model, o.series + " " + o.model]
  }

  /** `fields.some((f) => norm(f).includes(q))`. */
  predicate MatchesQuery(q: string, o: CPUOffer) {
    exists k :: 0 <= k < |SearchFields(o)| && Contains(Norm(SearchFields(o)[k]), q)
  }

  /** `v ?? d`, with `d` one of the infinities. */
  function Substitute(v: Option<real>, d: Num): Num {
    match v
    case Some(x) => Finite(x)
    case None => d
  }

  // The tests of the successive `arr.filter` calls, as the source writes them.
  function SearchTest(q: string): CPUOffer -> bool { (o: CPUOffer) => MatchesQuery(q, o) }
  function BrandIn(xs: seq<string>): CPUOffer -> bool { (o: CPUOffer) => o.brand in xs }
  function GenerationIn(xs: seq<string>): CPUOffer -> bool { (o: CPUOffer) => o.generation in xs }
  function SeriesIn(xs: seq<string>): CPUOffer -> bool { (o: CPUOffer) => o.series in xs }
  function VendorIn(xs: seq<string>): CPUOffer -> bool { (o: CPUOffer) => o.vendor in xs }
  function InStock(): CPUOffer -> bool { (o: CPUOffer) => o.inStock }
  function PriceAtLeast(lo: real): CPUOffer -> bool { (o: CPUOffer) => o.priceUSD >= lo }
  function PriceAtMost(hi: real): CPUOffer -> bool { (o: CPUOffer) => o.priceUSD <= hi }
  function BaseAtLeast(lo: real): CPUOffer -> bool { (o: CPUOffer) => NumLe(Finite(lo), Substitute(o.baseClockGHz, NegInf)) }
  function BaseAtMost(hi: real): CPUOffer -> bool { (o: CPUOffer) => NumLe(Substitute(o.baseClockGHz, PosInf), Finite(hi)) }
  function TdpAtLeast(lo: real): CPUOffer -> bool { (o: CPUOffer) => NumLe(Finite(lo), Substitute(o.tdpW, PosInf)) }
  function TdpAtMost(hi: real): CPUOffer -> bool { (o: CPUOffer) => NumLe(Substitute(o.tdpW, NegInf), Finite(hi)) }
  function CoresIn(xs: seq<real>): CPUOffer -> bool { (o: CPUOffer) => o.cores in xs }
  function ThreadsIn(xs: seq<real>): CPUOffer -> bool { (o: CPUOffer) => o.threads in xs }

  /** The search and the selection lists keep the tile. */
  predicate MatchesSelection(f: FilterState, o: CPUOffer) {
    var q := Norm(Trim(f.search));
    && (q != [] ==> MatchesQuery(q, o))
    && (f.brands != [] ==> o.brand in f.brands)
    && (f.generations != [] ==> o.generation in f.generations)
    && (f.series != [] ==> o.series in f.series)
    && (f.vendors != [] ==> o.vendor in f.vendors)
    && (f.inStockOnly ==> o.inStock)
  }

  /**
    Each set bound holds; a tile without a base clock fails both base-clock
    bounds, a tile without a TDP passes both TDP bounds.
   */
  predicate InRanges(f: FilterState, o: CPUOffer) {
    && (f.minPrice.Some? ==> f.minPrice.value <= o.priceUSD)
    && (f.maxPrice.Some? ==> o.priceUSD <= f.maxPrice.value)
    && (f.minBaseClockGHz.Some? ==> o.baseClockGHz.Some? && f.minBaseClockGHz.value <= o.baseClockGHz.value)
    && (f.maxBaseClockGHz.Some? ==> o.baseClockGHz.Some? && o.baseClockGHz.value <= f.maxBaseClockGHz.value)
    && (f.minTdpW.Some? && o.tdpW.Some? ==> f.minTdpW.value <= o.tdpW.value)
    && (f.maxTdpW.Some? && o.tdpW.Some? ==> o.tdpW.value <= f.maxTdpW.value)
  }

  /** The core and thread selections keep the tile. */
  predicate MatchesCounts(f: FilterState, o: CPUOffer) {
    && (f.cores != [] ==> o.cores in f.cores)
    && (f.threads != [] ==> o.threads in f.threads)
  }

  /** Which tiles the filters keep. */
  predicate Keeps(f: FilterState, o: CPUOffer) {
    MatchesSelection(f, o) && InRanges(f, o) && MatchesCounts(f, o)
  }

  function Kept(f: FilterState): CPUOffer -> bool {
    (o: CPUOffer) => Keeps(f, o)
  }

  /** `const [key, dir = "asc"] = sort.split("-")` and `factor = dir === "asc" ? 1 : -1`. */
  function SortKey(sort: string): (r: (string, real))
    ensures r.1 == 1.0 || r.1 == -1.0
  {
    var parts := Split(sort, "-");
    var dir := if |parts| >= 2 then parts[1] else "asc";
    (parts[0], if dir == "asc" then 1.0 else -1.0)
  }

  /** The comparator passed to `arr.sort`; `localeCompare` is taken as code-point order. */
  function CompareBy(key: string, factor: real): (CPUOffer, CPUOffer) -> real {
    (a: CPUOffer, b: CPUOffer) =>
      if key == "price" then (a.priceUSD - b.priceUSD) * factor
      else if key == "brand" then LexCmp(a.brand, b.brand) * factor
      else if key == "generation" then (a.generationRank - b.generationRank) as real * factor
      else if key == "series" then LexCmp(a.series, b.series) * factor
      else 0.0
  }

  function Comparator(sort: string): (CPUOffer, CPUOffer) -> real {
    var (key, factor) := SortKey(sort);
    CompareBy(key, factor)
  }

  /** `filtered`: the kept tiles in catalogue order, then stably sorted. */
  function FilteredOf(offers: seq<CPUOffer>, filters: FilterState, sort: string): seq<CPUOffer> {
    SortBy(Filter(offers, Kept(filters)), Comparator(sort))
  }

  /** Whether stage `k` of the fourteen `if (...) arr = arr.filter(...)` of `filtered` runs. */
  function StageActive(f: FilterState, k: nat): bool {
    match k
    case 0 => Norm(Trim(f.search)) != []
    case 1 => |f.brands| > 0
    case 2 => |f.generations| > 0
    case 3 => |f.series| > 0
    case 4 => |f.vendors| > 0
    case 5 => f.inStockOnly
    case 6 => f.minPrice.Some?
    case 7 => f.maxPrice.Some?
    case 8 => f.minBaseClockGHz.Some?
    case 9 => f.maxBaseClockGHz.Some?
    case 10 => f.minTdpW.Some?
    case 11 => f.maxTdpW.Some?
    case 12 => |f.cores| > 0
    case 13 => |f.threads| > 0
    case _ => false
  }

  /** The test stage `k` filters by. */
  function StageTest(f: FilterState, k: nat): CPUOffer -> bool {
    match k
    case 0 => SearchTest(Norm(Trim(f.search)))
    case 1 => BrandIn(f.brands)
    case 2 => GenerationIn(f.generations)
    case 3 => SeriesIn(f.series)
    case 4 => VendorIn(f.vendors)
    case 5 => InStock()
    case 6 => PriceAtLeast(f.minPrice.GetOr(0.0))
    case 7 => PriceAtMost(f.maxPrice.GetOr(0.0))
    case 8 => BaseAtLeast(f.minBaseClockGHz.GetOr(0.0))
    case 9 => BaseAtMost(f.maxBaseClockGHz.GetOr(0.0))
    case 10 => TdpAtLeast(f.minTdpW.GetOr(0.0))
    case 11 => TdpAtMost(f.maxTdpW.GetOr(0.0))
    case 12 => CoresIn(f.cores)
    case 13 => ThreadsIn(f.threads)
    case _ => (o: CPUOffer) => true
  }

  /** The tile passes stages `0` to `n - 1`. */
  predicate PassesStages(f: FilterState, n: nat, o: CPUOffer) {
    n == 0 || (PassesStages(f, n - 1, o) && StagePasses(f, n - 1, o))
  }

  function Stages(f: FilterState, n: nat): CPUOffer -> bool {
    (o: CPUOffer) => PassesStages(f, n, o)
  }

  /** One more stage filters the tiles that passed the earlier ones. */
  lemma NextStage(offers: seq<CPUOffer>, f: FilterState, k: nat)
    ensures (if StageActive(f, k) then Filter(Filter(offers, Stages(f, k)), StageTest(f, k)) else Filter(offers, Stages(f, k)))
            == Filter(offers, Stages(f, k + 1))
  {
    FilterStage(offers, Stages(f, k), StageActive(f, k), StageTest(f, k));
    forall o ensures And(Stages(f, k), Guard(StageActive(f, k), StageTest(f, k)))(o) == Stages(f, k + 1)(o) {
      assert PassesStages(f, k + 1, o) == (PassesStages(f, k, o) && StagePasses(f, k, o));
    }
    FilterExt(offers, And(Stages(f, k), Guard(StageActive(f, k), StageTest(f, k))), Stages(f, k + 1));
  }

  /** Stage `k` lets the tile through. */
  predicate StagePasses(f: FilterState, k: nat, o: CPUOffer) {
    StageActive(f, k) ==> StageTest(f, k)(o)
  }

  /** Passing stages `0` to `n - 1` is passing each of them. */
  lemma {:induction false} PassesEach(f: FilterState, n: nat, o: CPUOffer)
    ensures PassesStages(f, n, o) <==> forall k :: 0 <= k < n ==> StagePasses(f, k, o)
  {
    if n > 0 {
      PassesEach(f, n - 1, o);
    }
  }

  lemma SelectionStages(f: FilterState, o: CPUOffer)
    ensures MatchesSelection(f, o) == (StagePasses(f, 0, o) && StagePasses(f, 1, o) && StagePasses(f, 2, o)
                                       && StagePasses(f, 3, o) && StagePasses(f, 4, o) && StagePasses(f, 5, o))
  {
  }

  /** The bound stages, with `?? -Infinity` or `?? Infinity` for a missing value, are the bounds of `InRanges`. */
  lemma RangeStages(f: FilterState, o: CPUOffer)
    ensures InRanges(f, o) == (StagePasses(f, 6, o) && StagePasses(f, 7, o) && StagePasses(f, 8, o)
                               && StagePasses(f, 9, o) && StagePasses(f, 10, o) && StagePasses(f, 11, o))
  {
  }

  /** Passing all fourteen stages is what `Keeps` says. */
  lemma StagesAreKeeps(f: FilterState, o: CPUOffer)
    ensures PassesStages(f, 14, o) == Keeps(f, o)
  {
    PassesEach(f, 14, o);
    SelectionStages(f, o);
    RangeStages(f, o);
    assert MatchesCounts(f, o) == (StagePasses(f, 12, o) && StagePasses(f, 13, o));
    if Keeps(f, o) {
      forall k | 0 <= k < 14 ensures StagePasses(f, k, o) {
        assert k == 0 || k == 1 || k == 2 || k == 3 || k == 4 || k == 5 || k == 6
            || k == 7 || k == 8 || k == 9 || k == 10 || k == 11 || k == 12 || k == 13;
      }
    }
  }

  /** The tiles that pass all fourteen stages are those the filters keep. */
  lemma StagesFilterKept(offers: seq<CPUOffer>, f: FilterState)
    ensures Filter(offers, Stages(f, 14)) == Filter(offers, Kept(f))
  {
    forall o ensures Stages(f, 14)(o) == Kept(f)(o) {
      StagesAreKeeps(f, o);
    }
    FilterExt(offers, Stages(f, 14), Kept(f));
  }

  /** Stage `k`, `if (active) arr = arr.filter(t)`, on the tiles of `offers` that passed the stages before it. */
  method FilterIf(arr: seq<CPUOffer>, active: bool, t: CPUOffer -> bool,
                  ghost offers: seq<CPUOffer>, ghost f: FilterState, ghost k: nat)
    returns (r: seq<CPUOffer>)
    requires arr == Filter(offers, Stages(f, k))
    requires active == StageActive(f, k) && t == StageTest(f, k)
    ensures r == Filter(offers, Stages(f, k + 1))
  {
    r := arr;
    if active {
      r := Filter(r, t);
    }
    NextStage(offers, f, k);
  }

  /** The staged `if (...) arr = arr.filter(...)` of `filtered`, then `arr.sort`. */
  method Filtered(offers: seq<CPUOffer>, filters: FilterState, sort: string) returns (arr: seq<CPUOffer>)
    ensures arr == FilteredOf(offers, filters, sort)
  {
    arr := offers;
    FilterAll(offers, Stages(filters, 0));
    arr := FilterSelection(arr, filters, offers);
    arr := FilterRanges(arr, filters, offers);
    arr := FilterCounts(arr, filters, offers);
    StagesFilterKept(offers, filters);
    arr := SortBy(arr, Comparator(sort));
  }

  /** The search stage and the brand, generation, series, vendor and in-stock stages. */
  method FilterSelection(arr: seq<CPUOffer>, filters: FilterState, ghost offers: seq<CPUOffer>) returns (r: seq<CPUOffer>)
    requires arr == Filter(offers, Stages(filters, 0))
    ensures r == Filter(offers, Stages(filters, 6))
  {
    var q := Norm(Trim(filters.search));
    r := FilterIf(arr, q != [], SearchTest(q), offers, filters, 0);
    r := FilterIf(r, |filters.brands| > 0, BrandIn(filters.brands), offers, filters, 1);
    r := FilterIf(r, |filters.generations| > 0, GenerationIn(filters.generations), offers, filters, 2);
    r := FilterIf(r, |filters.series| > 0, SeriesIn(filters.series), offers, filters, 3);
    r := FilterIf(r, |filters.vendors| > 0, VendorIn(filters.vendors), offers, filters, 4);
    r := FilterIf(r, filters.inStockOnly, InStock(), offers, filters, 5);
  }

  /** The price, base-clock and TDP bound stages, each run only when its bound is set. */
  method FilterRanges(arr: seq<CPUOffer>, filters: FilterState, ghost offers: seq<CPUOffer>) returns (r: seq<CPUOffer>)
    requires arr == Filter(offers, Stages(filters, 6))
    ensures r == Filter(offers, Stages(filters, 12))
  {
    r := FilterIf(arr, filters.minPrice.Some?, PriceAtLeast(filters.minPrice.GetOr(0.0)), offers, filters, 6);
    r := FilterIf(r, filters.maxPrice.Some?, PriceAtMost(filters.maxPrice.GetOr(0.0)), offers, filters, 7);
    r := FilterIf(r, filters.minBaseClockGHz.Some?, BaseAtLeast(filters.minBaseClockGHz.GetOr(0.0)), offers, filters, 8);
    r := FilterIf(r, filters.maxBaseClockGHz.Some?, BaseAtMost(filters.maxBaseClockGHz.GetOr(0.0)), offers, filters, 9);
    r := FilterIf(r, filters.minTdpW.Some?, TdpAtLeast(filters.minTdpW.GetOr(0.0)), offers, filters, 10);
    r := FilterIf(r, filters.maxTdpW.Some?, TdpAtMost(filters.maxTdpW.GetOr(0.0)), offers, filters, 11);
  }

  /** The core and thread stages. */
  method FilterCounts(arr: seq<CPUOffer>, filters: FilterState, ghost offers: seq<CPUOffer>) returns (r: seq<CPUOffer>)
    requires arr == Filter(offers, Stages(filters, 12))
    ensures r == Filter(offers, Stages(filters, 14))
  {
    r := FilterIf(arr, |filters.cores| > 0, CoresIn(filters.cores), offers, filters, 12);
    r := FilterIf(r, |filters.threads| > 0, ThreadsIn(filters.threads), offers, filters, 13);
  }

  // ---------------------------------------------------------------- properties of filtered

  /** Each sort key with either direction orders any two tiles consistently. */
  lemma CompareByPreorder(key: string, factor: real)
    requires factor == 1.0 || factor == -1.0
    ensures TotalPreorder(CompareBy(key, factor))
  {
    var cmp := CompareBy(key, factor);
    forall a, b ensures Le(cmp, a, b) || Le(cmp, b, a) {
      LexTrichotomy(a.brand, b.brand);
      LexTrichotomy(a.series, b.series);
    }
    forall a, b, c | Le(cmp, a, b) && Le(cmp, b, c) ensures Le(cmp, a, c) {
      if key == "brand" {
        LexOrdered(a.brand, b.brand, c.brand, factor);
      } else if key == "series" {
        LexOrdered(a.series, b.series, c.series, factor);
      }
    }
  }

  /** `localeCompare` taken as code-point order, in either direction, is transitive. */
  lemma LexOrdered(x: string, y: string, z: string, factor: real)
    requires factor == 1.0 || factor == -1.0
    requires LexCmp(x, y) * factor <= 0.0 && LexCmp(y, z) * factor <= 0.0
    ensures LexCmp(x, z) * factor <= 0.0
  {
    if x != y && y != z {
      if factor == 1.0 {
        LexTransitive(x, y, z);
      } else {
        LexTransitive(z, y, x);
      }
    }
  }

  lemma ComparatorPreorder(sort: string)
    ensures TotalPreorder(Comparator(sort))
  {
    var (key, factor) := SortKey(sort);
    CompareByPreorder(key, factor);
  }

  /** The result is ordered by the chosen comparator. */
  lemma FilteredSorted(offers: seq<CPUOffer>, filters: FilterState, sort: string)
    ensures SortedBy(FilteredOf(offers, filters, sort), Comparator(sort))
  {
    ComparatorPreorder(sort);
    SortBySorted(Filter(offers, Kept(filters)), Comparator(sort));
  }

  /** The result holds exactly the kept tiles, each as often as in the catalogue. */
  lemma FilteredMembers(offers: seq<CPUOffer>, filters: FilterState, sort: string)
    ensures multiset(FilteredOf(offers, filters, sort)) == multiset(Filter(offers, Kept(filters)))
    ensures forall o :: o in FilteredOf(offers, filters, sort) <==> o in offers && Keeps(filters, o)
  {
    var kept := Filter(offers, Kept(filters));
    FilterMembers(offers, Kept(filters));
    forall o ensures o in FilteredOf(offers, filters, sort) <==> o in offers && Keeps(filters, o) {
      SortByMembers(kept, Comparator(sort), o);
      if o in kept {
        var i :| 0 <= i < |kept| && kept[i] == o;
      }
      if o in offers {
        var i :| 0 <= i < |offers| && offers[i] == o;
      }
    }
  }

  /** Tiles the comparator ties keep their catalogue order; with an unknown key nothing moves. */
  lemma FilteredUnknownKey(offers: seq<CPUOffer>, filters: FilterState, sort: string)
    requires SortKey(sort).0 !in ["price", "brand", "generation", "series"]
    ensures FilteredOf(offers, filters, sort) == Filter(offers, Kept(filters))
  {
    SortByAllTied(Filter(offers, Kept(filters)), Comparator(sort));
  }

  function PricedAt(price: real): CPUOffer -> bool {
    (o: CPUOffer) => o.priceUSD == price
  }

  /** Sorting by price is stable: tiles of equal price stay in catalogue order. */
  lemma FilteredPriceTiesKeepOrder(offers: seq<CPUOffer>, filters: FilterState, sort: string, price: real)
    requires SortKey(sort).0 == "price"
    ensures Filter(FilteredOf(offers, filters, sort), PricedAt(price)) == Filter(Filter(offers, Kept(filters)), PricedAt(price))
  {
    ComparatorPreorder(sort);
    assert TiedClass(Comparator(sort), PricedAt(price));
    SortByStable(Filter(offers, Kept(filters)), Comparator(sort), PricedAt(price));
  }

  /** `"key-dir"` sorts by `key`, ascending exactly when `dir` is `"asc"`. */
  lemma SortKeyWithDirection(key: string, dir: string)
    requires '-' !in key && '-' !in dir
    ensures SortKey(key + "-" + dir) == (key, if dir == "asc" then 1.0 else -1.0)
  {
    assert key + "-" + dir == key + ['-'] + dir;
    SplitAtFirst(key, '-', dir);
    SplitNoSeparator(dir, '-');
  }

  /** A bare key sorts ascending. */
  lemma SortKeyWithoutDirection(key: string)
    requires '-' !in key
    ensures SortKey(key) == (key, 1.0)
  {
    SplitNoSeparator(key, '-');
  }

  /** Sorting by price ascending the prices never decrease; descending they never increase. */
  lemma FilteredByPrice(offers: seq<CPUOffer>, filters: FilterState, sort: string)
    requires SortKey(sort).0 == "price"
    ensures var r := FilteredOf(offers, filters, sort);
            SortKey(sort).1 == 1.0 ==> forall i, j :: 0 <= i < j < |r| ==> r[i].priceUSD <= r[j].priceUSD
    ensures var r := FilteredOf(offers, filters, sort);
            SortKey(sort).1 == -1.0 ==> forall i, j :: 0 <= i < j < |r| ==> r[i].priceUSD >= r[j].priceUSD
  {
    FilteredSorted(offers, filters, sort);
    var r := FilteredOf(offers, filters, sort);
    forall i, j | 0 <= i < j < |r| ensures (r[i].priceUSD - r[j].priceUSD) * SortKey(sort).1 <= 0.0 {
      assert Le(Comparator(sort), r[i], r[j]);
    }
  }

  /** The two price orders of the sort bar. */
  lemma PriceSortStrings()
    ensures SortKey("price-asc") == ("price", 1.0)
    ensures SortKey("price-desc") == ("price", -1.0)
  {
    assert "price-asc" == "price" + "-" + "asc";
    assert "price-desc" == "price" + "-" + "desc";
    assert '-' !in "price" && '-' !in "asc" && '-' !in "desc";
    SortKeyWithDirection("price", "asc");
    SortKeyWithDirection("price", "desc");
  }

  /** After `resetAll` every tile is shown. */
  lemma ResetShowsAll(offers: seq<CPUOffer>, sort: string)
    ensures FilteredOf(offers, InitialFilters(), sort) == SortBy(offers, Comparator(sort))
  {
    assert Trim("") == "";
    assert Norm("") == "";
    FilterAll(offers, Kept(InitialFilters()));
  }

  /**
    A tile without a base clock is hidden as soon as either base-clock bound is
    set; a tile without a TDP is never hidden by the TDP bounds.
   */
  lemma MissingSpecs(f: FilterState, o: CPUOffer)
    ensures o.baseClockGHz.None? && (f.minBaseClockGHz.Some? || f.maxBaseClockGHz.Some?) ==> !Keeps(f, o)
    ensures o.tdpW.None? ==> (Keeps(f, o) <==> Keeps(f.(minTdpW := None, maxTdpW := None), o))
  {
  }
}
