/**
  The ingest pipeline of the catalogue: raw vendor records are coerced into
  offers (bad records are dropped), offers are grouped by canonical model name
  into products, and products are listed cheapest first.
 */
module Processors {
  import opened Wrappers
  import opened Seqs
  import opened Sorting
  import opened Text
  import opened JsNumber
  import opened Groups

  // ---------------------------------------------------------------- records and offers

  /**
    A raw record of the vendor dataset. `brand` may be absent from the JSON
    even though the record type declares it, and the `??` fallback further on
    depends on that, so it is an `Option`.
   */
  datatype ProcessorRecord = ProcessorRecord(
    name: string,
    link: string,
    price: Field,
    vendor: string,
    standardName: string,
    brand: Option<string>,
    generation: string,
    series: string,
    cores: Field,
    threads: Field,
    baseClockGhz: Field,
    tdpWatt: Field)

  /** The optional technical specification of an offer; `None` is `undefined`. */
  datatype Specs = Specs(
    cores: Option<real>,
    threads: Option<real>,
    baseClockGhz: Option<real>,
    tdpWatt: Option<real>)

  /** One vendor's listing of one processor. */
  datatype Offer = Offer(
    id: string,
    name: string,
    url: string,
    price: real,
    vendor: string,
    standardName: string,
    brand: Option<string>,
    generation: string,
    series: string,
    specs: Specs)

  // ---------------------------------------------------------------- toNumber

  predicate IsPriceChar(c: char) { IsDigit(c) || c == '.' }

  /**
    `toNumber`: `undefined` stays `undefined`, a number is kept, and a string is
    read by `parseFloat` after every character other than a digit or `.` is
    deleted; a parse that is not finite gives `undefined`.
   */
  function ToNumber(v: Field): (r: Option<real>)
    ensures v.Missing? ==> r == None
    ensures v.Number? ==> r == Some(v.n)
    ensures v.Str? ==> (r.None? <==> !StartsNumeric(Filter(v.s, IsPriceChar)))
  {
    match v
    case Missing => None
    case Number(n) => Some(n)
    case Str(s) =>
      var t := Filter(s, IsPriceChar);
      FilterMembers(s, IsPriceChar);
      ParseFloatDigitsDots(t);
      match ParseFloat(t)
      case Finite(x) => Some(x)
      case _ => None
  }

  /** A string holding the decimal form of a natural number coerces to that number. */
  lemma ToNumberShowNat(n: nat)
    ensures ToNumber(Str(ShowNat(n))) == Some(n as real)
  {
    var s := ShowNat(n);
    FilterAll(s, IsPriceChar);
    ParseFloatShowNat(n);
  }

  /** The sign is one of the deleted characters, so `"-5"` coerces to `5`. */
  lemma ToNumberDropsSign(n: nat)
    ensures ToNumber(Str("-" + ShowNat(n))) == Some(n as real)
  {
    var s := ShowNat(n);
    FilterAppend("-", s, IsPriceChar);
    assert Filter("-", IsPriceChar) == [];
    FilterAll(s, IsPriceChar);
    assert Filter("-" + s, IsPriceChar) == s;
    ParseFloatShowNat(n);
  }

  // ---------------------------------------------------------------- slugify

  predicate IsSlugChar(c: char) { IsLowerAlnum(c) || c == '-' }

  predicate SlugChars(s: string) { forall k :: 0 <= k < |s| ==> IsSlugChar(s[k]) }

  /** Lower-case letters, digits and single hyphens, with no hyphen at either end. */
  predicate IsSlug(s: string) {
    && SlugChars(s)
    && NoDoubled(s, '-')
    && (s == [] || (s[0] != '-' && s[|s| - 1] != '-'))
  }

  /**
    `.replace(/(^-|-$)+/g, "")`: one leading and one trailing hyphen go (the
    group can match only once at each end, as each alternative is anchored).
   */
  function StripEdgeHyphens(t: string): (r: string)
    ensures |r| <= |t|
  {
    var a := if t != [] && t[0] == '-' then t[1..] else t;
    if a != [] && a[|a| - 1] == '-' then a[..|a| - 1] else a
  }

  /**
    `slugify`: lower-case, replace every run of characters outside `[a-z0-9]`
    by one hyphen, then drop a hyphen at either end.
   */
  function Slugify(s: string): (r: string)
    ensures IsSlug(r)
  {
    var low := Lower(s);
    var t := ReplaceRuns(low, NotLowerAlnum, '-');
    SplitRunsPieces(low, NotLowerAlnum);
    JoinChars(SplitRuns(low, NotLowerAlnum), NotLowerAlnum, '-');
    JoinNoDoubled(SplitRuns(low, NotLowerAlnum), NotLowerAlnum, '-');
    StripEdgeSlug(t);
    StripEdgeHyphens(t)
  }

  lemma StripEdgeSlug(t: string)
    requires SlugChars(t) && NoDoubled(t, '-')
    ensures IsSlug(StripEdgeHyphens(t))
  {
    var a := if t != [] && t[0] == '-' then t[1..] else t;
    var r := StripEdgeHyphens(t);
    if |t| > 1 {
      assert !(t[0] == '-' && t[1] == '-');
    }
    if a != [] && a[|a| - 1] == '-' {
      assert r == a[..|a| - 1];
      if r != [] {
        assert r[|r| - 1] == a[|a| - 2];
        assert r[0] == a[0];
      }
    }
  }

  /** A slug is its own slug. */
  lemma SlugifyFixesSlugs(s: string)
    requires IsSlug(s)
    ensures Slugify(s) == s
  {
    assert Lower(s) == s;
    ReplaceRunsFixed(s, NotLowerAlnum, '-');
  }

  /** `slugify` is idempotent. */
  lemma SlugifyIdempotent(s: string)
    ensures Slugify(Slugify(s)) == Slugify(s)
  {
    SlugifyFixesSlugs(Slugify(s));
  }

  // ---------------------------------------------------------------- normalizeRecord

  /** `!price`: a coerced price that is `undefined` or zero. */
  predicate Falsy(p: Option<real>) { p.None? || p.value == 0.0 }

  /** The offer id: the slug of the model name, a hyphen, the slug of the vendor. */
  function OfferId(rec: ProcessorRecord): (id: string)
    ensures SlugChars(id)
  {
    var a, b := Slugify(OrElse(rec.standardName, rec.name)), Slugify(rec.vendor);
    assert forall k :: 0 <= k < |a + "-" + b| ==> (a + "-" + b)[k] == if k < |a| then a[k] else if k == |a| then '-' else b[k - |a| - 1];
    a + "-" + b
  }

  /**
    `normalizeRecord`: `null` unless the coerced price is truthy and the link is
    non-empty; otherwise the offer, whose specs are coerced field by field.
   */
  function NormalizeRecord(rec: ProcessorRecord): (r: Option<Offer>)
    ensures r.None? <==> Falsy(ToNumber(rec.price)) || rec.link == []
    ensures r.Some? ==> r.value.price == ToNumber(rec.price).value && r.value.price != 0.0
    ensures r.Some? ==> r.value.url == rec.link && r.value.url != []
    ensures r.Some? ==> r.value.standardName == OrElse(rec.standardName, rec.name)
    ensures r.Some? ==> r.value.id == OfferId(rec) && SlugChars(r.value.id)
    ensures r.Some? ==> r.value.name == rec.name && r.value.vendor == rec.vendor
    ensures r.Some? ==> r.value.brand == rec.brand && r.value.generation == rec.generation && r.value.series == rec.series
    ensures r.Some? ==> r.value.specs == Specs(ToNumber(rec.cores), ToNumber(rec.threads), ToNumber(rec.baseClockGhz), ToNumber(rec.tdpWatt))
    ensures r.Some? ==> (rec.cores.Missing? ==> r.value.specs.cores.None?)
                        && (rec.threads.Missing? ==> r.value.specs.threads.None?)
                        && (rec.baseClockGhz.Missing? ==> r.value.specs.baseClockGhz.None?)
                        && (rec.tdpWatt.Missing? ==> r.value.specs.tdpWatt.None?)
  {
    var price := ToNumber(rec.price);
    if Falsy(price) || rec.link == [] then None
    else
      Some(Offer(
        id := OfferId(rec),
        name := rec.name,
        url := rec.link,
        price := price.value,
        vendor := rec.vendor,
        standardName := OrElse(rec.standardName, rec.name),
        brand := rec.brand,
        generation := rec.generation,
        series := rec.series,
        specs := Specs(ToNumber(rec.cores), ToNumber(rec.threads), ToNumber(rec.baseClockGhz), ToNumber(rec.tdpWatt))))
  }

  /** Only falsy prices are rejected: a negative numeric price gets through. */
  lemma NegativePriceAccepted(rec: ProcessorRecord, x: real)
    requires rec.price == Number(x) && x < 0.0 && rec.link != []
    ensures NormalizeRecord(rec).Some? && NormalizeRecord(rec).value.price == x
  {
  }

  // ---------------------------------------------------------------- normalizeAll

  /** What `normalizeAll` returns: the non-null `normalizeRecord` results, in input order. */
  function NormalizedOffers(records: seq<ProcessorRecord>): (out: seq<Offer>)
    ensures |out| <= |records|
  {
    Somes(Map(records, NormalizeRecord))
  }

  /**
    `normalizeAll`: a loop that pushes every non-null `normalizeRecord` result;
    by `SomesAreTheSomeEntries`, wrapped back in `Some` these are exactly the
    accepted records' results, in order.
   */
  method NormalizeAll(records: seq<ProcessorRecord>) returns (out: seq<Offer>)
    ensures out == NormalizedOffers(records)
    ensures Map(out, Wrap) == Filter(Map(records, NormalizeRecord), IsSome)
  {
    out := [];
    for i := 0 to |records|
      invariant out == Somes(Map(records[..i], NormalizeRecord))
    {
      assert Map(records[..i + 1], NormalizeRecord)[..i] == Map(records[..i], NormalizeRecord);
      var n := NormalizeRecord(records[i]);
      if n.Some? {
        out := out + [n.value];
      }
    }
    assert records[..|records|] == records;
    SomesAreTheSomeEntries(Map(records, NormalizeRecord));
  }

  // ---------------------------------------------------------------- parseGenerationRank

  /**
    `parseGenerationRank`: the value of the first maximal run of decimal digits
    in the generation string, or 0 when it has none. The brand is not used.
   */
  function ParseGenerationRank(brand: Option<string>, generation: string): (rank: nat)
    ensures NoneIn(generation, IsDigit) ==> rank == 0
  {
    var i := FirstIn(generation, IsDigit);
    if i == |generation| then 0
    else
      var n := RunEnd(generation[i..], IsDigit);
      assert AllDigits(generation[i..][..n]);
      DigitsValue(generation[i..][..n])
  }

  /**
    The rank of `"<text without digits><digits><non-digit>..."` is the value of
    the digits, leading zeros included, whatever follows.
   */
  lemma GenerationRankOf(brand: Option<string>, pre: string, digits: string, post: string)
    requires NoneIn(pre, IsDigit)
    requires digits != [] && AllDigits(digits)
    requires post == [] || !IsDigit(post[0])
    ensures ParseGenerationRank(brand, pre + digits + post) == DigitsValue(digits)
  {
    var g := pre + digits + post;
    assert g == pre + (digits + post);
    FirstInNoClass(pre, digits + post, IsDigit);
    assert FirstIn(digits + post, IsDigit) == 0 by {
      assert (digits + post)[0] == digits[0];
    }
    assert g[|pre|..] == digits + post;
    RunEndConcat(digits, post, IsDigit);
    assert (digits + post)[..|digits|] == digits;
  }

  /** `parseInt` reads a leading zero: "Gen 05" ranks 5. */
  lemma GenerationRankLeadingZero()
    ensures ParseGenerationRank(None, "Gen 05") == 5
  {
    assert "Gen 05" == "Gen " + "05" + "";
    assert DigitsValue("05") == 5 by {
      assert DigitsValue("0") == 0;
    }
    GenerationRankOf(None, "Gen ", "05", "");
  }

  lemma {:induction false} RunEndConcat(a: string, b: string, cls: char -> bool)
    requires forall k :: 0 <= k < |a| ==> cls(a[k])
    requires b == [] || !cls(b[0])
    ensures RunEnd(a + b, cls) == |a|
  {
    if a != [] {
      assert (a + b)[1..] == a[1..] + b;
      RunEndConcat(a[1..], b, cls);
    } else {
      assert a + b == b;
    }
  }

  // ---------------------------------------------------------------- enrichForApi

  /** An offer as listed under its product (`lastSeen`, a wall-clock time, is left out). */
  datatype ApiOffer = ApiOffer(store: string, price: real, url: string, inStock: bool)

  /** A product: the offers of one model, with metadata from the first of them. */
  datatype CpuForApi = CpuForApi(
    id: string,
    brand: string,
    model: string,
    generation: string,
    series: string,
    cores: real,
    threads: real,
    baseClockGHz: Option<real>,
    boostClockGHz: Option<real>,
    tdpW: Option<real>,
    offers: seq<ApiOffer>,
    bestPrice: real,
    generationRank: nat)

  /** A flattened row: an offer's own fields, with its group's model, base clock, TDP and brand. */
  datatype FlattenedForApi = FlattenedForApi(
    id: string,
    name: string,
    url: string,
    price: real,
    vendor: string,
    standardName: string,
    brand: string,
    generation: string,
    series: string,
    specs: Specs,
    model: string,
    baseClockGHz: Option<real>,
    tdpW: Option<real>)

  /** The grouping key `o.standardName || o.name`. */
  function ModelKey(o: Offer): string { OrElse(o.standardName, o.name) }

  /**
    `(first.brand as "Intel" | "AMD") ?? "Intel"`: the cast checks nothing, so any
    brand string passes; only a missing brand becomes `"Intel"`.
   */
  function ApiBrand(o: Offer): string { o.brand.GetOr("Intel") }

  /** `inStock` is `Number.isFinite(price) && price > 0`; every price here is finite. */
  function ToApiOffer(o: Offer): ApiOffer {
    ApiOffer(o.vendor, o.price, o.url, o.price > 0.0)
  }

  function OfferPrice(a: ApiOffer): real { a.price }

  /**
    `offers.reduce((min, o) => Math.min(min, o.price), Infinity)`, replaced by 0
    when it is not finite: the lowest price, or 0 for no offers.
   */
  function BestPrice(offers: seq<ApiOffer>): (best: real)
    ensures offers == [] ==> best == 0.0
    ensures offers != [] ==> exists i :: 0 <= i < |offers| && offers[i].price == best
    ensures forall i :: 0 <= i < |offers| ==> best <= offers[i].price
  {
    var m := MinOf(Map(offers, OfferPrice));
    match m
    case Finite(v) => v
    case _ => 0.0
  }

  /** The product of one group, whose first offer supplies the metadata. */
  function MakeProduct(list: seq<Offer>): (p: CpuForApi)
    requires list != []
    ensures p.model == ModelKey(list[0]) && |p.offers| == |list|
  {
    var first := list[0];
    var offers := Map(list, ToApiOffer);
    CpuForApi(
      id := Slugify(ModelKey(first)),
      brand := ApiBrand(first),
      model := ModelKey(first),
      generation := first.generation,
      series := first.series,
      cores := first.specs.cores.GetOr(0.0),
      threads := first.specs.threads.GetOr(0.0),
      baseClockGHz := first.specs.baseClockGhz,
      boostClockGHz := None,
      tdpW := first.specs.tdpWatt,
      offers := offers,
      bestPrice := BestPrice(offers),
      generationRank := ParseGenerationRank(first.brand, first.generation))
  }

  /**
    A product's id is the slug of its model key; it has one offer per offer of
    the group, with that offer's vendor and price, in stock exactly when the
    price is positive; its best price is the lowest of the prices.
   */
  lemma MakeProductOffers(list: seq<Offer>)
    requires list != []
    ensures var p := MakeProduct(list);
            && IsSlug(p.id) && p.id == Slugify(p.model)
            && p.brand == ApiBrand(list[0]) && p.boostClockGHz.None?
            && p.cores == list[0].specs.cores.GetOr(0.0) && p.threads == list[0].specs.threads.GetOr(0.0)
            && p.generation == list[0].generation && p.series == list[0].series
            && p.baseClockGHz == list[0].specs.baseClockGhz && p.tdpW == list[0].specs.tdpWatt
            && p.generationRank == ParseGenerationRank(list[0].brand, list[0].generation)
            && (forall i :: 0 <= i < |list| ==>
                 && p.offers[i].store == list[i].vendor
                 && p.offers[i].price == list[i].price
                 && p.offers[i].url == list[i].url
                 && (p.offers[i].inStock <==> list[i].price > 0.0))
            && (exists i :: 0 <= i < |list| && list[i].price == p.bestPrice)
            && (forall i :: 0 <= i < |list| ==> p.bestPrice <= list[i].price)
  {
    var p := MakeProduct(list);
    var offers := Map(list, ToApiOffer);
    assert p.offers == offers && p.bestPrice == BestPrice(offers);
    forall i | 0 <= i < |list| ensures p.bestPrice <= list[i].price {
      assert offers[i].price == list[i].price;
    }
    var j :| 0 <= j < |offers| && offers[j].price == p.bestPrice;
    assert list[j].price == p.bestPrice;
  }

  /** The row pushed for offer `o` of a group whose first offer is `first`. */
  function FlatRowOf(first: Offer): Offer -> FlattenedForApi {
    (o: Offer) => FlattenedForApi(
      o.id, o.name, o.url, o.price, o.vendor, o.standardName, ApiBrand(first),
      o.generation, o.series, o.specs,
      ModelKey(first), first.specs.baseClockGhz, first.specs.tdpWatt)
  }

  /** The rows pushed for one group. */
  function FlatRows(list: seq<Offer>): (rows: seq<FlattenedForApi>)
    ensures |rows| == |list|
  {
    if list == [] then [] else Map(list, FlatRowOf(list[0]))
  }

  /** The `byModel` map: offers grouped by model key, in order of first occurrence. */
  function ByModel(offers: seq<Offer>): (gs: seq<Group<string, Offer>>)
    ensures NonEmptyGroups(gs)
  {
    GroupByNonEmpty(offers, ModelKey);
    GroupBy(offers, ModelKey)
  }

  /** One product per group, in group order (before sorting). */
  function Products(gs: seq<Group<string, Offer>>): (ps: seq<CpuForApi>)
    requires NonEmptyGroups(gs)
    ensures |ps| == |gs|
    ensures forall i :: 0 <= i < |gs| ==> ps[i] == MakeProduct(gs[i].items)
  {
    seq(|gs|, i requires 0 <= i < |gs| => MakeProduct(gs[i].items))
  }

  /** The comparator `(a, b) => a.bestPrice - b.bestPrice`. */
  function BestPriceCmp(a: CpuForApi, b: CpuForApi): real { a.bestPrice - b.bestPrice }

  /** The `enriched` result: the products sorted by best price. */
  function Enriched(offers: seq<Offer>): seq<CpuForApi> {
    SortBy(Products(ByModel(offers)), BestPriceCmp)
  }

  /** The `offers` result: each group's rows, group after group. */
  function FlattenedOffers(offers: seq<Offer>): seq<FlattenedForApi> {
    Concat(Map(Items(ByModel(offers)), FlatRows))
  }

  /** `enrichForApi`: fill the map, build a product and its rows per group, sort the products. */
  method EnrichForApi(normalizedOffers: seq<Offer>) returns (enriched: seq<CpuForApi>, flattened: seq<FlattenedForApi>)
    ensures enriched == Enriched(normalizedOffers)
    ensures flattened == FlattenedOffers(normalizedOffers)
  {
    var byModel := GroupByModel(normalizedOffers);
    var products: seq<CpuForApi> := [];
    flattened := [];
    for g := 0 to |byModel|
      invariant products == Products(byModel[..g])
      invariant flattened == Concat(Map(Items(byModel[..g]), FlatRows))
    {
      var list := byModel[g].items;
      var product, rows := GroupEntries(list);
      products := products + [product];
      flattened := flattened + rows;
      NextGroup(byModel, g);
    }
    assert byModel[..|byModel|] == byModel;
    enriched := SortBy(products, BestPriceCmp);
  }

  /** The first loop of `enrichForApi`: `if (!byModel.has(key)) byModel.set(key, []); byModel.get(key)!.push(o)`. */
  method GroupByModel(normalizedOffers: seq<Offer>) returns (byModel: seq<Group<string, Offer>>)
    ensures byModel == ByModel(normalizedOffers)
  {
    byModel := [];
    for i := 0 to |normalizedOffers|
      invariant byModel == GroupBy(normalizedOffers[..i], ModelKey)
    {
      var o := normalizedOffers[i];
      assert normalizedOffers[..i + 1][..i] == normalizedOffers[..i];
      byModel := Add(byModel, ModelKey(o), o);
    }
    assert normalizedOffers[..|normalizedOffers|] == normalizedOffers;
  }

  /** The body of the second loop: the product of one group and the rows it pushes. */
  method GroupEntries(list: seq<Offer>) returns (product: CpuForApi, rows: seq<FlattenedForApi>)
    requires list != []
    ensures product == MakeProduct(list)
    ensures rows == FlatRows(list)
  {
    var first := list[0];
    var id := Slugify(ModelKey(first));
    var offers := Map(list, ToApiOffer);
    var bestPrice := BestPrice(offers);
    var generationRank := ParseGenerationRank(first.brand, first.generation);
    product := CpuForApi(
      id, ApiBrand(first), ModelKey(first), first.generation, first.series,
      first.specs.cores.GetOr(0.0), first.specs.threads.GetOr(0.0),
      first.specs.baseClockGhz, None, first.specs.tdpWatt,
      offers, bestPrice, generationRank);
    rows := [];
    for j := 0 to |list|
      invariant rows == Map(list[..j], FlatRowOf(first))
    {
      MapSnoc(list, j, FlatRowOf(first));
      rows := rows + [FlatRowOf(first)(list[j])];
    }
    assert list[..|list|] == list;
  }

  /** Products and rows of one more group extend those of the groups before it. */
  lemma NextGroup(gs: seq<Group<string, Offer>>, g: nat)
    requires NonEmptyGroups(gs) && g < |gs|
    ensures Products(gs[..g + 1]) == Products(gs[..g]) + [MakeProduct(gs[g].items)]
    ensures Concat(Map(Items(gs[..g + 1]), FlatRows)) == Concat(Map(Items(gs[..g]), FlatRows)) + FlatRows(gs[g].items)
  {
    ProductsSnoc(gs, g);
    assert Items(gs[..g + 1]) == Items(gs[..g]) + [gs[g].items];
    ConcatMapSnoc(Items(gs[..g]), gs[g].items, FlatRows);
  }

  lemma ProductsSnoc(gs: seq<Group<string, Offer>>, g: nat)
    requires NonEmptyGroups(gs) && g < |gs|
    ensures Products(gs[..g + 1]) == Products(gs[..g]) + [MakeProduct(gs[g].items)]
  {
    assert gs[..g + 1][g] == gs[g];
  }

  // ---------------------------------------------------------------- what enrichForApi promises

  lemma BestPriceCmpPreorder()
    ensures TotalPreorder(BestPriceCmp)
  {
  }

  /** `enriched` is in non-decreasing order of best price. */
  lemma EnrichedSortedByPrice(offers: seq<Offer>)
    ensures var e := Enriched(offers);
            forall i, j :: 0 <= i < j < |e| ==> e[i].bestPrice <= e[j].bestPrice
  {
    BestPriceCmpPreorder();
    SortBySorted(Products(ByModel(offers)), BestPriceCmp);
  }

  function HasBestPrice(price: real): CpuForApi -> bool {
    (p: CpuForApi) => p.bestPrice == price
  }

  /** Products with the same best price keep their group order: the sort is stable. */
  lemma EnrichedTiesKeepGroupOrder(offers: seq<Offer>, price: real)
    ensures Filter(Enriched(offers), HasBestPrice(price)) == Filter(Products(ByModel(offers)), HasBestPrice(price))
  {
    BestPriceCmpPreorder();
    assert TiedClass(BestPriceCmp, HasBestPrice(price));
    SortByStable(Products(ByModel(offers)), BestPriceCmp, HasBestPrice(price));
  }

  function ProductModel(p: CpuForApi): string { p.model }

  /**
    Before sorting there is one product per distinct model key, in order of first
    occurrence, each built from exactly the offers with its key, in input order.
   */
  lemma ProductsPerModel(offers: seq<Offer>)
    ensures var ps := Products(ByModel(offers));
            && Map(ps, ProductModel) == Dedup(Map(offers, ModelKey))
            && forall i :: 0 <= i < |ps| ==>
                 var list := Filter(offers, HasKey(ModelKey, ps[i].model));
                 list != [] && ps[i] == MakeProduct(list)
  {
    var gs := ByModel(offers);
    var ps := Products(gs);
    GroupByKeys(offers, ModelKey);
    GroupByItems(offers, ModelKey);
    forall i | 0 <= i < |ps|
      ensures ps[i].model == gs[i].key
      ensures gs[i].items == Filter(offers, HasKey(ModelKey, ps[i].model))
      ensures ps[i] == MakeProduct(gs[i].items) && gs[i].items != []
    {
      var items := gs[i].items;
      assert items == Filter(offers, HasKey(ModelKey, gs[i].key));
      FilterMembers(offers, HasKey(ModelKey, gs[i].key));
      assert HasKey(ModelKey, gs[i].key)(items[0]);
    }
    assert Map(ps, ProductModel) == Keys(gs);
  }

  /**
    After sorting, `enriched` still holds exactly one product per distinct model
    key, built from exactly the offers with that key.
   */
  lemma EnrichedOnePerModel(offers: seq<Offer>)
    ensures |Enriched(offers)| == |Dedup(Map(offers, ModelKey))|
    ensures forall p :: p in Enriched(offers) ==>
              var list := Filter(offers, HasKey(ModelKey, p.model));
              list != [] && p == MakeProduct(list)
    ensures forall i :: 0 <= i < |offers| ==> exists p :: p in Enriched(offers) && p.model == ModelKey(offers[i])
  {
    var ps := Products(ByModel(offers));
    ProductsPerModel(offers);
    assert |Map(ps, ProductModel)| == |ps|;
    forall p | p in Enriched(offers)
      ensures var list := Filter(offers, HasKey(ModelKey, p.model)); list != [] && p == MakeProduct(list)
    {
      SortByMembers(ps, BestPriceCmp, p);
    }
    forall i | 0 <= i < |offers|
      ensures exists p :: p in Enriched(offers) && p.model == ModelKey(offers[i])
    {
      assert Map(offers, ModelKey)[i] == ModelKey(offers[i]);
      var m := Map(ps, ProductModel);
      var j :| 0 <= j < |m| && m[j] == ModelKey(offers[i]);
      SortByMembers(ps, BestPriceCmp, ps[j]);
    }
  }

  /** The rows of the offers with model key `k`. */
  function RowsOfModel(offers: seq<Offer>): string -> seq<FlattenedForApi> {
    k => FlatRows(Filter(offers, HasKey(ModelKey, k)))
  }

  /** The flattened list is the rows of each distinct model key, keys in order of first occurrence. */
  lemma FlattenedByModel(offers: seq<Offer>)
    ensures FlattenedOffers(offers) == Concat(Map(Dedup(Map(offers, ModelKey)), RowsOfModel(offers)))
  {
    var gs := ByModel(offers);
    GroupByKeys(offers, ModelKey);
    GroupByItems(offers, ModelKey);
    assert Map(Items(gs), FlatRows) == Map(Keys(gs), RowsOfModel(offers));
  }

  /** One flattened row per input offer. */
  lemma FlattenedCount(offers: seq<Offer>)
    ensures |FlattenedOffers(offers)| == |offers|
  {
    var gs := ByModel(offers);
    GroupByPermutes(offers, ModelKey);
    assert |multiset(Concat(Items(gs)))| == |Concat(Items(gs))|;
    ConcatSameLengths(Map(Items(gs), FlatRows), Items(gs));
  }

  /**
    The rows of model key `k` are one per offer with that key, in input order,
    each keeping its offer's own fields and taking model, brand, base clock and
    TDP from the first offer with that key.
   */
  lemma RowsCarryFirstOffer(offers: seq<Offer>, k: string)
    ensures var list := Filter(offers, HasKey(ModelKey, k));
            var rows := RowsOfModel(offers)(k);
            var f := FindIndex(offers, HasKey(ModelKey, k));
            && |rows| == |list|
            && (rows != [] ==> f < |offers|)
            && forall j :: 0 <= j < |rows| ==>
                 && rows[j].id == list[j].id && rows[j].price == list[j].price
                 && rows[j].vendor == list[j].vendor && rows[j].url == list[j].url
                 && rows[j].model == k
                 && rows[j].brand == ApiBrand(offers[f])
                 && rows[j].baseClockGHz == offers[f].specs.baseClockGhz
                 && rows[j].tdpW == offers[f].specs.tdpWatt
  {
    var list := Filter(offers, HasKey(ModelKey, k));
    if list != [] {
      FilterHead(offers, HasKey(ModelKey, k));
      assert HasKey(ModelKey, k)(list[0]);
    }
  }
}
