/**
  The older in-memory catalogue behind the price-history pages: dataset items
  grouped into processors by an id made from the standard name, each processor
  holding the store offers of its items, and the lookups by processor id and by
  offer id (`<processor id>__<store slug>`).
 */
module CpuData {
  import opened Wrappers
  import opened Seqs
  import opened Text
  import opened JsNumber
  import opened Groups
  import opened Processors

  /** One store's offer of a processor; the raw `price` is kept as it came. */
  datatype StoreOffer = StoreOffer(store: string, price: Field, url: string, inStock: bool)

  /** A processor with its offers; `None` is `undefined`. */
  datatype Cpu = Cpu(
    id: string,
    brand: string,
    model: string,
    generation: string,
    series: string,
    cores: int,
    threads: int,
    baseClockGHz: Option<Num>,
    tdpW: Option<Num>,
    offers: seq<StoreOffer>)

  // ---------------------------------------------------------------- buildCpuData

  /** `(item.standard_name || "").toLowerCase().replace(/\s+/g, "-")`: only white space is replaced. */
  function CpuIdOf(item: ProcessorRecord): string {
    HyphenateSpaces(OrElse(item.standardName, ""))
  }

  /** `Number.parseInt(f) || 0`; a number is read through its decimal form, which keeps its integer part. */
  function ParsedCount(f: Field): (n: int)
    ensures f.Missing? ==> n == 0
    ensures f.Number? ==> n == Trunc(f.n)
  {
    match f
    case Missing => 0
    case Str(s) => (match ParseInt(s) case None => 0 case Some(v) => v)
    case Number(x) => Trunc(x)
  }

  /** A count given as a decimal string, the dataset's usual form, parses to its value. */
  lemma ParsedCountShowNat(n: nat)
    ensures ParsedCount(Str(ShowNat(n))) == n
  {
    ParseIntShowNat(n);
  }

  /** `f ? Number.parseFloat(f) : undefined`; a number parses to itself. */
  function ParsedMeasure(f: Field): (r: Option<Num>)
    ensures r.None? <==> !FieldTruthy(f)
    ensures f.Number? && FieldTruthy(f) ==> r == Some(Finite(f.n))
  {
    if !FieldTruthy(f) then None
    else match f
      case Str(s) => Some(ParseFloat(s))
      case Number(x) => Some(Finite(x))
      case Missing => None
  }

  /** The processor created for the first item with a new id, before any offer is pushed. */
  function NewCpu(item: ProcessorRecord): (c: Cpu)
    ensures c.id == CpuIdOf(item) && c.offers == []
    ensures c.brand == "AMD" <==> item.brand == Some("AMD")
    ensures c.brand == "AMD" || c.brand == "Intel"
    ensures c.model == OrElse(item.standardName, item.name)
    ensures c.generation == OrElse(item.generation, "") && c.series == OrElse(item.series, "")
    ensures c.cores == ParsedCount(item.cores) && c.threads == ParsedCount(item.threads)
    ensures c.baseClockGHz == ParsedMeasure(item.baseClockGhz) && c.tdpW == ParsedMeasure(item.tdpWatt)
  {
    Cpu(
      id := CpuIdOf(item),
      brand := if item.brand == Some("AMD") then "AMD" else "Intel",
      model := OrElse(item.standardName, item.name),
      generation := OrElse(item.generation, ""),
      series := OrElse(item.series, ""),
      cores := ParsedCount(item.cores),
      threads := ParsedCount(item.threads),
      baseClockGHz := ParsedMeasure(item.baseClockGhz),
      tdpW := ParsedMeasure(item.tdpWatt),
      offers := [])
  }

  /** The offer an item pushes: always in stock. */
  function OfferOf(item: ProcessorRecord): (o: StoreOffer)
    ensures o.inStock && o.store == item.vendor && o.url == item.link && o.price == item.price
  {
    StoreOffer(item.vendor, item.price, item.link, true)
  }

  /** The processor of one group: metadata of its first item, one offer per item. */
  function CpuOfGroup(items: seq<ProcessorRecord>): Cpu
    requires items != []
  {
    NewCpu(items[0]).(offers := Map(items, OfferOf))
  }

  function CpuKey(c: Cpu): string { c.id }

  /** Non-empty groups whose first item has the group's id. */
  predicate FirstKeyed(gs: seq<Group<string, ProcessorRecord>>) {
    forall i :: 0 <= i < |gs| ==> gs[i].items != [] && CpuIdOf(gs[i].items[0]) == gs[i].key
  }

  /** The `cpuMap` after a prefix of the items, as groups of items by id, in order of first occurrence. */
  function ById(items: seq<ProcessorRecord>): (gs: seq<Group<string, ProcessorRecord>>)
    ensures NonEmptyGroups(gs) && FirstKeyed(gs)
  {
    GroupedById(items);
    GroupBy(items, CpuIdOf)
  }

  lemma GroupedById(items: seq<ProcessorRecord>)
    ensures NonEmptyGroups(GroupBy(items, CpuIdOf)) && FirstKeyed(GroupBy(items, CpuIdOf))
  {
    GroupByNonEmpty(items, CpuIdOf);
    var gs := GroupBy(items, CpuIdOf);
    forall i | 0 <= i < |gs| ensures CpuIdOf(gs[i].items[0]) == gs[i].key {
      FirstItemKey(items, i);
    }
  }

  lemma FirstItemKey(items: seq<ProcessorRecord>, i: nat)
    requires i < |GroupBy(items, CpuIdOf)| && |GroupBy(items, CpuIdOf)[i].items| > 0
    ensures CpuIdOf(GroupBy(items, CpuIdOf)[i].items[0]) == GroupBy(items, CpuIdOf)[i].key
  {
    GroupByItemKeys(items, CpuIdOf);
  }

  /** The processors of a list of groups, one per group, in order. */
  function CpusOf(gs: seq<Group<string, ProcessorRecord>>): (cpus: seq<Cpu>)
    requires NonEmptyGroups(gs)
    ensures |cpus| == |gs|
    ensures forall i :: 0 <= i < |gs| ==> cpus[i] == CpuOfGroup(gs[i].items)
  {
    seq(|gs|, i requires 0 <= i < |gs| => CpuOfGroup(gs[i].items))
  }

  /** `Array.from(cpuMap.values())` once every item is processed. */
  function Cpus(items: seq<ProcessorRecord>): seq<Cpu> {
    CpusOf(ById(items))
  }

  /**
    `buildCpuData` over the dataset: for each item, create the processor of its
    id if the map has none, then push the item's offer onto it.
   */
  method BuildCpuData(items: seq<ProcessorRecord>) returns (cpus: seq<Cpu>)
    ensures cpus == Cpus(items)
  {
    cpus := [];
    for i := 0 to |items|
      invariant cpus == Cpus(items[..i])
    {
      var item := items[i];
      var cpuId := CpuIdOf(item);
      NextItem(items, i, cpus);
      ghost var prev := cpus;
      var at := IndexBy(cpus, CpuKey, cpuId);
      if at == |cpus| {
        cpus := cpus + [NewCpu(item)];
      }
      var cpu := cpus[at];
      cpus := cpus[at := cpu.(offers := cpu.offers + [OfferOf(item)])];
      if at == |prev| {
        OpenThenPush(prev, NewCpu(item), OfferOf(item));
      }
    }
    assert items[..|items|] == items;
  }

  /** Looking an id up among the processors finds its group. */
  lemma CpuIndex(items: seq<ProcessorRecord>, k: string)
    ensures IndexBy(Cpus(items), CpuKey, k) == Find(ById(items), k)
  {
    var gs := ById(items);
    GroupByKeys(items, CpuIdOf);
    assert forall m :: 0 <= m < |gs| ==> CpuKey(Cpus(items)[m]) == gs[m].key;
    IndexByKeys(gs, Cpus(items), CpuKey, k);
  }

  /** Adding an item to the groups opens a processor or pushes an offer onto the processor of its id. */
  lemma CpusAdd(gs: seq<Group<string, ProcessorRecord>>, item: ProcessorRecord)
    requires NonEmptyGroups(gs)
    ensures NonEmptyGroups(Add(gs, CpuIdOf(item), item))
    ensures var cpus := CpusOf(gs);
            var at := Find(gs, CpuIdOf(item));
            CpusOf(Add(gs, CpuIdOf(item), item)) ==
              if at == |gs| then cpus + [NewCpu(item).(offers := [OfferOf(item)])]
              else cpus[at := cpus[at].(offers := cpus[at].offers + [OfferOf(item)])]
  {
    var k := CpuIdOf(item);
    var at := Find(gs, k);
    if at == |gs| {
      CpusAppend(gs, Group(k, [item]));
      assert Map([item], OfferOf) == [OfferOf(item)];
    } else {
      CpusUpdate(gs, at, Group(k, gs[at].items + [item]));
      CpuPush(gs[at].items, item);
    }
  }

  lemma CpusAppend(gs: seq<Group<string, ProcessorRecord>>, g: Group<string, ProcessorRecord>)
    requires NonEmptyGroups(gs) && g.items != []
    ensures NonEmptyGroups(gs + [g])
    ensures CpusOf(gs + [g]) == CpusOf(gs) + [CpuOfGroup(g.items)]
  {
    assert NonEmptyGroups(gs + [g]) by {
      forall m | 0 <= m < |gs| + 1 ensures (gs + [g])[m].items != [] {
        if m < |gs| { assert (gs + [g])[m] == gs[m]; }
      }
    }
    forall m | 0 <= m < |gs| + 1 ensures CpusOf(gs + [g])[m] == (CpusOf(gs) + [CpuOfGroup(g.items)])[m] {
      if m < |gs| { assert (gs + [g])[m] == gs[m]; }
    }
  }

  lemma CpusUpdate(gs: seq<Group<string, ProcessorRecord>>, at: nat, g: Group<string, ProcessorRecord>)
    requires NonEmptyGroups(gs) && at < |gs| && g.items != []
    ensures NonEmptyGroups(gs[at := g])
    ensures CpusOf(gs[at := g]) == CpusOf(gs)[at := CpuOfGroup(g.items)]
  {
    var gs' := gs[at := g];
    assert NonEmptyGroups(gs') by {
      forall m | 0 <= m < |gs'| ensures gs'[m].items != [] {
        if m != at { assert gs'[m] == gs[m]; }
      }
    }
    var want := CpusOf(gs)[at := CpuOfGroup(g.items)];
    forall m | 0 <= m < |gs| ensures CpusOf(gs')[m] == want[m] {
      if m != at { assert gs'[m] == gs[m]; }
    }
  }

  lemma CpuPush(items: seq<ProcessorRecord>, item: ProcessorRecord)
    requires items != []
    ensures CpuOfGroup(items + [item]) == CpuOfGroup(items).(offers := CpuOfGroup(items).offers + [OfferOf(item)])
  {
    assert (items + [item])[0] == items[0];
    assert Map(items + [item], OfferOf) == Map(items, OfferOf) + [OfferOf(item)];
  }

  /** The processors after one more item: a new processor with its offer, or the offer pushed onto the processor of its id. */
  function WithOffer(cpus: seq<Cpu>, item: ProcessorRecord): (r: seq<Cpu>)
    ensures |r| == |cpus| || |r| == |cpus| + 1
  {
    var at := IndexBy(cpus, CpuKey, CpuIdOf(item));
    if at == |cpus| then cpus + [NewCpu(item).(offers := [OfferOf(item)])]
    else cpus[at := cpus[at].(offers := cpus[at].offers + [OfferOf(item)])]
  }

  /** Opening a processor with no offers and pushing one gives the processor with that offer. */
  lemma OpenThenPush(cpus: seq<Cpu>, c: Cpu, o: StoreOffer)
    requires c.offers == []
    ensures (cpus + [c])[|cpus| := c.(offers := c.offers + [o])] == cpus + [c.(offers := [o])]
  {
    assert c.offers + [o] == [o];
  }

  lemma NextItem(items: seq<ProcessorRecord>, i: nat, cpus: seq<Cpu>)
    requires i < |items| && cpus == Cpus(items[..i])
    ensures Cpus(items[..i + 1]) == WithOffer(cpus, items[i])
  {
    var init, item := items[..i], items[i];
    assert items[..i + 1][..i] == init;
    var gs := ById(init);
    var gs' := Add(gs, CpuIdOf(item), item);
    assert ById(items[..i + 1]) == gs';
    CpuIndex(init, CpuIdOf(item));
    CpusAdd(gs, item);
    assert Cpus(items[..i + 1]) == CpusOf(gs');
  }

  // ---------------------------------------------------------------- what buildCpuData promises

  /** The ids are the distinct ids of the items, in order of first occurrence, so no two processors share one. */
  lemma CpuIds(items: seq<ProcessorRecord>)
    ensures Map(Cpus(items), CpuKey) == Dedup(Map(items, CpuIdOf))
    ensures Distinct(Map(Cpus(items), CpuKey))
  {
    var gs := GroupBy(items, CpuIdOf);
    GroupByKeys(items, CpuIdOf);
    assert Map(Cpus(items), CpuKey) == Keys(gs);
  }

  /** Each processor holds one in-stock offer per item with its id, in item order, and the metadata of the first such item. */
  lemma CpuOffers(items: seq<ProcessorRecord>, i: nat)
    requires i < |Cpus(items)|
    ensures var c := Cpus(items)[i];
            var mine := Filter(items, HasKey(CpuIdOf, c.id));
            && mine != []
            && c.offers == Map(mine, OfferOf)
            && c == NewCpu(mine[0]).(offers := c.offers)
  {
    var gs := ById(items);
    var c := Cpus(items)[i];
    assert c == CpuOfGroup(gs[i].items);
    assert c.id == gs[i].key;
    GroupItemsAt(items, CpuIdOf, i);
  }

  function OffersOf(c: Cpu): seq<StoreOffer> { c.offers }

  /** There are as many offers, over all processors, as items. */
  lemma OfferTotal(items: seq<ProcessorRecord>)
    ensures |Concat(Map(Cpus(items), OffersOf))| == |items|
  {
    var gs := GroupBy(items, CpuIdOf);
    GroupByPermutes(items, CpuIdOf);
    assert |Concat(Items(gs))| == |multiset(Concat(Items(gs)))| == |multiset(items)| == |items|;
    ConcatSameLengths(Map(Cpus(items), OffersOf), Items(gs));
  }

  // ---------------------------------------------------------------- offer ids

  /** `toStoreSlug` lower-cases, turns runs outside `[a-z0-9]` into "-" and strips a hyphen at each end; on such strings this is `slugify`. */
  function ToStoreSlug(store: string): (r: string)
    ensures IsSlug(r) && '_' !in r
  {
    var r := Slugify(store);
    assert forall k :: 0 <= k < |r| ==> IsSlugChar(r[k]);
    r
  }

  /** `offerIdFor`: the processor id, "__", and the store slug. */
  function OfferIdFor(cpuId: string, store: string): (id: string)
    ensures |id| == |cpuId| + 2 + |ToStoreSlug(store)|
    ensures id[..|cpuId|] == cpuId && id[|cpuId|..|cpuId| + 2] == "__"
    ensures id[|cpuId| + 2..] == ToStoreSlug(store)
  {
    cpuId + "__" + ToStoreSlug(store)
  }

  /** `const [slug, storeSlug] = offerId.split("__")`: `None` when there is no second piece. */
  function ParseOfferId(offerId: string): (r: (string, Option<string>))
  {
    var parts := Split(offerId, "__");
    (parts[0], if |parts| >= 2 then Some(parts[1]) else None)
  }

  /** An id without "__" that does not end in "_" is read back from its offer ids. */
  lemma ParseOfferIdFor(cpuId: string, store: string)
    requires !Contains(cpuId, "__")
    requires cpuId == [] || cpuId[|cpuId| - 1] != '_'
    ensures ParseOfferId(OfferIdFor(cpuId, store)) == (cpuId, Some(ToStoreSlug(store)))
  {
    var slug := ToStoreSlug(store);
    var s := OfferIdFor(cpuId, store);
    var n := |cpuId|;
    assert "__" == ['_', '_'];
    IndexOfDoubled(cpuId, '_', slug);
    SplitAtIndex(s, "__", n);
    NoPairWithout(slug, '_');
    SplitWithout(slug, "__");
  }

  /** An id ending in "_" is read back one character short: its last "_" joins the separator. */
  lemma ParseOfferIdTrailingUnderscore(store: string)
    ensures ParseOfferId(OfferIdFor("a_", store)).0 == "a"
  {
    var s := OfferIdFor("a_", store);
    assert OccursAt(s, "__", 1);
    assert !OccursAt(s, "__", 0) by { assert s[0] == 'a'; }
    IndexOfFirst(s, "__", 1);
    SplitAtIndex(s, "__", 1);
  }

  // ---------------------------------------------------------------- lookups

  /** What the lookups return for one offer (its mock price history is not modelled). */
  datatype OfferView = OfferView(
    id: string, slug: string, brand: string, series: string, model: string,
    vendor: string, url: string, inStock: bool)

  function ViewOf(c: Cpu): StoreOffer -> OfferView {
    (o: StoreOffer) => OfferView(OfferIdFor(c.id, o.store), c.id, c.brand, c.series, c.model, o.store, o.url, o.inStock)
  }

  function HasId(slug: string): Cpu -> bool { (c: Cpu) => c.id == slug }

  /** `sampleCpus.find((c) => c.id === slug)`. */
  function FindCpu(cpus: seq<Cpu>, slug: string): (r: Option<Cpu>)
    ensures r.None? <==> forall i :: 0 <= i < |cpus| ==> cpus[i].id != slug
    ensures r.Some? ==> exists i :: 0 <= i < |cpus| && cpus[i] == r.value && r.value.id == slug
                                    && forall j :: 0 <= j < i ==> cpus[j].id != slug
  {
    var i := FindIndex(cpus, HasId(slug));
    if i == |cpus| then None else Some(cpus[i])
  }

  /** `getOffersBySlug`: nothing for an unknown processor id, otherwise one view per offer, in order. */
  function OffersBySlug(cpus: seq<Cpu>, slug: string): (r: seq<OfferView>)
    ensures FindCpu(cpus, slug).None? ==> r == []
    ensures FindCpu(cpus, slug).Some? ==>
              var c := FindCpu(cpus, slug).value;
              && |r| == |c.offers|
              && forall k :: 0 <= k < |r| ==>
                   && r[k].slug == slug && r[k].vendor == c.offers[k].store
                   && r[k].id == OfferIdFor(slug, c.offers[k].store)
  {
    match FindCpu(cpus, slug)
    case None => []
    case Some(c) => Map(c.offers, ViewOf(c))
  }

  function HasStoreSlug(storeSlug: Option<string>): StoreOffer -> bool {
    (o: StoreOffer) => Some(ToStoreSlug(o.store)) == storeSlug
  }

  /** `cpu.offers.find((o) => toStoreSlug(o.store) === storeSlug)`. */
  function FindOffer(c: Cpu, storeSlug: Option<string>): (r: Option<StoreOffer>)
    ensures r.None? <==> forall k :: 0 <= k < |c.offers| ==> !HasStoreSlug(storeSlug)(c.offers[k])
    ensures r.Some? ==> exists k :: 0 <= k < |c.offers| && c.offers[k] == r.value && HasStoreSlug(storeSlug)(r.value)
                                    && forall j :: 0 <= j < k ==> !HasStoreSlug(storeSlug)(c.offers[j])
  {
    var k := FindIndex(c.offers, HasStoreSlug(storeSlug));
    if k == |c.offers| then None else Some(c.offers[k])
  }

  /** `getOfferById`: the processor named before "__", then its first offer whose store slug is the piece after it. */
  function OfferById(cpus: seq<Cpu>, offerId: string): (r: Option<OfferView>)
    ensures var (slug, storeSlug) := ParseOfferId(offerId);
            r.None? <==> FindCpu(cpus, slug).None? || FindOffer(FindCpu(cpus, slug).value, storeSlug).None?
    ensures r.Some? ==> r.value.slug == ParseOfferId(offerId).0
  {
    var (slug, storeSlug) := ParseOfferId(offerId);
    match FindCpu(cpus, slug)
    case None => None
    case Some(c) =>
      match FindOffer(c, storeSlug)
      case None => None
      case Some(o) => Some(ViewOf(c)(o))
  }

  /**
    The offer-id round trip: for a processor whose id has no "__" and does not
    end in "_", the id of any of its offers leads back to the processor's first
    offer at the same store slug.
   */
  lemma OfferByIdRoundTrip(cpus: seq<Cpu>, i: nat, k: nat)
    requires i < |cpus| && k < |cpus[i].offers|
    requires Distinct(Map(cpus, CpuKey))
    requires !Contains(cpus[i].id, "__")
    requires cpus[i].id == [] || cpus[i].id[|cpus[i].id| - 1] != '_'
    ensures var c := cpus[i];
            var r := OfferById(cpus, OfferIdFor(c.id, c.offers[k].store));
            && r.Some?
            && r.value.slug == c.id
            && ToStoreSlug(r.value.vendor) == ToStoreSlug(c.offers[k].store)
            && exists j :: 0 <= j <= k && r.value == ViewOf(c)(c.offers[j])
                 && forall j' :: 0 <= j' < j ==> ToStoreSlug(c.offers[j'].store) != ToStoreSlug(c.offers[k].store)
  {
    var c := cpus[i];
    ParseOfferIdFor(c.id, c.offers[k].store);
    var found := FindCpu(cpus, c.id);
    var m :| 0 <= m < |cpus| && cpus[m] == found.value && found.value.id == c.id
             && forall j :: 0 <= j < m ==> cpus[j].id != c.id;
    var j := FirstOfferAt(c, k);
    assert OfferById(cpus, OfferIdFor(c.id, c.offers[k].store)) == Some(ViewOf(c)(c.offers[j]));
  }

  /** `find` by the store slug of offer `k` returns the first offer at or before `k` with that store slug. */
  lemma FirstOfferAt(c: Cpu, k: nat) returns (j: nat)
    requires k < |c.offers|
    ensures j <= k
    ensures FindOffer(c, Some(ToStoreSlug(c.offers[k].store))) == Some(c.offers[j])
    ensures forall j' :: 0 <= j' < j ==> ToStoreSlug(c.offers[j'].store) != ToStoreSlug(c.offers[k].store)
  {
    var storeSlug := Some(ToStoreSlug(c.offers[k].store));
    assert HasStoreSlug(storeSlug)(c.offers[k]);
    var o := FindOffer(c, storeSlug).value;
    j :| 0 <= j < |c.offers| && c.offers[j] == o && HasStoreSlug(storeSlug)(o)
         && forall j' :: 0 <= j' < j ==> !HasStoreSlug(storeSlug)(c.offers[j']);
    forall j' | 0 <= j' < j ensures ToStoreSlug(c.offers[j'].store) != ToStoreSlug(c.offers[k].store) {
      assert !HasStoreSlug(storeSlug)(c.offers[j']);
    }
  }

  /** An unknown processor id or store slug finds nothing. */
  lemma OfferByIdUnknown(cpus: seq<Cpu>, cpuId: string, store: string)
    requires !Contains(cpuId, "__")
    requires cpuId == [] || cpuId[|cpuId| - 1] != '_'
    requires forall i :: 0 <= i < |cpus| && cpus[i].id == cpuId ==>
               forall k :: 0 <= k < |cpus[i].offers| ==> ToStoreSlug(cpus[i].offers[k].store) != ToStoreSlug(store)
    ensures OfferById(cpus, OfferIdFor(cpuId, store)).None?
  {
    ParseOfferIdFor(cpuId, store);
    var found := FindCpu(cpus, cpuId);
    if found.Some? {
      var m :| 0 <= m < |cpus| && cpus[m] == found.value && found.value.id == cpuId
               && forall j :: 0 <= j < m ==> cpus[j].id != cpuId;
    }
  }

  function ItemVendor(item: ProcessorRecord): string { item.vendor }
  function ViewVendor(v: OfferView): string { v.vendor }

  /** On the built catalogue, a processor id lists one view per item with that id, in item order. */
  lemma OffersBySlugOfItems(items: seq<ProcessorRecord>, slug: string)
    ensures Map(OffersBySlug(Cpus(items), slug), ViewVendor) == Map(Filter(items, HasKey(CpuIdOf, slug)), ItemVendor)
  {
    var found := FindCpu(Cpus(items), slug);
    if found.None? {
      UnknownSlug(items, slug);
    } else {
      KnownSlug(items, slug);
    }
  }

  lemma UnknownSlug(items: seq<ProcessorRecord>, slug: string)
    requires FindCpu(Cpus(items), slug).None?
    ensures Filter(items, HasKey(CpuIdOf, slug)) == []
  {
    var cpus := Cpus(items);
    CpuIds(items);
    forall i | 0 <= i < |cpus| ensures Map(cpus, CpuKey)[i] != slug {
      assert cpus[i].id != slug;
    }
    assert slug !in Map(cpus, CpuKey);
    FilterNoKey(items, CpuIdOf, slug);
  }

  lemma KnownSlug(items: seq<ProcessorRecord>, slug: string)
    requires FindCpu(Cpus(items), slug).Some?
    ensures Map(OffersBySlug(Cpus(items), slug), ViewVendor) == Map(Filter(items, HasKey(CpuIdOf, slug)), ItemVendor)
  {
    var cpus := Cpus(items);
    var found := FindCpu(cpus, slug);
    var m :| 0 <= m < |cpus| && cpus[m] == found.value && found.value.id == slug
             && forall j :: 0 <= j < m ==> cpus[j].id != slug;
    CpuOffers(items, m);
    OfferVendors(found.value, Filter(items, HasKey(CpuIdOf, slug)));
  }

  lemma OfferVendors(c: Cpu, mine: seq<ProcessorRecord>)
    requires c.offers == Map(mine, OfferOf)
    ensures Map(Map(c.offers, ViewOf(c)), ViewVendor) == Map(mine, ItemVendor)
  {
    var lhs := Map(Map(c.offers, ViewOf(c)), ViewVendor);
    forall k | 0 <= k < |mine| ensures lhs[k] == Map(mine, ItemVendor)[k] {
      assert c.offers[k] == OfferOf(mine[k]);
    }
  }
}
