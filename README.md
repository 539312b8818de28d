# CPU price tracker: offer pipeline and filter engine in Dafny

This project models the data pipeline of a CPU price-comparison site.

- **Ingest** (`Processors`). Loosely typed vendor records are coerced into offers, and bad records are dropped. Offers are grouped by canonical model name into products. Each product gets a best price and a generation rank. Products are listed cheapest first, next to a flattened row per offer.
- **Catalogue page** (`CpuBrowser`, `FilterSidebar`). The products are flattened into one tile per vendor offer. From the tiles come the facet lists and the price bounds. The filtered, sorted list is driven by a filter state and a `"<key>-<dir>"` sort token.
- **Older catalogue** (`CpuData`). A second grouping of the dataset by an id made from the standard name. It provides the offer ids `<processor id>__<store slug>` and the lookups by processor id and by offer id.
- **Routes** (`HistoryRoute`, `ProcessorsRoute`, `CpusRoute`). The decision logic of `GET /api/history` (single / multi / 404 / 400). The metadata of `GET /api/data/processors`. The composition behind `GET /api/cpus`.
- **Page helpers** (`HistoryBrowser`, `PriceHistory`, `CpuTile`). The product picker and vendor toggles of the history page. The date pivot of the price chart. Title-casing, the short generation label and the product slug of a tile.

Generic modules model the JavaScript library behaviour the source relies on:
- `Seqs`: `filter`, `map`, `Array.from(new Set(xs))`, `flat`.
- `Groups`: a `Map` filled in insertion order, as a sequence of key/items pairs.
- `Sorting`: the stable `Array.prototype.sort`, as an insertion sort driven by the comparator.
- `Facets`: `Array.from(new Set(xs)).sort()`.
- `Text`: ASCII case mapping, the `\s` class, `trim`, `split`, `join`, `includes` and lexicographic code-point order.
- `JsNumber`: `parseFloat`, `parseInt`, NaN and the infinities, `Math.min`/`max`/`floor`/`ceil`.

Source loops become methods whose `ensures` ties the result to a specification function. What the code promises is proved about those functions as lemmas. The module-level dataset is a parameter of every entry point.

Notes on how the model reads the source:
- A tile without a TDP passes both TDP bounds, because the code substitutes +∞ for the minimum check and −∞ for the maximum check. Only a tile without a base clock is excluded by its bounds.
- A negative *numeric* price is accepted by `normalizeRecord`, because only falsy values are rejected.
- Products are grouped by the key `standardName || name`, so two offers with the same key belong to one product whatever their brand.

## Model

| member | source | states |
|---|---|---|
| `Processors.ToNumber` | lib/ingest/processors.ts:34-39 | undefined stays undefined; a number is returned unchanged; a string is undefined exactly when, after deleting every character other than a digit or `.`, no decimal literal starts it (so `""` and `"."` give undefined) |
| `Processors.ToNumberShowNat` | lib/ingest/processors.ts:37-38 | the decimal string of a natural number coerces to that number |
| `Processors.ToNumberDropsSign` | lib/ingest/processors.ts:37 | the minus sign is deleted before parsing, so `"-n"` coerces to `n` |
| `Processors.Slugify` | lib/ingest/processors.ts:41-46 | the result contains only `[a-z0-9-]`, has no `--`, and has no hyphen at either end |
| `Processors.SlugifyFixesSlugs` | lib/ingest/processors.ts:41-46 | a string that is already a slug is its own slug |
| `Processors.SlugifyIdempotent` | lib/ingest/processors.ts:41-46 | `slugify(slugify(s)) == slugify(s)` |
| `Processors.OfferId` | lib/ingest/processors.ts:52 | the id is made of slug characters only |
| `Processors.NormalizeRecord` | lib/ingest/processors.ts:48-70 | null iff the coerced price is undefined or 0, or the link is empty; otherwise the price is the coerced value, `url == link`, `standardName == standard_name \|\| name`, the id is `slugify(standard_name \|\| name) + "-" + slugify(vendor)`, name, vendor, brand, generation and series are copied, and each spec is `toNumber` of its field (so an absent one stays undefined) |
| `Processors.NegativePriceAccepted` | lib/ingest/processors.ts:49-50 | a negative numeric price with a link is accepted unchanged |
| `Processors.NormalizedOffers` | lib/ingest/processors.ts:72-79 | `normalizeAll` never returns more offers than records |
| `Processors.NormalizeAll` | lib/ingest/processors.ts:72-79 | the push loop returns, in input order, exactly the non-null `normalizeRecord` results |
| `Processors.ParseGenerationRank` | lib/ingest/processors.ts:107-111 | a generation without digits ranks 0 |
| `Processors.GenerationRankOf` | lib/ingest/processors.ts:107-111 | the rank of a generation is the value of its first maximal digit run, leading zeros included, whatever follows it; the brand is ignored |
| `Processors.GenerationRankLeadingZero` | lib/ingest/processors.ts:107-111 | `"Gen 05"` ranks 5, as `parseInt("05", 10)` gives |
| `Processors.BestPrice` | lib/ingest/processors.ts:149-164 | the best price is a member price that is at most every price, and 0 when there are no offers |
| `Processors.MakeProduct` | lib/ingest/processors.ts:135-166 | a product's model is its first offer's key, and it has one API offer per group member |
| `Processors.MakeProductOffers` | lib/ingest/processors.ts:136-166 | `id == slugify(model)`; brand is the first offer's brand with `"Intel"` only for a missing one; cores and threads default to 0; generation, series, base clock and TDP are the first offer's; `generationRank` is the rank parsed from the first offer's generation; boost clock is undefined; each API offer carries its offer's store, price and url and is in stock iff the price is positive; `bestPrice` is the minimum price |
| `Processors.FlatRows` | lib/ingest/processors.ts:168-176 | one flattened row per offer of the group |
| `Processors.ByModel` | lib/ingest/processors.ts:123-128 | every group of `byModel` is non-empty |
| `Processors.Products` | lib/ingest/processors.ts:133-166 | one product per group, in group order, each built from its group |
| `Processors.GroupByModel` | lib/ingest/processors.ts:123-128 | the first loop builds the `byModel` groups by key in first-seen order |
| `Processors.GroupEntries` | lib/ingest/processors.ts:133-176 | the body of the second loop yields the group's product and its flattened rows |
| `Processors.EnrichForApi` | lib/ingest/processors.ts:121-183 | returns the sorted products and the rows of every group, group after group |
| `Processors.EnrichedSortedByPrice` | lib/ingest/processors.ts:180 | `enriched` is non-decreasing by `bestPrice` |
| `Processors.EnrichedTiesKeepGroupOrder` | lib/ingest/processors.ts:180 | products with equal `bestPrice` keep their group order (the sort is stable) |
| `Processors.ProductsPerModel` | lib/ingest/processors.ts:123-136 | before sorting, one product per distinct key `standardName \|\| name` in first-seen order, each built from exactly the offers with that key |
| `Processors.EnrichedOnePerModel` | lib/ingest/processors.ts:123-180 | after sorting, still exactly one product per distinct key, and every offer's key has its product |
| `Processors.FlattenedByModel` | lib/ingest/processors.ts:133-177 | the flattened list is the rows of each distinct key, keys in first-seen order |
| `Processors.FlattenedCount` | lib/ingest/processors.ts:168-176 | exactly one flattened row per input offer |
| `Processors.RowsCarryFirstOffer` | lib/ingest/processors.ts:168-176 | each row keeps its offer's id, price, vendor and url, and takes model, brand, base clock and TDP from the first offer with its key |
| `CpusRoute.Get` | app/api/cpus/route.ts:5-17 | the listed products are sorted by best price and there is one flattened row per normalised offer |
| `CpuData.ParsedCount` | lib/cpu-data.ts:83-84 | `parseInt(f) \|\| 0`: an absent field gives 0, a number its integer part |
| `CpuData.ParsedCountShowNat` | lib/cpu-data.ts:83-84 | a count given as the decimal string of `n` gives `n` |
| `CpuData.ParsedMeasure` | lib/cpu-data.ts:85-86 | undefined exactly for a falsy field; a truthy number parses to itself |
| `CpuData.NewCpu` | lib/cpu-data.ts:76-89 | the new processor has the item's id and no offers; brand is `"AMD"` iff the item's brand is exactly `"AMD"`, else `"Intel"`; model is `standard_name \|\| name`; generation and series default to `""`; cores and threads are `parseInt(..) \|\| 0` of their fields; base clock and TDP are `parseFloat` of a truthy field, else undefined |
| `CpuData.OfferOf` | lib/cpu-data.ts:92-98 | the pushed offer is in stock and carries the item's vendor, link and raw price |
| `CpuData.BuildCpuData` | lib/cpu-data.ts:69-102 | the `forEach` loop builds the processors of the grouped items |
| `CpuData.CpuIds` | lib/cpu-data.ts:70-101 | the processor ids are the distinct `cpuId`s in first-seen order, so none repeats |
| `CpuData.CpuOffers` | lib/cpu-data.ts:76-98 | each processor holds one offer per item with its id, in item order, and the metadata of the first such item |
| `CpuData.OfferTotal` | lib/cpu-data.ts:91-98 | the offers of all processors number as many as the items |
| `CpuData.ToStoreSlug` | lib/cpu-data.ts:45-50 | the store slug contains only `[a-z0-9-]`, no `--`, no edge hyphen and no `_` |
| `CpuData.OfferIdFor` | lib/cpu-data.ts:52-54 | the offer id is the processor id, `"__"`, then the store slug |
| `CpuData.ParseOfferIdFor` | lib/cpu-data.ts:123 | splitting an offer id on `"__"` gives back the processor id and store slug, when the id has no `"__"` and does not end in `_` |
| `CpuData.ParseOfferIdTrailingUnderscore` | lib/cpu-data.ts:123 | a processor id ending in `_` is read back one character short |
| `CpuData.FindCpu` | lib/cpu-data.ts:107 | `find` returns the first processor with the id, or nothing iff none has it |
| `CpuData.OffersBySlug` | lib/cpu-data.ts:106-120 | `[]` for an unknown id; otherwise one entry per offer, in order, with `slug == id` and the offer's id |
| `CpuData.OffersBySlugOfItems` | lib/cpu-data.ts:106-120 | on the built catalogue, the vendors listed for an id are those of the items with that id, in item order |
| `CpuData.FindOffer` | lib/cpu-data.ts:126 | the first offer whose store slug matches, or nothing iff none does |
| `CpuData.FirstOfferAt` | lib/cpu-data.ts:126 | looking up the store slug of offer `k` finds an offer at or before `k`, with no earlier offer carrying that store slug |
| `CpuData.OfferById` | lib/cpu-data.ts:122-139 | undefined iff the processor or its store slug is unknown; a found offer has the slug read from the id |
| `CpuData.OfferByIdRoundTrip` | lib/cpu-data.ts:122-139 | the id of any offer leads back to the processor's first offer with the same store slug: no earlier offer has that store slug |
| `CpuData.OfferByIdUnknown` | lib/cpu-data.ts:124-127 | an id for a store slug the processor does not carry finds nothing |
| `HistoryRoute.VendorFilter` | app/api/history/route.ts:30-33 | no `vendors` parameter gives an empty list, and no token is empty |
| `HistoryRoute.VendorFilterMembers` | app/api/history/route.ts:30-33 | a token is listed iff it is a non-empty trimmed piece between commas |
| `HistoryRoute.Remaining` | app/api/history/route.ts:34-36 | the vendor filter never adds offers |
| `HistoryRoute.Get` | app/api/history/route.ts:4-53 | an offer id decides alone: 404 iff unknown, otherwise a single answer with one series for that offer; with only a slug the answer is multi (non-empty, vendors within the list when one is given) or 404; with neither, 400; the single title is built from the found offer, and the multi title from the first remaining offer, with one series per remaining offer in order |
| `HistoryRoute.OfferIdFirst` | app/api/history/route.ts:10-26 | with an offer id, slug and vendors do not change the answer |
| `HistoryRoute.SingleForOfferId` | app/api/history/route.ts:10-25 | the id of an existing offer is answered with one series for its processor, when the processor id has no `"__"` and does not end in `_` |
| `HistoryRoute.MultiOfItems` | app/api/history/route.ts:28-50 | a slug is answered with one series per item of that id whose vendor the list lets through, in order, and with 404, never an empty success, when none is left |
| `CpuBrowser.FlattenOffers` | components/cpu-browser.tsx:66-91 | the nested loop pushes the tiles of every product, product by product |
| `CpuBrowser.FlattenTiles` | components/cpu-browser.tsx:66-91 | tile `j` of product `i` has id `cpu.id + "-" + hyphenated store`, the offer's vendor, price, url and stock, and the product's brand, model, generation, series, cores, threads, base and boost clocks, TDP and generation rank |
| `CpuBrowser.FlattenCount` | components/cpu-browser.tsx:66-91 | there is one tile per (product, offer) pair |
| `CpuBrowser.StringFacetOf` | components/cpu-browser.tsx:94-96 | `allBrands`/`allSeries`/`allVendors` are strictly increasing, duplicate-free, and hold exactly the values present |
| `CpuBrowser.NumberFacetOf` | components/cpu-browser.tsx:108-109 | `allCores`/`allThreads` are strictly increasing and hold exactly the values present |
| `CpuBrowser.MaxRank` | components/cpu-browser.tsx:101 | the largest generation rank among tiles, attained by one of them |
| `CpuBrowser.AllGenerations` | components/cpu-browser.tsx:97-106 | the `byGen` loop, sort and projection compute the generation facet |
| `CpuBrowser.ByGenerationEntries` | components/cpu-browser.tsx:97-102 | `byGen` has each generation once, in first-seen order, with its largest rank |
| `CpuBrowser.AllGenerationsOrdered` | components/cpu-browser.tsx:97-106 | each generation is listed exactly once, by non-increasing largest rank |
| `CpuBrowser.GenerationMember` | components/cpu-browser.tsx:97-106 | a generation is listed iff some tile has it |
| `CpuBrowser.PriceBoundsOf` | components/cpu-browser.tsx:111-120 | `[0,0]` without tiles; otherwise `[floor(min), ceil(max)]`, which contains every price and is tight to within 1 at each end |
| `CpuBrowser.PriceBounds` | components/cpu-browser.tsx:111-120 | the min/max loop from ±∞ computes those bounds |
| `Text.Norm` | components/cpu-browser.tsx:146 | the normalised string holds only `[a-z0-9]` |
| `Text.NormEmptyIff` | components/cpu-browser.tsx:146-149 | the query is empty, so search does not filter, iff it has no ASCII letter or digit |
| `Text.NormTrim` | components/cpu-browser.tsx:147-148 | trimming before normalising changes nothing |
| `CpuBrowser.SortKey` | components/cpu-browser.tsx:184-185 | the direction factor is 1 or −1 |
| `CpuBrowser.SortKeyWithDirection` | components/cpu-browser.tsx:184-185 | `"key-dir"` sorts by `key`, ascending iff `dir` is `"asc"` |
| `CpuBrowser.SortKeyWithoutDirection` | components/cpu-browser.tsx:184 | a bare key sorts ascending |
| `CpuBrowser.PriceSortStrings` | components/cpu-browser.tsx:140-185 | `"price-asc"` and `"price-desc"` give the price key with factors 1 and −1 |
| `CpuBrowser.FilterSelection` | components/cpu-browser.tsx:146-169 | the search, brand, generation, series, vendor and in-stock stages keep what the first six stage tests keep |
| `CpuBrowser.FilterRanges` | components/cpu-browser.tsx:170-180 | the six bound stages, each run only when set |
| `CpuBrowser.FilterCounts` | components/cpu-browser.tsx:181-182 | the core and thread stages |
| `CpuBrowser.StagesAreKeeps` | components/cpu-browser.tsx:143-182 | passing the fourteen stages is exactly `Keeps`: the search, the non-empty lists, in-stock, and the inclusive bounds with the asymmetric handling of missing specs |
| `CpuBrowser.StagesFilterKept` | components/cpu-browser.tsx:143-182 | the staged filters keep exactly the tiles `Keeps` accepts, in order |
| `CpuBrowser.Filtered` | components/cpu-browser.tsx:143-195 | `filtered` is the kept tiles in catalogue order, stably sorted by the comparator |
| `CpuBrowser.FilteredMembers` | components/cpu-browser.tsx:143-195 | the result is a permutation of exactly the input tiles that satisfy every active predicate |
| `CpuBrowser.CompareByPreorder` | components/cpu-browser.tsx:186-192 | every key and direction orders tiles as a total preorder |
| `CpuBrowser.FilteredSorted` | components/cpu-browser.tsx:184-192 | the result is ordered by the chosen comparator |
| `CpuBrowser.FilteredByPrice` | components/cpu-browser.tsx:184-192 | by price ascending, prices never decrease; descending, they never increase |
| `CpuBrowser.FilteredPriceTiesKeepOrder` | components/cpu-browser.tsx:186-192 | tiles of equal price keep catalogue order |
| `CpuBrowser.FilteredUnknownKey` | components/cpu-browser.tsx:186-192 | an unrecognised key leaves the post-filter order unchanged |
| `CpuBrowser.ResetShowsAll` | components/cpu-browser.tsx:197-213 | under the initial and `resetAll` state every tile is shown, only sorted |
| `CpuBrowser.MissingSpecs` | components/cpu-browser.tsx:173-180 | a tile without a base clock is hidden by either base-clock bound; a tile without a TDP is never hidden by the TDP bounds |
| `FilterSidebar.WithSelected` | components/filter-sidebar.tsx:70 | `{ ...value, [key]: xs }` sets that list and keeps the other lists |
| `FilterSidebar.Remove` | components/filter-sidebar.tsx:68 | `delete` removes exactly that value |
| `FilterSidebar.SetToggle` | components/filter-sidebar.tsx:66-71 | the toggled list is duplicate-free; the item flips membership and no other value does |
| `FilterSidebar.ToggleTwiceSameSet` | components/filter-sidebar.tsx:66-71 | toggling twice restores the set of selected items |
| `FilterSidebar.ToggleTwiceAbsent` | components/filter-sidebar.tsx:66-71 | on a duplicate-free list without the item, toggling twice restores the list itself |
| `FilterSidebar.Toggle` | components/filter-sidebar.tsx:66-71 | `toggle` changes only the chosen list, to its toggled set |
| `FilterSidebar.NumToggle` | components/filter-sidebar.tsx:73-78 | the toggled number list is strictly increasing and flips only `n` |
| `FilterSidebar.ToggleNum` | components/filter-sidebar.tsx:73-78 | `toggleNum` changes only cores or threads, to the sorted toggled set |
| `FilterSidebar.SetSearch` | components/filter-sidebar.tsx:80 | only `search` changes |
| `FilterSidebar.SetInStock` | components/filter-sidebar.tsx:81 | only `inStockOnly` changes |
| `FilterSidebar.HasActiveFilters` | components/filter-sidebar.tsx:83-116 | false iff every list is empty, search is empty, in-stock is off and every bound is unset, which is exactly the reset state |
| `FilterSidebar.SetRange` | components/filter-sidebar.tsx:188-193 | a slider sets both bounds of its dimension, changes nothing else, and makes a filter active |
| `FilterSidebar.SliderShows` | components/filter-sidebar.tsx:118-128 | a slider shows the chosen bounds, and shows the range endpoints for unset bounds |
| `HistoryBrowser.Products` | components/history-browser.tsx:27-34 | the `forEach` over the offers fills `bySlug`, then sorts its values by label |
| `HistoryBrowser.FirstBySlugSlugs` | components/history-browser.tsx:28-32 | `bySlug` has the distinct slugs in first-seen order |
| `HistoryBrowser.FirstBySlugLabels` | components/history-browser.tsx:29-32 | each entry's label `"brand series model"` comes from the first offer with its slug |
| `HistoryBrowser.ProductListContents` | components/history-browser.tsx:27-34 | the picker has one entry per distinct slug, labelled from its first offer, sorted by label |
| `HistoryBrowser.SortedLabels` | components/history-browser.tsx:33 | sorting by `localeCompare` puts labels in code-point order |
| `HistoryBrowser.SortedSlugsDistinct` | components/history-browser.tsx:33 | sorting keeps the slugs distinct |
| `HistoryBrowser.VendorsForSelected` | components/history-browser.tsx:36-40 | empty with no slug; otherwise strictly increasing, duplicate-free, exactly the vendors of offers with that slug |
| `HistoryBrowser.ToggleVendor` | components/history-browser.tsx:43-44 | a present vendor is removed everywhere, so the list shrinks; an absent one is appended |
| `HistoryBrowser.ToggleVendorDistinct` | components/history-browser.tsx:43-44 | a duplicate-free selection stays duplicate-free |
| `HistoryBrowser.ToggleVendorTwiceAbsent` | components/history-browser.tsx:43-44 | toggling an absent vendor twice restores the list exactly |
| `HistoryBrowser.ToggleVendorTwicePresent` | components/history-browser.tsx:43-44 | toggling a present vendor twice keeps the same vendors, that one moved last |
| `HistoryBrowser.VendorsQuery` | components/history-browser.tsx:46 | the query is `""` iff no vendor is selected, else starts with `&vendors=` |
| `HistoryBrowser.HistoryKey` | components/history-browser.tsx:47-50 | no request without a slug; otherwise the history URL with slug and vendors |
| `HistoryBrowser.VendorsRoundTrip` | components/history-browser.tsx:46 | the route reads back exactly the selected vendors when none is empty, holds a comma or has edge spaces |
| `HistoryBrowser.Reset` | components/history-browser.tsx:52-55 | `reset` clears the slug and the selected vendors, so no request is made and no vendor is offered |
| `PriceHistory.PivotByDate` | components/charts/price-history.tsx:11-21 | the nested loops and the sort compute the chart rows, which are strictly ascending by date |
| `PriceHistory.RowDates` | components/charts/price-history.tsx:12-19 | one row per distinct date, in first-seen order, before the sort |
| `PriceHistory.UpsertDates` | components/charts/price-history.tsx:15-17 | an upsert adds the point's date iff it is new |
| `PriceHistory.RowPrices` | components/charts/price-history.tsx:15-17 | every row holds, for each vendor, the price of that vendor's last point on its date |
| `PriceHistory.PricesOnLast` | components/charts/price-history.tsx:15-17 | a vendor has a key on date `d` iff it has a point dated `d`, and its price is that of the last such point |
| `PriceHistory.SortAscending` | components/charts/price-history.tsx:20 | sorting rows with distinct dates leaves them strictly ascending |
| `PriceHistory.ChartDataAscending` | components/charts/price-history.tsx:20 | chart rows are strictly ascending by date string |
| `PriceHistory.ChartRowPrices` | components/charts/price-history.tsx:11-21 | each chart row holds the prices on its date |
| `PriceHistory.ChartDates` | components/charts/price-history.tsx:12-20 | there is a chart row for exactly the dates of the points |
| `PriceHistory.ChartDatesDistinct` | components/charts/price-history.tsx:12-20 | no two chart rows share a date |
| `CpuTile.Capitalize` | components/cpu-tile.tsx:16 | only the first character changes, to upper case |
| `CpuTile.TitleCase` | components/cpu-tile.tsx:12-17 | the only white space in the output is single spaces, never two in a row |
| `CpuTile.TitleCaseWords` | components/cpu-tile.tsx:12-17 | splitting the output at white space gives the lower-cased input words, each capitalised |
| `CpuTile.TitleCaseIdempotent` | components/cpu-tile.tsx:12-17 | title-casing twice is title-casing once |
| `CpuTile.StripVendor` | components/cpu-tile.tsx:21 | strips a leading case-insensitive `intel` or `amd` and the white space after it, and nothing otherwise |
| `CpuTile.StripThenTrim` | components/cpu-tile.tsx:21 | stripping and trimming is dropping the vendor word and trimming |
| `CpuTile.ShortGeneration` | components/cpu-tile.tsx:19-23 | null iff the generation is missing or empty; otherwise a title-cased label without doubled white space |
| `CpuTile.NoWordBoundary` | components/cpu-tile.tsx:19-23 | `"Intelligent"` becomes `"Ligent"` |
| `CpuTile.VendorOnly` | components/cpu-tile.tsx:19-23 | a generation that is only the vendor word gives `""`, not null |
| `CpuTile.ProductSlugOf` | components/cpu-tile.tsx:35 | undefined iff the id has no `"__"`; otherwise the prefix before the first `"__"`, which holds no `"__"` |
| `CpuTile.ProductSlugOfOfferId` | components/cpu-tile.tsx:35 | an offer id built by `offerIdFor` gives back its processor id |
| `CpuBrowser.TileHasNoProductSlug` | components/cpu-tile.tsx:35 | a catalogue tile's id (built at components/cpu-browser.tsx:70) is a slug product id, `-`, and the hyphenated store name; with no `_` in the store name it holds no `"__"`, so `productSlug` is undefined and the tile shows no history link |
| `ProcessorsRoute.FieldFacet` | app/api/data/processors/route.ts:9-12 | a facet is sorted, duplicate-free, free of empty strings, and holds exactly the non-empty values present |
| `ProcessorsRoute.MetaOf` | app/api/data/processors/route.ts:6-27 | `count` is the number of offers; the four facets hold exactly the distinct non-empty values of their field; `priceRange` contains every price, and is `[+∞, −∞]` for no offers |
| `ProcessorsRoute.PriceRangeAttained` | app/api/data/processors/route.ts:14-15 | both ends of the price range are prices of offers |
| `ProcessorsRoute.Get` | app/api/data/processors/route.ts:4-28 | `offers` is `normalizeAll(records)` and `meta` is computed from them |

## Left out

- `mockPriceHistory` and the price-history generator script: they depend on `Math.random`, the clock and the file system. History series carry only vendor and brand.
- `lastSeen`, `updatedAt` and `now()`: wall-clock values.
- HTTP plumbing: `NextResponse`, URL parsing, `encodeURIComponent` and SWR fetching. Query parameters are `Option<string>` arguments. The URL encoder is a function parameter.
- Rendering, animation, charts, styling, the vendor colour palette and the INR price formatting of a tile.
- IEEE-754 behaviour. Finite numbers are exact reals, so binary rounding in `parseFloat` and the rounding of `Math.floor`/`Math.ceil` are not modelled. NaN and the infinities appear explicitly only where the source can produce them (`parseFloat`, `Math.min`/`Math.max` over a list). Prices reaching the browser come through JSON, which cannot carry NaN or infinities, so they are reals there.
- Unicode and locales: case mapping is ASCII-only. Strings are ordered by code point. This is the code-unit order of the default `sort()` except when a character above U+FFFF meets one in U+E000..U+FFFF. `localeCompare` collates by locale (it puts `"a"` before `"B"`), and the model replaces it with code-point order; every property stated about the order of labels and facets holds for code-point order.
- `Processors.BestPrice`: every price in the model is finite, so the "0 when the minimum is not finite" case is reached only by an empty list.
- `Processors.ToNumber`: overflow is not modelled. A digit string of about 309 digits or more makes `parseFloat` return `Infinity`, so `toNumber` gives undefined; the model reads it as a finite real.
- `Processors.ToNumberShowNat`: the same overflow case is not modelled; for a natural number too large for a double, the source gives undefined where this lemma gives the number.
- `CpuData.ParsedCount`: a number is read through its integer part rather than through `String(n)`, so exponent forms (`1e21`) are not modelled.
- `CpuData.OfferByIdRoundTrip`: it also requires the processor id to contain no `"__"` and not to end in `_`. `split("__")` cuts an id at an inner `"__"`, and for an id ending in `_` it takes that `_` as part of the separator (`CpuData.ParseOfferIdTrailingUnderscore`).
- `CpuData.OfferByIdUnknown`: it has the same extra requirement on the processor id, for the same reason.
- `HistoryRoute.SingleForOfferId`: it also requires the processor id to contain no `"__"` and not to end in `_`, for the same reason as `CpuData.OfferByIdRoundTrip`.
- `CpuTile.ProductSlugOfOfferId`: it has the same extra requirement, that the processor id contains no `"__"` and does not end in `_`.
- `FilterSidebar.Toggle`: the key is one of the four string lists. Calling `toggle` on any other field of the filter state is not modelled.
- `PriceHistory.PivotByDate`: a row keeps the date apart from the vendor prices. The source's behaviour for a vendor literally named `"date"`, which would overwrite the row's date, is not modelled.
- `HistoryBrowser.Products`: the page reads `slug` from the rows of `/api/cpus`, which do not carry one. The model takes the rows as given, with a slug.
