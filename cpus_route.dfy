/**
  `GET /api/cpus`: the vendor dataset normalised, then grouped and enriched.
  The dataset is a parameter and the `updatedAt` wall-clock stamp is left out.
 */
module CpusRoute {
  import opened Processors

  /** The JSON body: the products cheapest first and the flattened rows. */
  datatype Body = Body(cpus: seq<CpuForApi>, offers: seq<FlattenedForApi>)

  /** `enrichForApi(normalizeProcessors(records))`. */
  function Get(records: seq<ProcessorRecord>): (body: Body)
    ensures forall i, j :: 0 <= i < j < |body.cpus| ==> body.cpus[i].bestPrice <= body.cpus[j].bestPrice
    ensures |body.offers| == |NormalizedOffers(records)| <= |records|
  {
    var offers := NormalizedOffers(records);
    EnrichedSortedByPrice(offers);
    FlattenedCount(offers);
    Body(Enriched(offers), FlattenedOffers(offers))
  }
}
