/** The response shapes shared by the read routes. */
module ApiTypes {
  import opened Wrappers
  import opened Db

  datatype Pricing = Pricing(input: real, output: real, cached: Option<real>)

  /** What callers are told about one model. */
  datatype ModelInfo = ModelInfo(
    name: string,
    openrouterId: string,
    vercelId: Option<string>,
    provider: string,
    pricing: Pricing,
    contextWindow: Option<int>,
    strengths: Option<seq<string>>)

  /** A cache row as API model info: identity, provider and context window are
      copied, a missing input or output price reads as 0, and a missing cached
      price is left out. */
  function FromCacheRow(m: ModelCache): (r: ModelInfo)
    ensures r.name == m.row.name && r.openrouterId == m.row.openrouterId
    ensures r.vercelId == m.row.vercelId && r.provider == m.row.provider
    ensures r.contextWindow == m.row.contextWindow && r.strengths == m.row.strengths
    ensures m.row.inputPrice.None? ==> r.pricing.input == 0.0
    ensures m.row.inputPrice.Some? ==> r.pricing.input == m.row.inputPrice.value
    ensures m.row.outputPrice.None? ==> r.pricing.output == 0.0
    ensures m.row.outputPrice.Some? ==> r.pricing.output == m.row.outputPrice.value
    ensures r.pricing.cached == m.row.cachedPrice
  {
    ModelInfo(
      m.row.name,
      m.row.openrouterId,
      m.row.vercelId,
      m.row.provider,
      Pricing(m.row.inputPrice.GetOr(0.0), m.row.outputPrice.GetOr(0.0), m.row.cachedPrice),
      m.row.contextWindow,
      m.row.strengths)
  }
}
