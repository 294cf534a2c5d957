/** The upstream model listing and its normalisation: provider slugs, price
    scaling, the provider allow-list, the chat-modality filter and the
    (provider, name) ordering used by catalog synchronisation. */
module OpenRouter {
  import opened Wrappers
  import opened Strings
  import opened Seqs
  import opened Sorting

  /** One entry of the upstream listing, reduced to the fields the core reads:
      the qualified id, display name, context length, the per-token prompt and
      completion price strings, and the optional architecture modality. */
  datatype OpenRouterModel = OpenRouterModel(
    id: string,
    name: string,
    contextLength: int,
    promptPrice: string,
    completionPrice: string,
    modality: Option<string>)

  /** Provider slug of a qualified id: the text before the first "/", with
      "unknown" standing in for an empty slug. */
  function ExtractProvider(modelId: string): (r: string)
    ensures |r| > 0 && '/' !in r
    ensures r == FirstPiece(modelId, '/') || (FirstPiece(modelId, '/') == "" && r == "unknown")
    ensures r != "unknown" ==> modelId[..|r|] == r && (|r| == |modelId| || modelId[|r|] == '/')
    ensures (|modelId| == 0 || modelId[0] == '/') ==> r == "unknown"
  {
    var slug := FirstPiece(modelId, '/');
    if slug == "" then "unknown" else slug
  }

  /** `p/rest` belongs to provider `p` whenever `p` is a non-empty slug. */
  lemma ExtractProviderOfQualified(p: string, rest: string)
    requires p != "" && '/' !in p
    ensures ExtractProvider(p + "/" + rest) == p
  {
    FirstPieceOfQualified(p, '/', rest);
  }

  /** Price per million tokens from a per-token price string; `parseFloat` is
      the host's number parser, `None` standing for NaN. */
  function ParsePrice(priceStr: string, parseFloat: string -> Option<real>): (r: real)
    ensures parseFloat(priceStr).None? ==> r == 0.0
    ensures parseFloat(priceStr).Some? ==> r / 1000000.0 == parseFloat(priceStr).value
  {
    match parseFloat(priceStr)
    case None => 0.0
    case Some(price) => price * 1000000.0
  }

  /** A per-token price of 0.000003 is 3 per million tokens; an unparsable
      string is free. */
  lemma ParsePriceExamples(parseFloat: string -> Option<real>)
    requires parseFloat("0.000003") == Some(0.000003)
    requires parseFloat("n/a").None?
    ensures ParsePrice("0.000003", parseFloat) == 3.0
    ensures ParsePrice("n/a", parseFloat) == 0.0
  {
  }

  /** The fixed allow-list of providers kept by synchronisation. */
  const RelevantProviders: seq<string> :=
    ["anthropic", "openai", "google", "meta-llama", "mistralai", "deepseek", "cohere", "perplexity"]

  predicate IsRelevantModel(model: OpenRouterModel) {
    ExtractProvider(model.id) in RelevantProviders
  }

  /** A model is relevant exactly when its literal slug is on the allow-list;
      the "unknown" stand-in is never on it. */
  lemma RelevantIffSlugListed(model: OpenRouterModel)
    ensures IsRelevantModel(model) <==> FirstPiece(model.id, '/') in RelevantProviders
    ensures IsRelevantModel(model) ==> ExtractProvider(model.id) == FirstPiece(model.id, '/')
  {
    assert "unknown" !in RelevantProviders;
    assert "" !in RelevantProviders;
  }

  /** Chat-capable: no (or an empty) modality, or one mentioning "text" or
      "multimodal" in any letter case. */
  predicate IsChatModel(model: OpenRouterModel) {
    var modality := ToLower(model.modality.GetOr(""));
    modality == "" || Contains(modality, "text") || Contains(modality, "multimodal")
  }

  lemma ChatModelCases(model: OpenRouterModel)
    ensures model.modality.None? ==> IsChatModel(model)
    ensures model.modality == Some("") ==> IsChatModel(model)
    ensures model.modality.Some? && model.modality.value != "" ==>
      (IsChatModel(model) <==>
        Contains(ToLower(model.modality.value), "text") || Contains(ToLower(model.modality.value), "multimodal"))
  {
  }

  /** The comparator of `filterAndSortModels`: by provider slug, then by name. */
  predicate ProviderNameLe(a: OpenRouterModel, b: OpenRouterModel) {
    PairLe(ExtractProvider(a.id), a.name, ExtractProvider(b.id), b.name)
  }

  lemma ProviderNameLeIsTotalPreorder()
    ensures TotalPreorder(ProviderNameLe)
  {
    forall a, b ensures ProviderNameLe(a, b) || ProviderNameLe(b, a) {
      PairLeTotal(ExtractProvider(a.id), a.name, ExtractProvider(b.id), b.name);
    }
    forall a, b, c | ProviderNameLe(a, b) && ProviderNameLe(b, c) ensures ProviderNameLe(a, c) {
      PairLeTransitive(ExtractProvider(a.id), a.name, ExtractProvider(b.id), b.name,
                       ExtractProvider(c.id), c.name);
    }
  }

  /** Both filters of the synchronisation pipeline. */
  predicate Kept(model: OpenRouterModel) {
    IsRelevantModel(model) && IsChatModel(model)
  }

  /** Keeps the relevant chat models and orders them by (provider, name). */
  function FilterAndSortModels(models: seq<OpenRouterModel>): (r: seq<OpenRouterModel>)
    ensures |r| <= |models|
    ensures forall m :: multiset(r)[m] == if Kept(m) then multiset(models)[m] else 0
    ensures forall i, j :: 0 <= i < j < |r| ==>
      LexLe(ExtractProvider(r[i].id), ExtractProvider(r[j].id))
    ensures forall i, j :: 0 <= i < j < |r| && ExtractProvider(r[i].id) == ExtractProvider(r[j].id) ==>
      LexLe(r[i].name, r[j].name)
  {
    var kept := Filter(Filter(models, IsRelevantModel), IsChatModel);
    ProviderNameLeIsTotalPreorder();
    var r := Sort(kept, ProviderNameLe);
    assert |r| == |multiset(r)| == |multiset(kept)| == |kept|;
    forall i, j | 0 <= i < j < |r|
      ensures LexLe(ExtractProvider(r[i].id), ExtractProvider(r[j].id))
    {
      assert ProviderNameLe(r[i], r[j]);
      if ExtractProvider(r[i].id) == ExtractProvider(r[j].id) {
        LexLeTotal(ExtractProvider(r[i].id), ExtractProvider(r[j].id));
      }
    }
    r
  }

  /** Every synchronised entry has a listed, non-placeholder provider slug. */
  lemma FilteredModelsAreRelevant(models: seq<OpenRouterModel>)
    ensures forall m | m in FilterAndSortModels(models) ::
      Kept(m) && ExtractProvider(m.id) == FirstPiece(m.id, '/') && m in models
  {
    var r := FilterAndSortModels(models);
    forall m | m in r ensures Kept(m) && ExtractProvider(m.id) == FirstPiece(m.id, '/') && m in models {
      assert multiset(r)[m] > 0;
      RelevantIffSlugListed(m);
    }
  }
}
