/** The model picker's pure helpers: models grouped by provider, providers
    in sorted order with display names, and the label of the trigger. */
module ModelSelector {
  import opened Wrappers
  import opened Strings
  import opened Seqs
  import opened Sorting

  /** The fields of a model the picker reads. */
  datatype Choice = Choice(name: string, openrouterId: string, provider: string, input: real, output: real)

  function OfProvider(provider: string): Choice -> bool {
    (m: Choice) => m.provider == provider
  }

  /** `groupByProvider`: a fold that appends each model to the group of its
      provider, opening the group on first sight. */
  function GroupByProvider(models: seq<Choice>): (groups: map<string, seq<Choice>>)
    ensures groups.Keys == set m | m in models :: m.provider
    decreases |models|
  {
    if |models| == 0 then map[]
    else
      var n := |models| - 1;
      var m := models[n];
      var acc := GroupByProvider(models[..n]);
      var groups := acc[m.provider := if m.provider in acc then acc[m.provider] + [m] else [m]];
      assert models == models[..n] + [m];
      ProvidersSnoc(models[..n], m);
      groups
  }

  /** Each group holds exactly the models of its provider, in input order,
      and no group is empty. */
  lemma {:induction false} GroupsAreFilters(models: seq<Choice>)
    ensures var groups := GroupByProvider(models);
      forall p | p in groups :: groups[p] == Filter(models, OfProvider(p)) && |groups[p]| > 0
    decreases |models|
  {
    if |models| > 0 {
      var n := |models| - 1;
      var m := models[n];
      GroupsAreFilters(models[..n]);
      var acc := GroupByProvider(models[..n]);
      assert models == models[..n] + [m];
      var groups := GroupByProvider(models);
      assert groups == acc[m.provider := if m.provider in acc then acc[m.provider] + [m] else [m]];
      forall p | p in groups ensures groups[p] == Filter(models, OfProvider(p)) && |groups[p]| > 0 {
        GroupStep(models[..n], m, p, acc);
      }
    }
  }

  lemma ProvidersSnoc(prefix: seq<Choice>, m: Choice)
    ensures (set x | x in prefix + [m] :: x.provider) == (set x | x in prefix :: x.provider) + {m.provider}
  {
  }

  /** One step of the fold: appending `m` extends its own provider's group
      and leaves every other group alone. */
  lemma GroupStep(prefix: seq<Choice>, m: Choice, p: string, acc: map<string, seq<Choice>>)
    requires acc.Keys == set x | x in prefix :: x.provider
    requires forall q | q in acc :: acc[q] == Filter(prefix, OfProvider(q)) && |acc[q]| > 0
    requires p in acc || p == m.provider
    ensures var groups := acc[m.provider := if m.provider in acc then acc[m.provider] + [m] else [m]];
      groups[p] == Filter(prefix + [m], OfProvider(p)) && |groups[p]| > 0
  {
    FilterAppend(prefix, [m], OfProvider(p));
    assert Filter([m], OfProvider(p)) == if m.provider == p then [m] else [];
    if p == m.provider && p !in acc {
      FilterNoneKept(prefix, OfProvider(p));
    }
  }

  /** `Object.keys(groups).sort()`: each provider once, in ascending order. */
  function SortedProviders(models: seq<Choice>): (providers: seq<string>)
    ensures forall p :: p in providers <==> exists m | m in models :: m.provider == p
    ensures forall i, j :: 0 <= i < j < |providers| ==> LexLe(providers[i], providers[j])
    ensures Distinct(providers)
  {
    var seen := Dedup(seq(|models|, i requires 0 <= i < |models| => models[i].provider));
    LexLeIsTotalPreorder();
    var providers := Sort(seen, LexLe);
    DistinctPermutation(seen, providers);
    forall p ensures p in providers <==> p in seen {
      assert p in providers <==> p in multiset(providers);
      assert p in seen <==> p in multiset(seen);
    }
    forall p | exists m | m in models :: m.provider == p ensures p in seen {
      var m :| m in models && m.provider == p;
      var i :| 0 <= i < |models| && models[i] == m;
      assert seq(|models|, i requires 0 <= i < |models| => models[i].provider)[i] == p;
    }
    providers
  }

  lemma LexLeIsTotalPreorder()
    ensures TotalPreorder(LexLe)
  {
    forall a, b ensures LexLe(a, b) || LexLe(b, a) { LexLeTotal(a, b); }
    forall a, b, c | LexLe(a, b) && LexLe(b, c) ensures LexLe(a, c) { LexLeTransitive(a, b, c); }
  }

  /** The models of the listed providers' groups, one group after another. */
  function Flatten(providers: seq<string>, groups: map<string, seq<Choice>>): seq<Choice>
    requires forall p | p in providers :: p in groups
  {
    if |providers| == 0 then [] else groups[providers[0]] + Flatten(providers[1..], groups)
  }

  /** The entries of the open picker after the optional clearing entry: each
      provider's models under its label, providers in sorted order. */
  function GroupedChoices(models: seq<Choice>): (r: seq<Choice>)
  {
    var groups := GroupByProvider(models);
    var providers := SortedProviders(models);
    Flatten(providers, groups)
  }

  /** Grouping loses and duplicates nothing: the picker offers every model
      exactly as often as it is listed. */
  lemma GroupedChoicesArePermutation(models: seq<Choice>)
    ensures multiset(GroupedChoices(models)) == multiset(models)
  {
    var groups := GroupByProvider(models);
    var providers := SortedProviders(models);
    GroupsAreFilters(models);
    FlattenCounts(models, providers, groups);
    var flat := Flatten(providers, groups);
    assert flat == GroupedChoices(models);
    forall x ensures multiset(flat)[x] == multiset(models)[x] {
      EveryProviderListed(models, providers, x);
    }
  }

  /** A model's provider is among the sorted providers; a value that is not
      listed has no copies. */
  lemma EveryProviderListed(models: seq<Choice>, providers: seq<string>, x: Choice)
    requires providers == SortedProviders(models)
    ensures x.provider in providers || multiset(models)[x] == 0
  {
    if x in models {
      assert x.provider in providers;
    }
  }

  lemma {:induction false} FlattenCounts(models: seq<Choice>, providers: seq<string>, groups: map<string, seq<Choice>>)
    requires Distinct(providers)
    requires forall p | p in providers :: p in groups && groups[p] == Filter(models, OfProvider(p))
    ensures forall x :: multiset(Flatten(providers, groups))[x] == (if x.provider in providers then multiset(models)[x] else 0)
  {
    if |providers| > 0 {
      var rest := providers[1..];
      assert Distinct(rest);
      FlattenCounts(models, rest, groups);
      forall x ensures multiset(Flatten(providers, groups))[x] ==
        (if x.provider in providers then multiset(models)[x] else 0)
      {
        assert providers == [providers[0]] + rest;
        if x.provider == providers[0] {
          assert x.provider !in rest;
        }
      }
    }
  }

  /** Display names of the eight known provider slugs. */
  const ProviderNames: map<string, string> := map[
    "anthropic" := "Anthropic",
    "openai" := "OpenAI",
    "google" := "Google",
    "meta-llama" := "Meta",
    "mistralai" := "Mistral",
    "deepseek" := "DeepSeek",
    "cohere" := "Cohere",
    "perplexity" := "Perplexity"
  ]

  /** `formatProviderName`: the table's name for a known slug; any other
      slug with its first character upper-cased. */
  function FormatProviderName(provider: string): (r: string)
    ensures provider in ProviderNames ==> r == ProviderNames[provider]
    ensures provider !in ProviderNames ==>
      |r| == |provider| && (|r| > 0 ==> r[0] == UpperChar(provider[0]) && r[1..] == provider[1..])
  {
    if provider in ProviderNames then ProviderNames[provider] else UpperFirst(provider)
  }

  /** Two examples: a listed slug with its own spelling, an unlisted one
      capitalised. */
  lemma FormatProviderNameExamples()
    ensures FormatProviderName("meta-llama") == "Meta"
    ensures FormatProviderName("openai") == "OpenAI"
    ensures FormatProviderName("x-ai") == "X-ai"
  {
  }

  /** `models.find(m => m.openrouterId === value)`. */
  function FindById(models: seq<Choice>, value: string): (r: Option<Choice>)
    ensures r.Some? ==> r.value in models && r.value.openrouterId == value
    ensures r.None? <==> forall m | m in models :: m.openrouterId != value
  {
    if |models| == 0 then None
    else if models[0].openrouterId == value then Some(models[0])
    else
      var r := FindById(models[1..], value);
      assert models == [models[0]] + models[1..];
      r
  }

  /** The trigger shows the selected id when some model has it, else the
      placeholder. */
  function TriggerLabel(models: seq<Choice>, value: string, placeholder: string): (shown: string)
    ensures (exists m | m in models :: m.openrouterId == value) ==> shown == value
    ensures (forall m | m in models :: m.openrouterId != value) ==> shown == placeholder
  {
    match FindById(models, value)
    case Some(selected) => selected.openrouterId
    case None => placeholder
  }

  const NoFallbackPlaceholder: string := "Kein Fallback"

  /** The values offered by the open picker: the empty value that clears a
      fallback when the placeholder is "Kein Fallback", then every model's id
      in grouped order. */
  function OptionValues(models: seq<Choice>, placeholder: string): (values: seq<string>)
    ensures |values| == |models| + (if placeholder == NoFallbackPlaceholder then 1 else 0)
    ensures placeholder == NoFallbackPlaceholder ==> values[0] == ""
    ensures var off := if placeholder == NoFallbackPlaceholder then 1 else 0;
      values[off..] == ChoiceIds(GroupedChoices(models))
    ensures forall m | m in models :: m.openrouterId in values
  {
    GroupedChoicesOfferAll(models);
    var ids := ChoiceIds(GroupedChoices(models));
    if placeholder == NoFallbackPlaceholder then [""] + ids else ids
  }

  /** The OpenRouter ids of a list of models, in its order. */
  function ChoiceIds(choices: seq<Choice>): (ids: seq<string>)
    ensures |ids| == |choices|
    ensures forall i | 0 <= i < |choices| :: ids[i] == choices[i].openrouterId
    ensures forall m | m in choices :: m.openrouterId in ids
  {
    var ids := seq(|choices|, i requires 0 <= i < |choices| => choices[i].openrouterId);
    assert forall m | m in choices :: m.openrouterId in ids by {
      forall m | m in choices ensures m.openrouterId in ids {
        var i :| 0 <= i < |choices| && choices[i] == m;
        assert ids[i] == m.openrouterId;
      }
    }
    ids
  }

  /** The grouped list is as long as the model list and holds every model. */
  lemma GroupedChoicesOfferAll(models: seq<Choice>)
    ensures |GroupedChoices(models)| == |models|
    ensures forall m | m in models :: m in GroupedChoices(models)
  {
    var grouped := GroupedChoices(models);
    GroupedChoicesArePermutation(models);
    assert |multiset(grouped)| == |multiset(models)|;
    forall m | m in models ensures m in grouped {
      assert m in multiset(models);
    }
  }
}
