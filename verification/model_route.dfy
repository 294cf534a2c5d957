/** Category-to-model resolution (GET /api/model): the recommended model of a
    category, promoted to a fallback when a provider filter rejects the
    selected model, the remaining fallbacks, and the model info for each id,
    read from the cache or synthesised from the id alone. */
module ModelRoute {
  import opened Wrappers
  import opened Strings
  import opened VercelModels
  import opened Db
  import opened ApiTypes

  // ---------------------------------------------------------------------
  // Provider filter and id selection
  // ---------------------------------------------------------------------

  /** An unset filter admits every id; a set one admits the ids whose slug
      equals it, ignoring letter case. */
  predicate MatchesProvider(filter: Option<string>, id: string) {
    !IsSet(filter) || ToLower(FirstPiece(id, '/')) == ToLower(filter.value)
  }

  /** `[fallback_1, fallback_2].filter(Boolean)`. */
  function Alternatives(c: Category): (r: seq<string>)
    ensures |r| <= 2
    ensures forall id | id in r :: id != ""
    ensures forall id :: id in r <==>
      ((IsSet(c.fallback1) && id == c.fallback1.value) || (IsSet(c.fallback2) && id == c.fallback2.value))
    ensures |r| == 2 ==> IsSet(c.fallback1) && IsSet(c.fallback2) && r == [c.fallback1.value, c.fallback2.value]
    ensures |r| == (if IsSet(c.fallback1) then 1 else 0) + (if IsSet(c.fallback2) then 1 else 0)
    ensures IsSet(c.fallback1) ==> r[0] == c.fallback1.value
    ensures IsSet(c.fallback2) ==> r[|r| - 1] == c.fallback2.value
  {
    (if IsSet(c.fallback1) then [c.fallback1.value] else [])
      + (if IsSet(c.fallback2) then [c.fallback2.value] else [])
  }

  /** `ids.find(matchesProvider)`. */
  function FindMatching(ids: seq<string>, filter: Option<string>): (r: Option<string>)
    ensures r.None? <==> forall id | id in ids :: !MatchesProvider(filter, id)
    ensures r.Some? ==> exists i :: (0 <= i < |ids| && ids[i] == r.value
      && MatchesProvider(filter, r.value) && forall j | 0 <= j < i :: !MatchesProvider(filter, ids[j]))
  {
    if |ids| == 0 then None
    else if MatchesProvider(filter, ids[0]) then Some(ids[0])
    else
      var r := FindMatching(ids[1..], filter);
      assert ids == [ids[0]] + ids[1..];
      if r.Some? then
        var i :| 0 <= i < |ids[1..]| && ids[1..][i] == r.value
          && MatchesProvider(filter, r.value) && forall j | 0 <= j < i :: !MatchesProvider(filter, ids[1..][j]);
        assert ids[i + 1] == r.value;
        assert forall j | 0 <= j < i + 1 :: !MatchesProvider(filter, ids[j]) by {
          forall j | 0 < j < i + 1 ensures !MatchesProvider(filter, ids[j]) {
            assert ids[j] == ids[1..][j - 1];
          }
        }
        r
      else r
  }

  /** The recommended id: the selected model, unless a set filter rejects it
      and a non-empty fallback passes it, in which case the first such
      fallback. */
  function RecommendedId(c: Category, filter: Option<string>): (r: string)
    ensures MatchesProvider(filter, c.selectedModel) ==> r == c.selectedModel
    ensures !MatchesProvider(filter, c.selectedModel) ==>
      if IsSet(c.fallback1) && MatchesProvider(filter, c.fallback1.value) then r == c.fallback1.value
      else if IsSet(c.fallback2) && MatchesProvider(filter, c.fallback2.value) then r == c.fallback2.value
      else r == c.selectedModel
  {
    var alternatives := Alternatives(c);
    if IsSet(filter) && !MatchesProvider(filter, c.selectedModel) then
      match FindMatching(alternatives, filter)
      case Some(alternative) =>
        assert alternatives[0] == alternative || alternatives[1] == alternative;
        alternative
      case None => c.selectedModel
    else c.selectedModel
  }

  /** Without a filter the selected model is always recommended. */
  lemma UnfilteredRecommendsSelected(c: Category, filter: Option<string>)
    requires !IsSet(filter)
    ensures RecommendedId(c, filter) == c.selectedModel
  {
  }

  /** The recommendation passes the filter whenever any of the three
      configured ids does; otherwise it is the selected model. */
  lemma RecommendedMatchesWhenPossible(c: Category, filter: Option<string>)
    ensures var anyMatches :=
      || MatchesProvider(filter, c.selectedModel)
      || (IsSet(c.fallback1) && MatchesProvider(filter, c.fallback1.value))
      || (IsSet(c.fallback2) && MatchesProvider(filter, c.fallback2.value));
      && (anyMatches ==> MatchesProvider(filter, RecommendedId(c, filter)))
      && (!anyMatches ==> RecommendedId(c, filter) == c.selectedModel)
  {
  }

  /** A configured fallback is offered when it is non-empty, differs from
      the recommendation and passes the filter. */
  predicate Offered(fallback: Option<string>, filter: Option<string>, recommended: string) {
    IsSet(fallback) && fallback.value != recommended && MatchesProvider(filter, fallback.value)
  }

  /** The fallback ids: the non-empty configured fallbacks other than the
      recommendation that pass the filter, in configured order. */
  function FallbackIds(c: Category, filter: Option<string>, recommended: string): (r: seq<string>)
    ensures |r| <= 2
    ensures forall id | id in r :: id != "" && id != recommended && MatchesProvider(filter, id)
    ensures forall id :: id in r <==>
      (id in Alternatives(c) && id != recommended && MatchesProvider(filter, id))
    ensures |r| == 2 ==> IsSet(c.fallback1) && IsSet(c.fallback2) && r == [c.fallback1.value, c.fallback2.value]
    ensures |r| == (if Offered(c.fallback1, filter, recommended) then 1 else 0)
                 + (if Offered(c.fallback2, filter, recommended) then 1 else 0)
    ensures Offered(c.fallback1, filter, recommended) ==> r[0] == c.fallback1.value
    ensures Offered(c.fallback2, filter, recommended) ==> r[|r| - 1] == c.fallback2.value
  {
    var f1 := c.fallback1;
    var f2 := c.fallback2;
    (if Offered(f1, filter, recommended) then [f1.value] else [])
      + (if Offered(f2, filter, recommended) then [f2.value] else [])
  }

  /** When a fallback is promoted, the selected model disappears from the
      answer: it is not recommended and is not among the fallbacks. */
  lemma PromotionDropsSelected(c: Category, filter: Option<string>)
    requires RecommendedId(c, filter) != c.selectedModel
    ensures c.selectedModel !in FallbackIds(c, filter, RecommendedId(c, filter))
    ensures MatchesProvider(filter, RecommendedId(c, filter))
  {
  }

  // ---------------------------------------------------------------------
  // Model info
  // ---------------------------------------------------------------------

  /** No row after position `i` has the OpenRouter id `k`. */
  predicate LastWithKey(rows: seq<ModelCache>, i: int, k: string)
    requires 0 <= i < |rows|
  {
    forall j | i < j < |rows| :: rows[j].row.openrouterId != k
  }

  /** Every key of `index` holds the last row of `rows` with that key. */
  predicate IndexesLastRows(rows: seq<ModelCache>, index: map<string, ModelCache>) {
    forall k | k in index :: index[k].row.openrouterId == k &&
      exists i :: 0 <= i < |rows| && rows[i] == index[k] && LastWithKey(rows, i, k)
  }

  /** `new Map(models.map(m => [m.openrouter_id, m]))`: rows keyed by their
      OpenRouter id, a later row replacing an earlier one with the same key. */
  function IndexByOpenRouterId(rows: seq<ModelCache>): (index: map<string, ModelCache>)
    ensures index.Keys == set m | m in rows :: m.row.openrouterId
    ensures IndexesLastRows(rows, index)
    decreases |rows|
  {
    if |rows| == 0 then map[]
    else
      var n := |rows| - 1;
      var prior := IndexByOpenRouterId(rows[..n]);
      IndexStep(rows, prior);
      prior[rows[n].row.openrouterId := rows[n]]
  }

  /** Adding the last row to the index of the others. */
  lemma IndexStep(rows: seq<ModelCache>, prior: map<string, ModelCache>)
    requires |rows| > 0
    requires prior.Keys == set m | m in rows[..|rows| - 1] :: m.row.openrouterId
    requires IndexesLastRows(rows[..|rows| - 1], prior)
    ensures var index := prior[rows[|rows| - 1].row.openrouterId := rows[|rows| - 1]];
      index.Keys == (set m | m in rows :: m.row.openrouterId) && IndexesLastRows(rows, index)
  {
    var n := |rows| - 1;
    var last := rows[n];
    assert rows == rows[..n] + [last];
    var index := prior[last.row.openrouterId := last];
    forall k | k in index
      ensures exists i :: 0 <= i < |rows| && rows[i] == index[k] && LastWithKey(rows, i, k)
    {
      if k == last.row.openrouterId {
        assert rows[n] == index[k] && LastWithKey(rows, n, k);
      } else {
        var i :| 0 <= i < n && rows[..n][i] == prior[k] && LastWithKey(rows[..n], i, k);
        assert rows[i] == index[k];
        assert LastWithKey(rows, i, k) by {
          forall j | i < j < |rows| ensures rows[j].row.openrouterId != k {
            if j < n { assert rows[j] == rows[..n][j]; }
          }
        }
      }
    }
  }

  /** `name` for an id missing from the cache: the second "/"-piece with each
      "-" turned into a space, or the whole id when that piece is missing or
      empty; first character upper-cased. */
  function SynthesizedName(id: string): (name: string)
    ensures var second := SecondPiece(id, '/');
      && (second.Some? && second.value != "" ==>
            |name| == |second.value| && '-' !in name
            && (forall i | 0 < i < |name| :: name[i] == if second.value[i] == '-' then ' ' else second.value[i]))
      && (second.None? || second.value == "" ==> name == UpperFirst(id))
  {
    var spaced := match SecondPiece(id, '/')
      case Some(second) => ReplaceAll(second, '-', ' ')
      case None => "";
    UpperFirst(if spaced == "" then id else spaced)
  }

  /** Model info for an id the cache does not hold: the provider slug before
      the first "/" (possibly empty), zero prices, no context window and no
      tags. */
  function SynthesizedInfo(id: string): (info: ModelInfo)
    ensures info.openrouterId == id && info.name == SynthesizedName(id)
    ensures info.provider == FirstPiece(id, '/')
    ensures info.vercelId == GetVercelId(id)
    ensures info.pricing == Pricing(0.0, 0.0, None)
    ensures info.contextWindow.None? && info.strengths.None?
  {
    ModelInfo(SynthesizedName(id), id, GetVercelId(id), FirstPiece(id, '/'),
              Pricing(0.0, 0.0, None), None, None)
  }

  /** `buildModelInfo`: the cached row under the id if there is one, else the
      synthesised info. It always yields a value. */
  function BuildModelInfo(index: map<string, ModelCache>, id: string): (info: ModelInfo)
    ensures id in index ==> info == FromCacheRow(index[id])
    ensures id !in index ==> info == SynthesizedInfo(id)
  {
    if id in index then FromCacheRow(index[id]) else SynthesizedInfo(id)
  }

  /** `info` is what the listing `rows` says about `id`: the last row with
      that OpenRouter id when there is one, the synthesised info when there
      is none. */
  predicate DescribesFromListing(rows: seq<ModelCache>, id: string, info: ModelInfo) {
    && ((exists i :: 0 <= i < |rows| && rows[i].row.openrouterId == id) ==>
          exists i :: 0 <= i < |rows| && rows[i].row.openrouterId == id && LastWithKey(rows, i, id)
            && info == FromCacheRow(rows[i]))
    && ((forall i | 0 <= i < |rows| :: rows[i].row.openrouterId != id) ==> info == SynthesizedInfo(id))
  }

  /** `info` is what the cache says about `id`: a cached row with that
      OpenRouter id when there is one, the synthesised info when there is
      none. */
  predicate DescribedByStore(s: Store, id: string, info: ModelInfo) {
    && ((exists k | k in s.models :: s.models[k].row.openrouterId == id) ==>
          exists k | k in s.models :: s.models[k].row.openrouterId == id && info == FromCacheRow(s.models[k]))
    && ((forall k | k in s.models :: s.models[k].row.openrouterId != id) ==> info == SynthesizedInfo(id))
  }

  /** Looking an id up in the index of a listing finds the last row with
      that id, and synthesises the info only when no row has it. */
  lemma BuildModelInfoFromListing(rows: seq<ModelCache>, id: string)
    ensures DescribesFromListing(rows, id, BuildModelInfo(IndexByOpenRouterId(rows), id))
  {
    var index := IndexByOpenRouterId(rows);
    if id in index {
      var i :| 0 <= i < |rows| && rows[i] == index[id] && LastWithKey(rows, i, id);
      assert rows[i].row.openrouterId == id;
    } else {
      forall i | 0 <= i < |rows| ensures rows[i].row.openrouterId != id {
        assert rows[i] in rows;
      }
    }
  }

  /** Looking an id up in the index of a listing of the whole cache finds a
      cache row with that id when the cache has one, and synthesises the info
      only when it has none. */
  lemma BuildModelInfoDescribesStore(s: Store, rows: seq<ModelCache>, id: string)
    requires IsCacheListing(s, rows)
    ensures DescribedByStore(s, id, BuildModelInfo(IndexByOpenRouterId(rows), id))
  {
    var info := BuildModelInfo(IndexByOpenRouterId(rows), id);
    BuildModelInfoFromListing(rows, id);
    if exists i :: 0 <= i < |rows| && rows[i].row.openrouterId == id {
      var i :| 0 <= i < |rows| && rows[i].row.openrouterId == id && LastWithKey(rows, i, id)
        && info == FromCacheRow(rows[i]);
      assert rows[i] in rows;
      var k := rows[i].row.id;
      assert k in s.models && s.models[k] == rows[i];
    } else {
      forall k | k in s.models ensures s.models[k].row.openrouterId != id {
        assert s.models[k] in rows;
      }
    }
  }

  /** An id `provider/model` is named after `model`, hyphens read as
      spaces. */
  lemma SynthesizedNameOfQualified(provider: string, model: string)
    requires '/' !in provider && '/' !in model && model != ""
    ensures SynthesizedName(provider + "/" + model) == UpperFirst(ReplaceAll(model, '-', ' '))
  {
    SecondPieceOfPair(provider, model);
    var spaced := ReplaceAll(model, '-', ' ');
    assert spaced != "" by { assert |spaced| == |model|; }
  }

  lemma SecondPieceOfPair(provider: string, model: string)
    requires '/' !in provider && '/' !in model
    ensures SecondPiece(provider + "/" + model, '/') == Some(model)
  {
    SecondPieceOfQualified(provider, '/', model, []);
    assert Join([provider, model], '/') == provider + "/" + model;
  }

  /** An id without "/" is its own name. */
  lemma SynthesizedNameOfPlain(id: string)
    requires '/' !in id
    ensures SynthesizedName(id) == UpperFirst(id)
  {
  }

  // ---------------------------------------------------------------------
  // The route
  // ---------------------------------------------------------------------

  datatype ModelResponse =
    | MissingCategory
    | UnknownCategory(categoryId: string)
    | Resolved(category: string, recommended: ModelInfo, fallbacks: seq<ModelInfo>)
  {
    function Status(): int {
      match this
      case MissingCategory => 400
      case UnknownCategory(_) => 404
      case Resolved(_, _, _) => 200
    }

    function ErrorMessage(): string {
      match this
      case MissingCategory => "Parameter 'category' ist erforderlich"
      case UnknownCategory(id) => "Kategorie '" + id + "' nicht gefunden"
      case Resolved(_, _, _) => ""
    }
  }

  /** Resolution for a known category over the cache listing `rows`. */
  function Resolve(c: Category, rows: seq<ModelCache>, filter: Option<string>): (r: ModelResponse)
    ensures r.Resolved? && r.category == c.id
    ensures r.recommended.openrouterId == RecommendedId(c, filter)
    ensures r.recommended == BuildModelInfo(IndexByOpenRouterId(rows), RecommendedId(c, filter))
    ensures var ids := FallbackIds(c, filter, RecommendedId(c, filter));
      && |r.fallbacks| == |ids|
      && forall i | 0 <= i < |ids| :: r.fallbacks[i].openrouterId == ids[i]
           && r.fallbacks[i] == BuildModelInfo(IndexByOpenRouterId(rows), ids[i])
  {
    var index := IndexByOpenRouterId(rows);
    var recommended := RecommendedId(c, filter);
    var ids := FallbackIds(c, filter, recommended);
    Resolved(c.id, BuildModelInfo(index, recommended), seq(|ids|, i requires 0 <= i < |ids| => BuildModelInfo(index, ids[i])))
  }

  /** Every model info of a resolution over a listing of the whole cache is
      what the cache says about its id. */
  lemma ResolveDescribesStore(s: Store, rows: seq<ModelCache>, c: Category, filter: Option<string>)
    requires IsCacheListing(s, rows)
    ensures var r := Resolve(c, rows, filter);
      var ids := FallbackIds(c, filter, RecommendedId(c, filter));
      && DescribedByStore(s, RecommendedId(c, filter), r.recommended)
      && forall i | 0 <= i < |ids| :: DescribedByStore(s, ids[i], r.fallbacks[i])
  {
    var r := Resolve(c, rows, filter);
    var recommended := RecommendedId(c, filter);
    var ids := FallbackIds(c, filter, recommended);
    BuildModelInfoDescribesStore(s, rows, recommended);
    forall i | 0 <= i < |ids| ensures DescribedByStore(s, ids[i], r.fallbacks[i]) {
      BuildModelInfoDescribesStore(s, rows, ids[i]);
    }
  }

  /** GET /api/model?category=..&provider=..: 400 without a category, 404
      for an unknown one, otherwise the resolution over the whole cache. */
  method Get(s: Store, category: Option<string>, provider: Option<string>) returns (r: ModelResponse)
    requires Valid(s)
    ensures r.Status() == 400 <==> !IsSet(category)
    ensures r.Status() == 404 <==> IsSet(category) && category.value !in s.categories
    ensures r.Status() == 404 ==> r.ErrorMessage() == "Kategorie '" + category.value + "' nicht gefunden"
    ensures r.Resolved? ==>
      var c := s.categories[category.value];
      var recommended := RecommendedId(c, provider);
      var ids := FallbackIds(c, provider, recommended);
      && r.category == category.value
      && (exists rows :: IsCacheListing(s, rows) && r == Resolve(c, rows, provider))
      && r.recommended.openrouterId == recommended
      && DescribedByStore(s, recommended, r.recommended)
      && |r.fallbacks| == |ids|
      && (forall i | 0 <= i < |ids| ::
            r.fallbacks[i].openrouterId == ids[i] && DescribedByStore(s, ids[i], r.fallbacks[i]))
  {
    if !IsSet(category) {
      return MissingCategory;
    }
    var c := GetCategory(s, category.value);
    if c.None? {
      return UnknownCategory(category.value);
    }
    var rows := GetAllModels(s);
    r := Resolve(c.value, rows, provider);
    ResolveDescribesStore(s, rows, c.value, provider);
  }

  /** Which ids are recommended and offered as fallbacks depends on the
      category and the filter only, never on what the cache holds. */
  lemma SelectionIgnoresCache(c: Category, rows1: seq<ModelCache>, rows2: seq<ModelCache>, filter: Option<string>)
    ensures Resolve(c, rows1, filter).recommended.openrouterId == Resolve(c, rows2, filter).recommended.openrouterId
    ensures var f1, f2 := Resolve(c, rows1, filter).fallbacks, Resolve(c, rows2, filter).fallbacks;
      |f1| == |f2| && forall i | 0 <= i < |f1| :: f1[i].openrouterId == f2[i].openrouterId
  {
  }

  /** A category configured like the tool-use seed (an Anthropic selection,
      an OpenAI first fallback, a Google second fallback), asked for OpenAI
      models, recommends its first fallback and has no fallback left. */
  lemma OpenAiFilterPromotesFirstFallback(c: Category, filter: Option<string>)
    requires filter == Some("openai")
    requires FirstPiece(c.selectedModel, '/') == "anthropic"
    requires IsSet(c.fallback1) && FirstPiece(c.fallback1.value, '/') == "openai"
    requires IsSet(c.fallback2) && FirstPiece(c.fallback2.value, '/') == "google"
    ensures RecommendedId(c, filter) == c.fallback1.value
    ensures FallbackIds(c, filter, RecommendedId(c, filter)) == []
  {
    SlugsCompared(FirstPiece(c.selectedModel, '/'), FirstPiece(c.fallback1.value, '/'),
                  FirstPiece(c.fallback2.value, '/'), filter.value);
  }

  lemma SlugsCompared(a: string, o: string, g: string, wanted: string)
    requires a == "anthropic" && o == "openai" && g == "google" && wanted == "openai"
    ensures ToLower(a) != ToLower(wanted) && ToLower(o) == ToLower(wanted) && ToLower(g) != ToLower(wanted)
  {
    ToLowerOfLower(a);
    ToLowerOfLower(o);
    ToLowerOfLower(g);
  }
}
