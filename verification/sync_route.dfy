/** Catalog synchronisation: the authorised POST fetches the upstream
    listing, keeps and orders the relevant chat models, derives a cache row
    for each (capability tags, flags, prices, SDK id) and replaces the model
    cache by clearing it and upserting every row. */
module SyncRoute {
  import opened Wrappers
  import opened Strings
  import opened Seqs
  import opened OpenRouter
  import opened VercelModels
  import opened Db
  import opened Auth

  // ---------------------------------------------------------------------
  // Capability tags
  // ---------------------------------------------------------------------

  /** Which of the keywords the tag rules test for occur in an id. */
  datatype Keywords = Keywords(
    claude: bool, sonnet: bool, opus: bool, haiku: bool,
    gpt4o: bool, mini: bool, o1: bool, o3: bool,
    gemini: bool, flash: bool, thinking: bool, pro: bool,
    deepseek: bool, reasoner: bool)

  function KeywordsOf(id: string): (k: Keywords)
    ensures k.claude == Contains(id, "claude") && k.sonnet == Contains(id, "sonnet")
    ensures k.opus == Contains(id, "opus") && k.haiku == Contains(id, "haiku")
    ensures k.gpt4o == Contains(id, "gpt-4o") && k.mini == Contains(id, "mini")
    ensures k.o1 == Contains(id, "o1") && k.o3 == Contains(id, "o3")
    ensures k.gemini == Contains(id, "gemini") && k.flash == Contains(id, "flash")
    ensures k.thinking == Contains(id, "thinking") && k.pro == Contains(id, "pro")
    ensures k.deepseek == Contains(id, "deepseek") && k.reasoner == Contains(id, "reasoner")
  {
    Keywords(
      Contains(id, "claude"), Contains(id, "sonnet"), Contains(id, "opus"), Contains(id, "haiku"),
      Contains(id, "gpt-4o"), Contains(id, "mini"), Contains(id, "o1"), Contains(id, "o3"),
      Contains(id, "gemini"), Contains(id, "flash"), Contains(id, "thinking"), Contains(id, "pro"),
      Contains(id, "deepseek"), Contains(id, "reasoner"))
  }

  /** Tags of the Claude family, refined by sonnet, else opus, else haiku. */
  function ClaudeTags(k: Keywords): seq<string> {
    if !k.claude then []
    else
      ["instructions", "coding", "safety"] +
      (if k.sonnet then ["tool-calling", "balanced"]
       else if k.opus then ["reasoning", "complex-tasks"]
       else if k.haiku then ["speed", "cost-effective"]
       else [])
  }

  function Gpt4oTags(k: Keywords): seq<string> {
    if !k.gpt4o then []
    else ["multimodal", "structured-output"] + (if k.mini then ["speed", "cost-effective"] else ["tool-calling", "reasoning"])
  }

  function ReasoningModelTags(k: Keywords): seq<string> {
    if k.o1 || k.o3 then ["reasoning", "math", "complex-problems"] else []
  }

  function GeminiTags(k: Keywords): seq<string> {
    if !k.gemini then []
    else
      (if k.flash then ["speed", "cost-effective"] else []) +
      (if k.thinking then ["reasoning"] else []) +
      (if k.pro then ["long-context", "multimodal"] else [])
  }

  function DeepseekTags(k: Keywords): seq<string> {
    if !k.deepseek then []
    else ["coding", "cost-effective"] + (if k.reasoner then ["reasoning"] else [])
  }

  const LongContextThreshold: int := 200000

  function ContextTags(contextLength: int): seq<string> {
    if contextLength >= LongContextThreshold then ["long-context"] else []
  }

  /** Every tag pushed by the rules, in push order, duplicates included. */
  function PushedTags(k: Keywords, contextLength: int): seq<string> {
    ClaudeTags(k) + Gpt4oTags(k) + ReasoningModelTags(k) + GeminiTags(k) + DeepseekTags(k)
      + ContextTags(contextLength)
  }

  /** `deriveStrengths`: the rule tags for the lower-cased id, each once, in
      order of first push. */
  function DeriveStrengths(id: string, contextLength: int): (r: seq<string>)
    ensures Distinct(r)
    ensures forall t :: t in r <==> t in PushedTags(KeywordsOf(ToLower(id)), contextLength)
  {
    Dedup(PushedTags(KeywordsOf(ToLower(id)), contextLength))
  }

  /** Tags come out in the order the rules first push them. */
  lemma DeriveStrengthsOrder(id: string, contextLength: int)
    ensures var pushed := PushedTags(KeywordsOf(ToLower(id)), contextLength);
      var r := DeriveStrengths(id, contextLength);
      forall i, j :: 0 <= i < j < |r| ==> FirstIndex(pushed, r[i]) < FirstIndex(pushed, r[j])
  {
    DedupFirstOccurrenceOrder(PushedTags(KeywordsOf(ToLower(id)), contextLength));
  }

  /** No tag is listed twice; in particular "long-context", which both the
      gemini-pro rule and the context rule push, appears at most once. */
  lemma DeriveStrengthsCountsOnce(id: string, contextLength: int, tag: string)
    ensures multiset(DeriveStrengths(id, contextLength))[tag] <= 1
    ensures contextLength >= LongContextThreshold ==>
      multiset(DeriveStrengths(id, contextLength))["long-context"] == 1
  {
    var r := DeriveStrengths(id, contextLength);
    DistinctCountsOnce(r, tag);
    DistinctCountsOnce(r, "long-context");
    if contextLength >= LongContextThreshold {
      var pushed := PushedTags(KeywordsOf(ToLower(id)), contextLength);
      assert pushed[|pushed| - 1] == "long-context";
      assert "long-context" in r;
    }
  }

  /** A tag pushed by the rules for an id's keywords is derived for it. */
  lemma DerivedIfPushed(id: string, contextLength: int, tags: seq<string>)
    requires forall t | t in tags :: t in PushedTags(KeywordsOf(ToLower(id)), contextLength)
    ensures forall t | t in tags :: t in DeriveStrengths(id, contextLength)
  {
  }

  /** The Claude rule pushes its base tags, then the refinement of the first
      of sonnet, opus, haiku the id names. */
  lemma ClaudeTagsPushed(k: Keywords, contextLength: int)
    requires k.claude
    ensures var p := PushedTags(k, contextLength);
      && "instructions" in p && "coding" in p && "safety" in p
      && (k.sonnet ==> "tool-calling" in p && "balanced" in p)
      && (!k.sonnet && k.opus ==> "reasoning" in p && "complex-tasks" in p)
      && (!k.sonnet && !k.opus && k.haiku ==> "speed" in p && "cost-effective" in p)
  {
    var p := PushedTags(k, contextLength);
    var c := ClaudeTags(k);
    assert p == c + p[|c|..];
    assert c[..3] == ["instructions", "coding", "safety"];
  }

  /** Only the sonnet refinement pushes "balanced" and only the opus
      refinement pushes "complex-tasks", so these two tags tell which
      refinement was chosen. */
  lemma RefinementMarkers(k: Keywords, contextLength: int)
    ensures "balanced" in PushedTags(k, contextLength) <==> k.claude && k.sonnet
    ensures "complex-tasks" in PushedTags(k, contextLength) <==> k.claude && !k.sonnet && k.opus
  {
    NotPushedByOtherRules(k, contextLength, "balanced");
    NotPushedByOtherRules(k, contextLength, "complex-tasks");
    var c := ClaudeTags(k);
    if k.claude && k.sonnet {
      assert c[4] == "balanced";
    }
    if k.claude && !k.sonnet && k.opus {
      assert c[4] == "complex-tasks";
    }
  }

  lemma NotPushedByOtherRules(k: Keywords, contextLength: int, tag: string)
    requires tag == "balanced" || tag == "complex-tasks"
    ensures tag in PushedTags(k, contextLength) <==> tag in ClaudeTags(k)
  {
    assert tag !in Gpt4oTags(k);
    assert tag !in ReasoningModelTags(k);
    assert tag !in GeminiTags(k);
    assert tag !in DeepseekTags(k);
    assert tag !in ContextTags(contextLength);
  }

  /** A Claude id gets instructions, coding and safety, plus the refinement
      of the first of sonnet, opus, haiku that it names, and not the
      refinement of a later-ranked one. */
  lemma ClaudeStrengths(id: string, contextLength: int)
    requires KeywordsOf(ToLower(id)).claude
    ensures var r := DeriveStrengths(id, contextLength);
      var k := KeywordsOf(ToLower(id));
      && "instructions" in r && "coding" in r && "safety" in r
      && (k.sonnet ==> "tool-calling" in r && "balanced" in r && "complex-tasks" !in r)
      && (!k.sonnet && k.opus ==> "reasoning" in r && "complex-tasks" in r && "balanced" !in r)
      && (!k.sonnet && !k.opus && k.haiku ==> "speed" in r && "cost-effective" in r)
      && (!k.sonnet && !k.opus ==> "balanced" !in r && "complex-tasks" !in r)
  {
    var k := KeywordsOf(ToLower(id));
    RefinementMarkers(k, contextLength);
    ClaudeTagsPushed(k, contextLength);
    DerivedIfPushed(id, contextLength, ["instructions", "coding", "safety"]);
    if k.sonnet {
      DerivedIfPushed(id, contextLength, ["tool-calling", "balanced"]);
    } else if k.opus {
      DerivedIfPushed(id, contextLength, ["reasoning", "complex-tasks"]);
    } else if k.haiku {
      DerivedIfPushed(id, contextLength, ["speed", "cost-effective"]);
    }
  }

  /** The GPT-4o rule pushes multimodal and structured output, then speed and
      cost for a mini model, else tool-calling and reasoning. */
  lemma Gpt4oTagsPushed(k: Keywords, contextLength: int)
    requires k.gpt4o
    ensures var p := PushedTags(k, contextLength);
      && "multimodal" in p && "structured-output" in p
      && (k.mini ==> "speed" in p && "cost-effective" in p)
      && (!k.mini ==> "tool-calling" in p && "reasoning" in p)
  {
    var p := PushedTags(k, contextLength);
    var before := ClaudeTags(k);
    var g := Gpt4oTags(k);
    assert p == before + g + p[|before| + |g|..];
    assert p[|before|..|before| + |g|] == g;
  }

  /** A GPT-4o id is multimodal with structured output, plus speed and cost for
      a mini model, else tool-calling and reasoning. */
  lemma Gpt4oStrengths(id: string, contextLength: int)
    requires KeywordsOf(ToLower(id)).gpt4o
    ensures var r := DeriveStrengths(id, contextLength);
      var k := KeywordsOf(ToLower(id));
      && "multimodal" in r && "structured-output" in r
      && (k.mini ==> "speed" in r && "cost-effective" in r)
      && (!k.mini ==> "tool-calling" in r && "reasoning" in r)
  {
    var k := KeywordsOf(ToLower(id));
    Gpt4oTagsPushed(k, contextLength);
    DerivedIfPushed(id, contextLength, ["multimodal", "structured-output"]);
    if k.mini {
      DerivedIfPushed(id, contextLength, ["speed", "cost-effective"]);
    } else {
      DerivedIfPushed(id, contextLength, ["tool-calling", "reasoning"]);
    }
  }

  /** Among the keyword rules only gemini pro pushes "long-context". */
  lemma LongContextKeywordRules(k: Keywords)
    ensures "long-context" !in ClaudeTags(k) + Gpt4oTags(k) + ReasoningModelTags(k)
    ensures "long-context" !in DeepseekTags(k)
    ensures "long-context" in GeminiTags(k) <==> k.gemini && k.pro
  {
    if k.gemini && k.pro {
      var g := GeminiTags(k);
      assert g[|g| - 2] == "long-context";
    }
  }

  /** Only the gemini-pro rule and the context rule push "long-context". */
  lemma LongContextPushed(k: Keywords, contextLength: int)
    ensures "long-context" in PushedTags(k, contextLength) <==>
      (contextLength >= LongContextThreshold || (k.gemini && k.pro))
  {
    LongContextKeywordRules(k);
    var before := ClaudeTags(k) + Gpt4oTags(k) + ReasoningModelTags(k);
    assert PushedTags(k, contextLength) == before + GeminiTags(k) + DeepseekTags(k) + ContextTags(contextLength);
  }

  /** "long-context" is derived exactly when the context reaches 200 000
      tokens or the id names a gemini pro model. */
  lemma LongContextStrength(id: string, contextLength: int)
    ensures var k := KeywordsOf(ToLower(id));
      "long-context" in DeriveStrengths(id, contextLength) <==>
        (contextLength >= LongContextThreshold || (k.gemini && k.pro))
  {
    LongContextPushed(KeywordsOf(ToLower(id)), contextLength);
  }

  const ClaudeSonnet4Id: string := "anthropic/claude-sonnet-4"

  lemma ClaudeSonnet4Names(id: string)
    requires id == ClaudeSonnet4Id
    ensures Contains(id, "claude") && Contains(id, "sonnet")
  {
    ClaudeSonnet4Has(id, "claude", 10);
    ClaudeSonnet4Has(id, "sonnet", 17);
  }

  /** The id holds `word` at position `at`. */
  lemma ClaudeSonnet4Has(id: string, word: string, at: nat)
    requires id == ClaudeSonnet4Id && at + |word| <= |ClaudeSonnet4Id| && ClaudeSonnet4Id[at..at + |word|] == word
    ensures Contains(id, word)
  {
    ContainsAt(id, word, at);
  }

  lemma ClaudeSonnet4LacksOthers(id: string)
    requires id == ClaudeSonnet4Id
    ensures !Contains(id, "gpt-4o") && !Contains(id, "o1") && !Contains(id, "o3")
    ensures !Contains(id, "gemini") && !Contains(id, "deepseek")
  {
    ClaudeSonnet4Lacks(id, "gpt-4o", 'g');
    ClaudeSonnet4Lacks(id, "o1", '1');
    ClaudeSonnet4Lacks(id, "o3", '3');
    ClaudeSonnet4Lacks(id, "gemini", 'g');
    ClaudeSonnet4Lacks(id, "deepseek", 'k');
  }

  /** The id lacks `word` because it lacks the character `c` of `word`. */
  lemma ClaudeSonnet4Lacks(id: string, word: string, c: char)
    requires id == ClaudeSonnet4Id && c in word && c !in ClaudeSonnet4Id
    ensures !Contains(id, word)
  {
    NotContainsByChar(id, word, c);
  }

  /** A lower-case id naming claude and sonnet and none of the other model
      families gets exactly the sonnet-refined Claude tags, up to the
      context rule. */
  lemma PlainSonnetStrengths(id: string, contextLength: int)
    requires ToLower(id) == id
    requires Contains(id, "claude") && Contains(id, "sonnet")
    requires !Contains(id, "gpt-4o") && !Contains(id, "o1") && !Contains(id, "o3")
    requires !Contains(id, "gemini") && !Contains(id, "deepseek")
    requires contextLength < LongContextThreshold
    ensures DeriveStrengths(id, contextLength) == ["instructions", "coding", "safety", "tool-calling", "balanced"]
  {
    var k := KeywordsOf(id);
    var tags := ["instructions", "coding", "safety", "tool-calling", "balanced"];
    assert PushedTags(k, contextLength) == tags;
    assert Distinct(tags);
    DedupOfDistinct(tags);
  }

  /** The claude-sonnet-4 catalog entry with a short context gets exactly the
      Claude tags with the sonnet refinement, in push order. */
  lemma ClaudeSonnet4Strengths(id: string, contextLength: int)
    requires id == ClaudeSonnet4Id && contextLength < LongContextThreshold
    ensures DeriveStrengths(id, contextLength) ==
      ["instructions", "coding", "safety", "tool-calling", "balanced"]
  {
    ClaudeSonnet4IsLower(id);
    ClaudeSonnet4Names(id);
    ClaudeSonnet4LacksOthers(id);
    PlainSonnetStrengths(id, contextLength);
  }

  lemma ClaudeSonnet4IsLower(id: string)
    requires id == ClaudeSonnet4Id
    ensures ToLower(id) == id
  {
    ToLowerOfLower(ClaudeSonnet4Id);
  }

  // ---------------------------------------------------------------------
  // Cache rows
  // ---------------------------------------------------------------------

  /** The cache row written for one listed model. Tool support is read off the
      id as listed (letter case kept), vision off the raw modality. */
  function RowFor(model: OpenRouterModel, parseFloat: string -> Option<real>): (r: ModelRow)
    ensures r.id == model.id && r.openrouterId == model.id && r.name == model.name
    ensures r.provider == ExtractProvider(model.id)
    ensures r.vercelId == GetVercelId(model.id)
    ensures r.contextWindow == Some(model.contextLength)
    ensures r.inputPrice == Some(ParsePrice(model.promptPrice, parseFloat))
    ensures r.outputPrice == Some(ParsePrice(model.completionPrice, parseFloat))
    ensures r.cachedPrice.None?
    ensures r.supportsTools == 1 <==> Contains(model.id, "claude") || Contains(model.id, "gpt-4")
    ensures r.supportsVision == 1 <==> model.modality.Some? && Contains(model.modality.value, "multimodal")
    ensures r.supportsTools in {0, 1} && r.supportsVision in {0, 1} && r.supportsJson == 1
    ensures r.strengths == Some(DeriveStrengths(model.id, model.contextLength))
  {
    ModelRow(
      model.id,
      model.name,
      ExtractProvider(model.id),
      model.id,
      GetVercelId(model.id),
      Some(model.contextLength),
      Some(ParsePrice(model.promptPrice, parseFloat)),
      Some(ParsePrice(model.completionPrice, parseFloat)),
      None,
      if Contains(model.id, "claude") || Contains(model.id, "gpt-4") then 1 else 0,
      if model.modality.Some? && Contains(model.modality.value, "multimodal") then 1 else 0,
      1,
      Some(DeriveStrengths(model.id, model.contextLength)))
  }

  /** No later model in the list shares the id of model `i`. */
  predicate LastListed(models: seq<OpenRouterModel>, i: int)
    requires 0 <= i < |models|
  {
    forall j | i < j < |models| :: models[j].id != models[i].id
  }

  /** The rows written for a list of models, one per model, in order. */
  function RowsFor(models: seq<OpenRouterModel>, parseFloat: string -> Option<real>): (rows: seq<ModelRow>)
    ensures |rows| == |models|
    ensures forall i | 0 <= i < |models| :: rows[i] == RowFor(models[i], parseFloat)
    ensures forall i | 0 <= i < |models| :: rows[i].id == models[i].id
  {
    seq(|models|, i requires 0 <= i < |models| => RowFor(models[i], parseFloat))
  }

  /** No later row in the list shares the id of row `i`. */
  predicate LastRow(rows: seq<ModelRow>, i: int)
    requires 0 <= i < |rows|
  {
    forall j | i < j < |rows| :: rows[j].id != rows[i].id
  }

  /** The upsert loop: one upsert per row, in order. */
  function UpsertRows(s: Store, rows: seq<ModelRow>, now: string): (r: Store)
    ensures r.categories == s.categories
    ensures r.models.Keys == s.models.Keys + set row | row in rows :: row.id
    ensures forall k | k in s.models && (forall row | row in rows :: row.id != k) :: r.models[k] == s.models[k]
    decreases |rows|
  {
    if |rows| == 0 then s
    else
      assert rows == [rows[0]] + rows[1..];
      UpsertRows(UpsertModel(s, rows[0], now), rows[1..], now)
  }

  /** Where ids repeat, the last row with that id is the one left. */
  lemma {:induction false} UpsertRowsLastWins(s: Store, rows: seq<ModelRow>, now: string, i: int)
    requires 0 <= i < |rows| && LastRow(rows, i)
    ensures UpsertRows(s, rows, now).models[rows[i].id] == ModelCache(rows[i], now)
    decreases |rows|
  {
    var next := UpsertModel(s, rows[0], now);
    UpsertRowsUnfold(s, rows, now);
    if i == 0 {
      HeadIdNotRepeated(rows);
      UpsertRowsKeeps(next, rows[1..], now, rows[0].id);
    } else {
      LastRowTail(rows, i);
      UpsertRowsLastWins(next, rows[1..], now, i - 1);
    }
  }

  lemma UpsertRowsUnfold(s: Store, rows: seq<ModelRow>, now: string)
    requires |rows| > 0
    ensures UpsertRows(s, rows, now) == UpsertRows(UpsertModel(s, rows[0], now), rows[1..], now)
  {
  }

  lemma UpsertRowsKeeps(s: Store, rows: seq<ModelRow>, now: string, k: string)
    requires k in s.models && forall row | row in rows :: row.id != k
    ensures UpsertRows(s, rows, now).models[k] == s.models[k]
  {
  }

  lemma HeadIdNotRepeated(rows: seq<ModelRow>)
    requires |rows| > 0 && LastRow(rows, 0)
    ensures forall row | row in rows[1..] :: row.id != rows[0].id
  {
    forall row | row in rows[1..] ensures row.id != rows[0].id {
      var j :| 0 <= j < |rows[1..]| && rows[1..][j] == row;
      assert rows[j + 1] == row;
    }
  }

  lemma LastRowTail(rows: seq<ModelRow>, i: int)
    requires 0 < i < |rows| && LastRow(rows, i)
    ensures rows[1..][i - 1] == rows[i] && LastRow(rows[1..], i - 1)
  {
    forall j | i - 1 < j < |rows| - 1 ensures rows[1..][j].id != rows[1..][i - 1].id {
      assert rows[1..][j] == rows[j + 1];
    }
  }

  /** One upsert per listed model, in order. */
  function UpsertEach(s: Store, models: seq<OpenRouterModel>, parseFloat: string -> Option<real>, now: string)
    : (r: Store)
    ensures r.categories == s.categories
    ensures r.models.Keys == s.models.Keys + set m | m in models :: m.id
    ensures forall k | k in s.models && (forall m | m in models :: m.id != k) :: r.models[k] == s.models[k]
  {
    var rows := RowsFor(models, parseFloat);
    RowIds(models, rows);
    UpsertRows(s, rows, now)
  }

  /** Rows carrying the ids of the models, position by position, carry the
      same set of ids. */
  lemma RowIds(models: seq<OpenRouterModel>, rows: seq<ModelRow>)
    requires |rows| == |models| && forall i | 0 <= i < |models| :: rows[i].id == models[i].id
    ensures (set row | row in rows :: row.id) == set m | m in models :: m.id
  {
    forall row | row in rows ensures row.id in set m | m in models :: m.id {
      var j :| 0 <= j < |rows| && rows[j] == row;
      assert models[j] in models;
    }
    forall m | m in models ensures m.id in set row | row in rows :: row.id {
      var j :| 0 <= j < |models| && models[j] == m;
      assert rows[j] in rows;
    }
  }

  /** Where ids repeat, the row of the last listed model with that id is the
      one left in the cache. */
  lemma UpsertEachLastWins(s: Store, models: seq<OpenRouterModel>,
                           parseFloat: string -> Option<real>, now: string, i: int)
    requires 0 <= i < |models| && LastListed(models, i)
    ensures UpsertEach(s, models, parseFloat, now).models[models[i].id] ==
      ModelCache(RowFor(models[i], parseFloat), now)
  {
    var rows := RowsFor(models, parseFloat);
    assert LastRow(rows, i) by {
      forall j | i < j < |rows| ensures rows[j].id != rows[i].id {
        assert rows[j].id == models[j].id;
      }
    }
    UpsertRowsLastWins(s, rows, now, i);
  }

  /** Every id of a list has a last position. */
  lemma LastPositionExists(models: seq<OpenRouterModel>, id: string)
    requires exists m | m in models :: m.id == id
    ensures exists i :: 0 <= i < |models| && models[i].id == id && LastListed(models, i)
    decreases |models|
  {
    var n := |models| - 1;
    if models[n].id != id {
      assert exists m | m in models[..n] :: m.id == id by {
        var m :| m in models && m.id == id;
        var k :| 0 <= k < |models| && models[k] == m;
        assert models[..n][k] == m;
      }
      LastPositionExists(models[..n], id);
      var i :| 0 <= i < n && models[..n][i].id == id && LastListed(models[..n], i);
      assert models[i].id == id && LastListed(models, i);
    } else {
      assert LastListed(models, n);
    }
  }

  // ---------------------------------------------------------------------
  // The route
  // ---------------------------------------------------------------------

  /** The upstream listing as delivered by the fetch: the models, or the
      message of the error it raised (non-2xx status or transport failure). */
  datatype Listing = Fetched(models: seq<OpenRouterModel>) | FetchFailed(message: string)

  datatype SyncResponse =
    | Unauthorized
    | Synced(modelsCount: nat, message: string)
    | SyncFailed(details: string)
  {
    function Status(): int {
      match this
      case Unauthorized => 401
      case Synced(_, _) => 200
      case SyncFailed(_) => 500
    }
  }

  function SyncedMessage(count: nat): string {
    NatToString(count) + " Modelle von OpenRouter synchronisiert"
  }

  /** The cache after clearing it and upserting a row per model: exactly
      the ids of the models. */
  function Replace(s: Store, models: seq<OpenRouterModel>, parseFloat: string -> Option<real>, now: string)
    : (r: Store)
    ensures r.categories == s.categories
    ensures r.models.Keys == set m | m in models :: m.id
  {
    UpsertEach(ClearModelsCache(s), models, parseFloat, now)
  }

  lemma ReplaceLastWins(s: Store, models: seq<OpenRouterModel>, parseFloat: string -> Option<real>, now: string, i: int)
    requires 0 <= i < |models| && LastListed(models, i)
    ensures Replace(s, models, parseFloat, now).models[models[i].id] == ModelCache(RowFor(models[i], parseFloat), now)
  {
    UpsertEachLastWins(ClearModelsCache(s), models, parseFloat, now, i);
  }

  /** POST /api/sync: authorise, fetch, filter and sort, then clear the cache
      and upsert a row per kept model. The fetch result is consulted only
      after authorisation, and the cache is cleared only after it succeeded. */
  function Post(s: Store, secret: Option<string>, header: Option<string>, listing: Listing,
                parseFloat: string -> Option<real>, now: string): (r: (Store, SyncResponse))
    ensures r.0.categories == s.categories
    ensures !CheckAuth(secret, header) ==> r == (s, Unauthorized)
    ensures CheckAuth(secret, header) && listing.FetchFailed? ==> r == (s, SyncFailed(listing.message))
    ensures CheckAuth(secret, header) && listing.Fetched? ==>
      var kept := FilterAndSortModels(listing.models);
      && r.1 == Synced(|kept|, SyncedMessage(|kept|))
      && r.0.models.Keys == set m | m in kept :: m.id
  {
    if !CheckAuth(secret, header) then (s, Unauthorized)
    else match listing
      case FetchFailed(message) => (s, SyncFailed(message))
      case Fetched(all) =>
        var relevant := FilterAndSortModels(all);
        (Replace(s, relevant, parseFloat, now), Synced(|relevant|, SyncedMessage(|relevant|)))
  }

  /** Without authorisation the answer is 401 whatever the upstream would have
      delivered, and nothing changes. */
  lemma PostUnauthorizedIgnoresListing(s: Store, secret: Option<string>, header: Option<string>,
                                       l1: Listing, l2: Listing, parseFloat: string -> Option<real>, now: string)
    requires !CheckAuth(secret, header)
    ensures Post(s, secret, header, l1, parseFloat, now) == Post(s, secret, header, l2, parseFloat, now)
    ensures Post(s, secret, header, l1, parseFloat, now).1.Status() == 401
  {
  }

  /** After a successful sync every cached row is the row derived from the
      last kept model with that id. */
  lemma PostCachesDerivedRows(s: Store, secret: Option<string>, header: Option<string>,
                              models: seq<OpenRouterModel>, parseFloat: string -> Option<real>, now: string)
    requires CheckAuth(secret, header)
    ensures var kept := FilterAndSortModels(models);
      var cache := Post(s, secret, header, Fetched(models), parseFloat, now).0.models;
      forall k | k in cache :: exists i :: (0 <= i < |kept| && kept[i].id == k && LastListed(kept, i)
        && cache[k] == ModelCache(RowFor(kept[i], parseFloat), now))
  {
    var kept := FilterAndSortModels(models);
    var cache := Post(s, secret, header, Fetched(models), parseFloat, now).0.models;
    forall k | k in cache ensures exists i :: (0 <= i < |kept| && kept[i].id == k && LastListed(kept, i)
        && cache[k] == ModelCache(RowFor(kept[i], parseFloat), now))
    {
      LastPositionExists(kept, k);
      var i :| 0 <= i < |kept| && kept[i].id == k && LastListed(kept, i);
      ReplaceLastWins(s, kept, parseFloat, now, i);
    }
  }

  /** The reported count is the number of kept models, which exceeds the
      number of cached rows when kept ids repeat. */
  lemma PostCountBoundsRows(s: Store, secret: Option<string>, header: Option<string>,
                            models: seq<OpenRouterModel>, parseFloat: string -> Option<real>, now: string)
    requires CheckAuth(secret, header)
    ensures var r := Post(s, secret, header, Fetched(models), parseFloat, now);
      r.1.Synced? && |r.0.models| <= r.1.modelsCount <= |models|
  {
    var kept := FilterAndSortModels(models);
    var ids := set m | m in kept :: m.id;
    IdsBound(kept);
  }

  lemma IdsBound(models: seq<OpenRouterModel>)
    ensures |set m | m in models :: m.id| <= |models|
  {
    if |models| > 0 {
      var n := |models| - 1;
      IdsBound(models[..n]);
      assert models == models[..n] + [models[n]];
      assert (set m | m in models :: m.id) == (set m | m in models[..n] :: m.id) + {models[n].id};
    }
  }

  /** Synchronisation replaces the cache wholesale: two runs over the same
      listing, from any two stores and at any two times, leave the same ids
      holding the same rows; only the write time can differ. Running it twice
      in a row is therefore idempotent up to `cached_at`. */
  lemma PostIdempotent(s1: Store, s2: Store, secret: Option<string>, header: Option<string>,
                       models: seq<OpenRouterModel>, parseFloat: string -> Option<real>, now1: string, now2: string)
    requires CheckAuth(secret, header)
    ensures var c1 := Post(s1, secret, header, Fetched(models), parseFloat, now1).0.models;
      var c2 := Post(s2, secret, header, Fetched(models), parseFloat, now2).0.models;
      && c1.Keys == c2.Keys
      && (forall k | k in c1 :: c1[k].row == c2[k].row && c1[k].cachedAt == now1 && c2[k].cachedAt == now2)
  {
    ReplaceIgnoresStore(s1, s2, FilterAndSortModels(models), parseFloat, now1, now2);
  }

  lemma ReplaceIgnoresStore(s1: Store, s2: Store, models: seq<OpenRouterModel>,
                            parseFloat: string -> Option<real>, now1: string, now2: string)
    ensures var c1, c2 := Replace(s1, models, parseFloat, now1).models, Replace(s2, models, parseFloat, now2).models;
      && c1.Keys == c2.Keys
      && (forall k | k in c1 :: c1[k].row == c2[k].row && c1[k].cachedAt == now1 && c2[k].cachedAt == now2)
  {
    var c1, c2 := Replace(s1, models, parseFloat, now1).models, Replace(s2, models, parseFloat, now2).models;
    forall k | k in c1 ensures c1[k].row == c2[k].row && c1[k].cachedAt == now1 && c2[k].cachedAt == now2 {
      LastPositionExists(models, k);
      var i :| 0 <= i < |models| && models[i].id == k && LastListed(models, i);
      ReplaceLastWins(s1, models, parseFloat, now1, i);
      ReplaceLastWins(s2, models, parseFloat, now2, i);
    }
  }

  /** Every row a successful sync writes keeps the catalog invariants: its
      provider is the slug before the first "/" of its id, it is listed under
      its own id, JSON support is set, no cached price is known, and its tags
      are duplicate-free. */
  lemma PostRowsWellFormed(s: Store, secret: Option<string>, header: Option<string>,
                           models: seq<OpenRouterModel>, parseFloat: string -> Option<real>, now: string)
    requires CheckAuth(secret, header)
    ensures var cache := Post(s, secret, header, Fetched(models), parseFloat, now).0.models;
      forall k | k in cache ::
        && cache[k].row.id == k && cache[k].row.openrouterId == k
        && cache[k].row.provider == FirstPiece(k, '/')
        && cache[k].row.provider in RelevantProviders
        && cache[k].row.supportsJson == 1 && cache[k].row.cachedPrice.None?
        && cache[k].row.strengths.Some? && Distinct(cache[k].row.strengths.value)
  {
    var kept := FilterAndSortModels(models);
    PostCachesDerivedRows(s, secret, header, models, parseFloat, now);
    FilteredModelsAreRelevant(models);
    var cache := Post(s, secret, header, Fetched(models), parseFloat, now).0.models;
    forall k | k in cache ensures cache[k].row.provider == FirstPiece(k, '/') && cache[k].row.provider in RelevantProviders {
      var i :| 0 <= i < |kept| && kept[i].id == k && LastListed(kept, i)
        && cache[k] == ModelCache(RowFor(kept[i], parseFloat), now);
      assert kept[i] in kept;
    }
  }
}
