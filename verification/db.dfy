/** The catalog store: the category table and the model cache table as two
    finite maps keyed by their primary keys, with the store's accessors.
    `now` stands for SQLite's CURRENT_TIMESTAMP at the time of the write. */
module Db {
  import opened Wrappers
  import opened Strings
  import opened Seqs
  import opened Sorting

  /** A row of the category table. */
  datatype Category = Category(
    id: string,
    name: string,
    description: string,
    keyProperty: string,
    selectedModel: string,
    fallback1: Option<string>,
    fallback2: Option<string>,
    createdAt: string,
    updatedAt: string)

  /** The columns of a model cache row that a caller writes. */
  datatype ModelRow = ModelRow(
    id: string,
    name: string,
    provider: string,
    openrouterId: string,
    vercelId: Option<string>,
    contextWindow: Option<int>,
    inputPrice: Option<real>,
    outputPrice: Option<real>,
    cachedPrice: Option<real>,
    supportsTools: int,
    supportsVision: int,
    supportsJson: int,
    strengths: Option<seq<string>>)

  /** A stored model cache row: the written columns plus the write time. */
  datatype ModelCache = ModelCache(row: ModelRow, cachedAt: string)

  datatype Store = Store(categories: map<string, Category>, models: map<string, ModelCache>)

  /** Primary keys: each row is stored under its own id. */
  predicate Valid(s: Store) {
    && (forall k | k in s.categories :: s.categories[k].id == k)
    && (forall k | k in s.models :: s.models[k].row.id == k)
  }

  // ---------------------------------------------------------------------
  // Schema initialisation and seeding
  // ---------------------------------------------------------------------

  /** The short columns of a seed row; the description is looked up by id. */
  datatype SeedRow = SeedRow(id: string, name: string, keyProperty: string,
                             selectedModel: string, fallback1: string, fallback2: string)

  /** The ten categories inserted into an empty category table, in order. */
  const SeedRows: seq<SeedRow> := [
    SeedRow("triage", "Triage / Klassifikation", "speed_and_cost",
            "anthropic/claude-3.5-haiku", "openai/gpt-4o-mini", "google/gemini-2.0-flash-exp"),
    SeedRow("writer", "Writer / Texte", "language_quality",
            "anthropic/claude-sonnet-4", "openai/gpt-4o", "google/gemini-2.0-pro-exp"),
    SeedRow("analyst", "Analyst / Entscheidungen", "intelligence",
            "anthropic/claude-sonnet-4", "openai/gpt-4o", "google/gemini-2.0-pro-exp"),
    SeedRow("coder", "Coder / Programmierung", "code_quality",
            "anthropic/claude-sonnet-4", "openai/gpt-4o", "google/gemini-2.0-pro-exp"),
    SeedRow("tool-use", "Tool Use / Function Calling", "tool_calling_accuracy",
            "anthropic/claude-sonnet-4", "openai/gpt-4o", "google/gemini-2.0-pro-exp"),
    SeedRow("structured", "Structured Output", "output_reliability",
            "openai/gpt-4o", "anthropic/claude-sonnet-4", "google/gemini-2.0-pro-exp"),
    SeedRow("reasoning", "Deep Reasoning", "reasoning_depth",
            "anthropic/claude-opus-4", "openai/o3-mini", "google/gemini-2.0-flash-thinking-exp"),
    SeedRow("long-context", "Long Context", "context_window",
            "google/gemini-2.0-pro-exp", "anthropic/claude-sonnet-4", "openai/gpt-4o"),
    SeedRow("vision", "Vision / Bildanalyse", "vision_quality",
            "anthropic/claude-sonnet-4", "openai/gpt-4o", "google/gemini-2.0-pro-exp"),
    SeedRow("budget", "Budget / Sparen", "lowest_cost",
            "google/gemini-2.0-flash-exp", "openai/gpt-4o-mini", "anthropic/claude-3.5-haiku")
  ]

  /** The descriptions of the seed rows, in the same order. */
  const SeedDescriptions: seq<string> := [
    "Schnelle Ja/Nein Entscheidungen, Sentiment-Analyse, Routing. Ideal wenn Geschwindigkeit und Kosten wichtiger sind als maximale Qualität.",
    "E-Mails schreiben, Texte formulieren, Zusammenfassungen. Braucht gute Sprachqualität und natürlichen Stil.",
    "Komplexe Analysen, Root-Cause Analyse, strategische Entscheidungen. Braucht tiefes Verständnis und gutes Urteilsvermögen.",
    "Code schreiben, Debugging, Refactoring. Braucht exzellente Code-Qualität und Framework-Kenntnisse.",
    "Für Agents die Tools/Functions aufrufen. Braucht zuverlässiges Tool-Calling mit korrekten Parametern.",
    "JSON generieren, Schema-basierte Extraktion. Braucht zuverlässige, valide Outputs die exakt dem Schema entsprechen.",
    "Komplexe Multi-Step Probleme, mathematisches Reasoning. Für Tasks die tiefes Nachdenken erfordern (o1/o3 style).",
    "Große Dokumente, RAG mit vielen Chunks. Braucht großes Context Window (200k+) und gute Retrieval-Fähigkeiten.",
    "Bildanalyse, Screenshots, Dokumente mit Bildern. Braucht starke multimodale Fähigkeiten.",
    "Maximales Sparen bei einfachen Tasks. Für Aufgaben wo Kosten wichtiger sind als Qualität."
  ]

  function DefaultCategories(now: string): (r: seq<Category>)
    ensures |r| == |SeedRows|
    ensures forall i :: 0 <= i < |r| ==> r[i].id == SeedRows[i].id
  {
    seq(|SeedRows|, i requires 0 <= i < |SeedRows| =>
      var row := SeedRows[i];
      var description := if i < |SeedDescriptions| then SeedDescriptions[i] else "";
      Category(row.id, row.name, description, row.keyProperty,
               row.selectedModel, Some(row.fallback1), Some(row.fallback2), now, now))
  }

  /** The ids of the seed list, in insertion order. */
  const DefaultCategoryIds: seq<string> :=
    ["triage", "writer", "analyst", "coder", "tool-use", "structured", "reasoning", "long-context", "vision", "budget"]

  function CategoryIds(cats: seq<Category>): (r: seq<string>)
    ensures |r| == |cats|
    ensures forall i :: 0 <= i < |cats| ==> r[i] == cats[i].id
  {
    seq(|cats|, i requires 0 <= i < |cats| => cats[i].id)
  }

  /** The seed list: ten categories with distinct ids, each with a primary
      model and both fallbacks set, stamped with the seeding time. */
  lemma DefaultCategoriesWellFormed(now: string)
    ensures CategoryIds(DefaultCategories(now)) == DefaultCategoryIds
    ensures |DefaultCategoryIds| == 10 && Distinct(DefaultCategoryIds)
    ensures forall c | c in DefaultCategories(now) ::
      c.fallback1.Some? && c.fallback2.Some? && c.createdAt == now && c.updatedAt == now
  {
    DefaultCategoryIdsInOrder(now);
    DefaultCategoryIdsDistinct();
    DefaultCategoriesStamped(now);
  }

  lemma DefaultCategoryIdsInOrder(now: string)
    ensures CategoryIds(DefaultCategories(now)) == DefaultCategoryIds
  {
  }

  lemma DefaultCategoryIdsDistinct()
    ensures |DefaultCategoryIds| == 10 && Distinct(DefaultCategoryIds)
  {
  }

  lemma DefaultCategoriesStamped(now: string)
    ensures forall c | c in DefaultCategories(now) ::
      c.fallback1.Some? && c.fallback2.Some? && c.createdAt == now && c.updatedAt == now
  {
  }

  /** One plain INSERT per listed category, in order. The id is the primary
      key, so an id already stored or listed twice would make the INSERT
      fail; the rows therefore carry distinct ids that are new to the table. */
  function InsertCategories(categories: map<string, Category>, cats: seq<Category>): (r: map<string, Category>)
    requires Distinct(CategoryIds(cats))
    requires forall c | c in cats :: c.id !in categories
    ensures r.Keys == categories.Keys + set k | k in CategoryIds(cats)
    ensures forall k | k in categories :: r[k] == categories[k]
    ensures forall c | c in cats :: c.id in r && r[c.id] == c
    decreases |cats|
  {
    if |cats| == 0 then categories
    else
      var rest := cats[1..];
      DistinctIdsSplit(cats);
      InsertCategories(categories[cats[0].id := cats[0]], rest)
  }

  /** Distinct ids stay distinct without the first row, and none of the
      others is the first row's. */
  lemma DistinctIdsSplit(cats: seq<Category>)
    requires |cats| > 0 && Distinct(CategoryIds(cats))
    ensures Distinct(CategoryIds(cats[1..]))
    ensures forall c | c in cats[1..] :: c.id != cats[0].id
  {
    var rest := cats[1..];
    forall i, j | 0 <= i < j < |rest| ensures CategoryIds(rest)[i] != CategoryIds(rest)[j] {
      assert CategoryIds(cats)[i + 1] != CategoryIds(cats)[j + 1];
    }
    forall c | c in rest ensures c.id != cats[0].id {
      var m :| 0 <= m < |rest| && rest[m] == c;
      assert CategoryIds(cats)[0] != CategoryIds(cats)[m + 1];
    }
  }

  /** Schema initialisation: the defaults are inserted only into an empty
      category table; the model cache is never touched. */
  function Initialize(s: Store, now: string): (r: Store)
    ensures r.models == s.models
    ensures |s.categories| > 0 ==> r == s
  {
    if |s.categories| == 0 then
      DefaultCategoriesWellFormed(now);
      s.(categories := InsertCategories(s.categories, DefaultCategories(now)))
    else s
  }

  /** Seeding an empty category table leaves exactly the ten default ids,
      each holding its seed row. */
  lemma InitializeSeeds(s: Store, now: string)
    requires |s.categories| == 0
    ensures Initialize(s, now).categories.Keys == set k | k in DefaultCategoryIds
    ensures forall c | c in DefaultCategories(now) :: Initialize(s, now).categories[c.id] == c
  {
    DefaultCategoriesWellFormed(now);
  }

  /** Repeated initialisation never re-seeds, duplicates or overwrites. */
  lemma InitializeIdempotent(s: Store, now1: string, now2: string)
    ensures Initialize(Initialize(s, now1), now2) == Initialize(s, now1)
  {
    var r := Initialize(s, now1);
    if |s.categories| == 0 {
      InitializeSeeds(s, now1);
      assert "triage" in DefaultCategoryIds;
      assert "triage" in r.categories;
    }
  }

  /** Seeding keeps every category under its own id. */
  lemma InitializePreservesValid(s: Store, now: string)
    requires Valid(s)
    ensures Valid(Initialize(s, now))
  {
    if |s.categories| == 0 {
      var r := Initialize(s, now);
      var cats := DefaultCategories(now);
      InitializeSeeds(s, now);
      DefaultCategoriesWellFormed(now);
      forall k | k in r.categories ensures r.categories[k].id == k {
        assert k in DefaultCategoryIds;
        var i :| 0 <= i < |DefaultCategoryIds| && DefaultCategoryIds[i] == k;
        assert cats[i] in cats && cats[i].id == k;
      }
    }
  }

  // ---------------------------------------------------------------------
  // Categories
  // ---------------------------------------------------------------------

  function GetCategory(s: Store, id: string): (r: Option<Category>)
    requires Valid(s)
    ensures r.Some? <==> id in s.categories
    ensures r.Some? ==> r.value.id == id && r.value == s.categories[id]
  {
    if id in s.categories then Some(s.categories[id]) else None
  }

  /** A partial update: `None` leaves a column alone; for the fallbacks
      `Some(None)` writes NULL. */
  datatype CategoryUpdate = CategoryUpdate(
    selectedModel: Option<string>,
    fallback1: Option<Option<string>>,
    fallback2: Option<Option<string>>)
  {
    predicate IsEmpty() {
      selectedModel.None? && fallback1.None? && fallback2.None?
    }
  }

  /** `UPDATE categories SET <supplied columns>, updated_at = now WHERE id = ?`,
      skipped entirely when nothing is supplied. */
  function UpdateCategory(s: Store, id: string, updates: CategoryUpdate, now: string): (r: Store)
    ensures r.models == s.models
    ensures r.categories.Keys == s.categories.Keys
    ensures forall k | k in s.categories && k != id :: r.categories[k] == s.categories[k]
    ensures updates.IsEmpty() || id !in s.categories ==> r == s
    ensures id in s.categories && !updates.IsEmpty() ==>
      var before, after := s.categories[id], r.categories[id];
      && after.id == before.id && after.name == before.name && after.description == before.description
      && after.keyProperty == before.keyProperty && after.createdAt == before.createdAt
      && after.updatedAt == now
      && after.selectedModel == updates.selectedModel.GetOr(before.selectedModel)
      && after.fallback1 == updates.fallback1.GetOr(before.fallback1)
      && after.fallback2 == updates.fallback2.GetOr(before.fallback2)
  {
    if updates.IsEmpty() || id !in s.categories then s
    else
      var c := s.categories[id];
      var c' := c.(
        selectedModel := if updates.selectedModel.Some? then updates.selectedModel.value else c.selectedModel,
        fallback1 := if updates.fallback1.Some? then updates.fallback1.value else c.fallback1,
        fallback2 := if updates.fallback2.Some? then updates.fallback2.value else c.fallback2,
        updatedAt := now);
      s.(categories := s.categories[id := c'])
  }

  /** Applying the same update twice at the same time is applying it once. */
  lemma UpdateCategoryIdempotent(s: Store, id: string, updates: CategoryUpdate, now: string)
    ensures UpdateCategory(UpdateCategory(s, id, updates, now), id, updates, now) == UpdateCategory(s, id, updates, now)
  {
  }

  lemma UpdateCategoryPreservesValid(s: Store, id: string, updates: CategoryUpdate, now: string)
    requires Valid(s)
    ensures Valid(UpdateCategory(s, id, updates, now))
  {
  }

  /** The category table ordered by id (`ORDER BY id`). */
  method GetAllCategories(s: Store) returns (cats: seq<Category>)
    requires Valid(s)
    ensures |cats| == |s.categories|
    ensures forall k | k in s.categories :: s.categories[k] in cats
    ensures forall c | c in cats :: c.id in s.categories && s.categories[c.id] == c
    ensures forall i, j :: 0 <= i < j < |cats| ==> LexLe(cats[i].id, cats[j].id) && cats[i].id != cats[j].id
  {
    var le := (a: Category, b: Category) => LexLe(a.id, b.id);
    assert TotalPreorder(le) by {
      forall a: Category, b: Category ensures le(a, b) || le(b, a) { LexLeTotal(a.id, b.id); }
      forall a: Category, b: Category, c: Category | le(a, b) && le(b, c) ensures le(a, c) {
        LexLeTransitive(a.id, b.id, c.id);
      }
    }
    cats := [];
    var todo := s.categories.Keys;
    while todo != {}
      invariant todo <= s.categories.Keys
      invariant |cats| + |todo| == |s.categories|
      invariant forall k | k in s.categories && k !in todo :: s.categories[k] in cats
      invariant forall c | c in cats :: c.id in s.categories && c.id !in todo && s.categories[c.id] == c
      invariant forall i, j :: 0 <= i < j < |cats| ==> cats[i].id != cats[j].id
      invariant SortedBy(cats, le)
      decreases |todo|
    {
      var k :| k in todo;
      var next := Insert(s.categories[k], cats, le);
      assert forall c | c in next :: c in cats || c == s.categories[k] by {
        forall c | c in next ensures c in cats || c == s.categories[k] {
          assert c in multiset(next);
        }
      }
      assert s.categories[k] in next by { assert s.categories[k] in multiset(next); }
      forall c | c in cats ensures c in next {
        assert c in multiset(next);
      }
      assert |next| == |cats| + 1 by {
        assert |multiset(next)| == |multiset(cats)| + 1;
      }
      DistinctIdsAfterInsert(cats, next, s.categories[k]);
      cats := next;
      todo := todo - {k};
    }
  }

  lemma DistinctIdsAfterInsert(cats: seq<Category>, next: seq<Category>, c: Category)
    requires forall i, j :: 0 <= i < j < |cats| ==> cats[i].id != cats[j].id
    requires forall d | d in cats :: d.id != c.id
    requires multiset(next) == multiset(cats) + multiset{c}
    ensures forall i, j :: 0 <= i < j < |next| ==> next[i].id != next[j].id
  {
    forall i, j | 0 <= i < j < |next| ensures next[i].id != next[j].id {
      assert next[i] in multiset(next) && next[j] in multiset(next);
      if next[i] != c && next[j] != c {
        MultisetTwoPositions(next, cats, c, i, j);
      } else if next[i] == c && next[j] == c {
        assert c !in cats;
        AtTwoPositions(next, i, j);
      }
    }
  }

  /** Two positions of `next` holding non-`c` rows correspond to two distinct
      positions of `cats`. */
  lemma MultisetTwoPositions(next: seq<Category>, cats: seq<Category>, c: Category, i: int, j: int)
    requires 0 <= i < j < |next|
    requires multiset(next) == multiset(cats) + multiset{c}
    requires next[i] != c && next[j] != c
    requires forall a, b :: 0 <= a < b < |cats| ==> cats[a].id != cats[b].id
    ensures next[i].id != next[j].id
  {
    if next[i] == next[j] {
      AtTwoPositions(next, i, j);
      assert multiset(cats)[next[i]] >= 2;
      TwoCopies(cats, next[i]);
    } else {
      assert next[i] in multiset(next) && next[j] in multiset(next);
      assert next[i] in multiset(cats) && next[j] in multiset(cats);
      var a :| 0 <= a < |cats| && cats[a] == next[i];
      var b :| 0 <= b < |cats| && cats[b] == next[j];
    }
  }

  // ---------------------------------------------------------------------
  // Model cache
  // ---------------------------------------------------------------------

  /** INSERT ... ON CONFLICT(id) DO UPDATE: insert-or-overwrite keyed by id,
      stamped with the write time. */
  function UpsertModel(s: Store, row: ModelRow, now: string): (r: Store)
    ensures r.categories == s.categories
    ensures r.models.Keys == s.models.Keys + {row.id}
    ensures r.models[row.id] == ModelCache(row, now)
    ensures forall k | k in s.models && k != row.id :: r.models[k] == s.models[k]
  {
    s.(models := s.models[row.id := ModelCache(row, now)])
  }

  lemma UpsertModelPreservesValid(s: Store, row: ModelRow, now: string)
    requires Valid(s)
    ensures Valid(UpsertModel(s, row, now))
  {
  }

  /** `DELETE FROM models_cache`. */
  function ClearModelsCache(s: Store): (r: Store)
    ensures r.models == map[]
    ensures r.categories == s.categories
  {
    s.(models := map[])
  }

  /** `ORDER BY provider, name`. */
  predicate ProviderNameLe(a: ModelCache, b: ModelCache) {
    PairLe(a.row.provider, a.row.name, b.row.provider, b.row.name)
  }

  lemma ProviderNameLeIsTotalPreorder()
    ensures TotalPreorder(ProviderNameLe)
  {
    forall a, b ensures ProviderNameLe(a, b) || ProviderNameLe(b, a) {
      PairLeTotal(a.row.provider, a.row.name, b.row.provider, b.row.name);
    }
    forall a, b, c | ProviderNameLe(a, b) && ProviderNameLe(b, c) ensures ProviderNameLe(a, c) {
      PairLeTransitive(a.row.provider, a.row.name, b.row.provider, b.row.name, c.row.provider, c.row.name);
    }
  }

  /** `rows` is a listing of the whole cache as `ORDER BY provider, name`
      returns it: as many rows as the cache holds, every cached row among
      them, nothing else, in (provider, name) order. */
  predicate IsCacheListing(s: Store, rows: seq<ModelCache>) {
    && |rows| == |s.models|
    && (forall k | k in s.models :: s.models[k] in rows)
    && (forall m | m in rows :: m.row.id in s.models && s.models[m.row.id] == m)
    && (forall i, j :: 0 <= i < j < |rows| ==> ProviderNameLe(rows[i], rows[j]))
  }

  /** The model cache ordered by (provider, name); rows tied on both come in
      an unspecified order. */
  method GetAllModels(s: Store) returns (rows: seq<ModelCache>)
    requires Valid(s)
    ensures IsCacheListing(s, rows)
  {
    ProviderNameLeIsTotalPreorder();
    rows := [];
    var todo := s.models.Keys;
    while todo != {}
      invariant todo <= s.models.Keys
      invariant |rows| + |todo| == |s.models|
      invariant forall k | k in s.models && k !in todo :: s.models[k] in rows
      invariant forall m | m in rows :: m.row.id in s.models && m.row.id !in todo && s.models[m.row.id] == m
      invariant SortedBy(rows, ProviderNameLe)
      decreases |todo|
    {
      var k :| k in todo;
      var next := Insert(s.models[k], rows, ProviderNameLe);
      assert forall m | m in next :: m in rows || m == s.models[k] by {
        forall m | m in next ensures m in rows || m == s.models[k] {
          assert m in multiset(next);
        }
      }
      assert s.models[k] in next by { assert s.models[k] in multiset(next); }
      forall m | m in rows ensures m in next {
        assert m in multiset(next);
      }
      assert |next| == |rows| + 1 by {
        assert |multiset(next)| == |multiset(rows)| + 1;
      }
      rows := next;
      todo := todo - {k};
    }
  }
}
