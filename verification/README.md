# llm_advisor core, modelled in Dafny

llm_advisor recommends a language model for each of ten task categories
("triage", "writer", "coder", …). A SQLite store holds the categories and
their configured models. It also holds a cache of the OpenRouter model
catalog. Around that store sit:

- a synchronisation route that replaces the catalog cache from the
  OpenRouter listing and derives each model's capability tags;
- a resolution route that picks the recommended model and fallbacks for a
  category, optionally restricted to one provider;
- a configuration route that reads and updates a category's model choice;
- a listing route that pages through the cached catalog;
- a lookup table of Vercel AI SDK identifiers with a code-snippet generator;
- the model picker's grouping helpers in the dashboard;
- an MCP tool adapter that exposes `list_categories` and `get_model`.

The store is an immutable `Store` value: a map of categories and a map of
cache rows, each keyed by id. Every route is a pure function or a method
from the store and the request to the response, plus the new store where
the route writes. Everything the program reads from outside is a
parameter:

- the clock, as a timestamp string `now`;
- the `AUTH_SECRET` environment variable and the Authorization header;
- the upstream listing, which either arrives or fails with a message;
- the host's `parseFloat`;
- the two MCP delegates.

Modules follow the source files:

| module | source file |
|---|---|
| `Db` | `dashboard/src/lib/db.ts` |
| `OpenRouter` | `dashboard/src/lib/openrouter.ts` |
| `VercelModels` | `dashboard/src/lib/vercel-models.ts` |
| `Auth` | the `checkAuth` shared by the sync and config routes |
| `SyncRoute` | `dashboard/src/app/api/sync/route.ts` |
| `ModelRoute` | `dashboard/src/app/api/model/route.ts` |
| `ConfigRoute` | `dashboard/src/app/api/config/route.ts` |
| `ModelsRoute` | `dashboard/src/app/api/models/route.ts` |
| `ModelSelector` | `dashboard/src/components/model-selector.tsx` |
| `McpServer` | `mcp-server/src/index.ts` |

`ApiTypes` holds the shared response shapes. `Strings`, `Seqs`, `Sorting`
and `Wrappers` hold the JavaScript built-ins the core relies on:

- `split`, `includes`, `toLowerCase`;
- `filter` and `[...new Set(xs)]`;
- a sort with a comparator;
- optional values.

Behaviour worth noting:

- The capability tags of a model keep the order in which each tag was
  first pushed, because `[...new Set(strengths)]` preserves insertion
  order (sync/route.ts:78). `SyncRoute.DeriveStrengthsOrder` states that
  order.
- Synchronisation has no transaction. Only a failed upstream fetch leaves
  the store untouched, because the fetch happens before the cache is
  cleared (sync/route.ts:95-106). A failure during the insert loop is not
  modelled; see "Left out".
- The 404 at model/route.ts:86-91 is unreachable: `buildModelInfo` never
  returns null. `ModelRoute.Get` states its status codes as
  if-and-only-ifs, and they leave no room for a second 404.
- The synthesised name of an id missing from the cache falls back to the
  whole id when the id has no second "/"-piece or that piece is empty
  (model/route.ts:55). `ModelRoute.SynthesizedName` states both cases.

## Model

| member | source | states |
|---|---|---|
| Strings.FirstPiece | dashboard/src/lib/openrouter.ts:50-51 | `split(sep)[0]`: the result contains no separator, is a prefix of the input, and ends where the input ends or at the first separator |
| Strings.SecondPiece | dashboard/src/app/api/model/route.ts:55 | `split(sep)[1]`: absent exactly when the input has no separator; otherwise it is the first piece of the text after the first separator |
| Strings.JoinSplit | dashboard/src/lib/openrouter.ts:50 | joining the pieces of `split(sep)` with the separator gives back the original string |
| Strings.SplitJoin | dashboard/src/lib/openrouter.ts:50 | splitting a join of separator-free pieces gives back exactly those pieces |
| Strings.SecondPieceOfQualified | dashboard/src/app/api/model/route.ts:55 | the second piece of `p/q/…` is `q` whenever the pieces contain no separator |
| Strings.ToLower | dashboard/src/app/api/sync/route.ts:27 | lower-casing keeps the length and maps each character on its own |
| Strings.ToLowerIdempotent | dashboard/src/app/api/models/route.ts:18 | lower-casing twice is lower-casing once, so comparing lower-cased slugs is stable |
| OpenRouter.ExtractProvider | dashboard/src/lib/openrouter.ts:49-52 | the provider is never empty and never contains "/"; it is the text before the first "/" of the id, or "unknown" exactly when that text is empty |
| OpenRouter.ExtractProviderOfQualified | dashboard/src/lib/openrouter.ts:49-52 | the id `p/rest` belongs to provider `p` for every non-empty slug `p` without "/" |
| OpenRouter.ParsePrice | dashboard/src/lib/openrouter.ts:55-60 | an unparsable (NaN) price becomes 0; otherwise the result is one million times the per-token price |
| OpenRouter.ParsePriceExamples | dashboard/src/lib/openrouter.ts:55-60 | "0.000003" per token is 3 per million tokens, and "n/a" is 0 |
| OpenRouter.RelevantIffSlugListed | dashboard/src/lib/openrouter.ts:63-77 | a model is relevant exactly when its literal slug is one of the eight allow-listed providers; the "unknown" stand-in is never relevant |
| OpenRouter.ChatModelCases | dashboard/src/lib/openrouter.ts:80-86 | a model without a modality, or with an empty one, counts as chat; otherwise it counts exactly when its lower-cased modality contains "text" or "multimodal" |
| OpenRouter.ProviderNameLeIsTotalPreorder | dashboard/src/lib/openrouter.ts:93-101 | the (provider, name) comparator is total and transitive, so sorting by it is well defined |
| OpenRouter.FilterAndSortModels | dashboard/src/lib/openrouter.ts:89-101 | the result is a permutation of the inputs that pass both filters, each with its input multiplicity; providers ascend, and names ascend within one provider |
| OpenRouter.FilteredModelsAreRelevant | dashboard/src/lib/openrouter.ts:89-92 | every kept model came from the input, passes both filters and has its literal slug as provider |
| Auth.CheckAuth | dashboard/src/app/api/sync/route.ts:13-22 | an unset or empty secret admits every request; with a secret, a missing header is refused, and a header is admitted exactly when it is "Bearer ", the secret, then the end or a space (config/route.ts:5-17 repeats the same check) |
| Auth.BearerIff | dashboard/src/app/api/sync/route.ts:20-21 | "first space-separated piece is Bearer and second is the secret" holds exactly when the header has that prefix shape |
| Auth.CheckAuthAccepts | dashboard/src/app/api/sync/route.ts:13-22 | the exact header is accepted; pieces after the token are ignored; with no secret, anything passes |
| Auth.CheckAuthRejectsLowerCaseScheme | dashboard/src/app/api/sync/route.ts:20-21 | the scheme is case-sensitive: "bearer …" is refused |
| Auth.CheckAuthRejectsDoubleSpace | dashboard/src/app/api/sync/route.ts:20-21 | two spaces after the scheme make the token piece empty, so the header is refused |
| Db.DefaultCategoriesWellFormed | dashboard/src/lib/db.ts:70-162 | there are ten seed categories; their ids are the ten listed ids, in order and without duplicates; each has both fallbacks and is stamped with the seeding time |
| Db.InsertCategories | dashboard/src/lib/db.ts:164-171 | inserting rows whose ids are distinct and new to the table (the primary key rejects anything else) adds exactly their ids, keeps every other category, and stores each row under its own id |
| Db.Initialize | dashboard/src/lib/db.ts:64-67 | initialisation never touches the model cache and leaves a non-empty category table alone |
| Db.InitializeSeeds | dashboard/src/lib/db.ts:64-67 | on an empty category table, initialisation yields exactly the ten seed ids, each holding its seed category |
| Db.InitializeIdempotent | dashboard/src/lib/db.ts:27-68 | a second initialisation, at any time, changes nothing |
| Db.InitializePreservesValid | dashboard/src/lib/db.ts:27-68 | initialisation keeps every stored row under its own id |
| Db.GetCategory | dashboard/src/lib/db.ts:209-211 | a category is found exactly when its id is stored, and the row found carries that id |
| Db.UpdateCategory | dashboard/src/lib/db.ts:213-236 | an empty update or an unknown id changes nothing; otherwise only that category changes: each supplied column takes its new value, unsupplied columns keep theirs, `updated_at` becomes now, and the cache and other categories stay as they were |
| Db.UpdateCategoryIdempotent | dashboard/src/lib/db.ts:213-236 | repeating the same update at the same time changes nothing further |
| Db.UpdateCategoryPreservesValid | dashboard/src/lib/db.ts:213-236 | an update keeps every stored row under its own id |
| Db.GetAllCategories | dashboard/src/lib/db.ts:205-207 | the result holds every stored category exactly once, in strictly ascending id order |
| Db.UpsertModel | dashboard/src/lib/db.ts:247-266 | the row lands under its id with the current time as `cached_at`, whether it was new or not; every other cache row and all categories are unchanged |
| Db.UpsertModelPreservesValid | dashboard/src/lib/db.ts:247-266 | an upsert keeps every cache row under its own id |
| Db.ClearModelsCache | dashboard/src/lib/db.ts:268-270 | the cache becomes empty and the categories are untouched |
| Db.ProviderNameLeIsTotalPreorder | dashboard/src/lib/db.ts:240 | `ORDER BY provider, name` is a total preorder |
| Db.GetAllModels | dashboard/src/lib/db.ts:239-241 | the result is a listing of the cache (`Db.IsCacheListing`): as many rows as the cache holds, every cache row and nothing else, ordered by (provider, name) |
| SyncRoute.DeriveStrengths | dashboard/src/app/api/sync/route.ts:25-79 | the tags have no duplicates, and a tag is derived exactly when some rule for the lower-cased id or the context length pushes it |
| SyncRoute.DeriveStrengthsOrder | dashboard/src/app/api/sync/route.ts:78 | the tags appear in the order in which each was first pushed |
| SyncRoute.DeriveStrengthsCountsOnce | dashboard/src/app/api/sync/route.ts:74-78 | every tag occurs at most once, and a context of at least 200000 tokens gives "long-context" exactly once |
| SyncRoute.DerivedIfPushed | dashboard/src/app/api/sync/route.ts:78 | every pushed tag survives de-duplication |
| SyncRoute.ClaudeTagsPushed | dashboard/src/app/api/sync/route.ts:30-39 | a Claude id pushes the three base tags plus the refinement of the first matching variant: sonnet, then opus, then haiku |
| SyncRoute.RefinementMarkers | dashboard/src/app/api/sync/route.ts:30-71 | "balanced" is pushed exactly for Claude Sonnet ids; "complex-tasks" exactly for Claude Opus ids that do not mention sonnet |
| SyncRoute.ClaudeStrengths | dashboard/src/app/api/sync/route.ts:30-39 | a Claude model's tags hold the base tags and its variant's refinement; a Sonnet never gets "complex-tasks", an Opus never gets "balanced", and other Claude ids get neither |
| SyncRoute.Gpt4oTagsPushed | dashboard/src/app/api/sync/route.ts:41-48 | a gpt-4o id pushes "multimodal" and "structured-output", then the mini or the full refinement |
| SyncRoute.Gpt4oStrengths | dashboard/src/app/api/sync/route.ts:41-48 | a gpt-4o model's tags hold those tags after de-duplication |
| SyncRoute.LongContextKeywordRules | dashboard/src/app/api/sync/route.ts:54-71 | among the keyword rules, only a Gemini Pro id pushes "long-context" |
| SyncRoute.LongContextPushed | dashboard/src/app/api/sync/route.ts:61-76 | "long-context" is pushed exactly when the context is at least 200000 tokens or the id is a Gemini Pro |
| SyncRoute.LongContextStrength | dashboard/src/app/api/sync/route.ts:61-78 | the same if-and-only-if holds for the de-duplicated tags |
| SyncRoute.PlainSonnetStrengths | dashboard/src/app/api/sync/route.ts:25-79 | a lower-case Claude Sonnet id that triggers no other rule, with a short context, gets exactly instructions, coding, safety, tool-calling, balanced |
| SyncRoute.ClaudeSonnet4Strengths | dashboard/src/app/api/sync/route.ts:25-79 | "anthropic/claude-sonnet-4" with a context under 200000 gets exactly instructions, coding, safety, tool-calling, balanced, with no repeats |
| SyncRoute.RowFor | dashboard/src/app/api/sync/route.ts:107-125 | the cache row of a model holds its id twice, its name and provider slug, the Vercel id from the table, its context length and both scaled prices, and no cached price; the tools flag is set exactly for ids containing "claude" or "gpt-4" (case-sensitive); the vision flag is set exactly for a modality containing "multimodal"; JSON support is always set; the tags are the derived strengths |
| SyncRoute.UpsertRows | dashboard/src/app/api/sync/route.ts:106-127 | upserting rows in turn adds exactly their ids, keeps untouched rows, and leaves categories alone |
| SyncRoute.UpsertRowsLastWins | dashboard/src/lib/db.ts:251-264 | when an id repeats, the cache holds the row of its last occurrence |
| SyncRoute.UpsertEach | dashboard/src/app/api/sync/route.ts:106-127 | the loop adds exactly the models' ids, keeps every other row, and leaves categories alone |
| SyncRoute.UpsertEachLastWins | dashboard/src/app/api/sync/route.ts:106-127 | each id ends up holding the row derived from the last model listed with that id |
| SyncRoute.LastPositionExists | dashboard/src/app/api/sync/route.ts:106 | every listed id has a last position in the listing |
| SyncRoute.Replace | dashboard/src/app/api/sync/route.ts:103-127 | after clearing and refilling, the cache holds exactly the ids of the synchronised models |
| SyncRoute.ReplaceLastWins | dashboard/src/app/api/sync/route.ts:103-127 | after the replace, every id holds the row of its last listed model, stamped now |
| SyncRoute.Post | dashboard/src/app/api/sync/route.ts:82-148 | a refused request answers 401 and changes nothing; a failed fetch answers 500 with its message and changes nothing; otherwise the answer counts the kept models and the cache holds exactly their ids; categories are never touched |
| SyncRoute.PostUnauthorizedIgnoresListing | dashboard/src/app/api/sync/route.ts:85-90 | a refused request does not depend on the upstream listing and answers 401 |
| SyncRoute.PostCachesDerivedRows | dashboard/src/app/api/sync/route.ts:99-127 | every cached row is the derived row of the last kept model with its id |
| SyncRoute.PostCountBoundsRows | dashboard/src/app/api/sync/route.ts:126-135 | the reported count is at least the number of cached rows and at most the number of fetched models |
| SyncRoute.PostIdempotent | dashboard/src/app/api/sync/route.ts:103-127 | two synchronisations of the same listing, from any stores at any times, cache the same ids with the same rows; only `cached_at` differs |
| SyncRoute.ReplaceIgnoresStore | dashboard/src/app/api/sync/route.ts:103 | the replaced cache does not depend on the previous store, except for the timestamps |
| SyncRoute.PostRowsWellFormed | dashboard/src/app/api/sync/route.ts:107-124 | each cached row sits under its own id, its provider is the literal allow-listed slug of the id, JSON support is set, no cached price is stored, and its tags are duplicate-free |
| ModelRoute.Alternatives | dashboard/src/app/api/model/route.ts:78 | the alternatives are the set (non-empty) fallbacks, fallback 1 first, and nothing else; one entry per set fallback, even when both name the same model |
| ModelRoute.FindMatching | dashboard/src/app/api/model/route.ts:79 | nothing is found exactly when no alternative matches the provider; otherwise the result is the first matching alternative |
| ModelRoute.RecommendedId | dashboard/src/app/api/model/route.ts:75-83 | the selected model stays when it matches the provider filter; otherwise the first matching fallback is promoted; when nothing matches, the selected model stays |
| ModelRoute.UnfilteredRecommendsSelected | dashboard/src/app/api/model/route.ts:75-76 | without a provider filter, the selected model is recommended |
| ModelRoute.RecommendedMatchesWhenPossible | dashboard/src/app/api/model/route.ts:75-83 | when any of the three configured models matches the filter, the recommended one does; when none does, the selected model is recommended |
| ModelRoute.FallbackIds | dashboard/src/app/api/model/route.ts:94-96 | the fallbacks are exactly the set fallbacks that differ from the recommended id and pass the filter, in configuration order, one entry per such fallback, even when both name the same model |
| ModelRoute.PromotionDropsSelected | dashboard/src/app/api/model/route.ts:75-96 | when a fallback is promoted, it matches the filter and the original selection is not offered as a fallback |
| ModelRoute.IndexByOpenRouterId | dashboard/src/app/api/model/route.ts:30 | the index has a key for each cached OpenRouter id, and each key maps to the last row carrying it |
| ModelRoute.SynthesizedName | dashboard/src/app/api/model/route.ts:55-58 | for an id with a non-empty second piece, the name has that piece's length, has no hyphens, and equals the piece with hyphens turned into spaces from the second character on; otherwise it is the whole id with its first letter upper-cased |
| ModelRoute.SynthesizedNameOfQualified | dashboard/src/app/api/model/route.ts:55-58 | the name of `provider/model` is `model` with hyphens turned into spaces and the first letter upper-cased |
| ModelRoute.SynthesizedNameOfPlain | dashboard/src/app/api/model/route.ts:55-58 | an id without "/" names itself, first letter upper-cased |
| ModelRoute.SynthesizedInfo | dashboard/src/app/api/model/route.ts:53-64 | an uncached model carries its id, its slug as provider, the Vercel id from the table, zero prices and no context window or tags |
| ModelRoute.BuildModelInfo | dashboard/src/app/api/model/route.ts:33-65 | a cached id is described from its cache row, any other id from synthesised info; the answer is never missing |
| ModelRoute.Resolve | dashboard/src/app/api/model/route.ts:85-106 | a known category resolves to the recommended id and its fallbacks, in order, each described by looking its id up in the index of the listing |
| ModelRoute.BuildModelInfoFromListing | dashboard/src/app/api/model/route.ts:30-65 | looking an id up in the index of a listing yields the last row of the listing with that id, and the synthesised info exactly when no row has it |
| ModelRoute.BuildModelInfoDescribesStore | dashboard/src/app/api/model/route.ts:30-65 | over a listing of the whole cache, looking an id up yields a cache row with that id when the cache has one, and the synthesised info only when it has none |
| ModelRoute.ResolveDescribesStore | dashboard/src/app/api/model/route.ts:85-106 | over a listing of the whole cache, the recommended model and every fallback are described by a cache row with their id, or synthesised when the cache has none |
| ModelRoute.Get | dashboard/src/app/api/model/route.ts:8-116 | 400 exactly when the category parameter is missing or empty; 404 exactly when it names no category; otherwise the resolution over some listing of the whole cache: the recommendation and each fallback as selected, in order, each described from a cache row carrying its id when there is one and from synthesised info when there is none |
| ModelRoute.SelectionIgnoresCache | dashboard/src/app/api/model/route.ts:75-96 | which ids are recommended and offered as fallbacks does not depend on the cache contents |
| ModelRoute.OpenAiFilterPromotesFirstFallback | dashboard/src/app/api/model/route.ts:75-96 | with an Anthropic selection, an OpenAI first fallback and a Google second fallback, the "openai" filter promotes fallback 1 and leaves no fallbacks |
| ApiTypes.FromCacheRow | dashboard/src/app/api/models/route.ts:26-38 | identity, provider, context window and tags are copied; a missing input or output price reads as 0; a missing cached price is left out |
| ConfigRoute.FallbackUpdate | dashboard/src/app/api/config/route.ts:81-86 | an absent fallback leaves the column alone; a falsy one clears it; a non-empty string sets it |
| ConfigRoute.UpdatesOf | dashboard/src/app/api/config/route.ts:76-86 | a supplied model becomes the update; an absent one is left out; the fallbacks are normalised; an explicit null model cannot be stored |
| ConfigRoute.Post | dashboard/src/app/api/config/route.ts:46-110 | 401 exactly when the request is refused; 400 exactly when the category id is falsy; 404 exactly when it names no category; 500 exactly for a body that is not valid JSON or is `null`, or a null model; otherwise the store is the category update and the answer echoes the updated selection; every other answer leaves the store alone |
| ConfigRoute.PostMemberlessBodyIsBadRequest | dashboard/src/app/api/config/route.ts:56-64 | an authorised body without the members read, such as a JSON array, string, number or boolean, is answered with 400 and changes nothing |
| ConfigRoute.PostUnauthorizedIgnoresBody | dashboard/src/app/api/config/route.ts:49-54 | a refused request answers 401 whatever the body, and changes nothing |
| ConfigRoute.PostStoresNormalisedSelection | dashboard/src/app/api/config/route.ts:76-102 | after a successful update, each supplied field holds its normalised value, absent fields keep theirs, and other categories and descriptive columns are untouched |
| ConfigRoute.PostWithoutChangesKeepsStore | dashboard/src/app/api/config/route.ts:76-102 | a body naming a known category and nothing else leaves the store unchanged, `updated_at` included, and echoes the current selection |
| ConfigRoute.ConfigOf | dashboard/src/app/api/config/route.ts:24-33 | the configuration entry carries the category's columns, renamed |
| ConfigRoute.Get | dashboard/src/app/api/config/route.ts:20-35 | one entry per stored category, exactly the category's projection, in strictly ascending id order |
| ModelsRoute.SliceEnd | dashboard/src/app/api/models/route.ts:10-23 | `slice(0, limit)` takes the first min(limit, length) rows; without a limit it takes 100; a non-numeric limit takes none; a negative limit drops that many from the end |
| ModelsRoute.ListModels | dashboard/src/app/api/models/route.ts:16-44 | `total` counts the rows that pass the provider filter; the page is their first rows in order, each described from its row; `cached_at` is the first listed row's, and it is absent exactly when the page is empty |
| ModelsRoute.ListModelsTotal | dashboard/src/app/api/models/route.ts:16-42 | without a filter the total is the cache size; a row is counted exactly when its provider matches the filter case-insensitively; the page never exceeds the total |
| ModelsRoute.ListedRowsPassFilter | dashboard/src/app/api/models/route.ts:16-38 | every listed model comes from a cached row that passes the filter |
| ModelsRoute.ListedInOrder | dashboard/src/app/api/models/route.ts:13-38 | filtering and paging keep the (provider, name) order of the cache listing |
| ModelsRoute.ListingMatchesStore | dashboard/src/app/api/models/route.ts:16-44 | over a listing of the whole cache, the total is positive exactly when some cache row passes the filter, and a non-empty page starts with such a row and carries its `cached_at` |
| ModelsRoute.ListModelsOverCache | dashboard/src/app/api/models/route.ts:16-44 | over a listing of the whole cache, the response's bounds, filter, order and `cached_at` stated in terms of the cache rows themselves |
| ModelsRoute.Get | dashboard/src/app/api/models/route.ts:6-46 | the answer is the listing response for some listing of the whole cache; the page never exceeds the total, and the total never exceeds the cache; unfiltered, the total is the cache size; the total is positive exactly when a cache row passes the filter; every listed model is a matching cache row; the page is in (provider, name) order; `cached_at` is present exactly when the page is not empty, and is the first listed row's |
| VercelModels.GetVercelId | dashboard/src/lib/vercel-models.ts:58-60 | a Vercel id is returned only for a key of the table, it is that key's non-empty value, and nothing is returned otherwise |
| VercelModels.GetVercelIdDomain | dashboard/src/lib/vercel-models.ts:5-60 | an id has a Vercel id exactly when it is a key of the table |
| VercelModels.GetVercelIdExamples | dashboard/src/lib/vercel-models.ts:5-60 | "anthropic/claude-sonnet-4" maps to "claude-sonnet-4-20250514", and the Mixtral entry maps to "open-mixtral-8x7b" |
| VercelModels.GetVercelIdMisses | dashboard/src/lib/vercel-models.ts:58-60 | the lookup is exact: a capitalised key or an unlisted id has no Vercel id |
| VercelModels.GetVercelSdkImport | dashboard/src/lib/vercel-models.ts:63-72 | every provider, listed or not, imports from "@ai-sdk/" followed by its own name |
| VercelModels.ProviderFunction | dashboard/src/lib/vercel-models.ts:85-89 | the called function always has the provider's own name |
| VercelModels.GenerateVercelExample | dashboard/src/lib/vercel-models.ts:75-94 | without a Vercel id the snippet is the OpenRouter provider snippet around the OpenRouter id; with one, it imports the provider's SDK and calls it with the Vercel id |
| VercelModels.ExampleEmbedsId | dashboard/src/lib/vercel-models.ts:75-94 | the snippet always contains the id it is about: the OpenRouter id, or the Vercel id when there is one |
| VercelModels.ExampleImportsSlug | dashboard/src/lib/vercel-models.ts:75-94 | as written, an id with a Vercel id gets the snippet that imports and calls its catalog slug, whatever that slug is |
| VercelModels.SnippetImportsCatalogSlug | dashboard/src/lib/vercel-models.ts:35-45 | as written, a `meta-llama/…` id imports `meta-llama`, which is not an identifier, and a `mistralai/…` id imports from `@ai-sdk/mistralai`, missing the table's `mistral` entry |
| VercelModels.SdkIdsOfExamples | dashboard/src/lib/vercel-models.ts:35-45 | `meta-llama/llama-3.3-70b-instruct` and `mistralai/mistral-large` both have Vercel ids, so they get SDK snippets |
| VercelModels.SdkProvider | dashboard/src/lib/vercel-models.ts:64-71 | corrected: "mistralai" maps to the SDK's "mistral", another slug maps to itself exactly when it is an identifier, and every result is an identifier |
| VercelModels.GenerateVercelExampleCorrected | dashboard/src/lib/vercel-models.ts:75-94 | corrected: the OpenRouter snippet when there is no Vercel id or no SDK provider, otherwise the SDK provider's import and call |
| VercelModels.CorrectedSnippetImportsIdentifier | dashboard/src/lib/vercel-models.ts:75-94 | corrected: every snippet is the OpenRouter one or imports an identifier; for a slug that is already an identifier other than "mistralai" it equals the code as written |
| VercelModels.CorrectedSnippetExamples | dashboard/src/lib/vercel-models.ts:64-94 | corrected: a `mistralai/…` id imports `mistral` from the table's package; a `meta-llama/…` id gets the OpenRouter snippet |
| VercelModels.GetAllVercelMappings | dashboard/src/lib/vercel-models.ts:97-99 | the mapping has exactly the ids that `getVercelId` resolves, each with the same answer |
| ModelSelector.GroupByProvider | dashboard/src/components/model-selector.tsx:28-37 | there is one group for each provider that occurs |
| ModelSelector.GroupsAreFilters | dashboard/src/components/model-selector.tsx:28-37 | each group holds exactly its provider's models, in input order, and no group is empty |
| ModelSelector.SortedProviders | dashboard/src/components/model-selector.tsx:61 | each provider that occurs appears once, and the providers ascend |
| ModelSelector.GroupedChoicesArePermutation | dashboard/src/components/model-selector.tsx:60-93 | the open picker lists every model exactly as often as it is given, no more and no fewer |
| ModelSelector.FormatProviderName | dashboard/src/components/model-selector.tsx:40-52 | a known slug shows its table name; any other slug keeps its length and is shown with only its first letter upper-cased |
| ModelSelector.FormatProviderNameExamples | dashboard/src/components/model-selector.tsx:40-52 | "meta-llama" shows as "Meta", "openai" as "OpenAI", the unknown "x-ai" as "X-ai" |
| ModelSelector.FindById | dashboard/src/components/model-selector.tsx:64 | a model is found exactly when some model has the id, and the one found has it |
| ModelSelector.TriggerLabel | dashboard/src/components/model-selector.tsx:64-70 | the trigger shows the value when some model has that id, and the placeholder otherwise |
| ModelSelector.OptionValues | dashboard/src/components/model-selector.tsx:75-93 | one option per model, plus an empty clearing option first exactly when the placeholder is "Kein Fallback"; after it, the OpenRouter ids of the grouped list, in its order; every model's id is offered |
| McpServer.ListTools | mcp-server/src/index.ts:25-29 | the server advertises `list_categories` then `get_model`, the names defined in `mcp-server/src/tools/list-categories.ts:4` and `get-model.ts:4` |
| McpServer.ListedToolsAreDispatched | mcp-server/src/index.ts:25-66 | a name the tool list does not announce is answered as an unknown tool; the first announced name reaches the category listing and the second the model resolution |
| McpServer.Caught | mcp-server/src/index.ts:68-79 | a result passes through unflagged; a thrown `Error` becomes an error result with its message; any other throw becomes "Unbekannter Fehler" |
| McpServer.CallTool | mcp-server/src/index.ts:32-80 | an unknown name is an "Unbekanntes Tool" error; `list_categories` returns its delegate's outcome; `get_model` with absent arguments or an unset category is an error and never calls the delegate; otherwise it returns the delegate's outcome |
| McpServer.CallToolErrorIff | mcp-server/src/index.ts:32-80 | the result is flagged as an error exactly for an unknown tool, a missing category, or a delegate that throws |
| McpServer.MissingCategoryIgnoresDelegate | mcp-server/src/index.ts:49-53 | without a category, the answer does not depend on the resolution delegate and is an error |
| McpServer.ListCategoriesIgnoresArguments | mcp-server/src/index.ts:37-47 | `list_categories` ignores its arguments and the resolution delegate |

## Left out

- Everything that leaves the process is left out: the HTTP transport, JSON serialisation, SQLite itself, `console` logging and the MCP stdio transport with `main` (mcp-server/src/index.ts:83-92). Responses are datatypes; the store is a value.
- The upstream fetch (`fetchOpenRouterModels`, openrouter.ts:33-46) is left out. The listing is a parameter that either arrives or fails with a message.
- The MCP tool wrappers and the API client (`mcp-server/src/tools/*.ts`, `mcp-server/src/api-client.ts`) are left out. The two delegates are parameters returning an outcome. The tool names are the only constants taken from them.
- Case mapping (`toLowerCase`, `toUpperCase`) covers ASCII letters only, because Unicode case tables are out of scope.
- String ordering is modelled as code-point order (Dafny characters compared by value). SQLite's default BINARY collation on UTF-8 text orders the same way, so the `ORDER BY` listings agree with it. `Object.keys(...).sort()` compares UTF-16 code units instead; the two orders differ only when a character above U+FFFF is compared with one in U+E000 to U+FFFF, and that difference is not modelled. `localeCompare` in `filterAndSortModels` is locale-aware and may order some pairs differently.
- Sort stability is not stated: `FilterAndSortModels` orders by (provider, name) and is a permutation, but the relative order of equal pairs is not pinned down.
- `parseFloat` is a parameter. Floating-point rounding of `price * 1_000_000` is not modelled: prices are reals.
- `parseInt` on the `limit` parameter is not modelled as string parsing. The parameter is already classified as absent, a number or not-a-number (`ModelsRoute.LimitParam`).
- A JSON body member that is a number, boolean or object is not modelled. Only missing, null and string members are. A body that is not valid JSON, or is the literal `null`, throws when it is read or destructured and is modelled as the 500 it causes. Any other non-object JSON body (an array, a string, a number, a boolean) destructures to absent members and is answered with 400.
- Every 500 caused by a store failure is left out, except for the two the inputs themselves cause: an invalid JSON body, and a null `selectedModel` violating the NOT NULL column. This covers failures in the sync insert loop, which has no transaction and can leave a partly refilled cache; the model only has the failed fetch, which happens before the clear.
- Object keys that collide with JavaScript prototype members (for example a provider named "constructor" in `groupByProvider` or the Vercel table) are not modelled; maps are plain maps.
- `getModel` in db.ts:243-245 is not modelled, because no route calls it.
- `GET /api/sync` (sync/route.ts:151-156) only returns a fixed info text and is left out.
- The categories route (`dashboard/src/app/api/categories/route.ts`), the dashboard page and the category card are UI and context; they are not part of this model.
- The schema DDL and the pragmas of `initializeSchema` (db.ts:29-61) and the lazy singleton `getDb` are left out; `Db.Initialize` starts from the seeding decision at db.ts:64-67.
- Db.Initialize: its own contract only says that the cache is untouched and a non-empty table is left alone; what an empty table receives is stated separately by `Db.InitializeSeeds`.
- ModelRoute.SynthesizedName: the first character of a qualified id's name is pinned down through `UpperFirst` in `SynthesizedNameOfQualified` rather than in its own contract.
- Db.InsertCategories: a primary-key conflict (an id already stored, or listed twice) makes the INSERT throw; the requires exclude it, because the only caller seeds an empty table with the ten distinct default ids.
- ModelRoute.Get: the 404 at model/route.ts:86-91 is unreachable because `buildModelInfo` always returns an answer, so it has no response constructor; the 500 catch at 109-115 needs a store failure and is left out.
- VercelModels.GetVercelIdDomain: the table's 36 entries are transcribed, but no lemma counts them.

## Findings

| source | as written | input that shows it | evidently intended | confidence | as-written member | corrected member |
|---|---|---|---|---|---|---|
| dashboard/src/lib/vercel-models.ts:75-92 | the snippet imports the OpenRouter slug `split("/")[0]` directly, so the `mistral` entries of the import table (line 68) and of the provider ternary (line 88) are never reached | `mistralai/mistral-large` with Vercel id `mistral-large-latest` imports `mistralai` from `@ai-sdk/mistralai` | the OpenRouter slug `mistralai` maps to the AI SDK provider `mistral`, importing from `@ai-sdk/mistral` | medium, not executed | VercelModels.SnippetImportsCatalogSlug | VercelModels.GenerateVercelExampleCorrected |
| dashboard/src/lib/vercel-models.ts:75-92 | Meta Llama ids have Vercel ids (lines 35-38), so they get an SDK snippet whose import binding is the slug | `meta-llama/llama-3.3-70b-instruct` yields `import { meta-llama } from "@ai-sdk/meta-llama"`, which does not parse | a slug that is not an identifier falls back to the OpenRouter provider snippet, as an id without a Vercel id does | low, not executed | VercelModels.SnippetImportsCatalogSlug | VercelModels.GenerateVercelExampleCorrected |
