/** The static mapping from catalog ids to the ids of the provider SDKs, and
    the code snippet shown for a model. */
module VercelModels {
  import opened Wrappers
  import opened Strings

  /** Catalog id to provider-native SDK id, for the 36 known models. */
  const VercelIdMap: map<string, string> := map[
    "anthropic/claude-opus-4" := "claude-opus-4-20250514",
    "anthropic/claude-sonnet-4" := "claude-sonnet-4-20250514",
    "anthropic/claude-3.5-sonnet" := "claude-3-5-sonnet-20241022",
    "anthropic/claude-3.5-haiku" := "claude-3-5-haiku-20241022",
    "anthropic/claude-3-opus" := "claude-3-opus-20240229",
    "anthropic/claude-3-sonnet" := "claude-3-sonnet-20240229",
    "anthropic/claude-3-haiku" := "claude-3-haiku-20240307",
    "openai/gpt-4o" := "gpt-4o",
    "openai/gpt-4o-mini" := "gpt-4o-mini",
    "openai/gpt-4-turbo" := "gpt-4-turbo",
    "openai/gpt-4" := "gpt-4",
    "openai/gpt-3.5-turbo" := "gpt-3.5-turbo",
    "openai/o1" := "o1",
    "openai/o1-mini" := "o1-mini",
    "openai/o1-preview" := "o1-preview",
    "openai/o3-mini" := "o3-mini",
    "google/gemini-2.0-pro-exp" := "gemini-2.0-pro-exp",
    "google/gemini-2.0-flash-exp" := "gemini-2.0-flash-exp",
    "google/gemini-2.0-flash-thinking-exp" := "gemini-2.0-flash-thinking-exp",
    "google/gemini-1.5-pro" := "gemini-1.5-pro",
    "google/gemini-1.5-flash" := "gemini-1.5-flash",
    "google/gemini-pro" := "gemini-pro",
    "meta-llama/llama-3.3-70b-instruct" := "llama-3.3-70b-instruct",
    "meta-llama/llama-3.1-405b-instruct" := "llama-3.1-405b-instruct",
    "meta-llama/llama-3.1-70b-instruct" := "llama-3.1-70b-instruct",
    "meta-llama/llama-3.1-8b-instruct" := "llama-3.1-8b-instruct",
    "mistralai/mistral-large" := "mistral-large-latest",
    "mistralai/mistral-medium" := "mistral-medium-latest",
    "mistralai/mistral-small" := "mistral-small-latest",
    "mistralai/mixtral-8x7b-instruct" := "open-mixtral-8x7b",
    "mistralai/mixtral-8x22b-instruct" := "open-mixtral-8x22b",
    "deepseek/deepseek-chat" := "deepseek-chat",
    "deepseek/deepseek-coder" := "deepseek-coder",
    "deepseek/deepseek-reasoner" := "deepseek-reasoner",
    "cohere/command-r-plus" := "command-r-plus",
    "cohere/command-r" := "command-r"
  ]

  /** `VERCEL_ID_MAP[id] || null`: the mapped id, or none. */
  function GetVercelId(openRouterId: string): (r: Option<string>)
    ensures r.Some? ==> openRouterId in VercelIdMap && r.value == VercelIdMap[openRouterId] && r.value != ""
    ensures r.None? ==> openRouterId !in VercelIdMap || VercelIdMap[openRouterId] == ""
  {
    if openRouterId in VercelIdMap && VercelIdMap[openRouterId] != "" then Some(VercelIdMap[openRouterId])
    else None
  }

  /** Exactly the 36 listed ids have an SDK id; lookup is exact, so any other
      spelling (a different letter case included) has none. */
  lemma GetVercelIdDomain(openRouterId: string)
    ensures GetVercelId(openRouterId).Some? <==> openRouterId in VercelIdMap
    ensures openRouterId in VercelIdMap ==> GetVercelId(openRouterId) == Some(VercelIdMap[openRouterId])
  {
    assert forall k | k in VercelIdMap :: VercelIdMap[k] != "";
  }

  /** Two listed ids and their SDK ids. */
  lemma GetVercelIdExamples()
    ensures GetVercelId("anthropic/claude-sonnet-4") == Some("claude-sonnet-4-20250514")
    ensures GetVercelId("mistralai/mixtral-8x7b-instruct") == Some("open-mixtral-8x7b")
  {
  }

  /** Two ids without an SDK id: a listed id in other letter case, and an
      unlisted provider. */
  lemma GetVercelIdMisses()
    ensures GetVercelId("Anthropic/claude-sonnet-4").None?
    ensures GetVercelId("perplexity/sonar").None?
  {
  }

  /** The per-provider import table of `getVercelSdkImport`. */
  const SdkImports: map<string, string> := map[
    "anthropic" := "@ai-sdk/anthropic",
    "openai" := "@ai-sdk/openai",
    "google" := "@ai-sdk/google",
    "mistral" := "@ai-sdk/mistral",
    "cohere" := "@ai-sdk/cohere"
  ]

  /** Package to import a provider's SDK from: the table entry, else `@ai-sdk/<provider>`.
      Every table entry coincides with that default. */
  function GetVercelSdkImport(provider: string): (r: string)
    ensures r == "@ai-sdk/" + provider
  {
    if provider in SdkImports && SdkImports[provider] != "" then SdkImports[provider]
    else "@ai-sdk/" + provider
  }

  /** The identifier the snippet calls: each branch of the provider ternary
      names the provider itself. */
  function ProviderFunction(provider: string): (r: string)
    ensures r == provider
  {
    if provider == "anthropic" then "anthropic"
    else if provider == "openai" then "openai"
    else if provider == "google" then "google"
    else if provider == "mistral" then "mistral"
    else if provider == "cohere" then "cohere"
    else provider
  }

  const OpenRouterSnippetHead: string :=
    "// Kein direkter Vercel AI SDK Support - nutze OpenRouter Provider\nimport { openrouter } from \"@openrouter/ai-sdk-provider\";\n\nconst model = openrouter(\""
  const SnippetTail: string := "\");"

  /** Example code for a model: the OpenRouter provider snippet when there is
      no SDK id, otherwise an import of the provider SDK and a call with the SDK id. */
  function GenerateVercelExample(openRouterId: string, vercelId: Option<string>): (r: string)
    ensures vercelId.None? || vercelId == Some("") ==>
      r == OpenRouterSnippetHead + openRouterId + SnippetTail
    ensures vercelId.Some? && vercelId.value != "" ==>
      var provider := FirstPiece(openRouterId, '/');
      r == "import { " + provider + " } from \"" + GetVercelSdkImport(provider) + "\";\n\nconst model = "
           + provider + "(\"" + vercelId.value + SnippetTail
  {
    var provider := FirstPiece(openRouterId, '/');
    if vercelId.None? || vercelId.value == "" then
      OpenRouterSnippetHead + openRouterId + SnippetTail
    else
      var sdkImport := GetVercelSdkImport(provider);
      var providerFn := ProviderFunction(provider);
      "import { " + providerFn + " } from \"" + sdkImport + "\";\n\nconst model = "
        + providerFn + "(\"" + vercelId.value + SnippetTail
  }

  /** The snippet always embeds the catalog id (fallback) or the SDK id verbatim. */
  lemma ExampleEmbedsId(openRouterId: string, vercelId: Option<string>)
    ensures vercelId.None? || vercelId == Some("") ==>
      Contains(GenerateVercelExample(openRouterId, vercelId), openRouterId)
    ensures vercelId.Some? && vercelId.value != "" ==>
      Contains(GenerateVercelExample(openRouterId, vercelId), vercelId.value)
  {
    var r := GenerateVercelExample(openRouterId, vercelId);
    if vercelId.None? || vercelId == Some("") {
      assert r[|OpenRouterSnippetHead|..|OpenRouterSnippetHead| + |openRouterId|] == openRouterId;
      ContainsAt(r, openRouterId, |OpenRouterSnippetHead|);
    } else {
      var provider := FirstPiece(openRouterId, '/');
      var head := "import { " + provider + " } from \"" + GetVercelSdkImport(provider) + "\";\n\nconst model = "
                  + provider + "(\"";
      assert r == head + vercelId.value + SnippetTail;
      assert r[|head|..|head| + |vercelId.value|] == vercelId.value;
      ContainsAt(r, vercelId.value, |head|);
    }
  }

  // ---------------------------------------------------------------------
  // The imported provider name
  // ---------------------------------------------------------------------

  /** The snippet for a model without an SDK id. */
  function OpenRouterSnippet(openRouterId: string): string {
    OpenRouterSnippetHead + openRouterId + SnippetTail
  }

  /** An SDK snippet: the import of `name` from its package and a call to it
      with the SDK id. */
  function SdkSnippet(name: string, vercelId: string): string {
    "import { " + name + " } from \"" + GetVercelSdkImport(name) + "\";\n\nconst model = "
      + name + "(\"" + vercelId + SnippetTail
  }

  predicate IdentifierStart(c: char) { IsUpper(c) || IsLower(c) || c == '_' || c == '$' }

  predicate IdentifierPart(c: char) { IdentifierStart(c) || '0' <= c <= '9' }

  /** An ASCII JavaScript identifier, which an import binding must be. */
  predicate IsIdentifier(s: string) {
    |s| > 0 && IdentifierStart(s[0]) && forall i | 0 < i < |s| :: IdentifierPart(s[i])
  }

  /** As written, an id with an SDK id gets the snippet that imports its
      catalog slug. */
  lemma ExampleImportsSlug(openRouterId: string, vercelId: Option<string>)
    requires IsSet(vercelId)
    ensures GenerateVercelExample(openRouterId, vercelId) == SdkSnippet(FirstPiece(openRouterId, '/'), vercelId.value)
  {
  }

  /** As written, the snippet imports the catalog slug itself. Ids of two
      providers that have SDK ids (see `SdkIdsOfExamples`) show what goes
      wrong: "meta-llama" is not an identifier, so the import does not parse,
      and "mistralai" is not the `mistral` key of the import table or of the
      provider ternary, which no catalog slug ever reaches. */
  lemma SnippetImportsCatalogSlug(model: string, vercelId: string)
    requires vercelId != ""
    ensures GenerateVercelExample("meta-llama/" + model, Some(vercelId)) == SdkSnippet("meta-llama", vercelId)
    ensures !IsIdentifier("meta-llama")
    ensures GenerateVercelExample("mistralai/" + model, Some(vercelId)) == SdkSnippet("mistralai", vercelId)
    ensures "mistralai" !in SdkImports && "mistral" in SdkImports
  {
    CatalogSlugs(model);
    ExampleImportsSlug("meta-llama/" + model, Some(vercelId));
    ExampleImportsSlug("mistralai/" + model, Some(vercelId));
    assert !IdentifierPart("meta-llama"[4]);
  }

  /** The slug of a Meta Llama or Mistral id is the text before its first "/". */
  lemma CatalogSlugs(model: string)
    ensures FirstPiece("meta-llama/" + model, '/') == "meta-llama"
    ensures FirstPiece("mistralai/" + model, '/') == "mistralai"
  {
    assert "meta-llama/" + model == "meta-llama" + ['/'] + model;
    FirstPieceOfQualified("meta-llama", '/', model);
    assert "mistralai/" + model == "mistralai" + ['/'] + model;
    FirstPieceOfQualified("mistralai", '/', model);
  }

  /** Two ids of those providers have SDK ids. */
  lemma SdkIdsOfExamples()
    ensures GetVercelId("meta-llama/llama-3.3-70b-instruct") == Some("llama-3.3-70b-instruct")
    ensures GetVercelId("mistralai/mistral-large") == Some("mistral-large-latest")
  {
  }

  /** The AI SDK provider for a catalog slug: OpenRouter's "mistralai" is the
      SDK's "mistral", any other slug that is an identifier is itself, and a
      slug that is not an identifier has none. */
  function SdkProvider(slug: string): (r: Option<string>)
    ensures r.Some? ==> IsIdentifier(r.value)
    ensures slug == "mistralai" ==> r == Some("mistral")
    ensures slug != "mistralai" ==> (r.Some? <==> IsIdentifier(slug))
    ensures slug != "mistralai" && r.Some? ==> r.value == slug
  {
    if slug == "mistralai" then
      assert IsIdentifier("mistral") by {
        forall i | 0 < i < |"mistral"| ensures IdentifierPart("mistral"[i]) {
          assert IsLower("mistral"[i]);
        }
      }
      Some("mistral")
    else if IsIdentifier(slug) then Some(slug)
    else None
  }

  /** The snippet with the slug mapped to its SDK provider: the OpenRouter
      snippet when there is no SDK id or no SDK provider, otherwise the
      provider's import and call. */
  function GenerateVercelExampleCorrected(openRouterId: string, vercelId: Option<string>): (r: string)
    ensures var provider := SdkProvider(FirstPiece(openRouterId, '/'));
      && (provider.None? || !IsSet(vercelId) ==> r == OpenRouterSnippet(openRouterId))
      && (provider.Some? && IsSet(vercelId) ==> r == SdkSnippet(provider.value, vercelId.value))
  {
    var provider := SdkProvider(FirstPiece(openRouterId, '/'));
    if provider.None? || !IsSet(vercelId) then OpenRouterSnippet(openRouterId)
    else
      SdkSnippet(provider.value, vercelId.value)
  }

  /** The intended property: a snippet either uses the OpenRouter provider or
      imports an identifier. Where the slug already is an identifier other
      than "mistralai", nothing changes against the code as written. */
  lemma CorrectedSnippetImportsIdentifier(openRouterId: string, vercelId: Option<string>)
    ensures var r := GenerateVercelExampleCorrected(openRouterId, vercelId);
      || r == OpenRouterSnippet(openRouterId)
      || (IsSet(vercelId) && exists name :: IsIdentifier(name) && r == SdkSnippet(name, vercelId.value))
    ensures var slug := FirstPiece(openRouterId, '/');
      IsIdentifier(slug) && slug != "mistralai" ==>
        GenerateVercelExampleCorrected(openRouterId, vercelId) == GenerateVercelExample(openRouterId, vercelId)
  {
    var provider := SdkProvider(FirstPiece(openRouterId, '/'));
    if provider.Some? && IsSet(vercelId) {
      assert IsIdentifier(provider.value);
    }
  }

  /** Corrected, a Mistral id imports from the table's "@ai-sdk/mistral"
      and a Meta Llama id falls back to the OpenRouter provider. */
  lemma CorrectedSnippetExamples(model: string, vercelId: string)
    requires vercelId != ""
    ensures GenerateVercelExampleCorrected("meta-llama/" + model, Some(vercelId))
      == OpenRouterSnippet("meta-llama/" + model)
    ensures GenerateVercelExampleCorrected("mistralai/" + model, Some(vercelId)) == SdkSnippet("mistral", vercelId)
    ensures GetVercelSdkImport("mistral") == SdkImports["mistral"]
  {
    CatalogSlugs(model);
    assert !IdentifierPart("meta-llama"[4]);
  }

  /** `{ ...VERCEL_ID_MAP }`: a copy that agrees with GetVercelId on every id. */
  function GetAllVercelMappings(): (r: map<string, string>)
    ensures forall id :: id in r <==> GetVercelId(id).Some?
    ensures forall id | id in r :: Some(r[id]) == GetVercelId(id)
  {
    assert forall k | k in VercelIdMap :: VercelIdMap[k] != "";
    map id | id in VercelIdMap :: VercelIdMap[id]
  }
}
