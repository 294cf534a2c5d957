/** The model listing (GET /api/models): the cache in (provider, name)
    order, optionally restricted to one provider, cut to a limit, with the
    count before the cut. */
module ModelsRoute {
  import opened Wrappers
  import opened Strings
  import opened Seqs
  import opened Db
  import opened ApiTypes

  /** The `limit` query parameter after `parseInt`: absent (or empty), a
      number, or NaN. */
  datatype LimitParam = Absent | Number(n: int) | NotANumber

  const DefaultLimit: nat := 100

  /** The end `slice(0, limit)` stops at in a sequence of `length` items:
      a negative limit counts back from the end, NaN reads as 0. */
  function SliceEnd(length: nat, limit: LimitParam): (end: nat)
    ensures end <= length
    ensures limit.Absent? ==> end == if length < DefaultLimit then length else DefaultLimit
    ensures limit.NotANumber? ==> end == 0
    ensures limit.Number? && limit.n >= 0 ==> end == if length < limit.n then length else limit.n
    ensures limit.Number? && limit.n < 0 ==> end == if length + limit.n < 0 then 0 else length + limit.n
  {
    match limit
    case Absent => if length < DefaultLimit then length else DefaultLimit
    case NotANumber => 0
    case Number(n) =>
      if n < 0 then (if length + n < 0 then 0 else length + n)
      else if length < n then length else n
  }

  /** A row passes the provider filter when none is set or its provider
      equals the filter ignoring letter case. */
  predicate ProviderMatches(provider: Option<string>, m: ModelCache) {
    !IsSet(provider) || ToLower(m.row.provider) == ToLower(provider.value)
  }

  function ByProvider(provider: Option<string>): ModelCache -> bool {
    m => ProviderMatches(provider, m)
  }

  datatype ModelsResponse = ModelsResponse(models: seq<ModelInfo>, total: nat, cachedAt: Option<string>)

  /** The response for the cache listing `rows`. */
  function ListModels(rows: seq<ModelCache>, provider: Option<string>, limit: LimitParam): (r: ModelsResponse)
    ensures var kept := Filter(rows, ByProvider(provider));
      && r.total == |kept|
      && |r.models| == SliceEnd(|kept|, limit)
      && (forall i | 0 <= i < |r.models| :: r.models[i] == FromCacheRow(kept[i]))
      && (r.cachedAt.Some? <==> |r.models| > 0)
      && (|r.models| > 0 ==> r.cachedAt == Some(kept[0].cachedAt))
  {
    var kept := Filter(rows, ByProvider(provider));
    var limited := kept[..SliceEnd(|kept|, limit)];
    ModelsResponse(
      seq(|limited|, i requires 0 <= i < |limited| => FromCacheRow(limited[i])),
      |kept|,
      if |limited| > 0 then Some(limited[0].cachedAt) else None)
  }

  /** Without a filter every row counts; with one, exactly the rows of that
      provider do, whatever the letter case. */
  lemma ListModelsTotal(rows: seq<ModelCache>, provider: Option<string>, limit: LimitParam)
    ensures !IsSet(provider) ==> ListModels(rows, provider, limit).total == |rows|
    ensures forall m :: m in Filter(rows, ByProvider(provider)) <==>
      m in rows && (!IsSet(provider) || ToLower(m.row.provider) == ToLower(provider.value))
    ensures ListModels(rows, provider, limit).total >= |ListModels(rows, provider, limit).models|
  {
    if !IsSet(provider) {
      FilterAll(rows, ByProvider(provider));
    }
    forall m ensures m in Filter(rows, ByProvider(provider)) <==> m in rows && ProviderMatches(provider, m) {
      FilterMembership(rows, ByProvider(provider), m);
    }
  }

  /** Each listed model is the info of a row of the listing that passes the
      filter. */
  lemma ListedRowsPassFilter(rows: seq<ModelCache>, provider: Option<string>, limit: LimitParam)
    ensures var r := ListModels(rows, provider, limit);
      forall info | info in r.models :: exists m | m in rows :: ProviderMatches(provider, m) && info == FromCacheRow(m)
  {
    var r := ListModels(rows, provider, limit);
    var keep := ByProvider(provider);
    var kept := Filter(rows, keep);
    forall info | info in r.models ensures exists m | m in rows :: ProviderMatches(provider, m) && info == FromCacheRow(m) {
      var i :| 0 <= i < |r.models| && r.models[i] == info;
      assert kept[i] in kept;
      FilterMembership(rows, keep, kept[i]);
    }
  }

  /** The listing's (provider, name) order carries over to the answer. */
  lemma ListedInOrder(rows: seq<ModelCache>, provider: Option<string>, limit: LimitParam)
    requires forall i, j :: 0 <= i < j < |rows| ==> ProviderNameLe(rows[i], rows[j])
    ensures var r := ListModels(rows, provider, limit);
      forall i, j :: 0 <= i < j < |r.models| ==>
        PairLe(r.models[i].provider, r.models[i].name, r.models[j].provider, r.models[j].name)
  {
    var keep := ByProvider(provider);
    var le: (ModelCache, ModelCache) -> bool := ProviderNameLe;
    FilterKeepsOrder(rows, keep, le);
    var kept := Filter(rows, keep);
    var r := ListModels(rows, provider, limit);
    forall i, j | 0 <= i < j < |r.models|
      ensures PairLe(r.models[i].provider, r.models[i].name, r.models[j].provider, r.models[j].name)
    {
      assert r.models[i] == FromCacheRow(kept[i]) && r.models[j] == FromCacheRow(kept[j]);
      assert j < |kept| by { assert |r.models| == SliceEnd(|kept|, limit); }
      assert le(kept[i], kept[j]);
    }
  }

  /** Over a listing of the whole cache: some row passes the filter exactly
      when some cached row does, and a non-empty page starts with a cached
      row that passes it and carries that row's timestamp. */
  lemma ListingMatchesStore(s: Store, rows: seq<ModelCache>, provider: Option<string>, limit: LimitParam)
    requires IsCacheListing(s, rows)
    ensures var r := ListModels(rows, provider, limit);
      && (r.total > 0 <==> exists k | k in s.models :: ProviderMatches(provider, s.models[k]))
      && (|r.models| > 0 ==> exists k | k in s.models ::
            (ProviderMatches(provider, s.models[k])
             && r.models[0] == FromCacheRow(s.models[k]) && r.cachedAt == Some(s.models[k].cachedAt)))
  {
    var r := ListModels(rows, provider, limit);
    var keep := ByProvider(provider);
    var kept := Filter(rows, keep);
    if |kept| > 0 {
      assert kept[0] in kept;
      FilterMembership(rows, keep, kept[0]);
      var k := kept[0].row.id;
      assert k in s.models && s.models[k] == kept[0];
    }
    if exists k | k in s.models :: ProviderMatches(provider, s.models[k]) {
      var k :| k in s.models && ProviderMatches(provider, s.models[k]);
      assert s.models[k] in rows;
      FilterMembership(rows, keep, s.models[k]);
      assert s.models[k] in kept;
    }
  }

  /** The listing response over a listing of the whole cache, in terms of
      the cache itself. */
  lemma ListModelsOverCache(s: Store, rows: seq<ModelCache>, provider: Option<string>, limit: LimitParam)
    requires IsCacheListing(s, rows)
    ensures var r := ListModels(rows, provider, limit);
      && |r.models| <= r.total <= |s.models|
      && |r.models| == SliceEnd(r.total, limit)
      && (!IsSet(provider) ==> r.total == |s.models|)
      && (r.total > 0 <==> exists k | k in s.models :: ProviderMatches(provider, s.models[k]))
      && (forall info | info in r.models :: exists k | k in s.models ::
            ProviderMatches(provider, s.models[k]) && info == FromCacheRow(s.models[k]))
      && (forall i, j :: 0 <= i < j < |r.models| ==>
            PairLe(r.models[i].provider, r.models[i].name, r.models[j].provider, r.models[j].name))
      && (r.cachedAt.Some? <==> |r.models| > 0)
      && (|r.models| > 0 ==> exists k | k in s.models ::
            (ProviderMatches(provider, s.models[k])
             && r.models[0] == FromCacheRow(s.models[k]) && r.cachedAt == Some(s.models[k].cachedAt)))
  {
    var r := ListModels(rows, provider, limit);
    ListModelsTotal(rows, provider, limit);
    ListedRowsPassFilter(rows, provider, limit);
    ListedInOrder(rows, provider, limit);
    ListingMatchesStore(s, rows, provider, limit);
    forall info | info in r.models
      ensures exists k | k in s.models :: ProviderMatches(provider, s.models[k]) && info == FromCacheRow(s.models[k])
    {
      var m :| m in rows && ProviderMatches(provider, m) && info == FromCacheRow(m);
      assert s.models[m.row.id] == m;
    }
  }

  /** GET /api/models?provider=..&limit=..: the listing is taken from the
      cache in (provider, name) order and the answer keeps that order. */
  method Get(s: Store, provider: Option<string>, limit: LimitParam) returns (r: ModelsResponse)
    requires Valid(s)
    ensures exists rows :: IsCacheListing(s, rows) && r == ListModels(rows, provider, limit)
    ensures |r.models| <= r.total <= |s.models|
    ensures |r.models| == SliceEnd(r.total, limit)
    ensures !IsSet(provider) ==> r.total == |s.models|
    ensures r.total > 0 <==> exists k | k in s.models :: ProviderMatches(provider, s.models[k])
    ensures forall info | info in r.models :: exists k | k in s.models ::
      ProviderMatches(provider, s.models[k]) && info == FromCacheRow(s.models[k])
    ensures forall i, j :: 0 <= i < j < |r.models| ==>
      PairLe(r.models[i].provider, r.models[i].name, r.models[j].provider, r.models[j].name)
    ensures r.cachedAt.Some? <==> |r.models| > 0
    ensures |r.models| > 0 ==> exists k | k in s.models ::
      (ProviderMatches(provider, s.models[k])
       && r.models[0] == FromCacheRow(s.models[k]) && r.cachedAt == Some(s.models[k].cachedAt))
  {
    var rows := GetAllModels(s);
    r := ListModels(rows, provider, limit);
    ListModelsOverCache(s, rows, provider, limit);
  }
}
