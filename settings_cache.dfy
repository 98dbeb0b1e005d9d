/**
 * The resolver entry point: normalises the application id, consults and
 * maintains the per-application cache, and publishes the resolved record to
 * the process-wide current-settings slot.
 */
module SettingsCache {
  import opened RimeTypes
  import opened ConfigStore
  import opened SettingsLayer

  /**
   * The zero-initialised current-settings slot before any resolution: FALSE,
   * the first enumerator of each style enum, and orientation 0, which is the
   * platform's horizontal orientation.
   */
  const ZERO_SETTINGS: Settings := Settings(false, Composition, Insert, Horizontal, None)

  /** The cache key for an application id: a missing or empty id becomes "". */
  function NormaliseAppId(appId: Option<string>): (key: string)
    ensures key == "" <==> appId.None? || appId.value == ""
    ensures key != "" ==> appId == Some(key)
  {
    if appId.Some? && |appId.value| > 0 then appId.value else ""
  }

  /** What the resolver owns: the published slot and the cache. */
  datatype ResolverState = ResolverState(current: Settings, cache: map<string, AppSettings>)

  /** Every cache entry records the key it is stored under. */
  ghost predicate EntriesMatchKeys(cache: map<string, AppSettings>)
  {
    forall k :: k in cache ==> cache[k].appId == k
  }

  /**
   * Every cached record is the record resolution yields for its own key from
   * the store recorded for that key in `sources`, so a hit never serves a
   * record computed for another application.
   */
  ghost predicate EntriesResolvedFrom(cache: map<string, AppSettings>, sources: map<string, Config>)
  {
    && sources.Keys == cache.Keys
    && forall k :: k in cache ==> cache[k].settings == Resolve(sources[k], k)
  }

  /** Whether a call opens the store: a forced reload, or a key the cache lacks. */
  predicate OpensStore(cache: map<string, AppSettings>, key: string, forceReload: bool)
  {
    forceReload || key !in cache
  }

  /**
   * The state after one call: a forced reload first empties the whole cache;
   * a cache hit only republishes the cached record; otherwise, if the store
   * opens, the freshly resolved record is published and cached under the key,
   * and if it does not open nothing further changes.
   */
  function LoadSettingsSpec(st: ResolverState, appId: Option<string>, forceReload: bool, backend: Backend): (r: ResolverState)
    ensures r.cache.Keys <= (if forceReload then {} else st.cache.Keys) + {NormaliseAppId(appId)}
    ensures r.current == st.current ||
      (NormaliseAppId(appId) in r.cache && r.cache[NormaliseAppId(appId)].settings == r.current)
  {
    var key := NormaliseAppId(appId);
    var cache := if forceReload then map[] else st.cache;
    if !OpensStore(st.cache, key, forceReload) then
      ResolverState(st.cache[key].settings, st.cache)
    else if !backend.opens then
      ResolverState(st.current, cache)
    else
      var settings := Resolve(backend.config, key);
      ResolverState(settings, cache[key := AppSettings(key, settings)])
  }

  /** Every call keeps each cache entry under its own application id. */
  lemma LoadKeepsEntriesMatchingKeys(st: ResolverState, appId: Option<string>, forceReload: bool, backend: Backend)
    requires EntriesMatchKeys(st.cache)
    ensures EntriesMatchKeys(LoadSettingsSpec(st, appId, forceReload, backend).cache)
  {
  }

  /**
   * The store each cache entry was resolved from, after one call: emptied
   * with the cache on a forced reload, and the opened store recorded for the
   * key on a successful resolution.
   */
  ghost function NextSources(sources: map<string, Config>, cache: map<string, AppSettings>,
                             appId: Option<string>, forceReload: bool, backend: Backend): map<string, Config>
  {
    var key := NormaliseAppId(appId);
    var cleared := if forceReload then map[] else sources;
    if !OpensStore(cache, key, forceReload) then sources
    else if !backend.opens then cleared
    else cleared[key := backend.config]
  }

  /** Every call keeps each cached record resolved for its own key from its recorded store. */
  lemma LoadKeepsEntriesResolvedFrom(st: ResolverState, sources: map<string, Config>, appId: Option<string>,
                                     forceReload: bool, backend: Backend)
    requires EntriesResolvedFrom(st.cache, sources)
    ensures EntriesResolvedFrom(LoadSettingsSpec(st, appId, forceReload, backend).cache,
                                NextSources(sources, st.cache, appId, forceReload, backend))
  {
  }

  /**
   * A cache hit publishes the cached record, leaves the cache alone and does
   * not depend on the store at all; when every entry was resolved from its
   * recorded store, the record it publishes is the one resolved for this
   * very application id from the store recorded for it.
   */
  lemma CacheHit(st: ResolverState, sources: map<string, Config>, appId: Option<string>, b1: Backend, b2: Backend)
    requires NormaliseAppId(appId) in st.cache
    ensures var r := LoadSettingsSpec(st, appId, false, b1);
      && r.current == st.cache[NormaliseAppId(appId)].settings
      && r.cache == st.cache
      && r == LoadSettingsSpec(st, appId, false, b2)
    ensures EntriesResolvedFrom(st.cache, sources) ==>
      var key := NormaliseAppId(appId);
      LoadSettingsSpec(st, appId, false, b1).current == Resolve(sources[key], key)
  {
  }

  /**
   * After a successful resolution the slot holds the record resolved from the
   * store, the cache maps the key to an entry carrying that key and a copy of
   * the slot, and every other key is as it was after the optional clear.
   */
  lemma SuccessfulResolution(st: ResolverState, appId: Option<string>, forceReload: bool, backend: Backend)
    requires OpensStore(st.cache, NormaliseAppId(appId), forceReload) && backend.opens
    ensures var key := NormaliseAppId(appId);
      var r := LoadSettingsSpec(st, appId, forceReload, backend);
      && r.current == Resolve(backend.config, key)
      && key in r.cache && r.cache[key] == AppSettings(key, r.current)
      && (forall k :: k != key ==> (k in r.cache <==> !forceReload && k in st.cache))
      && (forall k :: k != key && k in r.cache ==> r.cache[k] == st.cache[k])
  {
  }

  /**
   * When the store cannot be opened the slot keeps its value and the cache
   * is only what the forced clear left of it.
   */
  lemma OpenFailure(st: ResolverState, appId: Option<string>, forceReload: bool, backend: Backend)
    requires OpensStore(st.cache, NormaliseAppId(appId), forceReload) && !backend.opens
    ensures var r := LoadSettingsSpec(st, appId, forceReload, backend);
      && r.current == st.current
      && r.cache == (if forceReload then map[] else st.cache)
  {
  }

  /**
   * An application never resolved before, against a store that opens but
   * answers nothing, gets exactly the compiled-in default record.
   */
  lemma NewAppAgainstEmptyStoreGetsDefault(st: ResolverState, appId: Option<string>, forceReload: bool)
    requires NormaliseAppId(appId) !in st.cache
    ensures LoadSettingsSpec(st, appId, forceReload, Backend(true, EMPTY_CONFIG)).current == DEFAULT_SETTINGS
  {
    ResolveEmptyStoreIsDefault(NormaliseAppId(appId));
  }

  /**
   * A forced reload evicts every other application: afterwards the cache
   * holds at most the key just resolved, whatever it held before.
   */
  lemma ForcedReloadEvictsAll(st: ResolverState, appId: Option<string>, backend: Backend)
    ensures LoadSettingsSpec(st, appId, true, backend).cache.Keys <= {NormaliseAppId(appId)}
  {
  }

  /**
   * Resolving the same application twice in a row without forcing publishes
   * the same record and leaves the same state, even when the store is
   * unreachable the second time.
   */
  lemma RepeatedLoadIsStable(st: ResolverState, appId: Option<string>, forceReload: bool,
                             b1: Backend, b2: Backend)
    requires b1.opens || !OpensStore(st.cache, NormaliseAppId(appId), forceReload)
    ensures var once := LoadSettingsSpec(st, appId, forceReload, b1);
      LoadSettingsSpec(once, appId, false, b2) == once
  {
    var key := NormaliseAppId(appId);
    var once := LoadSettingsSpec(st, appId, forceReload, b1);
    assert key in once.cache && once.cache[key].settings == once.current;
  }

  /**
   * Load A, then B, then force-reload A: a later unforced load of B misses
   * the cache and so reflects the store as it is then, not as it was.
   */
  lemma ForcedReloadForgetsOtherApps(st: ResolverState, a: string, b: string,
                                     earlier: Backend, reloaded: Backend, later: Backend)
    requires a != b && later.opens
    ensures var s1 := LoadSettingsSpec(st, Some(a), false, earlier);
      var s2 := LoadSettingsSpec(s1, Some(b), false, earlier);
      var s3 := LoadSettingsSpec(s2, Some(a), true, reloaded);
      LoadSettingsSpec(s3, Some(b), false, later).current == Resolve(later.config, b)
  {
    var s1 := LoadSettingsSpec(st, Some(a), false, earlier);
    var s2 := LoadSettingsSpec(s1, Some(b), false, earlier);
    var s3 := LoadSettingsSpec(s2, Some(a), true, reloaded);
    ForcedReloadEvictsAll(s2, Some(a), reloaded);
    assert b !in s3.cache;
  }

  /**
   * The resolver's shared state: the current-settings slot read by the UI and
   * the per-application cache. Ghost state records the store each cache
   * entry was resolved from and how often the store has been opened.
   */
  class Resolver {
    var current: Settings
    var cache: map<string, AppSettings>
    ghost var sources: map<string, Config>
    ghost var storeOpens: nat

    ghost predicate Valid()
      reads this
    {
      EntriesMatchKeys(cache) && EntriesResolvedFrom(cache, sources)
    }

    ghost function State(): ResolverState
      reads this
    {
      ResolverState(current, cache)
    }

    /** The state at process start: a zeroed slot and an empty cache. */
    constructor ()
      ensures Valid()
      ensures current == ZERO_SETTINGS && cache == map[] && storeOpens == 0
    {
      current := ZERO_SETTINGS;
      cache := map[];
      sources := map[];
      storeOpens := 0;
    }

    /**
     * Resolves the settings for `appId`, publishing them to `current` and
     * caching them; with `forceReload` the whole cache is dropped first.
     */
    method LoadSettings(appId: Option<string>, forceReload: bool, backend: Backend)
      requires Valid()
      modifies this
      ensures Valid()
      ensures State() == LoadSettingsSpec(old(State()), appId, forceReload, backend)
      ensures sources == NextSources(old(sources), old(cache), appId, forceReload, backend)
      ensures storeOpens == old(storeOpens) + (if OpensStore(old(cache), NormaliseAppId(appId), forceReload) then 1 else 0)
    {
      LoadKeepsEntriesMatchingKeys(State(), appId, forceReload, backend);
      LoadKeepsEntriesResolvedFrom(State(), sources, appId, forceReload, backend);
      var key := NormaliseAppId(appId);

      if forceReload {
        cache := map[];
        sources := map[];
      } else if key in cache {
        current := cache[key].settings;
        return;
      }

      storeOpens := storeOpens + 1;
      if !backend.opens {
        return;
      }

      var settings := LoadSettingsFromPath(DEFAULT_SETTINGS, backend.config, Some(""));
      ghost var global := settings;
      if |key| > 0 {
        var appPath := AppOptionsPath(key);
        if HasItem(backend.config, appPath) {
          settings := LoadSettingsFromPath(settings, backend.config, Some(appPath));
        }
      }
      assert AppLayerRuns(backend.config, key) <==> |key| > 0 && HasItem(backend.config, AppOptionsPath(key));
      assert settings == if AppLayerRuns(backend.config, key)
        then ApplyLayer(global, backend.config, Some(AppOptionsPath(key))) else global;

      current := settings;
      cache := cache[key := AppSettings(key, current)];
      sources := sources[key := backend.config];
    }
  }
}
