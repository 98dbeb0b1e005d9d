# ibus-rime per-application settings: a Dafny model

This project models the settings resolver and cache of the ibus-rime input
method front-end. Given an application id, the front-end produces a complete
settings record: whether the preedit text is embedded, the preedit style, the
cursor type, the orientation of the candidate table and an optional colour
scheme. It starts from a compiled-in default. It then lets the global `style/…`
keys of the `ibus_rime` configuration override fields, and then the keys under
`app_options/<app id>/style/…`. The result is published to the process-wide
current-settings slot and cached per application id. A forced reload drops
the whole cache.

Files and modules:

- `rime_types.dfy` (`RimeTypes`): the enums, the colour-scheme definition,
  the five-field settings record and the cache entry of `rime_settings.h`.
- `config_store.dfy` (`ConfigStore`): the configuration store, seen only
  through its answers. It is a map from path to boolean, a map from path to
  string and the set of paths where an item exists. A `Backend` adds whether
  opening the store succeeds.
- `color_schemes.dfy` (`ColorSchemes`): the four-entry preset table. It also
  holds a recursive reference definition of "first entry with this id" and
  the table scan of `select_color_scheme` as a loop proved against it.
- `settings_layer.dfy` (`SettingsLayer`): path joining, the recognised key
  values, one override layer as a specification function (`ApplyLayer`), and
  `load_settings_from_path` as a method proved equal to it. It also holds the
  resolution default → global layer → application layer (`Resolve`) with its
  layering properties.
- `settings_cache.dfy` (`SettingsCache`): normalisation of the application id
  and one resolver call as a state transition (`LoadSettingsSpec`) with its
  cache properties. The class `Resolver` holds the slot and the cache as
  fields; its `LoadSettings` method is `ibus_rime_load_settings` proved
  against that transition. A forced reload empties the cache before the
  store is opened (rime_settings.c:123-124, 134); if the open then fails,
  the cache stays empty and the slot keeps its value
  (`SettingsCache.OpenFailure`).

## Model

| member | source | states |
|---|---|---|
| `ColorSchemes.FindFrom` | rime_settings.c:41-47 | the result is the first index at or after the start whose id equals the given id; None means no entry from the start on has that id |
| `ColorSchemes.LookupScheme` | rime_settings.c:37-50 | the result is None exactly when no preset has the id; otherwise it is a preset whose id is exactly the given one |
| `ColorSchemes.PresetTableWellFormed` | rime_settings.c:8-14 | the preset ids are non-empty and pairwise distinct and every colour fits in 24 bits, so an entry is identified by its id |
| `ColorSchemes.LookupPresetId` | rime_settings.c:8-14 | looking up the id of any preset yields that preset |
| `ColorSchemes.LookupRecognisesExactlyPresets` | rime_settings.c:9-12 | exactly `aqua`, `azure`, `ink` and `luna` are recognised; the empty id never is |
| `ColorSchemes.SelectColorScheme` | rime_settings.c:36-50 | the table scan replaces only the colour scheme, by the first exact match or by None when none matches; the other four fields are kept |
| `SettingsLayer.JoinPath` | rime_settings.c:56-59 | an absent or empty base gives the suffix alone; the full shape (base, one `/`, suffix) is `JoinPathShape` and distinct keys stay distinct by `JoinPathInjective` |
| `SettingsLayer.JoinPathShape` | rime_settings.c:56-59 | a key path is the suffix alone for an absent or empty base, and otherwise the base, one `/` and the suffix |
| `SettingsLayer.JoinPathInjective` | rime_settings.c:65-68 | under one base, different key suffixes give different store paths, so each field is read from its own key |
| `SettingsLayer.AppOptionsPath` | rime_settings.c:143 | the application section is `app_options/` followed by the application id itself |
| `SettingsLayer.KeyPathsOfBothLayers` | rime_settings.c:139-145 | the global layer queries exactly `style/inline_preedit`; the layer of application `foo` queries exactly `app_options/foo/style/inline_preedit` |
| `SettingsLayer.ParsePreeditStyle` | rime_settings.c:71-77 | a preedit style is recognised exactly for the strings `composition` and `preview` |
| `SettingsLayer.ParseCursorType` | rime_settings.c:85-91 | a cursor type is recognised exactly for the strings `insert` and `select` |
| `SettingsLayer.PreeditStyleNamesRoundTrip` | rime_settings.h:11-14 | there are exactly two preedit styles, each with exactly one recognised spelling |
| `SettingsLayer.CursorTypeNamesRoundTrip` | rime_settings.h:16-19 | there are exactly two cursor types, each with exactly one recognised spelling |
| `SettingsLayer.OrientationOf` | rime_settings.c:99-100 | a present `style/horizontal` flag never yields the system default orientation; it yields Horizontal exactly when the flag is true, and Vertical otherwise |
| `SettingsLayer.ReadInlinePreedit` | rime_settings.c:55-63 | a present `style/inline_preedit` sets the embed flag to its value; an absent one leaves the record unchanged |
| `SettingsLayer.ReadPreeditStyle` | rime_settings.c:65-77 | the preedit style changes only for a present, recognised string; nothing else changes |
| `SettingsLayer.ReadCursorType` | rime_settings.c:79-91 | the cursor type changes only for a present, recognised string; nothing else changes |
| `SettingsLayer.ReadHorizontal` | rime_settings.c:93-102 | a present flag sets the orientation to Horizontal (true) or Vertical (false); an absent one leaves it |
| `SettingsLayer.ReadColorScheme` | rime_settings.c:104-112 | a present `style/color_scheme` goes through the preset lookup; an absent one leaves the scheme untouched |
| `SettingsLayer.ApplyLayer` | rime_settings.c:52-113 | one layer never introduces the SystemDefault orientation, and the scheme it leaves is the earlier one, None or a preset; `LaterLayerWins`, `UnrecognisedValues`, `SilentLayerIsIdentity` and `ApplyLayerIdempotent` characterise it field by field |
| `SettingsLayer.LoadSettingsFromPath` | rime_settings.c:52-113 | reading the five keys one after the other gives exactly the one-layer override `ApplyLayer` |
| `SettingsLayer.SilentLayerIsIdentity` | rime_settings.c:52-113 | a layer whose five keys are all absent leaves the record exactly as it was |
| `SettingsLayer.ApplyLayerIdempotent` | rime_settings.c:52-113 | applying one layer twice is the same as applying it once |
| `SettingsLayer.UnrecognisedValues` | rime_settings.c:69-112 | an unrecognised enum string leaves its field unchanged, while an unrecognised colour-scheme id sets the scheme to None whatever it was |
| `SettingsLayer.LaterLayerWins` | rime_settings.c:139-148 | field by field, a value the later layer supplies wins over whatever the earlier layers produced |
| `SettingsLayer.Resolve` | rime_settings.c:139-148 | a resolved scheme is always a preset, and SystemDefault orientation implies the global `style/horizontal` key is absent; the layering default → global → application is characterised by `LaterLayerWins`, `ResolveWithoutAppSection` and `SystemOrientationSurvivesOnlyWithoutKey` |
| `SettingsLayer.ResolveEmptyStoreIsDefault` | rime_settings.c:16-22 | against a store that answers nothing, every application resolves to the compiled-in default exactly |
| `SettingsLayer.ResolveWithoutAppSection` | rime_settings.c:142-148 | without an existing `app_options/<id>` item, or for the empty id, an application resolves to the global record |
| `SettingsLayer.SystemOrientationSurvivesOnlyWithoutKey` | rime_settings.c:93-101 | the orientation stays SystemDefault exactly when no layer that runs has a `style/horizontal` key |
| `SettingsLayer.AppOverrideExample` | rime_settings.c:139-148 | with a global `select` cursor and an `insert` override for `foo`, `foo` gets Insert while the global record and `bar` get Select |
| `SettingsLayer.UnknownAppSchemeClearsGlobalScheme` | rime_settings.c:108-112 | with a global `aqua` scheme and an unknown scheme for `foo`, `foo` gets no scheme while the global record keeps `aqua` |
| `SettingsCache.NormaliseAppId` | rime_settings.c:117 | the key is empty exactly for a missing or empty id, and otherwise is the id itself |
| `SettingsCache.LoadSettingsSpec` | rime_settings.c:115-158 | one call adds at most its own key to the cache (after the optional full clear), and the slot either keeps its value or equals the cache entry for the key; `CacheHit`, `OpenFailure`, `SuccessfulResolution` and `ForcedReloadEvictsAll` give each path |
| `SettingsCache.CacheHit` | rime_settings.c:126-130 | on an unforced hit the slot becomes the cached record, the cache is unchanged and the outcome does not depend on the store; when every entry was resolved from its recorded store, the published record is the one resolved for this very application id from the store recorded for it |
| `SettingsCache.OpenFailure` | rime_settings.c:133-137 | when the store does not open the slot keeps its value and the cache is only what the forced clear left |
| `SettingsCache.SuccessfulResolution` | rime_settings.c:150-157 | after a successful resolution the slot holds the resolved record and the key maps to an entry carrying the key and a copy of the slot; other keys are as after the optional clear |
| `SettingsCache.LoadKeepsEntriesResolvedFrom` | rime_settings.c:152-157 | every call keeps each cached record equal to what resolution yields for its own key from the store recorded for that key (emptied with the cache on a forced reload, set to the opened store on a resolution), so no entry holds a record computed for another application |
| `SettingsCache.LoadKeepsEntriesMatchingKeys` | rime_settings.c:154-157 | every call keeps each cache entry stored under its own application id |
| `SettingsCache.ForcedReloadEvictsAll` | rime_settings.c:123-124 | after a forced reload the cache holds at most the key just resolved |
| `SettingsCache.ForcedReloadForgetsOtherApps` | rime_settings.c:123-124 | for any two distinct application ids (the empty global id included), after loading A and B and force-reloading A, an unforced load of B reflects the store as it is now |
| `SettingsCache.RepeatedLoadIsStable` | rime_settings.c:123-131 | after a call that did not fail, repeating it unforced leaves the same state, even if the store can no longer be opened |
| `SettingsCache.NewAppAgainstEmptyStoreGetsDefault` | rime_settings.c:139-152 | an application not in the cache, resolved against an empty store, gets exactly the default record |
| `SettingsCache.Resolver.constructor` | rime_settings.c:24-25 | the process starts with the zero-initialised slot and an empty cache |
| `SettingsCache.Resolver.LoadSettings` | rime_settings.c:115-158 | one call changes the slot and the cache exactly as `LoadSettingsSpec` says, keeps every entry under its own key and equal to the record resolved for that key from the store it was read from (ghost `sources`), and opens the store only on a forced reload or a cache miss |

## Left out

- The Rime configuration API (`config_open`, `config_get_bool`, `config_get_cstring`, `config_get_item`, `config_close`) is foreign code. The store is modelled by its answers: two finite maps, a set of existing item paths, and a flag for whether opening succeeds. The model does not require these to be consistent with each other (for example, keys below `app_options/foo` while the item `app_options/foo` is absent), so the properties hold for every store.
- Closing the store has no observable effect on the slot or the cache and is not modelled.
- GLib memory management (`g_strdup_printf`, `g_free`, `g_malloc`, `app_settings_destroy`) and the hash table's internals are left out. The cache is a Dafny `map`, and its lazy creation on first use (rime_settings.c:119-121) is invisible in the model.
- Logging (`g_debug`, `g_error`) is left out. `g_error` aborts the process, so the `return` after a failed open is never reached in practice. The model takes that `return` as written: the call ends with no further state change.
- The settings record that `select_color_scheme` and `load_settings_from_path` update through a pointer is passed in and returned as a value. Their only caller passes the address of a local record, so no aliasing is lost.
- The colour scheme of a record is a pointer into the static table. It is modelled as a copy of the table entry; the preset ids are distinct, so an entry and its copy identify each other.
- Orientation is a three-valued datatype instead of the ibus `IBUS_ORIENTATION_*` integers. The zero-initialised slot is taken to hold the horizontal orientation, which is ibus's enumerator 0.
- The colour macros `RIME_COLOR_LIGHT`, `RIME_COLOR_DARK` and `RIME_COLOR_BLACK` are not used by this code.
- `ibus_rime_deploy` is declared in rime_settings.h but not defined in the modelled file.
- Concurrency: the code has no locking, and the model is single-threaded.
- Strings are Dafny strings compared for exact equality. C strings end at their first NUL, so an id containing NUL cannot occur there; the model does not exclude it.
