/**
 * One override layer: the five keys read under a base path and the way each
 * answered key overwrites one field of a settings record; and the resolution
 * of a record from the compiled-in default, the global layer and the
 * per-application layer.
 */
module SettingsLayer {
  import opened RimeTypes
  import opened ConfigStore
  import opened ColorSchemes

  /** The compiled-in default record every resolution starts from. */
  const DEFAULT_SETTINGS: Settings := Settings(true, Composition, Insert, SystemDefault, None)

  const INLINE_PREEDIT_KEY: string := "style/inline_preedit"
  const PREEDIT_STYLE_KEY: string := "style/preedit_style"
  const CURSOR_TYPE_KEY: string := "style/cursor_type"
  const HORIZONTAL_KEY: string := "style/horizontal"
  const COLOR_SCHEME_KEY: string := "style/color_scheme"

  // ---------------------------------------------------------------------------
  // Paths

  /** The store path of `suffix` under `base`. */
  function JoinPath(base: Option<string>, suffix: string): (path: string)
    ensures base.None? || base.value == "" ==> path == suffix
  {
    if base.Some? && |base.value| > 0 then base.value + "/" + suffix else suffix
  }

  /**
   * A joined path is the suffix alone when the base is absent (NULL) or
   * empty, and otherwise the base, a single '/' and the suffix.
   */
  lemma JoinPathShape(base: Option<string>, suffix: string)
    ensures base.None? || base.value == "" ==> JoinPath(base, suffix) == suffix
    ensures base.Some? && base.value != "" ==>
      var path := JoinPath(base, suffix);
      |path| == |base.value| + 1 + |suffix| &&
      path[..|base.value|] == base.value && path[|base.value|] == '/' &&
      path[|base.value| + 1..] == suffix
  {
  }

  /** Under one base, different suffixes give different paths. */
  lemma JoinPathInjective(base: Option<string>, s1: string, s2: string)
    requires JoinPath(base, s1) == JoinPath(base, s2)
    ensures s1 == s2
  {
    JoinPathShape(base, s1);
    JoinPathShape(base, s2);
    if base.Some? && base.value != "" {
      var n := |base.value| + 1;
      assert s1 == JoinPath(base, s1)[n..];
      assert s2 == JoinPath(base, s2)[n..];
    }
  }

  /** The root of the per-application override section for a non-empty app id. */
  function AppOptionsPath(appId: string): (path: string)
    ensures |path| == |"app_options/"| + |appId|
    ensures path[..|"app_options/"|] == "app_options/" && path[|"app_options/"|..] == appId
  {
    "app_options/" + appId
  }

  /** The global layer reads keys at the root, an application's layer below its section. */
  lemma KeyPathsOfBothLayers()
    ensures JoinPath(Some(""), INLINE_PREEDIT_KEY) == "style/inline_preedit"
    ensures JoinPath(None, INLINE_PREEDIT_KEY) == "style/inline_preedit"
    ensures JoinPath(Some(AppOptionsPath("foo")), INLINE_PREEDIT_KEY) == "app_options/foo/style/inline_preedit"
  {
    assert AppOptionsPath("foo") == "app_options/foo";
    assert "app_options/foo" + "/" == "app_options/foo/";
  }

  // ---------------------------------------------------------------------------
  // Recognised values

  /** The configuration spelling of each preedit style. */
  function PreeditStyleName(p: PreeditStyle): string
  {
    match p
    case Composition => "composition"
    case Preview => "preview"
  }

  /** The configuration spelling of each cursor type. */
  function CursorTypeName(t: CursorType): string
  {
    match t
    case Insert => "insert"
    case Select => "select"
  }

  /** The preedit style a string names exactly, if any. */
  function ParsePreeditStyle(s: string): (r: Option<PreeditStyle>)
    ensures r.Some? <==> s == "composition" || s == "preview"
  {
    if s == "composition" then Some(Composition)
    else if s == "preview" then Some(Preview)
    else None
  }

  /** The cursor type a string names exactly, if any. */
  function ParseCursorType(s: string): (r: Option<CursorType>)
    ensures r.Some? <==> s == "insert" || s == "select"
  {
    if s == "insert" then Some(Insert)
    else if s == "select" then Some(Select)
    else None
  }

  /**
   * Each of the two preedit styles has exactly one spelling, and the
   * recognised strings are exactly those spellings.
   */
  lemma PreeditStyleNamesRoundTrip(p: PreeditStyle, s: string)
    ensures ParsePreeditStyle(PreeditStyleName(p)) == Some(p)
    ensures ParsePreeditStyle(s).Some? ==> PreeditStyleName(ParsePreeditStyle(s).value) == s
  {
  }

  /**
   * Each of the two cursor types has exactly one spelling, and the recognised
   * strings are exactly those spellings.
   */
  lemma CursorTypeNamesRoundTrip(t: CursorType, s: string)
    ensures ParseCursorType(CursorTypeName(t)) == Some(t)
    ensures ParseCursorType(s).Some? ==> CursorTypeName(ParseCursorType(s).value) == s
  {
  }

  /** The orientation a present `style/horizontal` flag selects. */
  function OrientationOf(horizontal: bool): (o: Orientation)
    ensures o != SystemDefault
    ensures o == Horizontal <==> horizontal
  {
    if horizontal then Horizontal else Vertical
  }

  // ---------------------------------------------------------------------------
  // What one layer answers

  /** The value a layer supplies, or the prior value when it supplies none. */
  function Override<T>(found: Option<T>, prior: T): T
  {
    match found
    case Some(v) => v
    case None => prior
  }

  function InlinePreeditFound(c: Config, base: Option<string>): Option<bool>
  {
    GetBool(c, JoinPath(base, INLINE_PREEDIT_KEY))
  }

  /** A preedit style only when the key is present and its string recognised. */
  function PreeditStyleFound(c: Config, base: Option<string>): Option<PreeditStyle>
  {
    match GetString(c, JoinPath(base, PREEDIT_STYLE_KEY))
    case Some(s) => ParsePreeditStyle(s)
    case None => None
  }

  /** A cursor type only when the key is present and its string recognised. */
  function CursorTypeFound(c: Config, base: Option<string>): Option<CursorType>
  {
    match GetString(c, JoinPath(base, CURSOR_TYPE_KEY))
    case Some(s) => ParseCursorType(s)
    case None => None
  }

  function OrientationFound(c: Config, base: Option<string>): Option<Orientation>
  {
    match GetBool(c, JoinPath(base, HORIZONTAL_KEY))
    case Some(h) => Some(OrientationOf(h))
    case None => None
  }

  /**
   * A colour-scheme outcome whenever the key is present at all: the matching
   * preset, or None for an unknown id (which clears an earlier scheme).
   */
  function ColorSchemeFound(c: Config, base: Option<string>): Option<Option<ColorSchemeDefinition>>
  {
    match GetString(c, JoinPath(base, COLOR_SCHEME_KEY))
    case Some(id) => Some(LookupScheme(id))
    case None => None
  }

  /** The record after one layer rooted at `base` has overwritten the fields it answers. */
  function ApplyLayer(s: Settings, c: Config, base: Option<string>): (r: Settings)
    ensures r.lookupTableOrientation == SystemDefault ==> s.lookupTableOrientation == SystemDefault
    ensures r.colorScheme == s.colorScheme || r.colorScheme.None? || r.colorScheme.value in PRESET_COLOR_SCHEMES
  {
    Settings(
      Override(InlinePreeditFound(c, base), s.embedPreeditText),
      Override(PreeditStyleFound(c, base), s.preeditStyle),
      Override(CursorTypeFound(c, base), s.cursorType),
      Override(OrientationFound(c, base), s.lookupTableOrientation),
      Override(ColorSchemeFound(c, base), s.colorScheme))
  }

  /** Reads `style/inline_preedit`: a present flag becomes the embed setting. */
  method ReadInlinePreedit(settings: Settings, c: Config, base: Option<string>) returns (r: Settings)
    ensures r == settings.(embedPreeditText := Override(InlinePreeditFound(c, base), settings.embedPreeditText))
  {
    r := settings;
    var inlinePreedit := GetBool(c, JoinPath(base, INLINE_PREEDIT_KEY));
    if inlinePreedit.Some? {
      r := r.(embedPreeditText := inlinePreedit.value);
    }
  }

  /** Reads `style/preedit_style`: only "composition" and "preview" change the field. */
  method ReadPreeditStyle(settings: Settings, c: Config, base: Option<string>) returns (r: Settings)
    ensures r == settings.(preeditStyle := Override(PreeditStyleFound(c, base), settings.preeditStyle))
  {
    r := settings;
    var preeditStyle := GetString(c, JoinPath(base, PREEDIT_STYLE_KEY));
    if preeditStyle.Some? {
      if preeditStyle.value == "composition" {
        r := r.(preeditStyle := Composition);
      } else if preeditStyle.value == "preview" {
        r := r.(preeditStyle := Preview);
      }
    }
  }

  /** Reads `style/cursor_type`: only "insert" and "select" change the field. */
  method ReadCursorType(settings: Settings, c: Config, base: Option<string>) returns (r: Settings)
    ensures r == settings.(cursorType := Override(CursorTypeFound(c, base), settings.cursorType))
  {
    r := settings;
    var cursorType := GetString(c, JoinPath(base, CURSOR_TYPE_KEY));
    if cursorType.Some? {
      if cursorType.value == "insert" {
        r := r.(cursorType := Insert);
      } else if cursorType.value == "select" {
        r := r.(cursorType := Select);
      }
    }
  }

  /** Reads `style/horizontal`: a present flag selects Horizontal or Vertical. */
  method ReadHorizontal(settings: Settings, c: Config, base: Option<string>) returns (r: Settings)
    ensures r == settings.(lookupTableOrientation := Override(OrientationFound(c, base), settings.lookupTableOrientation))
  {
    r := settings;
    var horizontal := GetBool(c, JoinPath(base, HORIZONTAL_KEY));
    if horizontal.Some? {
      r := r.(lookupTableOrientation := if horizontal.value then Horizontal else Vertical);
    }
  }

  /** Reads `style/color_scheme`: a present id goes through the preset lookup. */
  method ReadColorScheme(settings: Settings, c: Config, base: Option<string>) returns (r: Settings)
    ensures r == settings.(colorScheme := Override(ColorSchemeFound(c, base), settings.colorScheme))
  {
    r := settings;
    var colorScheme := GetString(c, JoinPath(base, COLOR_SCHEME_KEY));
    if colorScheme.Some? {
      r := SelectColorScheme(r, colorScheme.value);
    }
  }

  /**
   * Reads the five keys under `base` one after the other, overwriting a field
   * of the record for each key the store answers: the booleans whenever
   * present, the two enums only on a recognised string, the colour scheme
   * through the preset lookup.
   */
  method LoadSettingsFromPath(settings: Settings, c: Config, base: Option<string>) returns (r: Settings)
    ensures r == ApplyLayer(settings, c, base)
  {
    r := ReadInlinePreedit(settings, c, base);
    r := ReadPreeditStyle(r, c, base);
    r := ReadCursorType(r, c, base);
    r := ReadHorizontal(r, c, base);
    r := ReadColorScheme(r, c, base);
  }

  // ---------------------------------------------------------------------------
  // Properties of one layer

  /** A layer whose five keys are all absent leaves the record exactly as it was. */
  lemma SilentLayerIsIdentity(s: Settings, c: Config, base: Option<string>)
    requires GetBool(c, JoinPath(base, INLINE_PREEDIT_KEY)).None?
    requires GetString(c, JoinPath(base, PREEDIT_STYLE_KEY)).None?
    requires GetString(c, JoinPath(base, CURSOR_TYPE_KEY)).None?
    requires GetBool(c, JoinPath(base, HORIZONTAL_KEY)).None?
    requires GetString(c, JoinPath(base, COLOR_SCHEME_KEY)).None?
    ensures ApplyLayer(s, c, base) == s
  {
  }

  /** Applying the same layer twice is the same as applying it once. */
  lemma ApplyLayerIdempotent(s: Settings, c: Config, base: Option<string>)
    ensures ApplyLayer(ApplyLayer(s, c, base), c, base) == ApplyLayer(s, c, base)
  {
  }

  /**
   * Field by field, what a later layer supplies wins over whatever earlier
   * layers produced; an unknown colour-scheme id clears an earlier scheme.
   */
  lemma LaterLayerWins(s: Settings, c: Config, b1: Option<string>, b2: Option<string>)
    ensures var r := ApplyLayer(ApplyLayer(s, c, b1), c, b2);
      && (InlinePreeditFound(c, b2).Some? ==> r.embedPreeditText == InlinePreeditFound(c, b2).value)
      && (PreeditStyleFound(c, b2).Some? ==> r.preeditStyle == PreeditStyleFound(c, b2).value)
      && (CursorTypeFound(c, b2).Some? ==> r.cursorType == CursorTypeFound(c, b2).value)
      && (OrientationFound(c, b2).Some? ==> r.lookupTableOrientation == OrientationFound(c, b2).value)
      && (GetString(c, JoinPath(b2, COLOR_SCHEME_KEY)).Some? ==>
            r.colorScheme == LookupScheme(GetString(c, JoinPath(b2, COLOR_SCHEME_KEY)).value))
  {
  }

  /**
   * An unrecognised string at an enum key leaves that field unchanged; an
   * unrecognised colour-scheme id sets the scheme to None whatever it was.
   */
  lemma UnrecognisedValues(s: Settings, c: Config, base: Option<string>)
    ensures var p := GetString(c, JoinPath(base, PREEDIT_STYLE_KEY));
      p.Some? && p.value != "composition" && p.value != "preview" ==>
        ApplyLayer(s, c, base).preeditStyle == s.preeditStyle
    ensures var t := GetString(c, JoinPath(base, CURSOR_TYPE_KEY));
      t.Some? && t.value != "insert" && t.value != "select" ==>
        ApplyLayer(s, c, base).cursorType == s.cursorType
    ensures var id := GetString(c, JoinPath(base, COLOR_SCHEME_KEY));
      id.Some? && id.value !in ["aqua", "azure", "ink", "luna"] ==>
        ApplyLayer(s, c, base).colorScheme == None
  {
    var id := GetString(c, JoinPath(base, COLOR_SCHEME_KEY));
    if id.Some? {
      LookupRecognisesExactlyPresets(id.value);
    }
  }

  // ---------------------------------------------------------------------------
  // Resolution: default, then global layer, then application layer

  /** The application layer runs only for a non-empty id whose section exists. */
  predicate AppLayerRuns(c: Config, appId: string)
  {
    appId != "" && HasItem(c, AppOptionsPath(appId))
  }

  /** The record resolved for the (normalised) application id `appId`. */
  function Resolve(c: Config, appId: string): (r: Settings)
    ensures r.colorScheme.Some? ==> r.colorScheme.value in PRESET_COLOR_SCHEMES
    ensures r.lookupTableOrientation == SystemDefault ==> GetBool(c, HORIZONTAL_KEY).None?
  {
    var global := ApplyLayer(DEFAULT_SETTINGS, c, Some(""));
    if AppLayerRuns(c, appId) then ApplyLayer(global, c, Some(AppOptionsPath(appId))) else global
  }

  /** Against a store that answers nothing, resolution yields the default record exactly. */
  lemma ResolveEmptyStoreIsDefault(appId: string)
    ensures Resolve(EMPTY_CONFIG, appId) == DEFAULT_SETTINGS
  {
  }

  /** Without an application section, every application resolves to the global record. */
  lemma ResolveWithoutAppSection(c: Config, appId: string)
    requires !AppLayerRuns(c, appId)
    ensures Resolve(c, appId) == Resolve(c, "")
  {
  }

  /**
   * The orientation stays SystemDefault exactly when no layer that runs has
   * a `style/horizontal` key; once a layer has one, it is Horizontal or Vertical.
   */
  lemma SystemOrientationSurvivesOnlyWithoutKey(c: Config, appId: string)
    ensures Resolve(c, appId).lookupTableOrientation == SystemDefault <==>
      GetBool(c, JoinPath(Some(""), HORIZONTAL_KEY)).None? &&
      (!AppLayerRuns(c, appId) || GetBool(c, JoinPath(Some(AppOptionsPath(appId)), HORIZONTAL_KEY)).None?)
  {
  }

  /**
   * A global `select` cursor with an `insert` override for application foo:
   * foo resolves to Insert, the global record and any other application to Select.
   */
  lemma AppOverrideExample()
    ensures var c := Config(map[],
                            map["style/cursor_type" := "select",
                                "app_options/foo/style/cursor_type" := "insert"],
                            {"app_options/foo"});
      && Resolve(c, "foo").cursorType == Insert
      && Resolve(c, "").cursorType == Select
      && Resolve(c, "bar").cursorType == Select
  {
    var c := Config(map[],
                    map["style/cursor_type" := "select",
                        "app_options/foo/style/cursor_type" := "insert"],
                    {"app_options/foo"});
    var app := Some(AppOptionsPath("foo"));
    assert AppOptionsPath("foo") == "app_options/foo";
    assert AppLayerRuns(c, "foo");
    assert JoinPath(app, CURSOR_TYPE_KEY) == "app_options/foo/style/cursor_type";
    assert CursorTypeFound(c, app) == Some(Insert);
    assert "select" != "insert" by { assert "select"[0] != "insert"[0]; }
    assert CursorTypeFound(c, Some("")) == Some(Select);
    LaterLayerWins(DEFAULT_SETTINGS, c, Some(""), app);
    assert !AppLayerRuns(c, "bar") by {
      assert AppOptionsPath("bar")[12] != "app_options/foo"[12];
    }
  }

  /**
   * A global `aqua` scheme with an unknown scheme for application foo:
   * foo resolves to no scheme, the global record keeps aqua.
   */
  lemma UnknownAppSchemeClearsGlobalScheme()
    ensures var c := Config(map[],
                            map["style/color_scheme" := "aqua",
                                "app_options/foo/style/color_scheme" := "nonexistent"],
                            {"app_options/foo"});
      && Resolve(c, "foo").colorScheme == None
      && Resolve(c, "").colorScheme == Some(PRESET_COLOR_SCHEMES[0])
  {
    var c := Config(map[],
                    map["style/color_scheme" := "aqua",
                        "app_options/foo/style/color_scheme" := "nonexistent"],
                    {"app_options/foo"});
    var app := Some(AppOptionsPath("foo"));
    assert AppOptionsPath("foo") == "app_options/foo";
    assert AppLayerRuns(c, "foo");
    assert JoinPath(app, COLOR_SCHEME_KEY) == "app_options/foo/style/color_scheme";
    LookupRecognisesExactlyPresets("nonexistent");
    assert ColorSchemeFound(c, app) == Some(None);
    LookupPresetId(0);
    assert ColorSchemeFound(c, Some("")) == Some(Some(PRESET_COLOR_SCHEMES[0]));
    LaterLayerWins(DEFAULT_SETTINGS, c, Some(""), app);
  }
}
