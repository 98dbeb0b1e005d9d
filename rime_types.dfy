/**
 * The data model of the per-application settings: the two style enums, the
 * lookup-table orientation, a colour-scheme definition, the settings record
 * and the cache entry that pairs a record with the application it was
 * resolved for.
 */
module RimeTypes {

  /** A value that may be absent: a NULL pointer or a key the store lacks. */
  datatype Option<+T> = None | Some(value: T)

  /** How the text being composed is shown inside the client application. */
  datatype PreeditStyle = Composition | Preview

  /** Where the cursor sits in the preedit text. */
  datatype CursorType = Insert | Select

  /** Orientation of the candidate lookup table; SystemDefault defers to the platform. */
  datatype Orientation = SystemDefault | Horizontal | Vertical

  /** One entry of the fixed colour-scheme table: an id and two 24-bit RGB colours. */
  datatype ColorSchemeDefinition = ColorSchemeDefinition(id: string, textColor: int, backColor: int)

  /**
   * A fully resolved settings record. The colour scheme is either absent
   * (the UI's own colours) or one entry of the preset table.
   */
  datatype Settings = Settings(
    embedPreeditText: bool,
    preeditStyle: PreeditStyle,
    cursorType: CursorType,
    lookupTableOrientation: Orientation,
    colorScheme: Option<ColorSchemeDefinition>)

  /** A cache entry: the application id it was resolved for and a copy of the record. */
  datatype AppSettings = AppSettings(appId: string, settings: Settings)
}
