/**
 * The configuration store the settings are read from, seen only through the
 * queries the resolver makes of it. Paths are flat strings: the store is a
 * finite map from path to boolean, a finite map from path to string, and the
 * set of paths at which some item (a leaf or a subtree) exists.
 */
module ConfigStore {
  import opened RimeTypes

  datatype Config = Config(bools: map<string, bool>, strings: map<string, string>, items: set<string>)

  /** A configuration source: whether opening it succeeds, and what it then answers. */
  datatype Backend = Backend(opens: bool, config: Config)

  /** A store that answers no query. */
  const EMPTY_CONFIG: Config := Config(map[], map[], {})

  /** Reads a boolean at `path`; None when the store has none there. */
  function GetBool(c: Config, path: string): Option<bool>
  {
    if path in c.bools then Some(c.bools[path]) else None
  }

  /** Reads a string at `path`; None when the store has none there. */
  function GetString(c: Config, path: string): Option<string>
  {
    if path in c.strings then Some(c.strings[path]) else None
  }

  /** Whether some item exists at `path`. */
  predicate HasItem(c: Config, path: string)
  {
    path in c.items
  }
}
