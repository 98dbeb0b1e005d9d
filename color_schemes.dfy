/**
 * The fixed colour-scheme registry and the lookup that selects an entry of it
 * by exact, case-sensitive id.
 */
module ColorSchemes {
  import opened RimeTypes

  /** The preset table, in scan order (the C table ends with a NULL-id sentinel). */
  const PRESET_COLOR_SCHEMES: seq<ColorSchemeDefinition> := [
    ColorSchemeDefinition("aqua", 0xffffff, 0x0a3dfa),
    ColorSchemeDefinition("azure", 0xffffff, 0x0a3dea),
    ColorSchemeDefinition("ink", 0xffffff, 0x000000),
    ColorSchemeDefinition("luna", 0x000000, 0xffff7f)
  ]

  /** Every colour is a 24-bit RGB value. */
  predicate IsRgb(color: int)
  {
    0 <= color < 0x100_0000
  }

  /**
   * The index of the first entry of `table` at or after `from` whose id is
   * exactly `id`, or None when no such entry exists.
   */
  function FindFrom(table: seq<ColorSchemeDefinition>, id: string, from: nat): (r: Option<nat>)
    requires from <= |table|
    ensures r.Some? ==> from <= r.value < |table| && table[r.value].id == id
    ensures r.Some? ==> forall j :: from <= j < r.value ==> table[j].id != id
    ensures r.None? ==> forall j :: from <= j < |table| ==> table[j].id != id
    decreases |table| - from
  {
    if from == |table| then None
    else if table[from].id == id then Some(from)
    else FindFrom(table, id, from + 1)
  }

  /** The preset whose id is exactly `id`, or None (the UI's own colours). */
  function LookupScheme(id: string): (r: Option<ColorSchemeDefinition>)
    ensures r.None? <==> forall j :: 0 <= j < |PRESET_COLOR_SCHEMES| ==> PRESET_COLOR_SCHEMES[j].id != id
    ensures r.Some? ==> r.value.id == id && r.value in PRESET_COLOR_SCHEMES
  {
    match FindFrom(PRESET_COLOR_SCHEMES, id, 0)
    case Some(i) => Some(PRESET_COLOR_SCHEMES[i])
    case None => None
  }

  /**
   * The table is well formed: ids are non-empty and pairwise distinct and
   * every colour is 24-bit, so an entry is identified by its id.
   */
  lemma PresetTableWellFormed()
    ensures forall i, j :: 0 <= i < j < |PRESET_COLOR_SCHEMES| ==>
      PRESET_COLOR_SCHEMES[i].id != PRESET_COLOR_SCHEMES[j].id
    ensures forall i :: 0 <= i < |PRESET_COLOR_SCHEMES| ==>
      PRESET_COLOR_SCHEMES[i].id != "" &&
      IsRgb(PRESET_COLOR_SCHEMES[i].textColor) && IsRgb(PRESET_COLOR_SCHEMES[i].backColor)
  {
  }

  /** Looking up the id of any preset yields that very preset. */
  lemma LookupPresetId(i: nat)
    requires i < |PRESET_COLOR_SCHEMES|
    ensures LookupScheme(PRESET_COLOR_SCHEMES[i].id) == Some(PRESET_COLOR_SCHEMES[i])
  {
    PresetTableWellFormed();
    var r := FindFrom(PRESET_COLOR_SCHEMES, PRESET_COLOR_SCHEMES[i].id, 0);
    assert r.Some?;
    assert r.value == i;
  }

  /** The four preset ids and nothing else are recognised; the empty id never is. */
  lemma LookupRecognisesExactlyPresets(id: string)
    ensures LookupScheme(id).Some? <==> id in ["aqua", "azure", "ink", "luna"]
    ensures LookupScheme("").None?
  {
  }

  /**
   * Replaces the colour scheme of `settings` by the preset whose id is
   * exactly `id`, scanning the table in order and stopping at the first
   * match; with no match the scheme becomes None.
   */
  method SelectColorScheme(settings: Settings, id: string) returns (r: Settings)
    ensures r == settings.(colorScheme := LookupScheme(id))
    ensures r.colorScheme.Some? ==> r.colorScheme.value.id == id
  {
    var i := 0;
    while i < |PRESET_COLOR_SCHEMES|
      invariant 0 <= i <= |PRESET_COLOR_SCHEMES|
      invariant forall j :: 0 <= j < i ==> PRESET_COLOR_SCHEMES[j].id != id
    {
      if PRESET_COLOR_SCHEMES[i].id == id {
        r := settings.(colorScheme := Some(PRESET_COLOR_SCHEMES[i]));
        return;
      }
      i := i + 1;
    }
    r := settings.(colorScheme := None);
  }
}
