/**
 * The map style preference (data/local/ThemePreferenceManager.kt): one string
 * entry of the app's preference store, read with a default and written by
 * `saveMapStyle`.
 */
module ThemePreferences {
  import opened MapStyles

  /** The preference key `map_style_config`. */
  const MapStyleKey: string := "map_style_config"

  /** `mapStyleFlow`'s mapping: the stored key, HYBRID's key when absent, passed to `fromKey`. */
  function ReadMapStyle(preferences: map<string, string>): MapStyleConfig {
    var key := if MapStyleKey in preferences then preferences[MapStyleKey] else HYBRID.StorageKey();
    FromKey(key)
  }

  /** With nothing stored the style reads as HYBRID. */
  lemma ReadDefault(preferences: map<string, string>)
    requires MapStyleKey !in preferences
    ensures ReadMapStyle(preferences) == HYBRID
  {
    FromKeyRoundTrip(HYBRID);
  }

  /** A stored string that is no style's key reads as STANDARD. */
  lemma ReadUnknown(preferences: map<string, string>)
    requires MapStyleKey in preferences && !IsStorageKey(preferences[MapStyleKey])
    ensures ReadMapStyle(preferences) == STANDARD
  {
    FromKeyUnknown(preferences[MapStyleKey]);
  }

  /** The preferences after `saveMapStyle(style)`. */
  function Saved(preferences: map<string, string>, style: MapStyleConfig): (r: map<string, string>)
    ensures MapStyleKey in r && r[MapStyleKey] == style.StorageKey()
    ensures forall k :: k != MapStyleKey ==> (k in r <==> k in preferences)
    ensures forall k :: k != MapStyleKey && k in preferences ==> r[k] == preferences[k]
  {
    preferences[MapStyleKey := style.StorageKey()]
  }

  /** Saving a style and reading it back gives that style. */
  lemma SaveThenRead(preferences: map<string, string>, style: MapStyleConfig)
    ensures ReadMapStyle(Saved(preferences, style)) == style
  {
    FromKeyRoundTrip(style);
  }

  /** Saving the same style twice is the same as saving it once. */
  lemma SaveIdempotent(preferences: map<string, string>, style: MapStyleConfig)
    ensures Saved(Saved(preferences, style), style) == Saved(preferences, style)
  {
  }

  class ThemePreferenceManager {
    var preferences: map<string, string>

    constructor (initial: map<string, string>)
      ensures preferences == initial
    {
      preferences := initial;
    }

    /** The style `mapStyleFlow` currently emits. */
    function MapStyle(): MapStyleConfig
      reads this
    {
      ReadMapStyle(preferences)
    }

    /** `saveMapStyle`: writes the style's key under `map_style_config` and nothing else. */
    method SaveMapStyle(style: MapStyleConfig)
      modifies this
      ensures preferences == Saved(old(preferences), style)
      ensures MapStyle() == style
    {
      preferences := preferences[MapStyleKey := style.StorageKey()];
      SaveThenRead(old(preferences), style);
    }
  }
}
