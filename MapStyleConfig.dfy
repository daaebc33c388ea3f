/**
 * The map style table (domain/model/MapStyleConfig.kt): seven styles, each
 * with a title, an optional JSON style resource, a preview image, the key
 * under which it is stored, and the Google Maps map type it uses.
 */
module MapStyles {
  import opened Wrappers

  /** The two Google Maps map types the table uses (`MapType.NORMAL`, `MapType.HYBRID`). */
  datatype MapType = NormalMap | HybridMap

  datatype MapStyleConfig = HYBRID | STANDARD | SILVER | RETRO | DARK | NIGHT | AUBERGINE {

    function Title(): string {
      match this
      case HYBRID => "Uydu"
      case STANDARD => "Standart"
      case SILVER => "Gümüş"
      case RETRO => "Retro"
      case DARK => "Karanlık"
      case NIGHT => "Gece"
      case AUBERGINE => "Siber"
    }

    /** The raw JSON style resource, by resource name; none for the satellite and the plain style. */
    function JsonRes(): Option<string> {
      match this
      case HYBRID => None
      case STANDARD => None
      case SILVER => Some("map_style_silver")
      case RETRO => Some("map_style_retro")
      case DARK => Some("map_style_dark")
      case NIGHT => Some("map_style_night")
      case AUBERGINE => Some("map_style_aubergine")
    }

    function PreviewImage(): string {
      match this
      case HYBRID => "map_style_theme_hybrid"
      case STANDARD => "map_style_theme_standart"
      case SILVER => "map_style_theme_silver"
      case RETRO => "map_style_theme_retro"
      case DARK => "map_style_theme_dark"
      case NIGHT => "map_style_theme_night"
      case AUBERGINE => "map_style_theme_aubergine"
    }

    function StorageKey(): string {
      match this
      case HYBRID => "HYBRID"
      case STANDARD => "STANDARD"
      case SILVER => "SILVER"
      case RETRO => "RETRO"
      case DARK => "DARK"
      case NIGHT => "NIGHT"
      case AUBERGINE => "AUBERGINE"
    }

    /** The constructor's default is NORMAL; only the satellite style overrides it. */
    function Type(): (t: MapType)
      ensures t == HybridMap <==> this == HYBRID
    {
      if this == HYBRID then HybridMap else NormalMap
    }
  }

  /** `MapStyleConfig.entries`, in declaration order. */
  const Entries: seq<MapStyleConfig> := [HYBRID, STANDARD, SILVER, RETRO, DARK, NIGHT, AUBERGINE]

  /** `entries.find { it.storageKey == key }`: the first entry with that key. */
  function Find(entries: seq<MapStyleConfig>, key: string): (r: Option<MapStyleConfig>)
    ensures r.Some? ==> r.value in entries && r.value.StorageKey() == key
  {
    if entries == [] then None
    else if entries[0].StorageKey() == key then Some(entries[0])
    else Find(entries[1..], key)
  }

  /** `fromKey`: the entry stored under `key`, STANDARD when there is none. */
  function FromKey(key: string): MapStyleConfig {
    Find(Entries, key).GetOr(STANDARD)
  }

  /** Some entry of the table is stored under `key`. */
  predicate IsStorageKey(key: string) {
    exists s: MapStyleConfig :: s.StorageKey() == key
  }

  /** Every style is in the table, exactly once. */
  lemma EntriesComplete(s: MapStyleConfig)
    ensures s in Entries
    ensures forall i, j :: 0 <= i < j < |Entries| ==> Entries[i] != Entries[j]
  {
  }

  /** Storage keys are pairwise distinct. */
  lemma StorageKeysDistinct(a: MapStyleConfig, b: MapStyleConfig)
    requires a.StorageKey() == b.StorageKey()
    ensures a == b
  {
  }

  /** With distinct keys, the search finds the one entry carrying `s`'s key. */
  lemma {:induction false} FindPresent(entries: seq<MapStyleConfig>, s: MapStyleConfig)
    requires s in entries
    ensures Find(entries, s.StorageKey()) == Some(s)
  {
    if entries[0] != s {
      if entries[0].StorageKey() == s.StorageKey() {
        StorageKeysDistinct(entries[0], s);
      }
      FindPresent(entries[1..], s);
    }
  }

  /** A key carried by no entry is not found. */
  lemma {:induction false} FindAbsent(entries: seq<MapStyleConfig>, key: string)
    requires !IsStorageKey(key)
    ensures Find(entries, key) == None
  {
    if entries != [] {
      FindAbsent(entries[1..], key);
    }
  }

  /** Round trip: reading back a stored key gives the style that was stored. */
  lemma FromKeyRoundTrip(s: MapStyleConfig)
    ensures FromKey(s.StorageKey()) == s
  {
    EntriesComplete(s);
    FindPresent(Entries, s);
  }

  /** An unknown key falls back to STANDARD. */
  lemma FromKeyUnknown(key: string)
    requires !IsStorageKey(key)
    ensures FromKey(key) == STANDARD
  {
    FindAbsent(Entries, key);
  }

  /** `fromKey(key) == s` exactly when `key` is `s`'s key, or `s` is STANDARD and `key` is unknown. */
  lemma FromKeyCharacterized(key: string, s: MapStyleConfig)
    ensures FromKey(key) == s <==> key == s.StorageKey() || (s == STANDARD && !IsStorageKey(key))
  {
    if IsStorageKey(key) {
      var t: MapStyleConfig :| t.StorageKey() == key;
      FromKeyRoundTrip(t);
      if key != s.StorageKey() && t == s {
        assert false;
      }
    } else {
      FromKeyUnknown(key);
    }
  }

  /** The satellite and the plain style have no JSON style; every other entry has one. */
  lemma JsonStyleExactlyForStyled(s: MapStyleConfig)
    ensures s.JsonRes().None? <==> s == HYBRID || s == STANDARD
  {
  }
}
