/**
 * The marker image a map shows for a resource collection
 * (`getMarkerImageUrl`): a lookup keyed by the lower-cased collection name,
 * Spanish category names and English collection keys side by side, with a
 * default marker for anything else.
 */
module MarkerImages {
  import opened Common

  const MapDir := "/images/map/"
  const MarkerSuffix := "-marker.png"
  const DefaultMarker := "/images/map/default-marker.png"

  /** The asset path for the plural name of a collection. */
  function MarkerPath(plural: string): string {
    MapDir + plural + MarkerSuffix
  }

  /**
   * The lookup table, each entry written as the plural that names its
   * asset: sixteen keys, each pair sharing one asset.
   */
  const Plurals: map<string, string> := map[
    "alojamientos" := "accommodations",
    "cuevas y restos arqueológicos" := "caves",
    "edificios religiosos y castillos" := "culturals",
    "eventos" := "events",
    "parques temáticos" := "fairs",
    "museos y centros de interpretación" := "museums",
    "espacios naturales" := "naturals",
    "restaurantes" := "restaurants",
    "accommodation" := "accommodations",
    "cave" := "caves",
    "cultural" := "culturals",
    "event" := "events",
    "fair" := "fairs",
    "museum" := "museums",
    "natural" := "naturals",
    "restaurant" := "restaurants"
  ]

  /**
   * `getMarkerImageUrl(collection)`. Every entry is a non-empty path, so
   * the `||` falls back to the default marker exactly for a missing key.
   */
  function MarkerImageUrl(collection: string): (url: string)
    ensures Lower(collection) in Plurals ==> url == MarkerPath(Plurals[Lower(collection)])
    ensures Lower(collection) !in Plurals ==> url == DefaultMarker
    ensures exists plural :: url == MarkerPath(plural)
  {
    var key := Lower(collection);
    if key in Plurals then
      MarkerPath(Plurals[key])
    else
      assert DefaultMarker == MarkerPath("default");
      DefaultMarker
  }

  /** The lookup ignores letter case: a name and its lower-cased form agree. */
  lemma CaseInsensitive(collection: string)
    ensures MarkerImageUrl(Lower(collection)) == MarkerImageUrl(collection)
  {
    LowerIdempotent(collection);
  }

  /**
   * Each Spanish category name, its English key and the plural that names
   * their shared asset.
   */
  const Pairs: seq<(string, string, string)> := [
    ("alojamientos", "accommodation", "accommodations"),
    ("cuevas y restos arqueológicos", "cave", "caves"),
    ("edificios religiosos y castillos", "cultural", "culturals"),
    ("eventos", "event", "events"),
    ("parques temáticos", "fair", "fairs"),
    ("museos y centros de interpretación", "museum", "museums"),
    ("espacios naturales", "natural", "naturals"),
    ("restaurantes", "restaurant", "restaurants")
  ]

  /**
   * The Spanish name and the English key of a pair, written in any letter
   * case, both give the pair's asset, and that asset is not the default.
   */
  lemma {:induction false} PairsShareAsset(collection: string, i: nat)
    requires i < |Pairs|
    requires Lower(collection) == Pairs[i].0 || Lower(collection) == Pairs[i].1
    ensures MarkerImageUrl(collection) == MarkerPath(Pairs[i].2) != DefaultMarker
  {
    var plural := Pairs[i].2;
    assert Plurals[Pairs[i].0] == Plurals[Pairs[i].1] == plural;
    assert MarkerPath(plural)[|MapDir|] == plural[0] != 'd';
    assert DefaultMarker[|MapDir|] == 'd';
  }
}
