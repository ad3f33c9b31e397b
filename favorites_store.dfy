/**
 * The favourites store: the user's favourites grouped by category, the
 * lookups `isFavorite` and `getFavoriteId` over them, and the state
 * changes of fetching and clearing.
 */
module FavoritesStore {
  import opened Common

  /** The favourited resource, reduced to the two fields the lookups compare. */
  datatype Resource = Resource(id: int, coleccion: string)

  /** A favourite: its own id and the resource it points at. */
  datatype FavoriteItem = FavoriteItem(id: int, recurso: Resource)

  /** `Record<string, FavoriteItem[]>` as its entries, in enumeration order. */
  type Favorites = seq<(string, seq<FavoriteItem>)>

  predicate Matches(item: FavoriteItem, id: int, coleccion: string) {
    item.recurso.id == id && item.recurso.coleccion == coleccion
  }

  /** `items.some(match)`. */
  predicate AnyMatch(items: seq<FavoriteItem>, id: int, coleccion: string) {
    exists k :: 0 <= k < |items| && Matches(items[k], id, coleccion)
  }

  /** `isFavorite`: `Object.values(favorites).some(fav => fav.some(match))`. */
  function IsFavorite(favorites: Favorites, id: int, coleccion: string): (b: bool)
    ensures b <==> exists c, k :: 0 <= c < |favorites| && 0 <= k < |favorites[c].1| && Matches(favorites[c].1[k], id, coleccion)
    decreases |favorites|
  {
    if favorites == [] then false
    else
      var rest := IsFavorite(favorites[1..], id, coleccion);
      assert rest <==> exists c, k :: 1 <= c < |favorites| && 0 <= k < |favorites[c].1| && Matches(favorites[c].1[k], id, coleccion) by {
        if rest {
          var c, k :| 0 <= c < |favorites[1..]| && 0 <= k < |favorites[1..][c].1| && Matches(favorites[1..][c].1[k], id, coleccion);
          assert favorites[c + 1] == favorites[1..][c];
        }
        forall c, k | 1 <= c < |favorites| && 0 <= k < |favorites[c].1| && Matches(favorites[c].1[k], id, coleccion)
          ensures rest
        {
          assert favorites[1..][c - 1] == favorites[c];
        }
      }
      AnyMatch(favorites[0].1, id, coleccion) || rest
  }

  /** `items.find(match)`: the index of the first matching item, if any. */
  function FirstItem(items: seq<FavoriteItem>, id: int, coleccion: string): (k: Option<nat>)
    ensures k.None? <==> !AnyMatch(items, id, coleccion)
    ensures k.Some? ==> (k.value < |items| && Matches(items[k.value], id, coleccion)
      && forall j :: 0 <= j < k.value ==> !Matches(items[j], id, coleccion))
    decreases |items|
  {
    if items == [] then None
    else if Matches(items[0], id, coleccion) then Some(0)
    else
      var k := FirstItem(items[1..], id, coleccion);
      assert AnyMatch(items[1..], id, coleccion) ==> AnyMatch(items, id, coleccion) by {
        if AnyMatch(items[1..], id, coleccion) {
          var j :| 0 <= j < |items[1..]| && Matches(items[1..][j], id, coleccion);
          assert items[j + 1] == items[1..][j];
        }
      }
      assert AnyMatch(items, id, coleccion) ==> AnyMatch(items[1..], id, coleccion) by {
        if AnyMatch(items, id, coleccion) {
          var j :| 0 <= j < |items| && Matches(items[j], id, coleccion);
          assert j > 0 && items[1..][j - 1] == items[j];
        }
      }
      if k.None? then None else Some(k.value + 1)
  }

  /** `Object.entries(favorites).find(([_, items]) => items.some(match))`: the first category with a match. */
  function FirstCategory(favorites: Favorites, id: int, coleccion: string): (c: Option<nat>)
    ensures c.Some? ==> (c.value < |favorites| && AnyMatch(favorites[c.value].1, id, coleccion)
      && forall j :: 0 <= j < c.value ==> !AnyMatch(favorites[j].1, id, coleccion))
    ensures c.None? ==> forall j :: 0 <= j < |favorites| ==> !AnyMatch(favorites[j].1, id, coleccion)
    decreases |favorites|
  {
    if favorites == [] then None
    else if AnyMatch(favorites[0].1, id, coleccion) then Some(0)
    else
      var c := FirstCategory(favorites[1..], id, coleccion);
      if c.None? then
        assert forall j :: 1 <= j < |favorites| ==> favorites[j] == favorites[1..][j - 1];
        None
      else Some(c.value + 1)
  }

  /** `getFavoriteId`: the id of the first matching item of the first category that has one, or null. */
  function GetFavoriteId(favorites: Favorites, id: int, coleccion: string): (r: Option<int>)
    ensures r.Some? ==>
      exists c, k :: 0 <= c < |favorites| && 0 <= k < |favorites[c].1| && Matches(favorites[c].1[k], id, coleccion) && favorites[c].1[k].id == r.value
  {
    match FirstCategory(favorites, id, coleccion)
    case None => None
    case Some(c) =>
      match FirstItem(favorites[c].1, id, coleccion)
      case None => None
      case Some(k) => Some(favorites[c].1[k].id)
  }

  /** `getFavoriteId` is null exactly when `isFavorite` is false. */
  lemma GetFavoriteIdNullIff(favorites: Favorites, id: int, coleccion: string)
    ensures GetFavoriteId(favorites, id, coleccion).None? <==> !IsFavorite(favorites, id, coleccion)
  {
    var c := FirstCategory(favorites, id, coleccion);
    if IsFavorite(favorites, id, coleccion) {
      var c', k :| 0 <= c' < |favorites| && 0 <= k < |favorites[c'].1| && Matches(favorites[c'].1[k], id, coleccion);
      assert AnyMatch(favorites[c'].1, id, coleccion);
    }
  }

  /**
   * The returned id is that of the first matching item of the first
   * category containing a match: no earlier category matches, and no
   * earlier item of that category matches.
   */
  lemma GetFavoriteIdIsFirst(favorites: Favorites, id: int, coleccion: string)
    requires GetFavoriteId(favorites, id, coleccion).Some?
    ensures exists c, k :: (0 <= c < |favorites| && 0 <= k < |favorites[c].1|
      && Matches(favorites[c].1[k], id, coleccion)
      && GetFavoriteId(favorites, id, coleccion).value == favorites[c].1[k].id
      && (forall j :: 0 <= j < c ==> !AnyMatch(favorites[j].1, id, coleccion))
      && (forall j :: 0 <= j < k ==> !Matches(favorites[c].1[j], id, coleccion)))
  {
    var c := FirstCategory(favorites, id, coleccion).value;
    var k := FirstItem(favorites[c].1, id, coleccion).value;
    assert GetFavoriteId(favorites, id, coleccion).value == favorites[c].1[k].id;
  }

  /** With no favourites nothing is a favourite and there is no favourite id. */
  lemma EmptyHasNone(id: int, coleccion: string)
    ensures !IsFavorite([], id, coleccion) && GetFavoriteId([], id, coleccion) == None
  {
  }

  class Store {
    var favorites: Favorites
    var loading: bool

    constructor ()
      ensures favorites == [] && !loading
    {
      favorites := [];
      loading := false;
    }

    /**
     * `fetchFavorites` with the response given: `favoritos` when present,
     * `{}` when absent; an error keeps the old favourites. Loading always
     * ends false.
     */
    method FetchFavorites(response: Outcome<Option<Favorites>>)
      modifies this
      ensures response.Ok? && response.body.Some? ==> favorites == response.body.value
      ensures response.Ok? && response.body.None? ==> favorites == []
      ensures response.Failed? ==> favorites == old(favorites)
      ensures !loading
    {
      loading := true;
      if response.Ok? {
        favorites := response.body.GetOr([]);
      }
      loading := false;
    }

    /**
     * `addFavorite` and `removeFavorite` once their request settles: a
     * 202 status refetches the favourites (with the refetch's response
     * given); any other status or an error leaves the state unchanged.
     */
    method RequestSettled(status: Outcome<int>, refetch: Outcome<Option<Favorites>>)
      modifies this
      ensures status == Ok(202) && refetch.Ok? ==> favorites == refetch.body.GetOr([])
      ensures !(status == Ok(202) && refetch.Ok?) ==> favorites == old(favorites)
      ensures status == Ok(202) ==> !loading
      ensures status != Ok(202) ==> loading == old(loading)
    {
      if status == Ok(202) {
        FetchFavorites(refetch);
      }
    }

    /** `clearFavorites`: afterwards nothing is a favourite. */
    method ClearFavorites()
      modifies this`favorites
      ensures favorites == []
      ensures forall id, coleccion :: !IsFavorite(favorites, id, coleccion)
    {
      favorites := [];
    }
  }
}
