/**
 * The add/remove favourite button: the user's favourites flattened into
 * one list, the test whether the shown resource is among them, the id of
 * its entry, and the toggle that saves or deletes it.
 */
module FavouritesButton {
  import opened Common

  datatype Recurso = Recurso(codigo: int)
  /** One favourite entry: its own id and the resource it points at. */
  datatype Entry = Entry(id: int, recurso: Recurso)
  /** The resource the button belongs to. */
  datatype Resource = Resource(id: int, codigo: int, coleccion: string, nombre: string)

  /** The favourites response: `favoritos` maps list names to entries, and may be missing. */
  datatype Favourites = Favourites(favoritos: Option<map<string, seq<Entry>>>)

  /** The ten lists, in the order they are concatenated (their names as the API spells them). */
  const ListNames: seq<string> := [
    "alojamientos", "cuvas_restos_arqueologicos", "recursos_culturales", "eventos",
    "parques_tematicos", "localidades", "museos_centos_interpretacion", "parques_naturales",
    "restaurantes", "planes"
  ]

  /** `favoritos?.<name> ?? []`. */
  function ListOf(f: Favourites, name: string): (entries: seq<Entry>)
    ensures f.favoritos.None? || name !in f.favoritos.value ==> entries == []
    ensures f.favoritos.Some? && name in f.favoritos.value ==> entries == f.favoritos.value[name]
  {
    if f.favoritos.Some? && name in f.favoritos.value then f.favoritos.value[name] else []
  }

  /** The lists named in `names`, concatenated in that order. */
  function Concatenated(f: Favourites, names: seq<string>): (all: seq<Entry>)
    decreases |names|
  {
    if names == [] then [] else Concatenated(f, names[..|names| - 1]) + ListOf(f, names[|names| - 1])
  }

  /** `_getAllResourcesInFavourites`. */
  function AllEntries(f: Favourites): (all: seq<Entry>)
    ensures forall e :: e in all <==> exists i :: 0 <= i < |ListNames| && e in ListOf(f, ListNames[i])
  {
    ConcatenatedHasEvery(f, ListNames);
    Concatenated(f, ListNames)
  }

  lemma ConcatenatedHasEvery(f: Favourites, names: seq<string>)
    ensures forall e :: e in Concatenated(f, names) <==> exists i :: 0 <= i < |names| && e in ListOf(f, names[i])
  {
    forall e ensures e in Concatenated(f, names) <==> exists i :: 0 <= i < |names| && e in ListOf(f, names[i]) {
      ConcatenatedHas(f, names, e);
    }
  }

  /** An entry is in the concatenation exactly when it is in one of the named lists. */
  lemma {:induction false} ConcatenatedHas(f: Favourites, names: seq<string>, e: Entry)
    ensures e in Concatenated(f, names) <==> exists i :: 0 <= i < |names| && e in ListOf(f, names[i])
    decreases |names|
  {
    if names != [] {
      var n := |names| - 1;
      ConcatenatedHas(f, names[..n], e);
      if exists i :: 0 <= i < |names| && e in ListOf(f, names[i]) {
        var i :| 0 <= i < |names| && e in ListOf(f, names[i]);
        if i < n { assert names[..n][i] == names[i]; }
      }
      if e in Concatenated(f, names[..n]) {
        var i :| 0 <= i < n && e in ListOf(f, names[..n][i]);
        assert names[i] == names[..n][i];
      }
    }
  }

  /** The concatenation is exactly as long as the lists together. */
  lemma {:induction false} ConcatenatedLength(f: Favourites, names: seq<string>)
    ensures |Concatenated(f, names)| == SumOfLengths(f, names)
    decreases |names|
  {
    if names != [] {
      ConcatenatedLength(f, names[..|names| - 1]);
    }
  }

  function SumOfLengths(f: Favourites, names: seq<string>): nat
    decreases |names|
  {
    if names == [] then 0 else SumOfLengths(f, names[..|names| - 1]) + |ListOf(f, names[|names| - 1])|
  }

  /** Without `favoritos`, there is nothing to look through. */
  lemma NoFavouritesNoEntries(f: Favourites)
    requires f.favoritos.None?
    ensures AllEntries(f) == []
  {
    if AllEntries(f) != [] {
      ConcatenatedHas(f, ListNames, AllEntries(f)[0]);
    }
  }

  predicate SameCode(e: Entry, r: Resource) {
    e.recurso.codigo == r.codigo
  }

  /** `_resourceIsAlreadyInFavourites`. */
  function IsAlreadyIn(favourites: Option<Favourites>, resource: Option<Resource>): (r: bool)
    ensures favourites.None? || resource.None? ==> !r
    ensures favourites.Some? && resource.Some? ==>
      (r <==> exists i :: 0 <= i < |AllEntries(favourites.value)| && SameCode(AllEntries(favourites.value)[i], resource.value))
  {
    favourites.Some? && resource.Some? && HasCode(AllEntries(favourites.value), resource.value)
  }

  function HasCode(entries: seq<Entry>, r: Resource): (found: bool)
    ensures found <==> exists i :: 0 <= i < |entries| && SameCode(entries[i], r)
  {
    FirstWithCode(entries, r).Some?
  }

  /** Array.prototype.find: the first entry with the resource's code. */
  function FirstWithCode(entries: seq<Entry>, r: Resource): (found: Option<nat>)
    ensures found.None? <==> forall i :: 0 <= i < |entries| ==> !SameCode(entries[i], r)
    ensures found.Some? ==> (found.value < |entries| && SameCode(entries[found.value], r)
      && forall i :: 0 <= i < found.value ==> !SameCode(entries[i], r))
    decreases |entries|
  {
    if entries == [] then None
    else if SameCode(entries[0], r) then Some(0)
    else
      var rest := FirstWithCode(entries[1..], r);
      if rest.None? then None else Some(rest.value + 1)
  }

  /**
   * `_getFavouriteID`: Ok(None) without favourites or resource, the id of
   * the first entry with the resource's code, and a TypeError (`.id` of
   * undefined) when no entry has it.
   */
  function FavouriteId(favourites: Option<Favourites>, resource: Option<Resource>): (r: Outcome<Option<int>>)
    ensures favourites.None? || resource.None? ==> r == Ok(None)
    ensures favourites.Some? && resource.Some? ==>
      var all := AllEntries(favourites.value);
      var found := FirstWithCode(all, resource.value);
      (found.None? ==> r.Failed?) && (found.Some? ==> r == Ok(Some(all[found.value].id)))
  {
    if favourites.None? || resource.None? then Ok(None)
    else
      var all := AllEntries(favourites.value);
      var found := FirstWithCode(all, resource.value);
      if found.None? then Failed else Ok(Some(all[found.value].id))
  }

  /** Whenever the resource is among the favourites, its entry id is found without error. */
  lemma IdWhenPresent(favourites: Option<Favourites>, resource: Option<Resource>)
    requires IsAlreadyIn(favourites, resource)
    ensures FavouriteId(favourites, resource).Ok? && FavouriteId(favourites, resource).body.Some?
    ensures exists e :: (e in AllEntries(favourites.value) && SameCode(e, resource.value)
      && FavouriteId(favourites, resource).body.value == e.id)
  {
    var all := AllEntries(favourites.value);
    var k := FirstWithCode(all, resource.value).value;
    assert all[k] in all;
  }

  /** The request the toggle sends. */
  datatype Request = Save(idFavorito: int, tipoFavorito: string) | Delete(id: Option<int>)

  class Button {
    var favourites: Option<Favourites>
    var resource: Option<Resource>
    var formBeingSubmitted: bool
    /** The request in flight. */
    var pending: Option<Request>

    constructor (resource0: Option<Resource>)
      ensures favourites == None && resource == resource0 && !formBeingSubmitted && pending == None
    {
      favourites := None;
      resource := resource0;
      formBeingSubmitted := false;
      pending := None;
    }

    /** `ngOnInit`'s subscription: a successful load replaces the favourites, an error keeps them. */
    method FavouritesArrived(response: Outcome<Favourites>)
      modifies this`favourites
      ensures response.Ok? ==> favourites == Some(response.body)
      ensures response.Failed? ==> favourites == old(favourites)
    {
      if response.Ok? {
        favourites := Some(response.body);
      }
    }

    /**
     * `_onAddRemoveToFavouritesFormSubmit`: a resource not yet among the
     * favourites is saved by id and collection; one already there is deleted
     * by its entry id. Saving without a resource fails with a TypeError
     * before any request, leaving the button busy.
     */
    method Toggle() returns (ok: bool)
      modifies this`formBeingSubmitted, this`pending
      ensures formBeingSubmitted
      ensures ok <==> IsAlreadyIn(favourites, resource) || resource.Some?
      ensures ok && !IsAlreadyIn(favourites, resource) ==>
        pending == Some(Save(resource.value.id, resource.value.coleccion))
      ensures ok && IsAlreadyIn(favourites, resource) ==>
        pending == Some(Delete(FavouriteId(favourites, resource).body))
      ensures !ok ==> pending == old(pending)
    {
      formBeingSubmitted := true;
      if !IsAlreadyIn(favourites, resource) {
        if resource.None? {
          return false;
        }
        pending := Some(Save(resource.value.id, resource.value.coleccion));
      } else {
        IdWhenPresent(favourites, resource);
        pending := Some(Delete(FavouriteId(favourites, resource).body));
      }
      return true;
    }

    /** The request settles: a success replaces the favourites; either way the button is free again. */
    method Settled(response: Outcome<Favourites>)
      modifies this`favourites, this`formBeingSubmitted
      ensures !formBeingSubmitted
      ensures response.Ok? ==> favourites == Some(response.body)
      ensures response.Failed? ==> favourites == old(favourites)
    {
      if response.Ok? {
        favourites := Some(response.body);
      }
      formBeingSubmitted := false;
    }
  }

  /** A delete is only ever sent with the id of a matching entry. */
  lemma DeleteTargetsMatch(favourites: Option<Favourites>, resource: Option<Resource>)
    requires IsAlreadyIn(favourites, resource)
    ensures var id := FavouriteId(favourites, resource);
      id.Ok? && id.body.Some? &&
      exists i :: 0 <= i < |AllEntries(favourites.value)| && AllEntries(favourites.value)[i].id == id.body.value
        && SameCode(AllEntries(favourites.value)[i], resource.value)
  {
    IdWhenPresent(favourites, resource);
    var all := AllEntries(favourites.value);
    var k := FirstWithCode(all, resource.value).value;
    assert all[k].id == FavouriteId(favourites, resource).body.value;
  }
}
