/**
 * The resource list page: which filtering request the route's collection
 * selects, the query built from a filter submission, and the loading flag
 * driven by the request's subscription.
 */
module ResourceListPage {
  import opened Common
  import opened HttpParams
  import opened CollectionsService

  /** A row of the results, reduced to its identity. */
  datatype Row = Row(codigo: int)

  /** A category choice of the filter panel: its name and the key it filters on. */
  datatype Category = Category(name: string, subtype: string)

  /** The object the filter panel emits (objects as their name, dates already rendered). */
  datatype FilterInput = FilterInput(category: Option<Category>, locality: Option<string>, province: Option<string>,
                                     startDate: Option<string>, endDate: Option<string>)

  /** The route name of a collection: its path name in the plural. */
  function RouteName(c: Collection): string {
    if c == Locality then "localities" else PathName(c) + "s"
  }

  /** The collection whose filtering request a route name selects: the nine plural names. */
  function RouteCollection(name: string): (c: Option<Collection>)
    ensures c.Some? ==> name == RouteName(c.value)
  {
    if name == "accommodations" then Some(Accommodation)
    else if name == "caves" then Some(Cave)
    else if name == "culturals" then Some(Cultural)
    else if name == "events" then Some(Event)
    else if name == "fairs" then Some(Fair)
    else if name == "localities" then Some(Locality)
    else if name == "naturals" then Some(Natural)
    else if name == "museums" then Some(Museum)
    else if name == "restaurants" then Some(Restaurant)
    else None
  }

  /** Each of the nine route names selects its own collection. */
  lemma RouteNamesCover(c: Collection)
    ensures RouteCollection(RouteName(c)) == Some(c)
  {
    match c
    case Accommodation => assert RouteName(c) == "accommodations";
    case Cave => assert RouteName(c) == "caves";
    case Cultural => assert RouteName(c) == "culturals";
    case Event => assert RouteName(c) == "events";
    case Fair => assert RouteName(c) == "fairs";
    case Locality => assert RouteName(c) == "localities";
    case Natural => assert RouteName(c) == "naturals";
    case Museum => assert RouteName(c) == "museums";
    case Restaurant => assert RouteName(c) == "restaurants";
  }

  /** The fixed keys the submission may set besides the category's own. */
  const FixedKeys: set<string> := {"idioma", "nombre_municipio", "nombre_provincia", "fecha_inicio", "fecha_fin"}

  /**
   * `_onFilterFormSubmit`'s query: `idioma` is `es`, then each present
   * input sets its key in turn (a later one wins on a shared key).
   */
  method BuildQuery(data: FilterInput) returns (query: Query)
    ensures query.Keys == {"idioma"}
      + (if data.category.Some? then {data.category.value.subtype} else {})
      + (if data.locality.Some? then {"nombre_municipio"} else {})
      + (if data.province.Some? then {"nombre_provincia"} else {})
      + (if Truthy(data.startDate) then {"fecha_inicio"} else {})
      + (if Truthy(data.endDate) then {"fecha_fin"} else {})
    ensures (data.category.None? || data.category.value.subtype != "idioma") ==> query["idioma"] == "es"
    ensures data.category.Some? && data.category.value.subtype !in FixedKeys ==>
      query[data.category.value.subtype] == data.category.value.name
    ensures data.locality.Some? ==> query["nombre_municipio"] == data.locality.value
    ensures data.province.Some? ==> query["nombre_provincia"] == data.province.value
    ensures Truthy(data.startDate) ==> query["fecha_inicio"] == data.startDate.value
    ensures Truthy(data.endDate) ==> query["fecha_fin"] == data.endDate.value
  {
    query := map["idioma" := "es"];
    if data.category.Some? { query := query[data.category.value.subtype := data.category.value.name]; }
    if data.locality.Some? { query := query["nombre_municipio" := data.locality.value]; }
    if data.province.Some? { query := query["nombre_provincia" := data.province.value]; }
    if Truthy(data.startDate) { query := query["fecha_inicio" := data.startDate.value]; }
    if Truthy(data.endDate) { query := query["fecha_fin" := data.endDate.value]; }
  }

  /**
   * A category reaches the API exactly when its key is on the collection's
   * whitelist: the request carries `(subtype, name)` then, and nothing under
   * that key otherwise.
   */
  lemma CategoryReachesApi(c: Collection, query: Query, cat: Category)
    requires cat.subtype in query && query[cat.subtype] == cat.name && cat.name != ""
    ensures (cat.subtype, cat.name) in Forwarded(query, Same(FilterKeys(c))) <==> cat.subtype in FilterKeys(c)
  {
    SameForwarded(query, FilterKeys(c), (cat.subtype, cat.name));
  }

  class Page {
    const collection: string
    /** The filtering request the page's observable stands for: the collection and the query. */
    var request: Option<(Collection, Query)>
    var resources: Option<seq<Row>>
    var loading: bool
    /** The current subscription's request has not finished. */
    var pending: bool

    /** The spinner is on exactly while a request is pending. */
    predicate SpinnerHonest()
      reads this
    {
      loading == pending
    }

    /** `ngOnInit` up to the subscription, with `idioma = es` as the only query key. */
    constructor (collection: string)
      ensures this.collection == collection && resources == None
      ensures RouteCollection(collection).Some? ==>
        request == Some((RouteCollection(collection).value, map["idioma" := "es"])) && pending
      ensures RouteCollection(collection).None? ==> request == None && !pending
      ensures loading
    {
      this.collection := collection;
      resources := None;
      loading := true;
      var c := RouteCollection(collection);
      request := if c.Some? then Some((c.value, map["idioma" := "es"])) else None;
      pending := c.Some?;
    }

    /** `_setCollectionObservable(query)`: a known collection takes the new query, an unknown one keeps the old request. */
    method SetCollectionObservable(query: Query)
      modifies this`request
      ensures RouteCollection(collection).Some? ==> request == Some((RouteCollection(collection).value, query))
      ensures RouteCollection(collection).None? ==> request == old(request)
    {
      var c := RouteCollection(collection);
      if c.Some? {
        request := Some((c.value, query));
      }
    }

    /**
     * `_onFilterFormSubmit(data)` as written. The spinner is switched on
     * before the old subscription is dropped, and dropping a subscription
     * whose request is still pending runs its `finalize`, which switches it
     * off again. Without a request to subscribe to (an unknown collection)
     * it fails with a TypeError.
     */
    method Submit(data: FilterInput) returns (ok: bool)
      modifies this`request, this`loading, this`pending
      ensures ok <==> RouteCollection(collection).Some? || old(request).Some?
      ensures loading == !old(pending)
      ensures ok ==> pending && request.Some? && request.value.0 == (if RouteCollection(collection).Some? then RouteCollection(collection).value else old(request).value.0)
      ensures !ok ==> !pending
    {
      var query := BuildQuery(data);
      loading := true;
      if pending {
        loading := false;
      }
      pending := false;
      SetCollectionObservable(query);
      if request.None? {
        return false;
      }
      pending := true;
      return true;
    }

    /** `_onFilterFormSubmit` with the spinner switched on after the old subscription is dropped. */
    method SubmitIntended(data: FilterInput) returns (ok: bool)
      modifies this`request, this`loading, this`pending
      ensures ok <==> RouteCollection(collection).Some? || old(request).Some?
      ensures ok ==> SpinnerHonest() && loading
    {
      var query := BuildQuery(data);
      pending := false;
      SetCollectionObservable(query);
      loading := true;
      if request.None? {
        return false;
      }
      pending := true;
      return true;
    }

    /** The pending request settles: its rows (if any) are shown, then `finalize` stops the spinner. */
    method Settled(response: Outcome<seq<Row>>)
      requires pending
      modifies this`resources, this`loading, this`pending
      ensures resources == (if response.Ok? then Some(response.body) else old(resources))
      ensures !loading && !pending && SpinnerHonest()
    {
      if response.Ok? {
        resources := Some(response.body);
      }
      loading := false;
      pending := false;
    }

    /** `ngOnDestroy`: dropping a pending subscription runs its `finalize`. */
    method Destroy()
      modifies this`loading, this`pending
      ensures !pending
      ensures loading == (if old(pending) then false else old(loading))
    {
      if pending {
        loading := false;
      }
      pending := false;
    }
  }

  /** Submitting while the first request is still pending hides the spinner of the new one. */
  method ResubmitScenario(page: Page, data: FilterInput)
    requires page.pending && page.request.Some? && page.SpinnerHonest()
    modifies page
    ensures page.pending && !page.loading && !page.SpinnerHonest()
  {
    var ok := page.Submit(data);
  }
}
