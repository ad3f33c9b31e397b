/**
 * The collections store: category filtering through the table of Spanish
 * category names, free-text search over one or all collections, and the
 * two result caches in front of them. The HTTP server is a parameter: a
 * function from endpoint and query parameters to a response.
 */
module CollectionsStore {
  import opened Common

  /** A result row, reduced to what identifies it. */
  datatype Resource = Resource(id: int, coleccion: string)

  type Params = map<string, string>

  /** The HTTP server: the response to a GET of an endpoint with some query parameters. */
  type Server = (string, Params) -> Outcome<seq<Resource>>

  /** The lower-cased Spanish category names and the API collection each selects. */
  const CategoryTable: map<string, string> := map[
    "alojamientos" := "accommodation",
    "cuevas y restos arqueológicos" := "cave",
    "edificios religiosos y castillos" := "cultural",
    "eventos" := "event",
    "parques temáticos" := "fair",
    "museos y centros de interpretación" := "museum",
    "espacios naturales" := "natural",
    "restaurantes" := "restaurant"
  ]

  /** The table as a list, in the order of the `switch`. */
  const CategoryNames: seq<(string, string)> := [
    ("alojamientos", "accommodation"),
    ("cuevas y restos arqueológicos", "cave"),
    ("edificios religiosos y castillos", "cultural"),
    ("eventos", "event"),
    ("parques temáticos", "fair"),
    ("museos y centros de interpretación", "museum"),
    ("espacios naturales", "natural"),
    ("restaurantes", "restaurant")
  ]

  /** The collection a category name selects, whatever its letter case. */
  function CollectionOf(category: string): (c: Option<string>)
    ensures c.Some? <==> Lower(category) in CategoryTable
    ensures c.Some? ==> c.value == CategoryTable[Lower(category)]
  {
    var key := Lower(category);
    if key in CategoryTable then Some(CategoryTable[key]) else None
  }

  function FilterEndpoint(collection: string): string {
    "/" + collection + "/results/filter"
  }

  function SearchEndpoint(collection: string): string {
    "/" + collection + "/results/search"
  }

  /** Each of the eight names, in any letter case, selects its own collection. */
  lemma {:induction false} NamedCategory(category: string, i: nat)
    requires i < |CategoryNames|
    requires Lower(category) == CategoryNames[i].0
    ensures CollectionOf(category) == Some(CategoryNames[i].1)
  {
    assert CategoryTable[CategoryNames[i].0] == CategoryNames[i].1;
  }

  /** The lookup ignores letter case. */
  lemma CaseInsensitive(category: string)
    ensures CollectionOf(Lower(category)) == CollectionOf(category)
  {
    LowerIdempotent(category);
  }

  /** Two names that select the same collection are the same name up to letter case. */
  lemma {:induction false} CollectionOfInjective(a: string, b: string)
    requires CollectionOf(a).Some? && CollectionOf(a) == CollectionOf(b)
    ensures Lower(a) == Lower(b)
  {
    var ka, kb := Lower(a), Lower(b);
    TableInjective(ka, kb);
  }

  lemma TableInjective(ka: string, kb: string)
    requires ka in CategoryTable && kb in CategoryTable && CategoryTable[ka] == CategoryTable[kb]
    ensures ka == kb
  {
  }

  /** `{ idioma: 'es', ...filters }`: a filter may override the language. */
  function FilterParams(filters: Params): (p: Params)
    ensures p.Keys == filters.Keys + {"idioma"}
    ensures "idioma" in filters ==> p["idioma"] == filters["idioma"]
    ensures "idioma" !in filters ==> p["idioma"] == "es"
    ensures forall k :: k in filters ==> p[k] == filters[k]
  {
    map["idioma" := "es"] + filters
  }

  /** `{ idioma: language, busqueda: query }`. */
  function SearchParams(query: string, language: string): Params {
    map["idioma" := language, "busqueda" := query]
  }

  /** `performSearch`: the response body, or `[]` on any error. */
  function PerformSearch(server: Server, endpoint: string, params: Params): (r: seq<Resource>)
    ensures server(endpoint, params).Ok? ==> r == server(endpoint, params).body
    ensures server(endpoint, params).Failed? ==> r == []
  {
    match server(endpoint, params)
    case Ok(body) => body
    case Failed => []
  }

  /** The collections searched when no category is selected, in concatenation order. */
  const SearchOrder: seq<string> := ["accommodation", "cave", "cultural", "event", "fair", "museum", "natural", "restaurant"]

  /** The search results of each collection in `order`, concatenated in that order. */
  function ConcatSearch(server: Server, order: seq<string>, params: Params): seq<Resource>
    decreases |order|
  {
    if order == [] then []
    else PerformSearch(server, SearchEndpoint(order[0]), params) + ConcatSearch(server, order[1..], params)
  }

  /** Concatenating over two lists of collections is concatenating the two results. */
  lemma {:induction false} ConcatSearchAppend(server: Server, a: seq<string>, b: seq<string>, params: Params)
    ensures ConcatSearch(server, a + b, params) == ConcatSearch(server, a, params) + ConcatSearch(server, b, params)
    decreases |a|
  {
    if a == [] {
      assert a + b == b;
    } else {
      assert (a + b)[0] == a[0] && (a + b)[1..] == a[1..] + b;
      ConcatSearchAppend(server, a[1..], b, params);
    }
  }

  /** The results of all eight collections, accommodations first and restaurants last. */
  function AllResults(server: Server, query: string, language: string): seq<Resource> {
    ConcatSearch(server, SearchOrder, SearchParams(query, language))
  }

  /** A resource is among the all-collections results exactly when one of the eight searches returned it. */
  lemma AllResultsHas(server: Server, query: string, language: string, x: Resource)
    ensures x in AllResults(server, query, language) <==>
      exists i :: 0 <= i < |SearchOrder| && x in PerformSearch(server, SearchEndpoint(SearchOrder[i]), SearchParams(query, language))
  {
    ConcatSearchHas(server, SearchOrder, SearchParams(query, language), x);
  }

  /** A resource is in the concatenation exactly when one of the searches returned it. */
  lemma {:induction false} ConcatSearchHas(server: Server, order: seq<string>, params: Params, x: Resource)
    ensures x in ConcatSearch(server, order, params) <==>
      exists i :: 0 <= i < |order| && x in PerformSearch(server, SearchEndpoint(order[i]), params)
    decreases |order|
  {
    if order != [] {
      ConcatSearchHas(server, order[1..], params, x);
      if x in ConcatSearch(server, order[1..], params) {
        var i :| 0 <= i < |order[1..]| && x in PerformSearch(server, SearchEndpoint(order[1..][i]), params);
        assert order[i + 1] == order[1..][i];
      }
      if exists i :: 0 <= i < |order| && x in PerformSearch(server, SearchEndpoint(order[i]), params) {
        var i :| 0 <= i < |order| && x in PerformSearch(server, SearchEndpoint(order[i]), params);
        if i > 0 { assert order[1..][i - 1] == order[i]; }
      }
    }
  }

  /** Splitting a list of collections at `i` splits their concatenated results there. */
  lemma {:induction false} ConcatSearchAt(server: Server, order: seq<string>, params: Params, i: nat)
    requires i < |order|
    ensures ConcatSearch(server, order, params) ==
      ConcatSearch(server, order[..i], params)
      + PerformSearch(server, SearchEndpoint(order[i]), params)
      + ConcatSearch(server, order[i + 1..], params)
  {
    assert order == order[..i] + order[i..];
    ConcatSearchAppend(server, order[..i], order[i..], params);
    var rest := order[i..];
    assert rest[0] == order[i] && rest[1..] == order[i + 1..];
    assert ConcatSearch(server, rest, params) ==
      PerformSearch(server, SearchEndpoint(order[i]), params) + ConcatSearch(server, order[i + 1..], params);
  }

  /**
   * Each collection's results sit between those of the collections before
   * it and those after it in `SearchOrder`.
   */
  lemma AllResultsBlocks(server: Server, query: string, language: string, i: nat)
    requires i < |SearchOrder|
    ensures AllResults(server, query, language) ==
      ConcatSearch(server, SearchOrder[..i], SearchParams(query, language))
      + PerformSearch(server, SearchEndpoint(SearchOrder[i]), SearchParams(query, language))
      + ConcatSearch(server, SearchOrder[i + 1..], SearchParams(query, language))
  {
    ConcatSearchAt(server, SearchOrder, SearchParams(query, language), i);
  }

  /** The search in one category: `[]` for a name outside the table. */
  function CategoryResults(server: Server, category: string, query: string, language: string): (r: seq<Resource>)
    ensures CollectionOf(category).None? ==> r == []
    ensures CollectionOf(category).Some? ==>
      r == PerformSearch(server, SearchEndpoint(CollectionOf(category).value), SearchParams(query, language))
  {
    match CollectionOf(category)
    case None => []
    case Some(c) => PerformSearch(server, SearchEndpoint(c), SearchParams(query, language))
  }

  /** The key `JSON.stringify({ category, filters })`. */
  datatype FilterKey = FilterKey(category: string, filters: Params)

  /** The keys `JSON.stringify({ query, language })` and `JSON.stringify({ category, query, language })`. */
  datatype SearchKey = AllKey(query: string, language: string) | CategoryKey(category: string, query: string, language: string)

  /** What a fresh search gives for a search-cache key. */
  function Answer(server: Server, key: SearchKey): seq<Resource> {
    match key
    case AllKey(q, l) => AllResults(server, q, l)
    case CategoryKey(c, q, l) => CategoryResults(server, c, q, l)
  }

  /**
   * The search a user means: `[]` for fewer than three characters, the
   * selected category's results when one is selected, else all results.
   */
  function IntendedSearch(server: Server, selected: string, query: string, language: string): seq<Resource> {
    if |query| < 3 then []
    else if selected != "" then CategoryResults(server, selected, query, language)
    else AllResults(server, query, language)
  }

  class Store {
    var filteredResults: seq<Resource>
    var searchResults: seq<Resource>
    var selectedCategory: string
    var loading: bool
    var cache: map<FilterKey, seq<Resource>>
    var searchCache: map<SearchKey, seq<Resource>>

    /**
     * Every cached entry is what the server answers for its key, and only
     * queries of three or more characters are cached.
     */
    predicate CacheSound(server: Server)
      reads this`cache, this`searchCache
    {
      FilterCacheSound(server) && SearchCacheSound(server)
    }

    /** Every cached filter answer is the server's answer for its category and filters. */
    predicate FilterCacheSound(server: Server)
      reads this`cache
    {
      forall k :: k in cache ==>
        CollectionOf(k.category).Some? &&
        server(FilterEndpoint(CollectionOf(k.category).value), FilterParams(k.filters)) == Ok(cache[k])
    }

    /** Every cached search is a fresh search for its key, and its query has three or more characters. */
    predicate SearchCacheSound(server: Server)
      reads this`searchCache
    {
      forall k :: k in searchCache ==> |k.query| >= 3 && searchCache[k] == Answer(server, k)
    }

    constructor ()
      ensures filteredResults == [] && searchResults == [] && selectedCategory == "" && !loading
      ensures cache == map[] && searchCache == map[]
      ensures forall server: Server :: CacheSound(server)
    {
      filteredResults, searchResults := [], [];
      selectedCategory := "";
      loading := false;
      cache, searchCache := map[], map[];
    }

    /**
     * `filterResultsByCategory(category, filters)`. A falsy category
     * empties the results; a cached key answers from the cache; otherwise
     * the category's endpoint is asked, with `[]` and no request for a
     * name outside the table, and a successful answer is cached.
     */
    method FilterResultsByCategory(server: Server, category: Option<string>, filters: Params)
      requires CacheSound(server)
      modifies this`filteredResults, this`loading, this`cache
      ensures CacheSound(server)
      ensures !Truthy(category) ==> filteredResults == [] && cache == old(cache) && loading == old(loading)
      ensures Truthy(category) && FilterKey(category.value, filters) in old(cache) ==>
        filteredResults == old(cache)[FilterKey(category.value, filters)] && cache == old(cache) && loading == old(loading)
      ensures Truthy(category) && FilterKey(category.value, filters) !in old(cache) ==> !loading
      ensures Truthy(category) && FilterKey(category.value, filters) !in old(cache) && CollectionOf(category.value).None? ==>
        filteredResults == [] && cache == old(cache)
      ensures Truthy(category) && FilterKey(category.value, filters) !in old(cache) && CollectionOf(category.value).Some? ==>
        var response := server(FilterEndpoint(CollectionOf(category.value).value), FilterParams(filters));
        (response.Ok? ==> filteredResults == response.body && cache == old(cache)[FilterKey(category.value, filters) := response.body])
        && (response.Failed? ==> filteredResults == old(filteredResults) && cache == old(cache))
      ensures Truthy(category) && CollectionOf(category.value).Some? && filteredResults != old(filteredResults) ==>
        Ok(filteredResults) == server(FilterEndpoint(CollectionOf(category.value).value), FilterParams(filters))
    {
      if !Truthy(category) {
        filteredResults := [];
        return;
      }
      var key := FilterKey(category.value, filters);
      if key in cache {
        filteredResults := cache[key];
        return;
      }
      loading := true;
      var collection := CollectionOf(category.value);
      if collection.None? {
        filteredResults := [];
        loading := false;
        return;
      }
      var response := server(FilterEndpoint(collection.value), FilterParams(filters));
      if response.Ok? {
        filteredResults := response.body;
        cache := cache[key := filteredResults];
      }
      loading := false;
    }

    /**
     * `searchInCategory(category, query, language)`. A falsy category
     * empties the results; a cached key answers from the cache; a query
     * under three characters empties the results; otherwise the results are
     * the category's search (`[]` outside the table or on error), and they
     * are cached.
     */
    method SearchInCategory(server: Server, category: Option<string>, query: string, language: string)
      requires CacheSound(server)
      modifies this`searchResults, this`loading, this`searchCache
      ensures CacheSound(server)
      ensures !Truthy(category) ==> searchResults == [] && searchCache == old(searchCache) && loading == old(loading)
      ensures Truthy(category) ==>
        var key := CategoryKey(category.value, query, language);
        (key in old(searchCache) ==> searchResults == old(searchCache)[key] && searchCache == old(searchCache) && loading == old(loading))
        && (key !in old(searchCache) && |query| < 3 ==> searchResults == [] && searchCache == old(searchCache) && loading == old(loading))
        && (key !in old(searchCache) && |query| >= 3 ==>
              searchCache == old(searchCache)[key := searchResults] && !loading)
      ensures Truthy(category) ==> searchResults == IntendedSearch(server, category.value, query, language)
    {
      if !Truthy(category) {
        searchResults := [];
        return;
      }
      var key := CategoryKey(category.value, query, language);
      if key in searchCache {
        searchResults := searchCache[key];
        return;
      }
      if |query| < 3 {
        searchResults := [];
        return;
      }
      loading := true;
      searchResults := [];
      SearchOneCollection(server, category.value, query, language);
      loading := false;
    }

    /** The search in one category (`[]` outside the table), cached under the category's key. */
    method SearchOneCollection(server: Server, category: string, query: string, language: string)
      requires CacheSound(server) && |query| >= 3
      modifies this`searchResults, this`searchCache
      ensures CacheSound(server)
      ensures searchResults == CategoryResults(server, category, query, language)
      ensures searchCache == old(searchCache)[CategoryKey(category, query, language) := searchResults]
    {
      var collection := CollectionOf(category);
      if collection.Some? {
        searchResults := PerformSearch(server, SearchEndpoint(collection.value), SearchParams(query, language));
      } else {
        searchResults := [];
      }
      assert searchResults == Answer(server, CategoryKey(category, query, language));
      searchCache := searchCache[CategoryKey(category, query, language) := searchResults];
    }

    /**
     * `searchAllCollections(query, language)` as written: the cache is
     * checked under a key without the selected category, before the
     * category is looked at.
     */
    method SearchAllCollections(server: Server, query: string, language: string)
      requires CacheSound(server)
      modifies this`searchResults, this`loading, this`searchCache
      ensures CacheSound(server)
      ensures AllKey(query, language) in old(searchCache) ==>
        searchResults == AllResults(server, query, language) && searchCache == old(searchCache)
      ensures AllKey(query, language) !in old(searchCache) ==>
        searchResults == IntendedSearch(server, selectedCategory, query, language)
      ensures AllKey(query, language) !in old(searchCache) && |query| >= 3 ==> !loading
      ensures AllKey(query, language) !in old(searchCache) && |query| >= 3 && selectedCategory == "" ==>
        searchCache == old(searchCache)[AllKey(query, language) := AllResults(server, query, language)]
    {
      var key := AllKey(query, language);
      if key in searchCache {
        searchResults := searchCache[key];
        return;
      }
      if |query| < 3 {
        searchResults := [];
        return;
      }
      loading := true;
      searchResults := [];
      if selectedCategory != "" {
        SearchInCategory(server, Some(selectedCategory), query, language);
      } else {
        SearchEveryCollection(server, query, language);
      }
      loading := false;
    }

    /**
     * `searchAllCollections` with the all-collections cache consulted only
     * when no category is selected: every search then gives the intended
     * results.
     */
    method SearchAllCollectionsIntended(server: Server, query: string, language: string)
      requires CacheSound(server)
      modifies this`searchResults, this`loading, this`searchCache
      ensures CacheSound(server)
      ensures searchResults == IntendedSearch(server, selectedCategory, query, language)
    {
      if selectedCategory != "" {
        SearchInCategory(server, Some(selectedCategory), query, language);
        return;
      }
      var key := AllKey(query, language);
      if key in searchCache {
        searchResults := searchCache[key];
        return;
      }
      if |query| < 3 {
        searchResults := [];
        return;
      }
      loading := true;
      SearchEveryCollection(server, query, language);
      loading := false;
    }

    /** The search over every collection, in `SearchOrder`, cached under the key without a category. */
    method SearchEveryCollection(server: Server, query: string, language: string)
      requires CacheSound(server) && |query| >= 3
      modifies this`searchResults, this`searchCache
      ensures CacheSound(server)
      ensures searchResults == AllResults(server, query, language)
      ensures searchCache == old(searchCache)[AllKey(query, language) := searchResults]
    {
      var all := AllResults(server, query, language);
      assert all == Answer(server, AllKey(query, language));
      searchResults := all;
      searchCache := searchCache[AllKey(query, language) := all];
    }

    /** `setSelectedCategory(category)`: a falsy value is stored as `''`. */
    method SetSelectedCategory(category: Option<string>)
      modifies this`selectedCategory
      ensures selectedCategory == (if Truthy(category) then category.value else "")
    {
      selectedCategory := if Truthy(category) then category.value else "";
    }
  }

  /** A server that answers every search with one row naming the endpoint asked. */
  function EchoServer(): Server {
    (endpoint: string, params: Params) => Ok([Resource(0, endpoint)])
  }

  /**
   * With a category selected, the all-collections results differ from the
   * category's own results: for `Eventos` and the echo server, the first
   * row of the former comes from accommodations, the only row of the
   * latter from events.
   */
  lemma StaleDiffers(query: string, language: string, category: string)
    requires |query| >= 3 && Lower(category) == "eventos"
    ensures AllResults(EchoServer(), query, language) != IntendedSearch(EchoServer(), category, query, language)
  {
    var server := EchoServer();
    AllResultsBlocks(server, query, language, 0);
    assert AllResults(server, query, language)[0] == Resource(0, SearchEndpoint("accommodation"));
    assert CategoryNames[3].0 == "eventos";
    NamedCategory(category, 3);
    assert CategoryResults(server, category, query, language) == [Resource(0, SearchEndpoint("event"))];
    assert SearchEndpoint("accommodation")[1] != SearchEndpoint("event")[1];
  }

  /**
   * A search with no category selected, then the same search after
   * selecting a category: the second answers from the all-collections
   * cache, whatever the category.
   */
  method SearchTwice(store: Store, server: Server, query: string, language: string, category: string)
    requires |query| >= 3 && category != "" && store.CacheSound(server)
    modifies store
    ensures store.selectedCategory == category
    ensures store.searchResults == AllResults(server, query, language)
  {
    store.SetSelectedCategory(None);
    store.SearchAllCollections(server, query, language);
    assert AllKey(query, language) in store.searchCache;
    store.SetSelectedCategory(Some(category));
    store.SearchAllCollections(server, query, language);
  }

  /**
   * The same two searches with `Eventos`, in any letter case, selected the
   * second time: the store's results differ from the events search the
   * user asked for.
   */
  method StaleSearchScenario(store: Store, query: string, language: string, category: string)
    requires |query| >= 3 && Lower(category) == "eventos" && store.CacheSound(EchoServer())
    modifies store
    ensures store.selectedCategory == category
    ensures store.searchResults != IntendedSearch(EchoServer(), store.selectedCategory, query, language)
  {
    assert |category| == 7;
    SearchTwice(store, EchoServer(), query, language, category);
    StaleDiffers(query, language, category);
  }
}
