/**
 * The requests of the collections service: per collection, the keys its
 * filtering method forwards, the keys its searching method forwards, and
 * the shapes of the detail, category and locality-name URLs.
 */
module CollectionsService {
  import opened Common
  import opened HttpParams

  datatype Collection = Accommodation | Cave | Cultural | Event | Fair | Locality | Museum | Natural | Restaurant

  /** The path segment of a collection in the API. */
  function PathName(c: Collection): string {
    match c
    case Accommodation => "accommodation"
    case Cave => "cave"
    case Cultural => "cultural"
    case Event => "event"
    case Fair => "fair"
    case Locality => "locality"
    case Museum => "museum"
    case Natural => "natural"
    case Restaurant => "restaurant"
  }

  /** Distinct collections have distinct path names. */
  lemma PathNameInjective(c: Collection, d: Collection)
    requires PathName(c) == PathName(d)
    ensures c == d
  {
    assert PathName(c)[0] == PathName(d)[0];
    if PathName(c)[0] == 'c' {
      assert PathName(c)[1] == PathName(d)[1];
    }
  }

  /** The keys each `*Filtering` method forwards, in the order it appends them. */
  function FilterKeys(c: Collection): (keys: seq<string>)
    ensures forall i, j :: 0 <= i < j < |keys| ==> keys[i] != keys[j]
  {
    match c
    case Event =>
      ["idioma", "nombre", "nombre_provincia", "nombre_municipio", "nombre_subtipo_recurso",
       "fecha_inicio", "fecha_fin", "descripcion", "aleatorio", "limite"]
    case Fair =>
      ["idioma", "nombre", "nombre_provincia", "nombre_municipio", "descripcion", "aleatorio", "limite"]
    case Locality =>
      ["idioma", "nombre", "nombre_provincia", "descripcion", "aleatorio", "limite"]
    case Natural =>
      ["idioma", "nombre", "nombre_provincia", "nombre_municipio",
       "nombre_subtipo_recurso_espacio_natural", "nombre_subtipo_recurso_playas_pantanos_rios",
       "descripcion", "aleatorio", "limite"]
    case _ =>
      ["idioma", "nombre", "nombre_provincia", "nombre_municipio", "nombre_subtipo_recurso",
       "descripcion", "aleatorio", "limite"]
  }

  const SearchKeys: seq<string> := ["idioma", "busqueda"]

  /** `get<C>sFiltering(query)`. */
  method Filtering(api: string, c: Collection, query: Query) returns (req: Request)
    ensures req.url == api + "/" + PathName(c) + "/results/filter"
    ensures forall p :: p in req.params <==> p.0 in FilterKeys(c) && Present(query, p.0) && p.1 == query[p.0]
    ensures req.params == Forwarded(query, Same(FilterKeys(c)))
  {
    var params := BuildParams(query, Same(FilterKeys(c)));
    req := Request(api + "/" + PathName(c) + "/results/filter", params);
    forall p ensures p in req.params <==> p.0 in FilterKeys(c) && Present(query, p.0) && p.1 == query[p.0] {
      SameForwarded(query, FilterKeys(c), p);
    }
  }

  /** `get<C>sSearching(query)`: only `idioma` and `busqueda` go out. */
  method Searching(api: string, c: Collection, query: Query) returns (req: Request)
    ensures req.url == api + "/" + PathName(c) + "/results/search"
    ensures forall p :: p in req.params <==> p.0 in SearchKeys && Present(query, p.0) && p.1 == query[p.0]
    ensures req.params == Forwarded(query, Same(SearchKeys))
  {
    var params := BuildParams(query, Same(SearchKeys));
    req := Request(api + "/" + PathName(c) + "/results/search", params);
    forall p ensures p in req.params <==> p.0 in SearchKeys && Present(query, p.0) && p.1 == query[p.0] {
      SameForwarded(query, SearchKeys, p);
    }
  }

  /** With identical read and sent names, a parameter goes out exactly for a listed, truthy key. */
  lemma SameForwarded(query: Query, keys: seq<string>, p: (string, string))
    ensures p in Forwarded(query, Same(keys)) <==> p.0 in keys && Present(query, p.0) && p.1 == query[p.0]
  {
    ForwardedExactly(query, Same(keys), p);
    if p.0 in keys && Present(query, p.0) && p.1 == query[p.0] {
      var i :| 0 <= i < |keys| && keys[i] == p.0;
      assert Same(keys)[i] == Rule(p.0, p.0);
    }
  }

  /** The detail URL `<api>/<c>/result/<code>/<lang>`; localities drop `result`. */
  function DetailUrl(api: string, c: Collection, code: int, lang: string): (url: string)
    ensures c != Locality ==> url == api + "/" + PathName(c) + "/result/" + IntToString(code) + "/" + lang
    ensures c == Locality ==> url == api + "/locality/" + IntToString(code) + "/" + lang
  {
    if c == Locality then api + "/locality/" + IntToString(code) + "/" + lang
    else api + "/" + PathName(c) + "/result/" + IntToString(code) + "/" + lang
  }

  /** The categories URL; fairs and localities have no categories method. */
  function CategoriesUrl(api: string, c: Collection, lang: string): (url: Option<string>)
    ensures url.None? <==> c == Fair || c == Locality
    ensures url.Some? ==> url.value == api + "/" + PathName(c) + "/categories/" + lang
  {
    if c == Fair || c == Locality then None else Some(api + "/" + PathName(c) + "/categories/" + lang)
  }

  lemma PathNameNoSlash(c: Collection)
    ensures NoSlash(PathName(c))
  {
  }

  /** What follows the collection's path name in a detail URL. */
  function DetailTail(c: Collection, code: int, lang: string): string {
    (if c == Locality then "/" else "/result/") + (IntToString(code) + ("/" + lang))
  }

  lemma DetailUrlShape(api: string, c: Collection, code: int, lang: string)
    ensures DetailUrl(api, c, code, lang) == (api + "/") + (PathName(c) + DetailTail(c, code, lang))
  {
    if c == Locality {
      RegroupLocality(api, IntToString(code), lang);
    } else {
      RegroupDetail(api, PathName(c), IntToString(code), lang);
    }
  }

  lemma RegroupDetail(api: string, p: string, i: string, lang: string)
    ensures api + "/" + p + "/result/" + i + "/" + lang == (api + "/") + (p + ("/result/" + (i + ("/" + lang))))
  {
  }

  lemma RegroupLocality(api: string, i: string, lang: string)
    ensures api + "/locality/" + i + "/" + lang == (api + "/") + ("locality" + ("/" + (i + ("/" + lang))))
  {
  }

  /** The detail URL names one resource: collection, code and language can be read back from it. */
  lemma DetailUrlIdentifies(api: string, c: Collection, code: int, lang: string, c2: Collection, code2: int, lang2: string)
    requires DetailUrl(api, c, code, lang) == DetailUrl(api, c2, code2, lang2)
    ensures c == c2 && code == code2 && lang == lang2
  {
    var t1, t2 := DetailTail(c, code, lang), DetailTail(c2, code2, lang2);
    DetailUrlShape(api, c, code, lang);
    DetailUrlShape(api, c2, code2, lang2);
    DropPrefix(api + "/", PathName(c) + t1, PathName(c2) + t2);
    PathNameNoSlash(c);
    PathNameNoSlash(c2);
    SplitAtSlash(PathName(c), t1, PathName(c2), t2);
    PathNameInjective(c, c2);
    var head := if c == Locality then "/" else "/result/";
    DropPrefix(head, IntToString(code) + ("/" + lang), IntToString(code2) + ("/" + lang2));
    IntToStringNoSlash(code);
    IntToStringNoSlash(code2);
    SplitAtSlash(IntToString(code), "/" + lang, IntToString(code2), "/" + lang2);
    IntToStringInjective(code, code2);
    DropPrefix("/", lang, lang2);
  }

  lemma CategoriesUrlShape(api: string, c: Collection, lang: string)
    requires c != Fair && c != Locality
    ensures CategoriesUrl(api, c, lang) == Some((api + "/") + (PathName(c) + ("/categories/" + lang)))
  {
    assert api + "/" + PathName(c) + "/categories/" + lang == (api + "/") + (PathName(c) + ("/categories/" + lang));
  }

  /** A categories URL names one collection and language. */
  lemma CategoriesUrlIdentifies(api: string, c: Collection, lang: string, c2: Collection, lang2: string)
    requires CategoriesUrl(api, c, lang).Some? && CategoriesUrl(api, c, lang) == CategoriesUrl(api, c2, lang2)
    ensures c == c2 && lang == lang2
  {
    CategoriesUrlShape(api, c, lang);
    CategoriesUrlShape(api, c2, lang2);
    DropPrefix(api + "/", PathName(c) + ("/categories/" + lang), PathName(c2) + ("/categories/" + lang2));
    PathNameNoSlash(c);
    PathNameNoSlash(c2);
    SplitAtSlash(PathName(c), "/categories/" + lang, PathName(c2), "/categories/" + lang2);
    PathNameInjective(c, c2);
    DropPrefix("/categories/", lang, lang2);
  }

  /** `getLocalityNames(query)`: only `idioma` is forwarded. */
  method LocalityNames(api: string, query: Query) returns (req: Request)
    ensures req.url == api + "/locality/names"
    ensures req.params == (if Present(query, "idioma") then [("idioma", query["idioma"])] else [])
  {
    var params := BuildParams(query, [Rule("idioma", "idioma")]);
    req := Request(api + "/locality/names", params);
  }

  /** Only events forward the two dates. */
  lemma DatesOnlyForEvents(c: Collection)
    ensures "fecha_inicio" in FilterKeys(c) <==> c == Event
    ensures "fecha_fin" in FilterKeys(c) <==> c == Event
  {
  }

  /** Fairs, localities and naturals do not forward `nombre_subtipo_recurso`; naturals forward their two subtype keys instead. */
  lemma SubtypeKeys(c: Collection)
    ensures "nombre_subtipo_recurso" in FilterKeys(c) <==> c != Fair && c != Locality && c != Natural
    ensures "nombre_subtipo_recurso_espacio_natural" in FilterKeys(c) <==> c == Natural
    ensures "nombre_subtipo_recurso_playas_pantanos_rios" in FilterKeys(c) <==> c == Natural
  {
  }

  /** Only localities do not forward the municipality. */
  lemma MunicipalityKey(c: Collection)
    ensures "nombre_municipio" in FilterKeys(c) <==> c != Locality
  {
  }

  /** Every filter list starts with `idioma` and ends with `aleatorio`, `limite`. */
  lemma FilterKeysShape(c: Collection)
    ensures |FilterKeys(c)| >= 3 && FilterKeys(c)[0] == "idioma"
    ensures FilterKeys(c)[|FilterKeys(c)| - 2..] == ["aleatorio", "limite"]
  {
  }
}
