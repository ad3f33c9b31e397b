/**
 * The resource detail page: the collection and code read from the URL,
 * the one detail request for a known collection, and the generic image
 * shown once the resource arrives.
 */
module ResourceDetailPage {
  import opened Common
  import opened CollectionsService

  /** `+path` for the code segment: digit-only text (the empty one gives 0) or anything else. */
  datatype Code = Number(n: nat) | Other(text: string)

  function CodeOf(path: string): (code: Code)
    ensures AllDigits(path) ==> code == Number(DigitsValue(path))
    ensures !AllDigits(path) ==> code == Other(path)
  {
    if AllDigits(path) then Number(DigitsValue(path)) else Other(path)
  }

  /** Reading back the code of a detail link gives the code. */
  lemma CodeRoundTrip(n: nat)
    ensures CodeOf(NatToString(n)) == Number(n)
  {
    NatToStringValue(n);
  }

  /** The `switch` over the first segment: the collection whose path name it is, if any. */
  function CollectionNamed(tipo: string): (c: Option<Collection>)
    ensures c.Some? ==> PathName(c.value) == tipo
    ensures c.None? ==> forall d: Collection :: PathName(d) != tipo
  {
    if tipo == "accommodation" then Some(Accommodation)
    else if tipo == "cave" then Some(Cave)
    else if tipo == "cultural" then Some(Cultural)
    else if tipo == "event" then Some(Event)
    else if tipo == "fair" then Some(Fair)
    else if tipo == "locality" then Some(Locality)
    else if tipo == "museum" then Some(Museum)
    else if tipo == "natural" then Some(Natural)
    else if tipo == "restaurant" then Some(Restaurant)
    else None
  }

  /** Every collection is reached by its own path name. */
  lemma NamedByPath(c: Collection)
    ensures CollectionNamed(PathName(c)) == Some(c)
  {
    var r := CollectionNamed(PathName(c));
    PathNameInjective(r.value, c);
  }

  /** The generic image each collection's detail page falls back on. */
  function GenericImage(c: Collection): (image: string)
    ensures c != Cave ==> image == "generic-" + PathName(c) + ".jpg"
    ensures c == Cave ==> image == "gereic-cave.jpg"
  {
    match c
    case Accommodation => "generic-accommodation.jpg"
    case Cave => "gereic-cave.jpg"
    case Cultural => "generic-cultural.jpg"
    case Event => "generic-event.jpg"
    case Fair => "generic-fair.jpg"
    case Locality => "generic-locality.jpg"
    case Museum => "generic-museum.jpg"
    case Natural => "generic-natural.jpg"
    case Restaurant => "generic-restaurant.jpg"
  }

  /** `getLang`: the stored language, Spanish when none is stored. */
  function Lang(stored: Option<string>): (lang: string)
    ensures stored.Some? ==> lang == stored.value
    ensures stored.None? ==> lang == "es"
  {
    stored.GetOr("es")
  }

  /** The detail request: collection, code and language. */
  datatype DetailRequest = DetailRequest(collection: Collection, code: Code, lang: string)

  /** The URL of a request whose code is a number. */
  function RequestUrl(api: string, r: DetailRequest): (url: Option<string>)
    ensures r.code.Number? <==> url.Some?
    ensures url.Some? ==> url.value == DetailUrl(api, r.collection, r.code.n, r.lang)
  {
    if r.code.Number? then Some(DetailUrl(api, r.collection, r.code.n, r.lang)) else None
  }

  class Page {
    var tipo: string
    var code: Code
    var imgGeneric: Option<string>
    var resource: Option<string>
    var request: Option<DetailRequest>

    constructor ()
      ensures tipo == "" && code == Number(0) && imgGeneric == None && resource == None && request == None
    {
      tipo := "";
      code := Number(0);
      imgGeneric := None;
      resource := None;
      request := None;
    }

    /**
     * `ngOnInit`: a URL with fewer than two segments fails with a TypeError;
     * otherwise the first names the collection and the second the code,
     * and only a known collection issues a request.
     */
    method Init(url: seq<string>, stored: Option<string>) returns (ok: bool)
      modifies this`tipo, this`code, this`request
      ensures ok <==> |url| >= 2
      ensures !ok ==> request == old(request) && code == old(code)
      ensures !ok ==> tipo == if |url| == 1 then url[0] else old(tipo)
      ensures ok ==> tipo == url[0] && code == CodeOf(url[1])
      ensures ok && CollectionNamed(url[0]).Some? ==>
        request == Some(DetailRequest(CollectionNamed(url[0]).value, CodeOf(url[1]), Lang(stored)))
      ensures ok && CollectionNamed(url[0]).None? ==> request == old(request)
    {
      if |url| < 2 {
        if |url| == 1 {
          tipo := url[0];
        }
        return false;
      }
      tipo := url[0];
      code := CodeOf(url[1]);
      var c := CollectionNamed(tipo);
      if c.Some? {
        request := Some(DetailRequest(c.value, code, Lang(stored)));
      }
      return true;
    }

    /** The detail arrives: the resource is shown with its collection's generic image; an error changes nothing. */
    method Arrived(response: Outcome<string>)
      requires request.Some?
      modifies this`resource, this`imgGeneric
      ensures response.Ok? ==> (resource == Some(response.body)
        && imgGeneric == Some(GenericImage(request.value.collection)))
      ensures response.Failed? ==> resource == old(resource) && imgGeneric == old(imgGeneric)
    {
      if response.Ok? {
        resource := Some(response.body);
        imgGeneric := Some(GenericImage(request.value.collection));
      }
    }
  }

  /** A detail link `/resource/<c>/<n>` asks for resource `n` of collection `c`, at the same URL the service builds. */
  lemma LinkRequestsItsResource(api: string, c: Collection, n: nat, stored: Option<string>)
    ensures CollectionNamed(PathName(c)) == Some(c)
    ensures RequestUrl(api, DetailRequest(c, CodeOf(NatToString(n)), Lang(stored)))
      == Some(DetailUrl(api, c, n, Lang(stored)))
  {
    NamedByPath(c);
    CodeRoundTrip(n);
  }
}
