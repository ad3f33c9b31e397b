/**
 * The map of a resource list: the clustered layers built from the current
 * results once the style is ready, their teardown, the marker selection
 * (hover preview and committed click), the popup card and the map style
 * toggle. The selection and the popup are shared by every map on the page
 * (static fields in the component), so they live in their own object.
 */
module ResourceMap {
  import opened Common
  import opened MapSurface

  const Clusters: string := "clusters"
  const ClusterCount: string := "cluster-count"
  const Points: string := "unclustered-points"
  const Source: string := "resources"
  const MarkerImage: string := "marker"
  const AppLayers: seq<string> := [Clusters, ClusterCount, Points]

  const Euskadi: Coord := Coord(-2.616667, 42.983333)
  const Streets: string := "mapbox://styles/mapbox/streets-v11"
  const Dark: string := "mapbox://styles/mapbox/dark-v10"

  lemma LayersDistinct()
    ensures Clusters != ClusterCount && Clusters != Points && ClusterCount != Points
  {
    assert |Clusters| == 8 && |ClusterCount| == 13 && |Points| == 18;
  }

  datatype Img = Img(fuente: string, titulo: string)

  /** A rendered resource point and the properties the popup reads. */
  datatype Feature = Feature(
    id: int, coleccion: string, codigo: string,
    nombre: Option<string>, subtipo: Option<string>, provincia: Option<string>, municipio: Option<string>,
    imagenes: seq<Img>, coords: Coord)

  /** The popup card's contents. */
  datatype Card = Card(
    imgSource: string, fallbackImage: string, imgAlt: string,
    title: string, subtype: string, province: string, municipality: string,
    distance: Option<string>, href: string)

  datatype Popup = Popup(id: nat, at: Coord, html: Option<Card>)

  /** The distance between two points; the great-circle formula for distinct points is a parameter. */
  type GreatCircle = (real, real, real, real) -> string

  /** `_calcDistance`: identical coordinates give "0". */
  function CalcDistance(lat1: real, lon1: real, lat2: real, lon2: real, greatCircle: GreatCircle): (d: string)
    ensures lat1 == lat2 && lon1 == lon2 ==> d == "0"
    ensures !(lat1 == lat2 && lon1 == lon2) ==> d == greatCircle(lat1, lon1, lat2, lon2)
  {
    if lat1 == lat2 && lon1 == lon2 then "0" else greatCircle(lat1, lon1, lat2, lon2)
  }

  /** `_getPopupHTML`: nothing without a selection. */
  function PopupCard(selected: Option<Feature>, user: Option<Coord>, greatCircle: GreatCircle): (card: Option<Card>)
    ensures selected.None? <==> card.None?
    ensures card.Some? ==>
      var f := selected.value;
      var c := card.value;
      c.href == "/resource/" + f.coleccion + "/" + f.codigo
      && c.fallbackImage == "assets/images/generic-" + f.coleccion + ".jpg"
      && (f.imagenes == [] ==> c.imgSource == c.fallbackImage && c.imgAlt == "")
      && (f.imagenes != [] ==> c.imgSource == f.imagenes[0].fuente && c.imgAlt == f.imagenes[0].titulo)
      && (c.distance.Some? <==> user.Some?)
      && (user.Some? ==>
            c.distance.value == CalcDistance(f.coords.lat, f.coords.lng, user.value.lat, user.value.lng, greatCircle) + " km")
      && c.title == f.nombre.GetOr("") && c.subtype == f.subtipo.GetOr("")
      && c.province == f.provincia.GetOr("") && c.municipality == f.municipio.GetOr("")
  {
    if selected.None? then None
    else
      var f := selected.value;
      var generic := "assets/images/generic-" + f.coleccion + ".jpg";
      var hasImage := f.imagenes != [];
      var src := if hasImage then f.imagenes[0].fuente else generic;
      var alt := if hasImage then f.imagenes[0].titulo else "";
      var distance := if user.Some?
        then Some(CalcDistance(f.coords.lat, f.coords.lng, user.value.lat, user.value.lng, greatCircle) + " km")
        else None;
      Some(Card(src, generic, alt, f.nombre.GetOr(""), f.subtipo.GetOr(""), f.provincia.GetOr(""),
        f.municipio.GetOr(""), distance, "/resource/" + f.coleccion + "/" + f.codigo))
  }

  /** With the user standing on the resource, the card says 0 km. */
  lemma StandingOnIt(f: Feature, greatCircle: GreatCircle)
    ensures PopupCard(Some(f), Some(f.coords), greatCircle).value.distance == Some("0 km")
  {
    assert "0" + " km" == "0 km";
  }

  /** The static state of the component: shared by every map view. */
  class Shared {
    var userLocation: Option<Coord>
    var popup: Option<Popup>
    var selected: Option<Feature>
    var committed: bool
    /** The identity the next popup gets. */
    var nextPopup: nat

    constructor ()
      ensures userLocation == None && popup == None && selected == None && !committed && nextPopup == 0
    {
      userLocation := None;
      popup := None;
      selected := None;
      committed := false;
      nextPopup := 0;
    }
  }

  /** The seven listeners one build registers; the marker mouse-leave one is the same function each time. */
  function HandlersFrom(r: nat): (hs: seq<Handler>)
    ensures |hs| == 7
    ensures forall k :: 0 <= k < 7 ==> hs[k] == HandlerAt(r, k)
  {
    seq(7, k => HandlerAt(r, k))
  }

  /** The `k`-th listener of a build whose fresh callbacks start at `r`. */
  function HandlerAt(r: nat, k: int): Handler {
    if k == 0 then Handler("click", None, r)
    else if k == 1 then Handler("click", Some(Clusters), r + 1)
    else if k == 2 then Handler("click", Some(Points), r + 2)
    else if k == 3 then Handler("mouseenter", Some(Clusters), r + 3)
    else if k == 4 then Handler("mouseleave", Some(Clusters), r + 4)
    else if k == 5 then Handler("mouseenter", Some(Points), r + 5)
    else Handler("mouseleave", Some(Points), 0)
  }

  /** The points of every feature. */
  function CoordsOf(features: seq<Feature>): set<Coord> {
    set i | 0 <= i < |features| :: features[i].coords
  }


  class MapView {
    const surface: Surface
    const shared: Shared
    const greatCircle: GreatCircle
    var geoData: Option<seq<Feature>>
    var bounds: set<Coord>
    var mapIsReady: bool
    /** The callback references kept by the last build (`undefined` before the first). */
    var refs: seq<Handler>
    /** Whether those callbacks are registered on the map. */
    var registered: bool
    var nextRef: nat
    /** Marker images requested and not yet loaded. */
    var pendingImageLoads: nat
    /** Readiness polls waiting on a timer. */
    var pendingPolls: nat
    var mapStyleIsDark: bool
    var shouldKeepPopup: bool
    var shouldFitBounds: bool

    /**
     * Either none or all three of this view's layers are on the map, only
     * its source is, the marker layer has its icon-size match, exactly the kept callbacks are registered
     * (or none), and no popup but the shared one is attached.
     */
    predicate Valid()
      reads this, surface, shared
    {
      surface.Valid()
      && (surface.layers == [] || surface.layers == AppLayers)
      && surface.sources <= {Source}
      && (surface.layers == AppLayers ==> Points in surface.iconSize)
      && surface.handlers == (if registered then multiset(refs) else multiset{})
      && (forall p :: p in surface.popups ==> shared.popup.Some? && p == shared.popup.value.id)
    }

    /** `ngAfterViewInit`: the map is created on the light style, centred on the Basque Country. */
    constructor (shared0: Shared, greatCircle0: GreatCircle)
      ensures Valid() && fresh(surface) && shared == shared0
      ensures !surface.styleLoaded && surface.style == Streets && surface.center == Euskadi
      ensures surface.layers == [] && surface.sources == {} && surface.images == {} && surface.popups == {}
      ensures geoData == None && !mapIsReady && refs == [] && !registered && pendingImageLoads == 0 && pendingPolls == 0
      ensures !mapStyleIsDark && !shouldKeepPopup && shouldFitBounds
    {
      surface := new Surface(Streets, Euskadi);
      shared := shared0;
      greatCircle := greatCircle0;
      geoData := None;
      bounds := {};
      mapIsReady := false;
      refs := [];
      registered := false;
      nextRef := 1;
      pendingImageLoads := 0;
      pendingPolls := 0;
      mapStyleIsDark := false;
      shouldKeepPopup := false;
      shouldFitBounds := true;
    }

    /** The popup goes unless it is to be kept; it is never kept twice. */
    method ClearPopup()
      requires Valid()
      modifies this`shouldKeepPopup, surface`popups
      ensures Valid() && !shouldKeepPopup
      ensures old(shouldKeepPopup) || shared.popup.None? ==> surface.popups == old(surface.popups)
      ensures !old(shouldKeepPopup) && shared.popup.Some? ==> surface.popups == old(surface.popups) - {shared.popup.value.id}
    {
      if !shouldKeepPopup && shared.popup.Some? {
        surface.DetachPopup(shared.popup.value.id);
      }
      shouldKeepPopup := false;
    }

    /** Every kept callback is removed with `map.off`. */
    method RemoveHandlers()
      requires Valid()
      modifies this`registered, surface`handlers
      ensures Valid() && !registered && surface.handlers == multiset{}
    {
      if !registered {
        return;
      }
      var i := 0;
      while i < |refs|
        invariant 0 <= i <= |refs|
        invariant surface.handlers == multiset(refs[i..])
      {
        assert refs[i..] == [refs[i]] + refs[i + 1..];
        surface.Off(refs[i]);
        i := i + 1;
      }
      registered := false;
    }

    /** The three layers, in turn, are removed when present. */
    method RemoveLayers()
      requires Valid()
      modifies surface`layers, surface`iconSize
      ensures Valid() && surface.layers == []
    {
      LayersDistinct();
      if Clusters in surface.layers {
        surface.RemoveLayer(Clusters);
        assert surface.layers == [ClusterCount, Points];
      }
      if ClusterCount in surface.layers {
        surface.RemoveLayer(ClusterCount);
        assert surface.layers == [Points];
      }
      if Points in surface.layers {
        surface.RemoveLayer(Points);
      }
    }

    /**
     * `_clearMap`: the popup goes unless it is to be kept (and is never kept
     * twice), the seven listeners are removed, and the three layers, the
     * marker image and the source are gone.
     */
    method ClearMap()
      requires Valid()
      modifies this`shouldKeepPopup, this`registered, surface`popups, surface`handlers,
        surface`layers, surface`iconSize, surface`images, surface`sources
      ensures Valid() && !shouldKeepPopup && !registered
      ensures surface.layers == [] && surface.sources == {} && surface.handlers == multiset{}
      ensures surface.images == old(surface.images) - {MarkerImage}
      ensures old(shouldKeepPopup) || shared.popup.None? ==> surface.popups == old(surface.popups)
      ensures !old(shouldKeepPopup) && shared.popup.Some? ==> surface.popups == old(surface.popups) - {shared.popup.value.id}
    {
      ClearPopup();
      RemoveHandlers();
      RemoveLayers();
      if MarkerImage in surface.images {
        surface.RemoveImage(MarkerImage);
      }
      if Source in surface.sources {
        surface.RemoveSource(Source);
      }
    }

    /** `_fitBounds`: with results, the bounds grow over every feature only when asked to, and the request is re-armed. */
    method FitBounds()
      modifies this`bounds, this`shouldFitBounds, surface`fitted
      ensures geoData.None? ==> (bounds == old(bounds) && shouldFitBounds == old(shouldFitBounds)
        && surface.fitted == old(surface.fitted))
      ensures geoData.Some? ==> shouldFitBounds
      ensures geoData.Some? && old(shouldFitBounds) ==>
        bounds == old(bounds) + CoordsOf(geoData.value) && surface.fitted == Some(bounds)
      ensures geoData.Some? && !old(shouldFitBounds) ==> bounds == old(bounds) && surface.fitted == old(surface.fitted)
    {
      if geoData.None? {
        return;
      }
      if shouldFitBounds {
        bounds := bounds + CoordsOf(geoData.value);
        surface.FitBounds(bounds);
      }
      shouldFitBounds := true;
    }

    /** The source and the three layers; `addSource` throws while the style loads. */
    method AddLayers() returns (ok: bool)
      requires Valid() && surface.layers == [] && surface.sources == {}
      modifies this`pendingImageLoads, surface`sources, surface`layers, surface`iconSize
      ensures Valid() && ok == surface.styleLoaded
      ensures ok ==> (surface.layers == AppLayers && surface.sources == {Source} && surface.iconSize[Points] == 0
        && pendingImageLoads == old(pendingImageLoads) + 1)
      ensures !ok ==> surface.layers == [] && surface.sources == {} && pendingImageLoads == old(pendingImageLoads)
    {
      ok := surface.AddSource(Source);
      if !ok {
        return;
      }
      LayersDistinct();
      var added := surface.AddLayer(Clusters, None);
      added := surface.AddLayer(ClusterCount, None);
      pendingImageLoads := pendingImageLoads + 1;
      added := surface.AddLayer(Points, Some(0));
    }

    /** `map.on` for each listener in turn. */
    method Register(hs: seq<Handler>)
      modifies surface`handlers
      ensures surface.handlers == old(surface.handlers) + multiset(hs)
    {
      var i := 0;
      while i < |hs|
        invariant 0 <= i <= |hs|
        invariant surface.handlers == old(surface.handlers) + multiset(hs[..i])
      {
        assert hs[..i + 1] == hs[..i] + [hs[i]];
        surface.On(hs[i]);
        i := i + 1;
      }
      assert hs[..|hs|] == hs;
    }

    /** The seven listeners, with fresh callbacks but for the marker mouse-leave one. */
    method AddHandlers()
      requires Valid() && !registered && surface.handlers == multiset{}
      modifies this`refs, this`nextRef, this`registered, surface`handlers
      ensures Valid() && registered && refs == HandlersFrom(old(nextRef)) && surface.handlers == multiset(refs)
    {
      refs := HandlersFrom(nextRef);
      nextRef := nextRef + 6;
      Register(refs);
      registered := true;
    }

    /**
     * `_setupLayers`: always torn down first. With the style loaded it
     * ends with exactly the source and the three layers, the seven new
     * listeners, and the selected resource (if any) still enlarged; while
     * the style loads, `addSource` throws right after the teardown.
     */
    method SetupLayers()
      requires Valid()
      modifies this`shouldKeepPopup, this`registered, this`refs, this`nextRef, this`pendingImageLoads,
        this`bounds, this`shouldFitBounds, surface
      ensures Valid() && !shouldKeepPopup
      ensures unchanged(surface`style, surface`styleLoaded, surface`markers, surface`center)
      ensures surface.styleLoaded ==> (surface.layers == AppLayers && surface.sources == {Source}
        && registered && refs == HandlersFrom(old(nextRef)) && surface.handlers == multiset(refs)
        && surface.iconSize[Points] == (if shared.selected.Some? then shared.selected.value.id else 0))
      ensures !surface.styleLoaded ==> (surface.layers == [] && surface.sources == {} && !registered)
      ensures !old(shouldKeepPopup) && shared.popup.Some? ==> surface.popups == old(surface.popups) - {shared.popup.value.id}
      ensures old(shouldKeepPopup) || shared.popup.None? ==> surface.popups == old(surface.popups)
    {
      ClearMap();
      Build();
    }

    /** The building half of `_setupLayers`, on a cleared map. */
    method Build()
      requires Valid() && surface.layers == [] && surface.sources == {} && !registered && surface.handlers == multiset{}
      modifies this`registered, this`refs, this`nextRef, this`pendingImageLoads, this`bounds, this`shouldFitBounds,
        surface`sources, surface`layers, surface`iconSize, surface`handlers, surface`fitted
      ensures Valid()
      ensures surface.styleLoaded ==> (surface.layers == AppLayers && surface.sources == {Source}
        && registered && refs == HandlersFrom(old(nextRef)) && surface.handlers == multiset(refs)
        && surface.iconSize[Points] == (if shared.selected.Some? then shared.selected.value.id else 0))
      ensures !surface.styleLoaded ==> (surface.layers == [] && surface.sources == {} && !registered)
    {
      var ok := AddLayers();
      if ok {
        Wire();
      }
    }

    /** On freshly added layers: the seven listeners, the selection's icon size, the fitted bounds. */
    method Wire()
      requires Valid() && surface.layers == AppLayers && surface.iconSize[Points] == 0
      requires !registered && surface.handlers == multiset{}
      modifies this`registered, this`refs, this`nextRef, this`bounds, this`shouldFitBounds,
        surface`iconSize, surface`handlers, surface`fitted
      ensures Valid() && registered && refs == HandlersFrom(old(nextRef)) && surface.handlers == multiset(refs)
      ensures surface.iconSize[Points] == (if shared.selected.Some? then shared.selected.value.id else 0)
    {
      AddHandlers();
      if shared.selected.Some? {
        surface.SetIconSize(Points, shared.selected.value.id);
      }
      FitBounds();
    }

    /**
     * The readiness check that `style.load` starts and each 200 ms timer
     * repeats: layers are built once the style has loaded and results
     * exist; otherwise another timer is set.
     */
    method Poll(fromTimer: bool)
      requires Valid() && (fromTimer ==> pendingPolls > 0)
      modifies this`mapIsReady, this`pendingPolls, this`shouldKeepPopup, this`registered, this`refs, this`nextRef,
        this`pendingImageLoads, this`bounds, this`shouldFitBounds, surface
      ensures Valid()
      ensures unchanged(surface`style, surface`styleLoaded, surface`markers, surface`center)
      ensures surface.styleLoaded && geoData.Some? ==> (mapIsReady && surface.layers == AppLayers && surface.sources == {Source})
      ensures !(surface.styleLoaded && geoData.Some?) ==> (mapIsReady == old(mapIsReady)
        && pendingPolls == old(pendingPolls) - (if fromTimer then 1 else 0) + 1
        && unchanged(surface) && shouldKeepPopup == old(shouldKeepPopup) && registered == old(registered))
    {
      if fromTimer {
        pendingPolls := pendingPolls - 1;
      }
      if !surface.styleLoaded || geoData.None? {
        pendingPolls := pendingPolls + 1;
        return;
      }
      mapIsReady := true;
      SetupLayers();
    }

    /**
     * A result arrives: null changes nothing; an empty one flies home and
     * clears the map (keeping the previous results); otherwise the results
     * replace the old ones, the bounds restart and, once the map is ready,
     * the layers are rebuilt.
     */
    method ResourcesArrived(res: Option<seq<Feature>>)
      requires Valid()
      modifies this`geoData, this`bounds, this`shouldKeepPopup, this`registered, this`refs, this`nextRef,
        this`pendingImageLoads, this`shouldFitBounds, surface
      ensures Valid()
      ensures unchanged(surface`style, surface`styleLoaded, surface`markers)
      ensures res.None? ==> geoData == old(geoData) && unchanged(surface)
      ensures res.Some? && res.value == [] ==> (geoData == old(geoData) && surface.center == Euskadi
        && surface.layers == [] && surface.sources == {} && surface.handlers == multiset{})
      ensures res.Some? && res.value != [] ==> geoData == res
      ensures res.Some? && res.value != [] && mapIsReady && surface.styleLoaded ==>
        surface.layers == AppLayers && surface.sources == {Source}
    {
      if res.None? {
        return;
      }
      if res.value == [] {
        surface.FlyTo(Euskadi);
        ClearMap();
        return;
      }
      bounds := {};
      geoData := res;
      if mapIsReady {
        SetupLayers();
      }
    }

    /** The same, with an empty result also dropping the previous results. */
    method ResourcesArrivedIntended(res: Option<seq<Feature>>)
      requires Valid()
      modifies this`geoData, this`bounds, this`shouldKeepPopup, this`registered, this`refs, this`nextRef,
        this`pendingImageLoads, this`shouldFitBounds, surface
      ensures Valid()
      ensures unchanged(surface`style, surface`styleLoaded, surface`markers)
      ensures res.None? ==> geoData == old(geoData) && unchanged(surface)
      ensures res.Some? && res.value == [] ==> (geoData == None && surface.center == Euskadi
        && surface.layers == [] && surface.sources == {} && surface.handlers == multiset{})
      ensures res.Some? && res.value != [] ==> geoData == res
      ensures res.Some? && res.value != [] && mapIsReady && surface.styleLoaded ==>
        surface.layers == AppLayers && surface.sources == {Source}
    {
      if res.None? {
        return;
      }
      if res.value == [] {
        geoData := None;
        surface.FlyTo(Euskadi);
        ClearMap();
        return;
      }
      bounds := {};
      geoData := res;
      if mapIsReady {
        SetupLayers();
      }
    }

    /** The old popup is removed, a new one is created for the selection at `at` and attached. */
    method OpenPopup(at: Coord)
      requires Valid()
      modifies shared`popup, shared`nextPopup, surface`popups
      ensures Valid()
      ensures shared.popup == Some(Popup(old(shared.nextPopup), at, PopupCard(shared.selected, shared.userLocation, greatCircle)))
      ensures surface.popups == {old(shared.nextPopup)}
    {
      if shared.popup.Some? {
        surface.DetachPopup(shared.popup.value.id);
      }
      assert surface.popups == {};
      var p := Popup(shared.nextPopup, at, PopupCard(shared.selected, shared.userLocation, greatCircle));
      shared.popup := Some(p);
      shared.nextPopup := shared.nextPopup + 1;
      surface.AttachPopup(p.id);
    }

    /**
     * A click on the map (its listeners are registered). On empty ground
     * the selection and the committed flag are cleared, the icon-size
     * match falls back to id 0 and the popup closes. On a marker the
     * selection is committed to it, it is enlarged, the old popup is
     * removed and a new one opens on it.
     */
    method Click(features: seq<Feature>)
      requires Valid() && registered
      modifies shared`selected, shared`committed, shared`popup, shared`nextPopup,
        surface`iconSize, surface`popups, surface`center
      ensures Valid()
      ensures features == [] ==>
        shared.selected == None && !shared.committed && surface.popups == {}
        && (Points in surface.layers ==> surface.iconSize[Points] == 0)
        && shared.popup == old(shared.popup) && shared.nextPopup == old(shared.nextPopup)
        && surface.center == old(surface.center)
      ensures features != [] ==>
        shared.selected == Some(features[0]) && shared.committed
        && (Points in surface.layers ==> surface.iconSize[Points] == features[0].id)
        && shared.popup.Some? && surface.popups == {shared.popup.value.id}
        && shared.popup.value.html == PopupCard(Some(features[0]), shared.userLocation, greatCircle)
        && surface.center == features[0].coords
    {
      if features == [] {
        shared.selected := None;
        shared.committed := false;
        surface.SetIconSize(Points, 0);
        surface.CloseOnClick();
        return;
      }
      var f := features[0];
      surface.SetIconSize(Points, f.id);
      shared.committed := true;
      shared.selected := Some(f);
      OpenPopup(f.coords);
      surface.FlyTo(f.coords);
    }

    /** Hovering a marker previews it, unless a selection is committed. */
    method MouseEnter(features: seq<Feature>)
      requires Valid() && registered
      modifies shared`selected, shared`popup, shared`nextPopup, surface`popups
      ensures Valid() && shared.committed == old(shared.committed)
      ensures features == [] || old(shared.committed) ==>
        shared.selected == old(shared.selected) && shared.popup == old(shared.popup) && surface.popups == old(surface.popups)
        && shared.nextPopup == old(shared.nextPopup)
      ensures features != [] && !old(shared.committed) ==>
        shared.selected == Some(features[0]) && shared.popup.Some? && surface.popups == {shared.popup.value.id}
        && shared.popup.value.html == PopupCard(Some(features[0]), shared.userLocation, greatCircle)
    {
      if features == [] || shared.committed {
        return;
      }
      shared.selected := Some(features[0]);
      OpenPopup(features[0].coords);
    }

    /** Leaving a marker ends a preview; a committed selection stays. */
    method MouseLeave()
      requires Valid() && registered
      modifies shared`selected, surface`popups
      ensures Valid()
      ensures shared.committed ==> shared.selected == old(shared.selected) && surface.popups == old(surface.popups)
      ensures !shared.committed ==> (shared.selected == None
        && (shared.popup.Some? ==> surface.popups == old(surface.popups) - {shared.popup.value.id}))
    {
      if shared.committed {
        return;
      }
      shared.selected := None;
      if shared.popup.Some? {
        surface.DetachPopup(shared.popup.value.id);
      }
    }

    /** The location control reports a position (or an error): the popup's card is redrawn. */
    method Geolocated(location: Option<Coord>)
      requires Valid()
      modifies shared`userLocation, shared`popup
      ensures Valid() && shared.userLocation == location
      ensures old(shared.popup).None? ==> shared.popup == None
      ensures old(shared.popup).Some? ==>
        shared.popup == Some(old(shared.popup).value.(html := PopupCard(shared.selected, location, greatCircle)))
    {
      shared.userLocation := location;
      if shared.popup.Some? {
        shared.popup := Some(shared.popup.value.(html := PopupCard(shared.selected, location, greatCircle)));
      }
    }

    /** The marker image of a build has loaded and is registered. */
    method MarkerImageLoaded()
      requires Valid() && pendingImageLoads > 0
      modifies this`pendingImageLoads, surface`images
      ensures Valid() && MarkerImage in surface.images
      ensures pendingImageLoads == old(pendingImageLoads) - 1
    {
      pendingImageLoads := pendingImageLoads - 1;
      surface.AddImage(MarkerImage);
    }

    /**
     * `_onChangeMapStyleButtonClicked`: the style, the fit request and the
     * keep-popup request flip, and the other style starts loading.
     */
    method ToggleStyle()
      requires Valid()
      modifies this`mapStyleIsDark, this`shouldFitBounds, this`shouldKeepPopup,
        surface`style, surface`styleLoaded, surface`layers, surface`sources, surface`images, surface`iconSize
      ensures Valid()
      ensures mapStyleIsDark == !old(mapStyleIsDark) && shouldFitBounds == !old(shouldFitBounds)
        && shouldKeepPopup == !old(shouldKeepPopup)
      ensures surface.style == (if mapStyleIsDark then Dark else Streets) && !surface.styleLoaded
      ensures surface.layers == [] && surface.sources == {}
    {
      mapStyleIsDark := !mapStyleIsDark;
      shouldFitBounds := !shouldFitBounds;
      shouldKeepPopup := !shouldKeepPopup;
      if mapStyleIsDark {
        surface.SetStyle(Dark);
      } else {
        surface.SetStyle(Streets);
      }
    }
  }

  /**
   * A new map whose style loads before any results, then results: the
   * results are drawn once the pending readiness check fires. `intended`
   * picks the corrected result handler.
   */
  method FirstResults(results: seq<Feature>, greatCircle: GreatCircle, intended: bool) returns (view: MapView)
    requires results != []
    ensures fresh(view) && fresh(view.surface) && fresh(view.shared) && view.Valid()
    ensures view.geoData == Some(results) && view.mapIsReady && view.surface.styleLoaded
  {
    var shared := new Shared();
    view := new MapView(shared, greatCircle);
    view.surface.StyleDone();
    view.Poll(false);
    if intended {
      view.ResourcesArrivedIntended(Some(results));
    } else {
      view.ResourcesArrived(Some(results));
    }
    view.Poll(true);
  }

  /**
   * Results, then an empty result, then a style toggle: the empty result
   * cleared the map, yet the new style comes back with the earlier
   * results' layers.
   */
  method StaleMarkersScenario(results: seq<Feature>, greatCircle: GreatCircle) returns (view: MapView)
    requires results != []
    ensures view.geoData == Some(results) && view.surface.sources == {Source} && view.surface.layers == AppLayers
  {
    view := FirstResults(results, greatCircle, false);
    view.ResourcesArrived(Some([]));
    view.ToggleStyle();
    view.surface.StyleDone();
    view.Poll(false);
  }

  /** The same events with the empty result dropping the old results: the new style stays empty. */
  method EmptyStaysEmptyScenario(results: seq<Feature>, greatCircle: GreatCircle) returns (view: MapView)
    requires results != []
    ensures view.geoData == None && view.surface.sources == {} && view.surface.layers == []
  {
    view := FirstResults(results, greatCircle, true);
    view.ResourcesArrivedIntended(Some([]));
    view.ToggleStyle();
    view.surface.StyleDone();
    view.Poll(false);
  }
}
