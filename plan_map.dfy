/**
 * The itinerary map of a plan: one numbered marker per step, the camera
 * fitted over the markers, the route layers drawn from the route service's
 * answer for the current travel profile, the day/night style toggle, and
 * the drag-and-drop reordering (`moveItemInArray`) of the list beside it.
 */
module PlanMap {
  import opened Common
  import opened MapSurface
  import PlansService

  const RouteSource: string := "route"
  const RouteLayer: string := "route"
  const OutlineLayer: string := "outline"
  const RouteLayers: seq<string> := [RouteLayer, OutlineLayer]

  const Day: string := "mapbox://styles/mapbox/navigation-day-v1"
  const Night: string := "mapbox://styles/mapbox/navigation-night-v1"
  const Euskadi: Coord := Coord(-2.616667, 42.983333)
  const Driving: string := "driving"

  /** The list the drag-and-drop demonstration starts from. */
  const Planes: seq<string> := [
    "Visita guiada al Guggenhein", "Paseo en Kayak por la r\U{00ED}a", "Visita a bodega de Txakoli",
    "Comida en la brasa canalla", "Concierto de Barrikada", "Pintxos por el casco antiguo",
    "Concierto de Barrikada"]

  /** A step: its resource's name and position. */
  datatype Step = Step(nombre: string, at: Coord)

  datatype Plan = Plan(id: int, pasos: seq<Step>)

  /** The route service's geometry, kept opaque to the map. */
  datatype Geometry = Geometry(points: seq<Coord>)

  /** The live route subscription: the URL it requested and its identity. */
  datatype RouteRequest = RouteRequest(url: string, ticket: nat)

  /** The markers the `forEach` over a plan's steps creates: in step order, numbered from 1, popups open. */
  function MarkersFor(steps: seq<Step>): (ms: seq<Marker>)
    ensures |ms| == |steps|
    ensures forall i :: 0 <= i < |steps| ==> ms[i] == Marker(NatToString(i + 1), steps[i].at, true)
  {
    if steps == [] then [] else MarkersFor(steps[..|steps| - 1]) + [Marker(NatToString(|steps|), steps[|steps| - 1].at, true)]
  }

  /** The i-th marker of a plan reads back as the number i + 1, so no two carry the same number. */
  lemma MarkerNumbers(steps: seq<Step>, i: int, j: int)
    requires 0 <= i < |steps| && 0 <= j < |steps|
    ensures DigitsValue(MarkersFor(steps)[i].number) == i + 1
    ensures i != j ==> MarkersFor(steps)[i].number != MarkersFor(steps)[j].number
  {
    NatToStringValue(i + 1);
    NatToStringValue(j + 1);
  }

  /** The positions of a list of markers. */
  function MarkerCoords(ms: seq<Marker>): set<Coord> {
    set i | 0 <= i < |ms| :: ms[i].at
  }

  lemma MarkerCoordsAppend(ms: seq<Marker>, m: Marker)
    ensures MarkerCoords(ms + [m]) == MarkerCoords(ms) + {m.at}
  {
    var xs := ms + [m];
    assert xs[|ms|] == m;
    forall c | c in MarkerCoords(ms) ensures c in MarkerCoords(xs) {
      var i :| 0 <= i < |ms| && ms[i].at == c;
      assert xs[i] == ms[i];
    }
  }

  // ------------------------------------------------------------ moveItemInArray

  /** The CDK's `clamp(value, max)`: `Math.max(0, Math.min(max, value))`. */
  function Clamp(value: int, max: int): (r: int)
    ensures 0 <= r
    ensures max >= 0 ==> r <= max
    ensures 0 <= value <= max ==> r == value
  {
    if max < value then (if max < 0 then 0 else max) else (if value < 0 then 0 else value)
  }

  /** The list with the entry at `from` taken out and put back in at `to`. */
  function Moved<T>(s: seq<T>, from: int, to: int): (r: seq<T>)
    requires 0 <= from < |s| && 0 <= to < |s|
    ensures |r| == |s| && r[to] == s[from]
  {
    var rest := s[..from] + s[from + 1..];
    rest[..to] + [s[from]] + rest[to..]
  }

  /** Moving is a permutation. */
  lemma MovedPermutation<T>(s: seq<T>, from: int, to: int)
    requires 0 <= from < |s| && 0 <= to < |s|
    ensures multiset(Moved(s, from, to)) == multiset(s)
  {
    var rest := s[..from] + s[from + 1..];
    assert s == s[..from] + [s[from]] + s[from + 1..];
    assert rest == rest[..to] + rest[to..];
    calc {
      multiset(Moved(s, from, to));
      multiset(rest[..to]) + multiset{s[from]} + multiset(rest[to..]);
      multiset(rest) + multiset{s[from]};
      multiset(s[..from]) + multiset(s[from + 1..]) + multiset{s[from]};
      multiset(s);
    }
  }

  /** Moving back undoes a move. */
  lemma MovedBack<T>(s: seq<T>, from: int, to: int)
    requires 0 <= from < |s| && 0 <= to < |s|
    ensures Moved(Moved(s, from, to), to, from) == s
  {
    var m := Moved(s, from, to);
    var rest := s[..from] + s[from + 1..];
    assert m[..to] + m[to + 1..] == rest;
    assert s == rest[..from] + [s[from]] + rest[from..];
  }

  /** Where each entry of a moved list comes from. */
  lemma MovedAt<T>(s: seq<T>, from: int, to: int, k: int)
    requires 0 <= from < |s| && 0 <= to < |s| && 0 <= k < |s|
    ensures Moved(s, from, to)[k] ==
      if k == to then s[from]
      else if from < to && from <= k < to then s[k + 1]
      else if to < from && to < k <= from then s[k - 1]
      else s[k]
  {
  }

  /** The entries left of both positions and right of both stay where they were. */
  lemma MovedOutside<T>(s: seq<T>, from: int, to: int, k: int)
    requires 0 <= from < |s| && 0 <= to < |s| && 0 <= k < |s|
    requires (k < from && k < to) || (k > from && k > to)
    ensures Moved(s, from, to)[k] == s[k]
  {
  }

  /**
   * `moveItemInArray`: both indices are clamped into the array, nothing
   * happens when they coincide, otherwise the entries in between shift one
   * place towards `from` and the moved entry lands at `to`.
   */
  method MoveItemInArray<T>(a: array<T>, fromIndex: int, toIndex: int)
    modifies a
    ensures a.Length == 0 ==> a[..] == old(a[..])
    ensures a.Length > 0 ==> a[..] == Moved(old(a[..]), Clamp(fromIndex, a.Length - 1), Clamp(toIndex, a.Length - 1))
  {
    var from := Clamp(fromIndex, a.Length - 1);
    var to := Clamp(toIndex, a.Length - 1);
    if from == to {
      if a.Length > 0 {
        assert a[..] == Moved(a[..], from, to);
      }
      return;
    }
    ghost var s := a[..];
    var target := a[from];
    if from < to {
      ShiftDown(a, from, to);
    } else {
      ShiftUp(a, to, from);
    }
    a[to] := target;
    forall k | 0 <= k < a.Length ensures a[k] == Moved(s, from, to)[k] {
      MovedAt(s, from, to, k);
    }
    assert a[..] == Moved(s, from, to);
  }

  /** The entries `from + 1 .. to` move one place down; the entry at `to` is left as it was. */
  method ShiftDown<T>(a: array<T>, from: int, to: int)
    requires 0 <= from < to < a.Length
    modifies a
    ensures forall k :: 0 <= k < a.Length ==> a[k] == if from <= k < to then old(a[k + 1]) else old(a[k])
  {
    var i := from;
    while i != to
      invariant from <= i <= to
      invariant forall k :: 0 <= k < a.Length ==> a[k] == if from <= k < i then old(a[k + 1]) else old(a[k])
    {
      a[i] := a[i + 1];
      i := i + 1;
    }
  }

  /** The entries `to .. from - 1` move one place up; the entry at `to` is left as it was. */
  method ShiftUp<T>(a: array<T>, to: int, from: int)
    requires 0 <= to < from < a.Length
    modifies a
    ensures forall k :: 0 <= k < a.Length ==> a[k] == if to < k <= from then old(a[k - 1]) else old(a[k])
  {
    var i := from;
    while i != to
      invariant to <= i <= from
      invariant forall k :: 0 <= k < a.Length ==> a[k] == if i < k <= from then old(a[k - 1]) else old(a[k])
    {
      a[i] := a[i - 1];
      i := i - 1;
    }
  }

  // ------------------------------------------------------------ the component

  class PlanMapView {
    const surface: Surface
    const api: string
    /** The drag-and-drop list. */
    const planes: array<string>
    var plan: Option<Plan>
    /** `_markers`: every marker this view has put on the map. */
    var markers: seq<Marker>
    var bounds: set<Coord>
    var mapIsReady: bool
    var profile: string
    /** `_routeSub$` while its request has not answered. */
    var route: Option<RouteRequest>
    var nextTicket: nat
    /** Readiness polls waiting on a timer. */
    var pendingPolls: nat
    var mapStyleIsDark: bool

    /**
     * The map's markers are this view's; either no route is drawn or its
     * source and both layers are; nothing is drawn while a request is out;
     * markers exist only once a plan has arrived.
     */
    predicate Valid()
      reads this, surface
    {
      surface.Valid()
      && surface.markers == markers
      && surface.sources <= {RouteSource}
      && surface.layers == (if RouteSource in surface.sources then RouteLayers else [])
      && (route.Some? ==> surface.sources == {} && route.value.ticket < nextTicket)
      && (markers != [] ==> plan.Some?)
    }

    /** `_initMap` on the day style, centred on the Basque Country, with the list in its initial order. */
    constructor (api0: string)
      ensures Valid() && fresh(surface) && fresh(planes) && api == api0
      ensures surface.style == Day && !surface.styleLoaded && surface.center == Euskadi
      ensures surface.layers == [] && surface.sources == {} && planes[..] == Planes
      ensures plan == None && markers == [] && bounds == {} && !mapIsReady && profile == Driving
      ensures route == None && pendingPolls == 0 && !mapStyleIsDark
    {
      surface := new Surface(Day, Euskadi);
      api := api0;
      planes := new string[7](i requires 0 <= i < 7 => Planes[i]);
      plan := None;
      markers := [];
      bounds := {};
      mapIsReady := false;
      profile := Driving;
      route := None;
      nextTicket := 0;
      pendingPolls := 0;
      mapStyleIsDark := false;
    }

    /** The plan observable emits: a null plan is ignored, any other replaces the current one. */
    method PlanArrived(p: Option<Plan>)
      requires Valid()
      modifies this`plan
      ensures Valid()
      ensures plan == if p.Some? then p else old(plan)
    {
      if p.None? {
        return;
      }
      plan := p;
    }

    /** One marker per step is pushed, each with its popup open. */
    method AppendMarkers()
      requires Valid() && plan.Some?
      modifies this`markers, surface`markers
      ensures Valid()
      ensures markers == old(markers) + MarkersFor(plan.value.pasos)
    {
      var steps := plan.value.pasos;
      var i := 0;
      while i < |steps|
        invariant 0 <= i <= |steps|
        invariant markers == surface.markers == old(markers) + MarkersFor(steps[..i])
      {
        assert steps[..i + 1][..i] == steps[..i];
        var m := Marker(NatToString(i + 1), steps[i].at, true);
        surface.AddMarker(m);
        markers := markers + [m];
        i := i + 1;
      }
      assert steps[..|steps|] == steps;
    }

    /** `_fitBounds`: the bounds grow over every marker (they are never reset) and the camera fits them. */
    method FitBounds()
      modifies this`bounds, surface`fitted
      ensures bounds == old(bounds) + MarkerCoords(markers)
      ensures surface.fitted == Some(bounds)
    {
      var i := 0;
      while i < |markers|
        invariant 0 <= i <= |markers|
        invariant bounds == old(bounds) + MarkerCoords(markers[..i])
      {
        assert markers[..i + 1] == markers[..i] + [markers[i]];
        MarkerCoordsAppend(markers[..i], markers[i]);
        bounds := bounds + {markers[i].at};
        i := i + 1;
      }
      assert markers[..|markers|] == markers;
      surface.FitBounds(bounds);
    }

    /** `_clearMap`: the two route layers and the route source go when present. */
    method ClearMap()
      requires Valid() && route.None?
      modifies surface`layers, surface`iconSize, surface`sources
      ensures Valid() && surface.layers == [] && surface.sources == {}
    {
      assert |RouteLayer| == 5 && |OutlineLayer| == 7;
      if RouteLayer in surface.layers {
        surface.RemoveLayer(RouteLayer);
        assert surface.layers == [OutlineLayer];
      }
      if OutlineLayer in surface.layers {
        surface.RemoveLayer(OutlineLayer);
      }
      if RouteSource in surface.sources {
        surface.RemoveSource(RouteSource);
      }
    }

    /**
     * `_drawPlanRoute`: the previous subscription is dropped and the route
     * cleared; with at least two markers a new request goes out for the
     * plan and the current profile.
     */
    method DrawPlanRoute()
      requires Valid()
      modifies this`route, this`nextTicket, surface`layers, surface`iconSize, surface`sources
      ensures Valid() && surface.layers == [] && surface.sources == {}
      ensures |markers| < 2 ==> route == None
      ensures |markers| >= 2 ==>
        route == Some(RouteRequest(PlansService.RouteUrl(api, plan.value.id, profile), old(nextTicket)))
      ensures nextTicket >= old(nextTicket)
    {
      route := None;
      ClearMap();
      if |markers| < 2 {
        return;
      }
      route := Some(RouteRequest(PlansService.RouteUrl(api, plan.value.id, profile), nextTicket));
      nextTicket := nextTicket + 1;
    }

    /** `_addMarkers`: markers for every step are appended, the camera fits them all and the route is redrawn. */
    method AddMarkers()
      requires Valid() && plan.Some?
      modifies this`markers, this`bounds, this`route, this`nextTicket, surface`markers, surface`fitted,
        surface`layers, surface`iconSize, surface`sources
      ensures Valid() && surface.layers == [] && surface.sources == {}
      ensures markers == old(markers) + MarkersFor(plan.value.pasos)
      ensures bounds == old(bounds) + MarkerCoords(markers) && surface.fitted == Some(bounds)
      ensures route.Some? <==> |markers| >= 2
      ensures route.Some? ==> route.value.url == PlansService.RouteUrl(api, plan.value.id, profile)
    {
      AppendMarkers();
      FitBounds();
      DrawPlanRoute();
    }

    /**
     * The readiness check that `style.load` starts and each 200 ms timer
     * repeats: markers are added once the style has loaded and a plan has
     * arrived; otherwise another timer is set.
     */
    method Poll(fromTimer: bool)
      requires Valid() && (fromTimer ==> pendingPolls > 0)
      modifies this`mapIsReady, this`pendingPolls, this`markers, this`bounds, this`route, this`nextTicket,
        surface`markers, surface`fitted, surface`layers, surface`iconSize, surface`sources
      ensures Valid()
      ensures surface.styleLoaded && plan.Some? ==> (mapIsReady
        && markers == old(markers) + MarkersFor(plan.value.pasos)
        && (route.Some? <==> |markers| >= 2) && surface.sources == {})
      ensures !(surface.styleLoaded && plan.Some?) ==> (mapIsReady == old(mapIsReady) && markers == old(markers)
        && pendingPolls == old(pendingPolls) - (if fromTimer then 1 else 0) + 1
        && route == old(route) && unchanged(surface))
    {
      if fromTimer {
        pendingPolls := pendingPolls - 1;
      }
      if !surface.styleLoaded || plan.None? {
        pendingPolls := pendingPolls + 1;
        return;
      }
      mapIsReady := true;
      AddMarkers();
    }

    /** `_addMarkers` adding markers only while there are none: markers outlive a style change. */
    method AddMarkersIntended()
      requires Valid() && plan.Some?
      modifies this`markers, this`bounds, this`route, this`nextTicket, surface`markers, surface`fitted,
        surface`layers, surface`iconSize, surface`sources
      ensures Valid() && surface.layers == [] && surface.sources == {}
      ensures markers == if old(markers) == [] then MarkersFor(plan.value.pasos) else old(markers)
      ensures bounds == old(bounds) + MarkerCoords(markers) && surface.fitted == Some(bounds)
      ensures route.Some? <==> |markers| >= 2
    {
      if markers == [] {
        AppendMarkers();
      }
      FitBounds();
      DrawPlanRoute();
    }

    /** The readiness check with the corrected `_addMarkers`. */
    method PollIntended(fromTimer: bool)
      requires Valid() && (fromTimer ==> pendingPolls > 0)
      modifies this`mapIsReady, this`pendingPolls, this`markers, this`bounds, this`route, this`nextTicket,
        surface`markers, surface`fitted, surface`layers, surface`iconSize, surface`sources
      ensures Valid()
      ensures surface.styleLoaded && plan.Some? ==> (mapIsReady
        && markers == (if old(markers) == [] then MarkersFor(plan.value.pasos) else old(markers))
        && (route.Some? <==> |markers| >= 2) && surface.sources == {})
      ensures !(surface.styleLoaded && plan.Some?) ==> (mapIsReady == old(mapIsReady) && markers == old(markers)
        && pendingPolls == old(pendingPolls) - (if fromTimer then 1 else 0) + 1
        && route == old(route) && unchanged(surface))
    {
      if fromTimer {
        pendingPolls := pendingPolls - 1;
      }
      if !surface.styleLoaded || plan.None? {
        pendingPolls := pendingPolls + 1;
        return;
      }
      mapIsReady := true;
      AddMarkersIntended();
    }

    /**
     * The answer to the live route request (a dropped subscription hears
     * nothing, and the request completes): with `routes`, the route source
     * and then the `route` and `outline` layers are added, unless the style
     * is loading and `addSource` throws; without `routes`, or on an error,
     * nothing is drawn.
     */
    method RouteArrived(ticket: nat, response: Outcome<Option<Geometry>>)
      requires Valid()
      modifies this`route, surface`sources, surface`layers, surface`iconSize
      ensures Valid() && unchanged(this`markers)
      ensures old(route).None? || old(route).value.ticket != ticket ==> route == old(route) && unchanged(surface)
      ensures old(route).Some? && old(route).value.ticket == ticket ==> (route == None
        && (surface.sources == {RouteSource} <==> response.Ok? && response.body.Some? && surface.styleLoaded)
        && (surface.sources == {} ==> surface.layers == []))
    {
      if route.None? || route.value.ticket != ticket {
        return;
      }
      route := None;
      if response.Failed? || response.body.None? {
        return;
      }
      var ok := surface.AddSource(RouteSource);
      if !ok {
        return;
      }
      var added := surface.AddLayer(RouteLayer, None);
      assert |RouteLayer| == 5 && |OutlineLayer| == 7;
      added := surface.AddLayer(OutlineLayer, None);
    }

    /** `_onChangeMapStyleButtonClicked`: the other style starts loading and the route goes with the old one. */
    method ToggleStyle()
      requires Valid()
      modifies this`mapStyleIsDark, surface`style, surface`styleLoaded, surface`layers, surface`sources,
        surface`images, surface`iconSize
      ensures Valid()
      ensures mapStyleIsDark == !old(mapStyleIsDark)
      ensures surface.style == (if mapStyleIsDark then Night else Day) && !surface.styleLoaded
      ensures surface.layers == [] && surface.sources == {} && surface.markers == old(surface.markers)
    {
      mapStyleIsDark := !mapStyleIsDark;
      if mapStyleIsDark {
        surface.SetStyle(Night);
      } else {
        surface.SetStyle(Day);
      }
    }

    /** `_onChangeMapRouteProfile`: the profile is stored and the route requested anew for it. */
    method ChangeProfile(p: string)
      requires Valid()
      modifies this`profile, this`route, this`nextTicket, surface`layers, surface`iconSize, surface`sources
      ensures Valid() && profile == p && surface.sources == {} && surface.layers == []
      ensures |markers| < 2 ==> route == None
      ensures |markers| >= 2 ==> route.Some? && route.value.url == PlansService.RouteUrl(api, plan.value.id, p)
      ensures old(route).Some? && route.Some? ==> route.value.ticket != old(route).value.ticket
    {
      profile := p;
      DrawPlanRoute();
    }

    /** `drop`: the dragged entry moves from its old place to its new one. */
    method Drop(previousIndex: int, currentIndex: int)
      modifies planes
      ensures planes.Length > 0 ==>
        planes[..] == Moved(old(planes[..]), Clamp(previousIndex, planes.Length - 1), Clamp(currentIndex, planes.Length - 1))
      ensures multiset(planes[..]) == multiset(old(planes[..]))
    {
      MoveItemInArray(planes, previousIndex, currentIndex);
      if planes.Length > 0 {
        MovedPermutation(old(planes[..]), Clamp(previousIndex, planes.Length - 1), Clamp(currentIndex, planes.Length - 1));
      }
    }
  }

  /**
   * A one-step plan, then a style toggle: the new style's readiness check
   * adds the step's marker a second time, and the two markers make a
   * route request go out for a plan with a single step.
   */
  method DuplicateMarkersScenario(api: string, step: Step) returns (view: PlanMapView)
    ensures |view.markers| == 2 && view.markers[0] == view.markers[1] && view.route.Some?
  {
    view := new PlanMapView(api);
    view.PlanArrived(Some(Plan(1, [step])));
    view.surface.StyleDone();
    view.Poll(false);
    assert |view.markers| == 1 && view.route.None?;
    view.ToggleStyle();
    view.surface.StyleDone();
    view.Poll(false);
  }

  /** The same events with the corrected `_addMarkers`: one marker and no route request. */
  method SingleMarkerScenario(api: string, step: Step) returns (view: PlanMapView)
    ensures |view.markers| == 1 && view.route.None?
  {
    view := new PlanMapView(api);
    view.PlanArrived(Some(Plan(1, [step])));
    view.surface.StyleDone();
    view.PollIntended(false);
    assert |view.markers| == 1;
    view.ToggleStyle();
    view.surface.StyleDone();
    view.PollIntended(false);
  }
}
