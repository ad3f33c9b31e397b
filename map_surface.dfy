/**
 * The part of the mapbox-gl map that the two map components drive, as
 * state: the layers and sources the application added, the registered
 * images and event handlers, the `icon-size` match of a layer, attached
 * popups, HTML markers and the camera. Only the behaviour the
 * components depend on is kept: adding a source or a layer while the style
 * is loading throws, a duplicate layer or image only reports an error, and
 * `setStyle` drops every source, layer and image while handlers, markers
 * and popups stay.
 */
module MapSurface {
  import opened Common

  datatype Coord = Coord(lng: real, lat: real)

  /** A registered listener: the event, the layer it is bound to (if any) and the callback's identity. */
  datatype Handler = Handler(event: string, layer: Option<string>, callback: nat)

  /** An HTML marker: its number, position and whether its popup is open. */
  datatype Marker = Marker(number: string, at: Coord, popupOpen: bool)

  class Surface {
    var style: string
    var styleLoaded: bool
    var layers: seq<string>
    var sources: set<string>
    var images: set<string>
    var handlers: multiset<Handler>
    /** The id enlarged by each layer's `['match', ['get', 'id'], id, 0.045, 0.035]` icon size. */
    var iconSize: map<string, int>
    var center: Coord
    /** The points the camera was last fitted to. */
    var fitted: Option<set<Coord>>
    var markers: seq<Marker>
    /** The identities of the popups attached to the map. */
    var popups: set<nat>

    /** Nothing the application added survives a style that is still loading. */
    predicate Valid()
      reads this
    {
      (!styleLoaded ==> layers == [] && sources == {})
      && iconSize.Keys <= set l | l in layers
    }

    constructor (style0: string, center0: Coord)
      ensures Valid()
      ensures style == style0 && !styleLoaded && center == center0
      ensures layers == [] && sources == {} && images == {} && handlers == multiset{}
      ensures iconSize == map[] && fitted == None && markers == [] && popups == {}
    {
      style := style0;
      styleLoaded := false;
      layers := [];
      sources := {};
      images := {};
      handlers := multiset{};
      iconSize := map[];
      center := center0;
      fitted := None;
      markers := [];
      popups := {};
    }

    /** `setStyle`: a new style starts loading; what the application added to the old one is gone. */
    method SetStyle(s: string)
      modifies this`style, this`styleLoaded, this`layers, this`sources, this`images, this`iconSize
      ensures Valid()
      ensures style == s && !styleLoaded && layers == [] && sources == {} && images == {} && iconSize == map[]
    {
      style := s;
      styleLoaded := false;
      layers := [];
      sources := {};
      images := {};
      iconSize := map[];
    }

    /** The style has finished loading. */
    method StyleDone()
      requires Valid()
      modifies this`styleLoaded
      ensures Valid() && styleLoaded
    {
      styleLoaded := true;
    }

    /** `addSource`: throws while the style loads and for an id already in use. */
    method AddSource(id: string) returns (ok: bool)
      requires Valid()
      modifies this`sources
      ensures Valid()
      ensures ok <==> old(styleLoaded) && id !in old(sources)
      ensures sources == if ok then old(sources) + {id} else old(sources)
    {
      if !styleLoaded || id in sources {
        return false;
      }
      sources := sources + {id};
      return true;
    }

    /**
     * `addLayer`, with the icon-size match its layout sets (if any): throws
     * while the style loads; a layer id already in use only reports an error.
     */
    method AddLayer(id: string, icon: Option<int>) returns (ok: bool)
      requires Valid()
      modifies this`layers, this`iconSize
      ensures Valid()
      ensures ok <==> old(styleLoaded)
      ensures ok && id !in old(layers) ==> (layers == old(layers) + [id]
        && iconSize == if icon.Some? then old(iconSize)[id := icon.value] else old(iconSize))
      ensures !ok || id in old(layers) ==> layers == old(layers) && iconSize == old(iconSize)
    {
      if !styleLoaded {
        return false;
      }
      if id !in layers {
        layers := layers + [id];
        if icon.Some? {
          iconSize := iconSize[id := icon.value];
        }
      }
      return true;
    }

    /** `removeLayer` of a layer that exists (so the style has loaded). */
    method RemoveLayer(id: string)
      requires Valid() && id in layers
      modifies this`layers, this`iconSize
      ensures Valid()
      ensures layers == Without(old(layers), id) && iconSize == old(iconSize) - {id}
    {
      layers := Without(layers, id);
      iconSize := iconSize - {id};
    }

    /** `removeSource` of a source that exists. */
    method RemoveSource(id: string)
      requires Valid() && id in sources
      modifies this`sources
      ensures Valid() && sources == old(sources) - {id}
    {
      sources := sources - {id};
    }

    /** `addImage`: an id already in use only reports an error. */
    method AddImage(id: string)
      modifies this`images
      ensures images == old(images) + {id}
    {
      images := images + {id};
    }

    method RemoveImage(id: string)
      modifies this`images
      ensures images == old(images) - {id}
    {
      images := images - {id};
    }

    /** `map.on(...)`. */
    method On(h: Handler)
      modifies this`handlers
      ensures handlers == old(handlers) + multiset{h}
    {
      handlers := handlers + multiset{h};
    }

    /** `map.off(...)`: one registration of that exact listener goes, if there is one. */
    method Off(h: Handler)
      modifies this`handlers
      ensures handlers == old(handlers) - multiset{h}
    {
      handlers := handlers - multiset{h};
    }

    /** `setLayoutProperty(layer, 'icon-size', match id)`: only reports an error for a missing layer. */
    method SetIconSize(layer: string, id: int)
      requires Valid()
      modifies this`iconSize
      ensures Valid()
      ensures layer in layers ==> iconSize == old(iconSize)[layer := id]
      ensures layer !in layers ==> iconSize == old(iconSize)
    {
      if layer in layers {
        iconSize := iconSize[layer := id];
      }
    }

    method FlyTo(c: Coord)
      modifies this`center
      ensures center == c
    {
      center := c;
    }

    method FitBounds(points: set<Coord>)
      modifies this`fitted
      ensures fitted == Some(points)
    {
      fitted := Some(points);
    }

    method AddMarker(m: Marker)
      modifies this`markers
      ensures markers == old(markers) + [m]
    {
      markers := markers + [m];
    }

    method AttachPopup(p: nat)
      modifies this`popups
      ensures popups == old(popups) + {p}
    {
      popups := popups + {p};
    }

    method DetachPopup(p: nat)
      modifies this`popups
      ensures popups == old(popups) - {p}
    {
      popups := popups - {p};
    }

    /** A click on the map closes every popup opened with `closeOnClick`. */
    method CloseOnClick()
      modifies this`popups
      ensures popups == {}
    {
      popups := {};
    }
  }

  /** The list without any occurrence of `x`, the others in order. */
  function Without(xs: seq<string>, x: string): (r: seq<string>)
    ensures x !in r
    ensures forall y :: y != x ==> (y in r <==> y in xs)
    ensures x !in xs ==> r == xs
    ensures |r| <= |xs|
  {
    if xs == [] then []
    else if xs[0] == x then Without(xs[1..], x)
    else [xs[0]] + Without(xs[1..], x)
  }
}
