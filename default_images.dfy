/**
 * Default images of resource collections (`getDefaultImageUrl`) and the
 * image handler that a resource card uses (`useImageHandler`): a URL that
 * starts empty, is set from the first image or the collection default, and
 * falls back to the default when loading fails.
 */
module DefaultImages {
  import opened Common

  const DefaultDir := "/images/default/default-"
  const FallbackImage := "/images/default/default-image.jpg"

  /** The eight collections that have their own default image. */
  const Collections: seq<string> :=
    ["accommodation", "cave", "cultural", "event", "fair", "museum", "natural", "restaurant"]

  function DefaultPath(name: string): string {
    DefaultDir + name + ".jpg"
  }

  /** The lookup table; the key `default` holds the fallback itself. */
  const Table: map<string, string> := map[
    "accommodation" := DefaultPath("accommodation"),
    "cave" := DefaultPath("cave"),
    "cultural" := DefaultPath("cultural"),
    "event" := DefaultPath("event"),
    "fair" := DefaultPath("fair"),
    "museum" := DefaultPath("museum"),
    "natural" := DefaultPath("natural"),
    "restaurant" := DefaultPath("restaurant"),
    "default" := FallbackImage
  ]

  /** `getDefaultImageUrl(collection)`. */
  function DefaultImageUrl(collection: string): (url: string)
    ensures Lower(collection) in Table ==> url == Table[Lower(collection)]
    ensures Lower(collection) !in Table ==> url == FallbackImage
  {
    var key := Lower(collection);
    if key in Table && Table[key] != "" then Table[key] else Table["default"]
  }

  /**
   * A collection of the eight, written in any letter case, gets
   * `/images/default/default-<collection>.jpg`.
   */
  lemma {:induction false} CollectionDefault(collection: string, i: nat)
    requires i < |Collections| && Lower(collection) == Collections[i]
    ensures DefaultImageUrl(collection) == DefaultPath(Collections[i])
  {
    assert Table[Collections[i]] == DefaultPath(Collections[i]);
  }

  /** The lookup ignores letter case. */
  lemma CaseInsensitive(collection: string)
    ensures DefaultImageUrl(Lower(collection)) == DefaultImageUrl(collection)
  {
    LowerIdempotent(collection);
  }

  // ------------------------------------------------------ image handler

  /** The state the handler exposes: `imageUrl` and `imageLoaded`. */
  datatype View = View(url: string, loaded: bool)

  /** The handler's three callbacks. */
  datatype Callback = SetInitialImage | HandleImageLoad | HandleImageError

  /**
   * The URL `setInitialImage` chooses: the first image's `fuente` when the
   * list is non-empty and that value is truthy, else the collection default.
   */
  function InitialImageUrl(collection: string, images: seq<Option<string>>): (url: string)
    ensures |images| > 0 && Truthy(images[0]) ==> url == images[0].value
    ensures !(|images| > 0 && Truthy(images[0])) ==> url == DefaultImageUrl(collection)
  {
    if |images| > 0 && Truthy(images[0]) then images[0].value else DefaultImageUrl(collection)
  }

  /** The effect of one callback on the exposed state. */
  function After(v: View, cb: Callback, collection: string, images: seq<Option<string>>): View {
    match cb
    case SetInitialImage => v.(url := InitialImageUrl(collection, images))
    case HandleImageLoad => v.(loaded := true)
    case HandleImageError => View(DefaultImageUrl(collection), true)
  }

  /** The state after a sequence of callbacks, starting from `v`. */
  function Run(v: View, cbs: seq<Callback>, collection: string, images: seq<Option<string>>): View
    decreases |cbs|
  {
    if cbs == [] then v else Run(After(v, cbs[0], collection, images), cbs[1..], collection, images)
  }

  /** Once an image counts as loaded it stays loaded, whatever callbacks follow. */
  lemma {:induction false} LoadedStaysLoaded(v: View, cbs: seq<Callback>, collection: string, images: seq<Option<string>>)
    requires v.loaded
    ensures Run(v, cbs, collection, images).loaded
    decreases |cbs|
  {
    if cbs != [] {
      LoadedStaysLoaded(After(v, cbs[0], collection, images), cbs[1..], collection, images);
    }
  }

  /**
   * Starting from the initial state, the URL is always empty, the first
   * image's `fuente`, or the collection default.
   */
  lemma {:induction false} UrlIsKnown(v: View, cbs: seq<Callback>, collection: string, images: seq<Option<string>>)
    requires v.url == "" || v.url == InitialImageUrl(collection, images) || v.url == DefaultImageUrl(collection)
    ensures var u := Run(v, cbs, collection, images).url;
      u == "" || u == InitialImageUrl(collection, images) || u == DefaultImageUrl(collection)
    decreases |cbs|
  {
    if cbs != [] {
      UrlIsKnown(After(v, cbs[0], collection, images), cbs[1..], collection, images);
    }
  }

  /** An error leaves the default image shown and the image counted as loaded. */
  lemma ErrorShowsDefault(v: View, collection: string, images: seq<Option<string>>)
    ensures After(v, HandleImageError, collection, images) == View(DefaultImageUrl(collection), true)
    ensures After(v, HandleImageLoad, collection, images).url == v.url
  {
  }

  /** The handler returned by `useImageHandler`, with its two refs. */
  class ImageHandler {
    const collection: string
    const initialImages: seq<Option<string>>
    var imageUrl: string
    var imageLoaded: bool

    function Current(): View
      reads this
    {
      View(imageUrl, imageLoaded)
    }

    constructor (collection: string, initialImages: seq<Option<string>>)
      ensures this.collection == collection && this.initialImages == initialImages
      ensures Current() == View("", false)
    {
      this.collection := collection;
      this.initialImages := initialImages;
      imageUrl := "";
      imageLoaded := false;
    }

    method SetInitial()
      modifies this
      ensures Current() == After(old(Current()), SetInitialImage, collection, initialImages)
    {
      if |initialImages| > 0 && Truthy(initialImages[0]) {
        imageUrl := initialImages[0].value;
      } else {
        imageUrl := DefaultImageUrl(collection);
      }
    }

    method OnImageLoad()
      modifies this
      ensures Current() == After(old(Current()), HandleImageLoad, collection, initialImages)
    {
      imageLoaded := true;
    }

    method OnImageError()
      modifies this
      ensures Current() == After(old(Current()), HandleImageError, collection, initialImages)
    {
      imageUrl := DefaultImageUrl(collection);
      imageLoaded := true;
    }
  }
}
