/** What the detail views hand to the lightbox, and the per-view "image loaded" flags. */
module Gallery {
  import opened Wrappers

  /** An image URL. */
  type Url = string

  /** The argument pair of `onImageClick(images, idx)`: the lightbox's image list and start index. */
  datatype Request = Request(images: seq<Url>, index: int)

  /** The lightbox's precondition: a non-empty image list and a start index inside it. */
  predicate Openable(r: Request) {
    0 <= r.index < |r.images|
  }

  /** Keys that activate a focused `role="button"` card: Enter and Space. */
  predicate Activates(key: string) {
    key == "Enter" || key == " "
  }

  /** The request a card's `onKeyDown` handler produces for `key`, given the request its
      `onClick` handler produces: the same request for Enter/Space, nothing otherwise. */
  function KeyRequest(key: string, click: Request): (r: Option<Request>)
    ensures r.Some? <==> Activates(key)
    ensures r.Some? ==> r.value == click
  {
    if Activates(key) then Some(click) else None
  }

  /** The `imagesLoaded` object of a detail view, keyed by an image key. A key that was
      never set reads as `undefined`, which is falsy. */
  class LoadFlags<K(==)> {
    var loaded: map<K, bool>

    constructor ()
      ensures loaded == map[]
    {
      loaded := map[];
    }

    function IsLoaded(key: K): bool
      reads this
    {
      key in loaded && loaded[key]
    }

    /** `handleImageLoad(key)`: set that key to true, keep every other entry. */
    method MarkLoaded(key: K)
      modifies this
      ensures loaded == old(loaded)[key := true]
      ensures IsLoaded(key)
      ensures forall k :: k != key ==> IsLoaded(k) == (k in old(loaded) && old(loaded)[k])
    {
      loaded := loaded[key := true];
    }
  }
}
