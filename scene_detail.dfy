/** The detail view of an environment-scene project: a gallery of screenshots and a list of
    "cool features", each of which may carry one image. */
module SceneDetail {
  import opened Wrappers
  import opened Gallery
  import opened Projects

  /** The `imagesLoaded` keys: `img-<idx>` and `feature-<idx>`. */
  datatype ImageKey = Img(idx: nat) | FeatureImg(idx: nat)

  // Absent lists read as empty.
  function Images(p: Project): seq<Url> { p.images.GetOr([]) }
  function CoolFeatures(p: Project): seq<Feature> { p.coolFeatures.GetOr([]) }

  /** A present list is used as is; an absent one is the empty list. */
  lemma Defaults(p: Project)
    ensures p.images.None? ==> Images(p) == []
    ensures p.coolFeatures.None? ==> CoolFeatures(p) == []
    ensures p.images.Some? ==> Images(p) == p.images.value
    ensures p.coolFeatures.Some? ==> CoolFeatures(p) == p.coolFeatures.value
  {
  }

  /** Gallery card `idx` (clicked, or Enter/Space through `KeyRequest`): opens the gallery
      itself on the clicked screenshot. */
  function GalleryRequest(p: Project, idx: nat): (r: Request)
    requires idx < |Images(p)|
    ensures Openable(r) && r.images == Images(p)
    ensures r.images[r.index] == Images(p)[idx]
  {
    Request(Images(p), idx)
  }

  /** A gallery card's `onKeyDown`: Enter and Space open the same request as a click. */
  function GalleryKeyDown(p: Project, idx: nat, key: string): (r: Option<Request>)
    requires idx < |Images(p)|
    ensures r.Some? <==> Activates(key)
    ensures r.Some? ==> r.value == GalleryRequest(p, idx) && Openable(r.value)
  {
    KeyRequest(key, GalleryRequest(p, idx))
  }

  /** `feature.image &&`: a feature shows a clickable image only when its image is present and
      not the empty string (both `undefined` and `""` are falsy). */
  predicate HasImage(f: Feature) {
    f.image.Some? && f.image.value != ""
  }

  /** A feature's image card opens a one-image lightbox on that image; a feature without an
      image has no card and so produces no request. */
  function FeatureRequest(f: Feature): (r: Option<Request>)
    ensures r.Some? <==> HasImage(f)
    ensures r.Some? ==> Openable(r.value) && r.value.images == [f.image.value] && r.value.index == 0
  {
    if HasImage(f) then Some(Request([f.image.value], 0)) else None
  }

  /** A feature image's `onKeyDown`: Enter and Space open the same request as a click, and a
      feature without an image has no card to press keys on. */
  function FeatureKeyDown(f: Feature, key: string): (r: Option<Request>)
    ensures r.Some? <==> HasImage(f) && Activates(key)
    ensures r.Some? ==> r == FeatureRequest(f)
  {
    match FeatureRequest(f)
    case Some(click) => KeyRequest(key, click)
    case None => None
  }

  /** The requests of the feature cards of `fs`, in page order. */
  function FeatureRequests(fs: seq<Feature>): (rs: seq<Request>)
    ensures |rs| <= |fs|
    ensures forall r | r in rs :: Openable(r) && |r.images| == 1
    ensures forall f | f in fs && HasImage(f) :: Request([f.image.value], 0) in rs
    ensures forall r | r in rs :: exists f | f in fs && HasImage(f) :: r == Request([f.image.value], 0)
  {
    if fs == [] then []
    else
      var rest := FeatureRequests(fs[1..]);
      match FeatureRequest(fs[0])
      case Some(r) => [r] + rest
      case None => rest
  }

  /** Every request on the page: one per gallery card, then one per feature with an image.
      The gallery section is rendered only when `images` is non-empty. */
  function Requests(p: Project): (rs: seq<Request>)
  {
    seq(|Images(p)|, i requires 0 <= i < |Images(p)| => GalleryRequest(p, i))
    + FeatureRequests(CoolFeatures(p))
  }

  /** Every request the scene view can hand to the lightbox meets its precondition, and the
      gallery's requests exist only for a non-empty gallery. */
  lemma RequestsOpenable(p: Project)
    ensures forall r | r in Requests(p) :: Openable(r)
    ensures Images(p) == [] ==> Requests(p) == FeatureRequests(CoolFeatures(p))
  {
    var gallery := seq(|Images(p)|, i requires 0 <= i < |Images(p)| => GalleryRequest(p, i));
    assert Requests(p) == gallery + FeatureRequests(CoolFeatures(p));
    forall r | r in gallery ensures Openable(r) {
      var k :| 0 <= k < |gallery| && gallery[k] == r;
    }
  }
}
