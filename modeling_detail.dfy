/** The detail view of a 3D-modeling project: four image sections that share one lightbox
    list, the concatenation of the four. */
module ModelingDetail {
  import opened Wrappers
  import opened Gallery
  import opened Projects

  /** The `imagesLoaded` keys: `render-<idx>`, `paint-<idx>`, `prog-<idx>`, `ref-<idx>`. */
  datatype ImageKey = Render(idx: nat) | Paint(idx: nat) | Prog(idx: nat) | Ref(idx: nat)

  // Each absent category reads as the empty list.
  function Renders(p: Project): seq<Url> { p.renders.GetOr([]) }
  function Paintwork(p: Project): seq<Url> { p.paintwork.GetOr([]) }
  function Progression(p: Project): seq<Url> { p.progression.GetOr([]) }
  function References(p: Project): seq<Url> { p.references.GetOr([]) }

  /** A category that is present is used as is; an absent one is the empty list. */
  lemma Defaults(p: Project)
    ensures p.renders.None? ==> Renders(p) == []
    ensures p.paintwork.None? ==> Paintwork(p) == []
    ensures p.progression.None? ==> Progression(p) == []
    ensures p.references.None? ==> References(p) == []
    ensures p.renders.Some? ==> Renders(p) == p.renders.value
    ensures p.paintwork.Some? ==> Paintwork(p) == p.paintwork.value
    ensures p.progression.Some? ==> Progression(p) == p.progression.value
    ensures p.references.Some? ==> References(p) == p.references.value
  {
  }

  /** `allImages`: the four categories in page order. */
  function AllImages(p: Project): (all: seq<Url>)
    ensures |all| == |Renders(p)| + |Paintwork(p)| + |Progression(p)| + |References(p)|
    ensures all[..|Renders(p)|] == Renders(p)
  {
    Renders(p) + Paintwork(p) + Progression(p) + References(p)
  }

  /** Render card `idx`: opens `allImages` at `idx`, which is the render that was clicked. */
  function RenderRequest(p: Project, idx: nat): (r: Request)
    requires idx < |Renders(p)|
    ensures Openable(r) && r.images == AllImages(p)
    ensures r.images[r.index] == Renders(p)[idx]
  {
    Request(AllImages(p), idx)
  }

  /** Paintwork card `idx`: opens `allImages` past the renders, on the clicked paintwork image. */
  function PaintworkRequest(p: Project, idx: nat): (r: Request)
    requires idx < |Paintwork(p)|
    ensures Openable(r) && r.images == AllImages(p)
    ensures r.images[r.index] == Paintwork(p)[idx]
  {
    Request(AllImages(p), |Renders(p)| + idx)
  }

  /** Progression card `idx`: opens `allImages` past renders and paintwork, on the clicked image. */
  function ProgressionRequest(p: Project, idx: nat): (r: Request)
    requires idx < |Progression(p)|
    ensures Openable(r) && r.images == AllImages(p)
    ensures r.images[r.index] == Progression(p)[idx]
  {
    Request(AllImages(p), |Renders(p)| + |Paintwork(p)| + idx)
  }

  /** Reference card `idx`: opens `allImages` past the first three categories, on the clicked image. */
  function ReferenceRequest(p: Project, idx: nat): (r: Request)
    requires idx < |References(p)|
    ensures Openable(r) && r.images == AllImages(p)
    ensures r.images[r.index] == References(p)[idx]
  {
    Request(AllImages(p), |Renders(p)| + |Paintwork(p)| + |Progression(p)| + idx)
  }

  /** The requests of every card on the page, in page order. A section is rendered only when
      its list is non-empty, and then has one card per image. */
  function Requests(p: Project): (rs: seq<Request>)
    ensures |rs| == |AllImages(p)|
  {
    seq(|Renders(p)|, i requires 0 <= i < |Renders(p)| => RenderRequest(p, i))
    + seq(|Paintwork(p)|, i requires 0 <= i < |Paintwork(p)| => PaintworkRequest(p, i))
    + seq(|Progression(p)|, i requires 0 <= i < |Progression(p)| => ProgressionRequest(p, i))
    + seq(|References(p)|, i requires 0 <= i < |References(p)| => ReferenceRequest(p, i))
  }

  /** The k-th card on the page opens the lightbox on the k-th image of `allImages`: the
      per-section offsets line the cards up with the concatenation. */
  lemma CardOpensOwnImage(p: Project, k: nat)
    requires k < |Requests(p)|
    ensures Requests(p)[k] == Request(AllImages(p), k)
    ensures Openable(Requests(p)[k])
  {
  }

  /** The `onKeyDown` of the k-th card on the page: Enter and Space open the same request as a
      click, which is `allImages` at index k. */
  function CardKeyDown(p: Project, k: nat, key: string): (r: Option<Request>)
    requires k < |Requests(p)|
    ensures r.Some? <==> Activates(key)
    ensures r.Some? ==> r.value == Request(AllImages(p), k) && Openable(r.value)
  {
    CardOpensOwnImage(p, k);
    KeyRequest(key, Requests(p)[k])
  }

  /** Every request the modeling view can hand to the lightbox meets its precondition. */
  lemma RequestsOpenable(p: Project)
    ensures forall r | r in Requests(p) :: Openable(r)
  {
    forall r | r in Requests(p) ensures Openable(r) {
      var k :| 0 <= k < |Requests(p)| && Requests(p)[k] == r;
      CardOpensOwnImage(p, k);
    }
  }
}
