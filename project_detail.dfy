/** The project detail view: dispatch on the project type, and the game layout itself
    (screenshots, the mechanics grid, the academic and team-credit labels). */
module ProjectDetail {
  import opened Wrappers
  import opened Gallery
  import opened Projects
  import ModelingDetail
  import SceneDetail

  /** Which component renders a project. */
  datatype Layout = ModelingLayout | SceneLayout | GameLayout

  /** `type === 'modeling'` goes to the modeling view, `type === 'scene'` to the scene view,
      any other value (or none) to the game layout. */
  function Dispatch(p: Project): (l: Layout)
    ensures l == ModelingLayout <==> p.kind == Some("modeling")
    ensures l == SceneLayout <==> p.kind == Some("scene")
  {
    if p.kind == Some("modeling") then ModelingLayout
    else if p.kind == Some("scene") then SceneLayout
    else GameLayout
  }

  /** `mechanicsData[project.id] || []`. */
  function Mechanics(data: map<string, seq<Mechanic>>, id: string): (ms: seq<Mechanic>)
    ensures id in data ==> ms == data[id]
    ensures id !in data ==> ms == []
  {
    if id in data then data[id] else []
  }

  /** `s.slice(i, j)` for `0 <= i <= j`: the end is clamped to the length. */
  function Slice<T>(s: seq<T>, i: nat, j: nat): (r: seq<T>)
    requires i <= |s| && i <= j
    ensures |r| == (if j <= |s| then j else |s|) - i
  {
    s[i..if j <= |s| then j else |s|]
  }

  /** The concatenation of a list of chunks. */
  function Flatten<T>(chunks: seq<seq<T>>): seq<T>
  {
    if chunks == [] then [] else Flatten(chunks[..|chunks| - 1]) + chunks[|chunks| - 1]
  }

  /** `mechanicPairs`: the mechanics list cut, by a loop stepping two at a time, into rows of
      two; only the last row may hold a single mechanic. Nothing is lost, reordered or repeated. */
  method MechanicPairs(mechanics: seq<Mechanic>) returns (pairs: seq<seq<Mechanic>>)
    ensures Flatten(pairs) == mechanics
    ensures |pairs| == (|mechanics| + 1) / 2
    ensures forall k | 0 <= k < |pairs| :: 1 <= |pairs[k]| <= 2
    ensures forall k | 0 <= k < |pairs| - 1 :: |pairs[k]| == 2
  {
    pairs := [];
    var i := 0;
    while i < |mechanics|
      invariant i == 2 * |pairs|
      invariant i <= |mechanics| + 1
      invariant Flatten(pairs) == mechanics[..if i <= |mechanics| then i else |mechanics|]
      invariant forall k | 0 <= k < |pairs| :: 1 <= |pairs[k]| <= 2
      invariant i <= |mechanics| ==> forall k | 0 <= k < |pairs| :: |pairs[k]| == 2
      invariant forall k | 0 <= k < |pairs| - 1 :: |pairs[k]| == 2
    {
      var chunk := Slice(mechanics, i, i + 2);
      assert (pairs + [chunk])[..|pairs|] == pairs;
      pairs := pairs + [chunk];
      i := i + 2;
    }
  }

  /** `isAcademicProject`: every game project except `star-wars-scene`. */
  predicate IsAcademicProject(p: Project) {
    p.id != "star-wars-scene"
  }

  /** `hasTeamCredit`: a team of exactly `'2'` (strict string comparison) on an academic project. */
  predicate HasTeamCredit(p: Project) {
    p.team == Some("2") && IsAcademicProject(p)
  }

  /** The credit label is never shown without the academic label, and never for `star-wars-scene`. */
  lemma TeamCreditFlags(p: Project)
    ensures HasTeamCredit(p) ==> IsAcademicProject(p)
    ensures p.id == "star-wars-scene" ==> !IsAcademicProject(p) && !HasTeamCredit(p)
    ensures p.id != "star-wars-scene" ==> (HasTeamCredit(p) <==> p.team == Some("2"))
  {
  }

  /** `handleBackdropClick`: `onBack` runs only when the click lands on the backdrop element
      itself (its class list holds `project-detail-backdrop`), not on a child. */
  function BackdropClick(targetClasses: set<string>): (callsBack: bool)
    ensures callsBack <==> "project-detail-backdrop" in targetClasses
  {
    "project-detail-backdrop" in targetClasses
  }

  /** Screenshot `idx` of a game project: opens `project.images` on the clicked screenshot. */
  function ScreenshotRequest(images: seq<Url>, idx: nat): (r: Request)
    requires idx < |images|
    ensures Openable(r) && r.images == images && r.images[r.index] == images[idx]
  {
    Request(images, idx)
  }

  /** The screenshot requests of the game layout. `project.images.map` on a project without
      `images` throws and the error boundary replaces the page, so no request exists then. */
  function GameRequests(p: Project): (rs: seq<Request>)
    ensures p.images.Some? ==> |rs| == |p.images.value|
    ensures p.images.None? ==> rs == []
  {
    match p.images
    case None => []
    case Some(imgs) => seq(|imgs|, i requires 0 <= i < |imgs| => ScreenshotRequest(imgs, i))
  }

  /** Every request the detail view of `p` can hand to `onImageClick`, whichever layout renders it. */
  function DetailRequests(p: Project): seq<Request>
  {
    match Dispatch(p)
    case ModelingLayout => ModelingDetail.Requests(p)
    case SceneLayout => SceneDetail.Requests(p)
    case GameLayout => GameRequests(p)
  }

  /** The lightbox's precondition holds of every request any detail view produces. */
  lemma DetailRequestsOpenable(p: Project)
    ensures forall r | r in DetailRequests(p) :: Openable(r)
  {
    match Dispatch(p)
    case ModelingLayout => ModelingDetail.RequestsOpenable(p);
    case SceneLayout => SceneDetail.RequestsOpenable(p);
    case GameLayout =>
      forall r | r in GameRequests(p) ensures Openable(r) {
        var k :| 0 <= k < |GameRequests(p)| && GameRequests(p)[k] == r;
      }
  }
}
