# Portfolio site: navigation state machine and image lightbox

A model, in Dafny, of the interactive core of a single-page React portfolio site. The site
shows a catalog of projects under three tabs (games, modeling, scenes), a detail view per
project, and a full-screen image lightbox. The model covers:

- **App** (`src/App.js`): the three state cells `tab`, `selected` and `modal`, every transition
  that changes them (tab buttons, catalog cards, the detail view's back button and image clicks,
  the lightbox's `onClose`, the `popstate` handler, `goHome`), and the entries pushed onto the
  browser history by those transitions and by the two push effects. The class `App.AppState`
  keeps the invariant that a modal is open only over a selected project, that the selected
  project is one of the current tab's projects, and that the mounted lightbox shows the modal's
  images with an index in range.
- **ImageModal** (`src/components/modals/ImageModal.jsx`): the lightbox as a class
  (`ImageModal.Lightbox`) with `index`, `imageLoaded`, `isZoomed` and `isMobile`; clamped
  arrow-key navigation; the cyclic `prev`/`next` functions behind buttons disabled at the ends;
  the zoom toggle; the overlay-click rule; the body-style lock and the scroll save/restore.
- **ModelingDetail, SceneDetail, ProjectDetail** (`src/components/project/`): the lightbox
  requests `(images, index)` each detail view builds, the defaults for absent image lists, the
  layout dispatch on project type, the loop that chunks the mechanics list into rows of two,
  the academic / team-credit flags, the backdrop-click rule, and the per-view "image loaded"
  flags (`Gallery.LoadFlags`).

The central result is `ProjectDetail.DetailRequestsOpenable`: every request any detail view can
hand to `onImageClick` has a non-empty image list and an index inside it, which is what the
lightbox needs. For the modeling view this rests on `ModelingDetail.CardOpensOwnImage`: the
k-th card on the page opens the k-th image of the concatenated list, so each card's offset
index lands on the image that was clicked. `App.AppState.OpenImage` uses it to keep the
lightbox invariant `0 <= index < total`.

Browser and DOM facilities are parameters: the page's scroll offset and body style are the
fields of `ImageModal.Page`, the viewport width is passed when the lightbox is mounted or
resized, a click target is the list of class sets from the target up to the root, and the
fragment the browser moves to on a back/forward step is an argument of `PopState`. The static
project lists are the `catalog` argument of the application. `Scenarios` walks whole
interactions through against the contracts: select `slingshot` and go back; open its second
screenshot, press ArrowRight twice and Escape; click the overlay on a mobile viewport and then
go back in the history; press ArrowRight in a lightbox with no images; mark images loaded in
each view's `imagesLoaded` object.

Behaviour of the code that the model keeps as written, although a reader might expect otherwise:

- A lightbox can be opened only from a detail view (`onImageClick` is passed only to
  `ProjectDetail`, which is rendered only while a project is selected and no modal is open), so
  a lightbox opened over the catalog is unreachable; `AppState.Valid` states this.
- With an empty image list the lightbox renders nothing, but its key listener is still
  installed, so ArrowRight sets the (invisible) index to `-1`: key presses on an empty
  lightbox are not inert. `Scenarios.EmptyLightbox` shows it. No detail view produces such a request.
- The code never derives state from the fragment (it only copies it into the modal entry), so an unknown project id in the URL has no effect;
  `popstate` only applies its close-modal-else-deselect rule.
- Leaving a detail view by `popstate` pushes a new `#projects` entry (the effect on `[selected]`
  fires), and `goHome` from a detail view pushes `#projects` twice (its own push and that
  effect's); both are modelled as written.

## Model

| member | source | states |
|---|---|---|
| `Projects.Visible` | src/App.js:54-58 | the grid shows the games list on the games tab, the modeling list on the modeling tab, the scene list otherwise; nothing but the tab decides it |
| `App.AppState.constructor` | src/App.js:49-51 | starts on the games tab with nothing selected and no modal; the mount run of the selection effect pushes `{}` at `#projects`; the invariant holds |
| `App.SelectionEntry` | src/App.js:83-89 | the selection effect pushes `{project: id}` at `#id` when a project is selected, `{}` at `#projects` when none is and no modal is open, and nothing when only a modal is open |
| `App.DetailHash` | src/App.js:85 | a detail fragment is `#` followed by exactly the project id |
| `App.AppState.SelectTab` | src/App.js:122-151 | a tab button (shown only with nothing selected) changes the tab and nothing else; no history entry |
| `App.AppState.SelectProject` | src/App.js:155-170 | a card of the visible list selects its project and pushes `{project: id}` at `#id`; tab and modal unchanged |
| `App.AppState.Back` | src/App.js:175-178 | the detail view's back button clears the selection, keeps the tab, pushes `{}` at `#projects` |
| `App.AppState.OpenImage` | src/App.js:95-99 | a detail view's image request opens the modal and mounts the lightbox at the requested index, unzoomed, not loaded, mobile iff the viewport is at most 768 px wide, with the scroll offset saved and the body locked; a `{modal: true}` entry is pushed with the current fragment, which does not change; selection and tab unchanged; the invariant holds because the request is openable |
| `App.AppState.CloseImage` | src/App.js:186 | `onClose` clears only the modal; unmounting the lightbox clears the body styles and restores the saved scroll; selection, tab and history unchanged |
| `App.AppState.LightboxKey` | src/App.js:182-188 | a key in the open lightbox moves its index as the lightbox rule says, clears zoom and the loaded flag exactly when the index changes, keeps the mobile flag, and leaves the page alone; Escape closes the modal and restores the scroll; selection and tab unchanged |
| `App.AppState.LightboxOverlayClick` | src/App.js:182-188 | an overlay click closes the modal (clearing the body styles and restoring the scroll) exactly when the lightbox is not in mobile mode and the click is outside the image and its controls; otherwise modal, lightbox and page are unchanged |
| `App.AppState.PopState` | src/App.js:64-77 | back/forward closes an open modal only; else clears a selection only (and the selection effect pushes `#projects`); else changes nothing; closing the modal clears the body styles and restores the scroll, and otherwise the page is untouched; the tab is never touched; the invariant holds |
| `App.AppState.GoHome` | src/App.js:105-110 | from any reachable state: games tab, nothing selected, no modal, fragment `#projects`; one `{}` entry pushed, two when a project was selected; an open modal's unmount clears the body styles and restores the scroll, and otherwise the page is untouched |
| `ImageModal.Lightbox.Mount` | src/components/modals/ImageModal.jsx:4-47 | the index starts at `initialIndex`, nothing loaded or zoomed, mobile iff the viewport is at most 768 px wide; the scroll offset is saved and the body locked at `-scrollY`px; in range iff the start index is |
| `ImageModal.Lightbox.SetIndex` | src/components/modals/ImageModal.jsx:19-23 | a change of index clears zoom and the loaded flag; setting the same index changes nothing |
| `ImageModal.Lightbox.HandleKey` | src/components/modals/ImageModal.jsx:25-30 | Escape asks to close and keeps the index; ArrowRight/ArrowLeft move with saturation; an index in range stays in range |
| `ImageModal.ArrowRightIndex` | src/components/modals/ImageModal.jsx:28 | from an index in range: one step right, staying at the last image |
| `ImageModal.ArrowLeftIndex` | src/components/modals/ImageModal.jsx:29 | never below 0: one step left, staying at the first image |
| `ImageModal.JsRem` | src/components/modals/ImageModal.jsx:63 | JavaScript's `%` truncates toward zero: it agrees with the Euclidean remainder on a non-negative dividend and keeps the dividend's sign |
| `ImageModal.NextIndex` | src/components/modals/ImageModal.jsx:66-68 | from an index in range: one step right, wrapping from the last image to the first |
| `ImageModal.PrevIndex` | src/components/modals/ImageModal.jsx:62-64 | from an index in range: one step left, wrapping from the first image to the last |
| `ImageModal.PrevNextInverse` | src/components/modals/ImageModal.jsx:62-68 | `prev` undoes `next` and `next` undoes `prev` |
| `ImageModal.NextIterateSteps` | src/components/modals/ImageModal.jsx:66-68 | k applications of `next` (k up to total) move k places right modulo total |
| `ImageModal.PrevIterateSteps` | src/components/modals/ImageModal.jsx:62-64 | k applications of `prev` (k up to total) move k places left modulo total |
| `ImageModal.FullCycle` | src/components/modals/ImageModal.jsx:62-68 | `total` applications of either `next` or `prev` return to the start |
| `ImageModal.Lightbox.PrevButton` | src/components/modals/ImageModal.jsx:87-94 | disabled at index 0, otherwise `prev`; from an index in range it never wraps and stays in range |
| `ImageModal.Lightbox.NextButton` | src/components/modals/ImageModal.jsx:126-133 | disabled at the last index, otherwise `next`; from an index in range it never wraps and stays in range |
| `ImageModal.Lightbox.ImageClick` | src/components/modals/ImageModal.jsx:114 | a click on the image toggles zoom and changes nothing else |
| `ImageModal.Lightbox.ImageLoad` | src/components/modals/ImageModal.jsx:113 | the image's load event sets the loaded flag |
| `ImageModal.Lightbox.Resize` | src/components/modals/ImageModal.jsx:12-16 | the resize listener re-reads the mobile flag from the viewport width |
| `ImageModal.Lightbox.OverlayClick` | src/components/modals/ImageModal.jsx:77-85 | an overlay click asks to close iff something is rendered, the viewport is not mobile, and the target is not inside the image, a nav button or the close button |
| `ImageModal.Lightbox.CloseButton` | src/components/modals/ImageModal.jsx:96-102 | the close button asks to close whenever it is rendered |
| `ImageModal.Lightbox.Unmount` | src/components/modals/ImageModal.jsx:49-57 | closing clears the four body styles and restores the scroll offset saved at mount |
| `Gallery.KeyRequest` | src/components/project/SceneDetail.jsx:76-81 | on a focused card, Enter and Space produce exactly the card's click request; other keys produce none |
| `Gallery.LoadFlags.MarkLoaded` | src/components/project/ModelingDetail.jsx:6-8 | `handleImageLoad(key)` sets that key to true and leaves every other key as it was (the same handler in SceneDetail.jsx:7-9 and ProjectDetail.jsx:28-30) |
| `ModelingDetail.Defaults` | src/components/project/ModelingDetail.jsx:10-13 | each absent category is the empty list; a present one is used as is |
| `ModelingDetail.AllImages` | src/components/project/ModelingDetail.jsx:14 | the concatenation's length is the sum of the four category lengths and it starts with the renders |
| `ModelingDetail.RenderRequest` | src/components/project/ModelingDetail.jsx:81 | render card `idx` opens `allImages` in range on the clicked render |
| `ModelingDetail.PaintworkRequest` | src/components/project/ModelingDetail.jsx:130 | paintwork card `idx` opens `allImages` in range on the clicked paintwork image |
| `ModelingDetail.ProgressionRequest` | src/components/project/ModelingDetail.jsx:179 | progression card `idx` opens `allImages` in range on the clicked progression image |
| `ModelingDetail.ReferenceRequest` | src/components/project/ModelingDetail.jsx:228 | reference card `idx` opens `allImages` in range on the clicked reference image |
| `ModelingDetail.Requests` | src/components/project/ModelingDetail.jsx:70-236 | the page has exactly one card request per image of `allImages` (a section with an empty list has no cards) |
| `ModelingDetail.CardOpensOwnImage` | src/components/project/ModelingDetail.jsx:77-234 | the k-th card on the page opens `allImages` at index k, in range |
| `ModelingDetail.CardKeyDown` | src/components/project/ModelingDetail.jsx:84-88 | Enter or Space on the k-th card opens `allImages` at index k, like a click; other keys open nothing |
| `ModelingDetail.RequestsOpenable` | src/components/project/ModelingDetail.jsx:70-236 | every request of the modeling view meets the lightbox's precondition |
| `SceneDetail.Defaults` | src/components/project/SceneDetail.jsx:11-12 | absent `images` and `coolFeatures` are empty lists; present ones are used as is |
| `SceneDetail.GalleryRequest` | src/components/project/SceneDetail.jsx:69-80 | gallery card `idx` opens the gallery in range on the clicked screenshot |
| `SceneDetail.FeatureRequest` | src/components/project/SceneDetail.jsx:126-136 | a feature with a (non-empty) image opens the one-image list `[image]` at 0; a feature without one yields no request |
| `SceneDetail.FeatureRequests` | src/components/project/SceneDetail.jsx:119-136 | the feature cards' requests are one-image and openable, there are no more of them than features, every feature with an image has its request, and every request is that of some feature with an image |
| `SceneDetail.GalleryKeyDown` | src/components/project/SceneDetail.jsx:76-81 | Enter or Space on gallery card `idx` opens the same openable request as clicking it; other keys open nothing |
| `SceneDetail.FeatureKeyDown` | src/components/project/SceneDetail.jsx:132-136 | Enter or Space on a feature image opens the same request as clicking it; nothing for other keys or a feature without an image |
| `SceneDetail.RequestsOpenable` | src/components/project/SceneDetail.jsx:59-136 | every request of the scene view is openable, and with an empty gallery only feature requests exist |
| `ProjectDetail.Dispatch` | src/components/project/ProjectDetail.jsx:9-16 | type `modeling` goes to the modeling view, `scene` to the scene view, anything else (or none) to the game layout |
| `ProjectDetail.Mechanics` | src/components/project/ProjectDetail.jsx:32 | the mechanics are `mechanicsData[id]`, or empty when the id is absent |
| `ProjectDetail.Slice` | src/components/project/ProjectDetail.jsx:37 | `slice(i, i + 2)` clamps its end to the length |
| `ProjectDetail.MechanicPairs` | src/components/project/ProjectDetail.jsx:35-38 | the rows concatenate back to the mechanics list, there are ceil(n/2) of them, each holds 1 or 2 mechanics and only the last may hold 1 |
| `ProjectDetail.TeamCreditFlags` | src/components/project/ProjectDetail.jsx:41-44 | academic iff the id is not `star-wars-scene`; team credit iff the team is exactly `'2'` on an academic project, so never without the academic label |
| `ProjectDetail.BackdropClick` | src/components/project/ProjectDetail.jsx:21-26 | `onBack` runs iff the click target is the backdrop element itself |
| `ProjectDetail.ScreenshotRequest` | src/components/project/ProjectDetail.jsx:127 | screenshot `idx` opens `project.images` in range on the clicked screenshot |
| `ProjectDetail.GameRequests` | src/components/project/ProjectDetail.jsx:118-136 | one request per screenshot; none when the project has no `images` |
| `ProjectDetail.DetailRequestsOpenable` | src/components/project/ProjectDetail.jsx:9-16 | whichever layout renders a project, every request it hands to `onImageClick` meets the lightbox's precondition |

## Left out

- Focus trap (src/components/modals/ImageModal.jsx:33-40): querying the focusable elements and focusing the first is DOM work with no state of the model.
- The `initialIndex = 0` default (src/components/modals/ImageModal.jsx:3) is not modelled: the application always passes the request's index.
- `ImageModal.Lightbox.Mount`: the lock/restore effect depends on `[onClose, total]`, and `onClose` is a new closure on every render of the application, so the effect may clean up and re-run while the lightbox is open; the net result (styles locked, the same scroll offset saved) is what the model keeps, the intermediate steps are not modelled.
- `ImageModal.Lightbox.Mount`: `isMobile` starts `false` and the mount effect sets it from the viewport before any click can arrive; the model sets it at mount.
- `ImageModal.Lightbox.OverlayClick`: the `t.closest &&` guard is not modelled; a click target is always an element, which has `closest`.
- `ImageModal.Page`: the scroll offset is a whole number of pixels (`window.scrollY` may be fractional), and it is not clamped to the page height, which the model does not have. The lightbox's mount effect runs after the detail view has been removed from the page, so the browser may already have clamped `window.scrollY` to the shorter page; on close, `window.scrollTo` runs while the remounted detail view's lazy images are not yet loaded and may be clamped again. While the body is locked (`position: fixed`) the document is no taller than the viewport, so the browser's `window.scrollY` is 0 during the lock, which is why the body is pinned at `-scrollY`px; the model instead keeps `page.scrollY` at the saved offset while the lightbox is open. The model saves the offset as it was at the click and restores exactly that, so for a long detail page scrolled far down the offsets it saves and restores can be larger than the browser's.
- `ProjectDetail.GameRequests`: `project.images.map` on a game project without `images` throws and the error boundary replaces the page; the model says only that no request exists then.
- Each view's `imagesLoaded` object is a `Gallery.LoadFlags` keyed by that view's image keys (`ModelingDetail.ImageKey`, `SceneDetail.ImageKey`, and `nat` for the game layout); the detail views are modelled as functions of the project, so no view holds one, and the reset of the object when a view is remounted is not modelled.
- `Projects.Tab`: the tab is a string in the code, only ever set to `"games"`, `"modeling"` or `"scenes"`; it is an enumeration here, so "anything else" is the scenes tab.
- The browser history stack is not modelled: pushes are an append-only log, and the fragment the browser moves to on back/forward is a parameter of `App.AppState.PopState`.
- Effect ordering and timing: each transition pushes, in order, the entries its handler and the effects it triggers push; when React runs the effects is not modelled.
- The static project data (src/data/projects.js) is the `catalog` argument; `Scenarios` uses the `slingshot` id.
- The error boundary, the animated background, the YouTube URL helper, the navigation bar, the about section and the card components are not part of this model: they are framework plumbing, floating-point animation, a wrapper over the URL parser, or presentational markup whose only links to the core (`goHome`, card click/Enter/Space selecting a project) are modelled above.
