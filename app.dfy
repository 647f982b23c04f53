/** The application root: the active tab, the selected project, the open lightbox request,
    and the entries pushed onto the browser history as these change. */
module App {
  import opened Wrappers
  import opened Gallery
  import opened Projects
  import ProjectDetail
  import ImageModal

  /** The state object of a pushed history entry: `{}`, `{project: id}` or `{modal: true}`. */
  datatype EntryState = Blank | ProjectEntry(id: string) | ModalMarker

  /** A pushed history entry: its state object and the URL fragment it sets. */
  datatype Entry = Entry(state: EntryState, hash: string)

  /** The fragment of the catalog view. */
  const CatalogHash := "#projects"

  /** The fragment of a project's detail view. */
  function DetailHash(id: string): (h: string)
    ensures |h| == |id| + 1 && h[0] == '#' && h[1..] == id
  {
    "#" + id
  }

  /** The entry the effect on `[selected]` pushes, if any: the project entry when a project is
      selected, the catalog entry when none is and no modal is open, otherwise nothing. */
  function SelectionEntry(selected: Option<Project>, modal: Option<Request>): (e: Option<Entry>)
    ensures selected.Some? ==> e == Some(Entry(ProjectEntry(selected.value.id), DetailHash(selected.value.id)))
    ensures selected.None? && modal.None? ==> e == Some(Entry(Blank, CatalogHash))
    ensures selected.None? && modal.Some? ==> e == None
  {
    if selected.Some? then Some(Entry(ProjectEntry(selected.value.id), DetailHash(selected.value.id)))
    else if modal.None? then Some(Entry(Blank, CatalogHash))
    else None
  }

  class AppState {
    /** The three exported project lists. */
    const catalog: Catalog
    /** The window the lightbox locks and restores. */
    const page: ImageModal.Page
    var tab: Tab
    var selected: Option<Project>
    var modal: Option<Request>
    /** The mounted lightbox, present exactly while `modal` is. */
    var lightbox: ImageModal.Lightbox?
    /** `window.location.hash`. */
    var hash: string
    /** Every entry pushed so far, oldest first. */
    var history: seq<Entry>

    /** The reachable states: a modal only over a selected project, a selected project only
        from the current tab's list, and the mounted lightbox showing the modal's images with
        an index in range on this page. */
    ghost predicate Valid()
      reads this, lightbox
    {
      && (modal.Some? ==> selected.Some?)
      && (selected.Some? ==> selected.value in Visible(catalog, tab))
      && (modal.Some? <==> lightbox != null)
      && (modal.Some? ==>
            && Openable(modal.value)
            && lightbox.images == modal.value.images
            && lightbox.page == page
            && lightbox.InRange())
    }

    /** First render: the games tab, nothing selected, no modal; the mount run of the effect on
        `[selected]` pushes the catalog entry. */
    constructor (catalog: Catalog, page: ImageModal.Page)
      ensures Valid()
      ensures this.catalog == catalog && this.page == page
      ensures tab == Games && selected == None && modal == None
      ensures history == [Entry(Blank, CatalogHash)] && hash == CatalogHash
    {
      this.catalog := catalog;
      this.page := page;
      tab := Games;
      selected := None;
      modal := None;
      lightbox := null;
      history := [Entry(Blank, CatalogHash)];
      hash := CatalogHash;
    }

    /** Appends an entry and moves the fragment to it (`history.pushState`). */
    method Push(e: Entry)
      modifies this`history, this`hash
      ensures history == old(history) + [e] && hash == e.hash
    {
      history := history + [e];
      hash := e.hash;
    }

    /** A tab button (rendered only while nothing is selected): changes the tab and nothing else. */
    method SelectTab(t: Tab)
      requires Valid() && selected.None?
      modifies this`tab
      ensures Valid()
      ensures tab == t
    {
      tab := t;
    }

    /** A catalog card (rendered only while nothing is selected, one per visible project):
        selects the project; the effect on `[selected]` pushes `{project: id}` at `#id`. */
    method SelectProject(p: Project)
      requires Valid() && selected.None? && p in Visible(catalog, tab)
      modifies this`selected, this`history, this`hash
      ensures Valid()
      ensures selected == Some(p)
      ensures history == old(history) + [Entry(ProjectEntry(p.id), DetailHash(p.id))]
      ensures hash == DetailHash(p.id)
    {
      selected := Some(p);
      Push(SelectionEntry(selected, modal).value);
    }

    /** The detail view's back button (the detail view is rendered only while a project is
        selected and no modal is open): clears the selection, keeping the tab; the effect on
        `[selected]` pushes `{}` at `#projects`. */
    method Back()
      requires Valid() && selected.Some? && modal.None?
      modifies this`selected, this`history, this`hash
      ensures Valid()
      ensures selected == None
      ensures history == old(history) + [Entry(Blank, CatalogHash)] && hash == CatalogHash
    {
      selected := None;
      Push(SelectionEntry(selected, modal).value);
    }

    /** `onImageClick(images, idx)` from the detail view: opens the modal, mounting the
        lightbox; the effect on `[modal]` pushes `{modal: true}` at the current fragment, so
        the visible route does not change. */
    method OpenImage(req: Request, viewportWidth: int)
      requires Valid() && selected.Some? && modal.None?
      requires req in ProjectDetail.DetailRequests(selected.value)
      modifies this`modal, this`lightbox, this`history, this`hash, page
      ensures Valid()
      ensures modal == Some(req) && selected == old(selected) && tab == old(tab)
      ensures history == old(history) + [Entry(ModalMarker, old(hash))] && hash == old(hash)
      ensures fresh(lightbox) && lightbox.index == req.index
      ensures lightbox.isMobile == (viewportWidth <= ImageModal.MobileMaxWidth)
      ensures !lightbox.isZoomed && !lightbox.imageLoaded
      ensures lightbox.savedScroll == old(page.scrollY) && page.scrollY == old(page.scrollY)
      ensures page.body == ImageModal.Locked(old(page.scrollY))
    {
      ProjectDetail.DetailRequestsOpenable(selected.value);
      modal := Some(req);
      lightbox := new ImageModal.Lightbox.Mount(req.images, req.index, viewportWidth, page);
      Push(Entry(ModalMarker, hash));
    }

    /** `onClose` (Escape, the close button or an allowed overlay click): closes the modal,
        unmounting the lightbox, which clears the body styles and restores the scroll. The
        selection, the tab and the history are untouched. */
    method CloseImage()
      requires Valid() && modal.Some?
      modifies this`modal, this`lightbox, page
      ensures Valid()
      ensures modal == None && lightbox == null
      ensures page.body == ImageModal.Cleared && page.scrollY == old(lightbox.savedScroll)
    {
      lightbox.Unmount();
      modal := None;
      lightbox := null;
    }

    /** A key press while the modal is open, routed to the lightbox; Escape closes the modal. */
    method LightboxKey(key: string)
      requires Valid() && modal.Some?
      modifies this`modal, this`lightbox, lightbox, page
      ensures Valid()
      ensures selected == old(selected) && tab == old(tab)
      ensures key == "Escape" ==> modal == None && page.scrollY == old(lightbox.savedScroll) && page.body == ImageModal.Cleared
      ensures key != "Escape" ==> modal == old(modal) && lightbox == old(lightbox)
      ensures key != "Escape" ==> lightbox.index == (if key == "ArrowRight" then ImageModal.ArrowRightIndex(old(lightbox.index), |old(modal).value.images|)
                                                     else if key == "ArrowLeft" then ImageModal.ArrowLeftIndex(old(lightbox.index))
                                                     else old(lightbox.index))
      ensures key != "Escape" ==> page.scrollY == old(page.scrollY) && page.body == old(page.body)
      ensures key != "Escape" ==> lightbox.isMobile == old(lightbox.isMobile)
      ensures key != "Escape" && lightbox.index != old(lightbox.index) ==> !lightbox.isZoomed && !lightbox.imageLoaded
      ensures key != "Escape" && lightbox.index == old(lightbox.index) ==>
                lightbox.isZoomed == old(lightbox.isZoomed) && lightbox.imageLoaded == old(lightbox.imageLoaded)
    {
      var close := lightbox.HandleKey(key);
      if close {
        CloseImage();
      }
    }

    /** A click that reaches the lightbox overlay; when the lightbox asks to close, `onClose`
        closes the modal. */
    method LightboxOverlayClick(target: seq<set<string>>)
      requires Valid() && modal.Some?
      modifies this`modal, this`lightbox, page
      ensures Valid()
      ensures selected == old(selected) && tab == old(tab)
      ensures modal == None <==> !old(lightbox.isMobile)
                                 && !ImageModal.Closest(target, "modal-image")
                                 && !ImageModal.Closest(target, "modal-nav-btn")
                                 && !ImageModal.Closest(target, "modal-close-btn")
      ensures modal.Some? ==> modal == old(modal) && lightbox == old(lightbox)
                              && page.scrollY == old(page.scrollY) && page.body == old(page.body)
      ensures modal.None? ==> page.body == ImageModal.Cleared && page.scrollY == old(lightbox.savedScroll)
    {
      var close := lightbox.OverlayClick(target);
      if close {
        CloseImage();
      }
    }

    /** `popstate`: whichever entry was popped, close the modal if one is open, otherwise clear
        the selection if there is one, otherwise do nothing. The tab is never touched. Clearing
        the selection makes the effect on `[selected]` push `{}` at `#projects`. The fragment
        first becomes that of the entry the browser moved to, `arrivedHash`. */
    method PopState(arrivedHash: string)
      requires Valid()
      modifies this`modal, this`lightbox, this`selected, this`history, this`hash, page
      ensures Valid()
      ensures tab == old(tab)
      ensures old(modal).Some? ==> modal == None && selected == old(selected)
                                   && history == old(history) && hash == arrivedHash
      ensures old(modal).None? && old(selected).Some? ==>
                modal == None && selected == None
                && history == old(history) + [Entry(Blank, CatalogHash)] && hash == CatalogHash
      ensures old(modal).None? && old(selected).None? ==>
                modal == None && selected == None && history == old(history) && hash == arrivedHash
      ensures old(modal).Some? ==> page.body == ImageModal.Cleared && page.scrollY == old(lightbox.savedScroll)
      ensures old(modal).None? ==> page.scrollY == old(page.scrollY) && page.body == old(page.body)
    {
      hash := arrivedHash;
      if modal.Some? {
        CloseImage();
      } else if selected.Some? {
        selected := None;
        Push(SelectionEntry(selected, modal).value);
      }
    }

    /** The logo / home link: games tab, nothing selected, no modal, and a `{}` entry at
        `#projects`. When a project was selected, the effect on `[selected]` then pushes a
        second, identical entry. */
    method GoHome()
      requires Valid()
      modifies this`tab, this`modal, this`lightbox, this`selected, this`history, this`hash, page
      ensures Valid()
      ensures tab == Games && selected == None && modal == None && hash == CatalogHash
      ensures old(selected).None? ==> history == old(history) + [Entry(Blank, CatalogHash)]
      ensures old(selected).Some? ==> history == old(history) + [Entry(Blank, CatalogHash), Entry(Blank, CatalogHash)]
      ensures old(modal).Some? ==> page.body == ImageModal.Cleared && page.scrollY == old(lightbox.savedScroll)
      ensures old(modal).None? ==> page.scrollY == old(page.scrollY) && page.body == old(page.body)
    {
      if modal.Some? {
        CloseImage();
      }
      var wasSelected := selected.Some?;
      tab := Games;
      selected := None;
      Push(Entry(Blank, CatalogHash));
      if wasSelected {
        Push(SelectionEntry(selected, modal).value);
      }
    }
  }
}
