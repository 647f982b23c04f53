/** Whole interactions walked through against the contracts alone, as a client of the model. */
module Scenarios {
  import opened Wrappers
  import opened Gallery
  import opened Projects
  import ProjectDetail
  import ImageModal
  import opened App
  import ModelingDetail
  import SceneDetail

  /** A game project with three screenshots. */
  function Slingshot(): Project {
    Project("slingshot", None, Some("2"), Some(["a.png", "b.png", "c.png"]), None, None, None, None, None)
  }

  /** Select `slingshot`, then go back: the route goes `#slingshot` then `#projects`, and the
      catalog is on the games tab again. */
  method SelectThenBack() {
    var page := new ImageModal.Page(0, ImageModal.Cleared);
    var app := new AppState(Catalog([Slingshot()], [], []), page);
    app.SelectProject(Slingshot());
    assert app.selected == Some(Slingshot()) && app.hash == "#slingshot";
    app.Back();
    assert app.tab == Games && app.selected == None && app.modal == None;
    assert app.hash == "#projects" && app.history[|app.history| - 1] == Entry(Blank, "#projects");
  }

  /** Open the second screenshot, press ArrowRight twice and Escape: the index goes 1, 2, 2; the
      modal closes, the project stays selected and the scroll offset comes back. */
  method ArrowsThenEscape() {
    var page := new ImageModal.Page(300, ImageModal.Cleared);
    var app := new AppState(Catalog([Slingshot()], [], []), page);
    app.SelectProject(Slingshot());
    var req := ProjectDetail.GameRequests(Slingshot())[1];
    assert req == Request(["a.png", "b.png", "c.png"], 1);
    app.OpenImage(req, 1280);
    assert app.lightbox.index == 1 && page.body == ImageModal.Locked(300);
    app.LightboxKey("ArrowRight");
    assert app.lightbox.index == 2;
    app.LightboxKey("ArrowRight");
    assert app.lightbox.index == 2;
    app.LightboxKey("Escape");
    assert app.modal == None && app.selected == Some(Slingshot());
    assert page.scrollY == 300 && page.body == ImageModal.Cleared;
  }

  /** A lightbox mounted on an empty list renders nothing, but its key listener is installed:
      ArrowRight computes `Math.min(0 + 1, -1)`. */
  method EmptyLightbox() {
    var page := new ImageModal.Page(0, ImageModal.Cleared);
    var lb := new ImageModal.Lightbox.Mount([], 0, 1280, page);
    assert !lb.Rendered();
    var close := lb.HandleKey("ArrowRight");
    assert lb.index == -1 && !close;
    lb.ImageClick();
    assert !lb.isZoomed;
  }

  /** On a mobile viewport a click on the overlay leaves the modal open and the page locked;
      popping the history then closes the modal and restores the scroll, keeping the project. */
  method MobileOverlayThenPop() {
    var page := new ImageModal.Page(120, ImageModal.Cleared);
    var app := new AppState(Catalog([Slingshot()], [], []), page);
    app.SelectProject(Slingshot());
    var req := ProjectDetail.GameRequests(Slingshot())[0];
    app.OpenImage(req, 400);
    assert app.lightbox.isMobile;
    var m := app.modal;
    app.LightboxOverlayClick([{"image-modal"}]);
    assert app.modal == m && page.body == ImageModal.Locked(120);
    app.PopState("#slingshot");
    assert app.modal == None && app.selected == Some(Slingshot());
    assert page.scrollY == 120 && page.body == ImageModal.Cleared;
  }

  /** Each view's `imagesLoaded` object, keyed by that view's image keys: marking one image
      loaded leaves the others, in any section, not loaded. */
  method LoadFlagsPerKey() {
    var modeling := new LoadFlags<ModelingDetail.ImageKey>();
    modeling.MarkLoaded(ModelingDetail.Render(0));
    assert modeling.IsLoaded(ModelingDetail.Render(0));
    assert !modeling.IsLoaded(ModelingDetail.Paint(0)) && !modeling.IsLoaded(ModelingDetail.Render(1));
    var scene := new LoadFlags<SceneDetail.ImageKey>();
    scene.MarkLoaded(SceneDetail.FeatureImg(2));
    assert !scene.IsLoaded(SceneDetail.Img(2));
    var game := new LoadFlags<nat>();
    game.MarkLoaded(3);
    game.MarkLoaded(3);
    assert game.IsLoaded(3) && !game.IsLoaded(0);
  }
}
