/** The lightbox: one image of a list at a time, clamped arrow-key navigation, cyclic
    previous/next functions behind buttons that are disabled at the ends, click-to-zoom,
    and the page scroll lock held while it is open. */
module ImageModal {
  import opened Gallery

  /** Viewports at most this wide (in CSS pixels) count as mobile. */
  const MobileMaxWidth := 768

  /** The four inline styles of `document.body` the lightbox sets and clears. */
  datatype BodyStyle = BodyStyle(overflow: string, position: string, top: string, width: string)

  /** All four style fields set to the empty string. */
  const Cleared := BodyStyle("", "", "", "")

  function Digit(d: nat): char
    requires d < 10
  {
    "0123456789"[d]
  }

  /** The decimal text of `n`, as a template literal prints it. */
  function Decimal(n: nat): (s: string)
    ensures |s| >= 1
  {
    if n < 10 then [Digit(n)] else Decimal(n / 10) + [Digit(n % 10)]
  }

  /** The body style while the lightbox is open: scrolling off, body pinned at `-scrollY`px. */
  function Locked(scrollY: nat): BodyStyle {
    BodyStyle("hidden", "fixed", "-" + Decimal(scrollY) + "px", "100%")
  }

  /** The window: its vertical scroll offset and the body's inline style. */
  class Page {
    var scrollY: nat
    var body: BodyStyle

    constructor (scrollY: nat, body: BodyStyle)
      ensures this.scrollY == scrollY && this.body == body
    {
      this.scrollY := scrollY;
      this.body := body;
    }
  }

  function Min(a: int, b: int): int { if a <= b then a else b }
  function Max(a: int, b: int): int { if a >= b then a else b }

  /** ArrowRight: `Math.min(i + 1, total - 1)`. From an index in range it moves one step
      right, saturating at the last image. */
  function ArrowRightIndex(i: int, total: int): (r: int)
    ensures r <= total - 1
    ensures 0 <= i < total ==> 0 <= r < total && r == (if i == total - 1 then i else i + 1)
  {
    Min(i + 1, total - 1)
  }

  /** ArrowLeft: `Math.max(i - 1, 0)`. It moves one step left, saturating at the first image. */
  function ArrowLeftIndex(i: int): (r: int)
    ensures r >= 0
    ensures 0 <= i ==> r == (if i == 0 then 0 else i - 1)
  {
    Max(i - 1, 0)
  }

  /** `x % total` for x in [0, 2 * total): x itself or one period less. */
  lemma ModOfRange(x: int, n: int)
    ensures 0 < n && 0 <= x < 2 * n ==> x % n == if x < n then x else x - n
  {
    if n <= 0 || x < 0 || x >= 2 * n {
    } else if x < n {
      assert x == 0 * n + x;
    } else {
      assert x == 1 * n + (x - n);
    }
  }

  /** JavaScript's `%`: the remainder of a division truncated toward zero (its sign is the
      dividend's), unlike Dafny's Euclidean `%`. */
  function JsRem(a: int, b: int): (r: int)
    requires b != 0
    ensures a >= 0 && b > 0 ==> r == a % b
    ensures a >= 0 ==> 0 <= r
    ensures a <= 0 ==> r <= 0
  {
    if a >= 0 then a % b else -((-a) % b)
  }

  /** `next`: `(i + 1) % total`. From an index in range it moves right, wrapping from the last
      image to the first. */
  function NextIndex(i: int, total: int): (r: int)
    requires total > 0
    ensures 0 <= i < total ==> 0 <= r < total && r == (if i == total - 1 then 0 else i + 1)
  {
    ModOfRange(i + 1, total);
    JsRem(i + 1, total)
  }

  /** `prev`: `(i - 1 + total) % total`. From an index in range it moves left, wrapping from the
      first image to the last. */
  function PrevIndex(i: int, total: int): (r: int)
    requires total > 0
    ensures 0 <= i < total ==> 0 <= r < total && r == (if i == 0 then total - 1 else i - 1)
  {
    ModOfRange(i - 1 + total, total);
    JsRem(i - 1 + total, total)
  }

  /** `prev` undoes `next` and `next` undoes `prev`. */
  lemma PrevNextInverse(i: int, total: int)
    requires 0 <= i < total
    ensures PrevIndex(NextIndex(i, total), total) == i
    ensures NextIndex(PrevIndex(i, total), total) == i
  {
  }

  /** `next` applied k times. */
  function NextIterate(i: int, k: nat, total: int): int
    requires total > 0
  {
    if k == 0 then i else NextIndex(NextIterate(i, k - 1, total), total)
  }

  /** `prev` applied k times. */
  function PrevIterate(i: int, k: nat, total: int): int
    requires total > 0
  {
    if k == 0 then i else PrevIndex(PrevIterate(i, k - 1, total), total)
  }

  /** k applications of `next`, for k up to total, land k places to the right, modulo total. */
  lemma {:induction false} NextIterateSteps(i: int, k: nat, total: int)
    requires 0 <= i < total && k <= total
    ensures NextIterate(i, k, total) == if i + k < total then i + k else i + k - total
  {
    if k > 0 {
      NextIterateSteps(i, k - 1, total);
    }
  }

  /** k applications of `prev`, for k up to total, land k places to the left, modulo total. */
  lemma {:induction false} PrevIterateSteps(i: int, k: nat, total: int)
    requires 0 <= i < total && k <= total
    ensures PrevIterate(i, k, total) == if i - k >= 0 then i - k else i - k + total
  {
    if k > 0 {
      PrevIterateSteps(i, k - 1, total);
    }
  }

  /** `total` applications of either `next` or `prev` return to the start. */
  lemma FullCycle(i: int, total: int)
    requires 0 <= i < total
    ensures NextIterate(i, total, total) == i
    ensures PrevIterate(i, total, total) == i
  {
    NextIterateSteps(i, total, total);
    PrevIterateSteps(i, total, total);
  }

  /** `el.closest(sel)` for a class selector: does the target, or one of its ancestors, carry
      the class? `chain` lists the class sets from the target up to the root. */
  predicate Closest(chain: seq<set<string>>, cls: string) {
    exists k | 0 <= k < |chain| :: cls in chain[k]
  }

  /** One mounted lightbox. `images` and the page are fixed for its lifetime. */
  class Lightbox {
    const images: seq<Url>
    const page: Page
    /** The window's scroll offset when the lightbox was mounted. */
    const savedScroll: nat
    var index: int
    var imageLoaded: bool
    var isZoomed: bool
    var isMobile: bool

    function Total(): nat { |images| }

    /** With no images the component renders nothing: no image, buttons or overlay exist. */
    predicate Rendered() { |images| > 0 }

    /** The controller invariant `0 <= index < total` (which also makes total at least 1). */
    predicate InRange()
      reads this
    {
      0 <= index < |images|
    }

    /** Mounting: the index starts at `initialIndex`, nothing is loaded or zoomed, the mobile
        flag is read from the viewport width, and the page scroll is saved and locked. */
    constructor Mount(images: seq<Url>, initialIndex: int, viewportWidth: int, page: Page)
      modifies page
      ensures this.images == images && this.page == page
      ensures index == initialIndex && !imageLoaded && !isZoomed
      ensures isMobile == (viewportWidth <= MobileMaxWidth)
      ensures savedScroll == old(page.scrollY)
      ensures page.scrollY == old(page.scrollY) && page.body == Locked(old(page.scrollY))
      ensures InRange() <==> 0 <= initialIndex < |images|
    {
      this.images := images;
      this.page := page;
      savedScroll := page.scrollY;
      index := initialIndex;
      imageLoaded := false;
      isZoomed := false;
      isMobile := viewportWidth <= MobileMaxWidth;
      new;
      page.body := Locked(savedScroll);
    }

    /** `setIndex(i)` followed by the effect on `[index]`: a change of index clears the zoom
        and the loaded flag; setting the same index changes nothing. */
    method SetIndex(i: int)
      modifies this
      ensures index == i && isMobile == old(isMobile)
      ensures i != old(index) ==> !imageLoaded && !isZoomed
      ensures i == old(index) ==> imageLoaded == old(imageLoaded) && isZoomed == old(isZoomed)
    {
      if i != index {
        index := i;
        imageLoaded := false;
        isZoomed := false;
      }
    }

    /** The window `keydown` listener (installed even when nothing is rendered). Escape asks
        the owner to close and leaves the index alone; the arrows move with saturation. */
    method HandleKey(key: string) returns (close: bool)
      modifies this
      ensures close <==> key == "Escape"
      ensures index == (if key == "ArrowRight" then ArrowRightIndex(old(index), Total())
                        else if key == "ArrowLeft" then ArrowLeftIndex(old(index))
                        else old(index))
      ensures index != old(index) ==> !imageLoaded && !isZoomed
      ensures index == old(index) ==> imageLoaded == old(imageLoaded) && isZoomed == old(isZoomed)
      ensures isMobile == old(isMobile)
      ensures old(InRange()) ==> InRange()
    {
      close := key == "Escape";
      if key == "ArrowRight" {
        SetIndex(ArrowRightIndex(index, Total()));
      }
      if key == "ArrowLeft" {
        SetIndex(ArrowLeftIndex(index));
      }
    }

    /** The previous-image button: disabled at index 0, otherwise `prev`. Through the button
        the cyclic `prev` never wraps. */
    method PrevButton()
      modifies this
      ensures index == (if Rendered() && old(index) != 0 then PrevIndex(old(index), Total()) else old(index))
      ensures old(InRange()) ==> InRange() && index == (if old(index) == 0 then 0 else old(index) - 1)
      ensures index != old(index) ==> !imageLoaded && !isZoomed
      ensures index == old(index) ==> imageLoaded == old(imageLoaded) && isZoomed == old(isZoomed)
      ensures isMobile == old(isMobile)
    {
      if Rendered() && index != 0 {
        SetIndex(PrevIndex(index, Total()));
      }
    }

    /** The next-image button: disabled at index total - 1, otherwise `next`. Through the
        button the cyclic `next` never wraps. */
    method NextButton()
      modifies this
      ensures index == (if Rendered() && old(index) != Total() - 1 then NextIndex(old(index), Total()) else old(index))
      ensures old(InRange()) ==> InRange() && index == (if old(index) == Total() - 1 then old(index) else old(index) + 1)
      ensures index != old(index) ==> !imageLoaded && !isZoomed
      ensures index == old(index) ==> imageLoaded == old(imageLoaded) && isZoomed == old(isZoomed)
      ensures isMobile == old(isMobile)
    {
      if Rendered() && index != Total() - 1 {
        SetIndex(NextIndex(index, Total()));
      }
    }

    /** Clicking the image toggles zoom and nothing else. */
    method ImageClick()
      modifies this
      ensures isZoomed == (if Rendered() then !old(isZoomed) else old(isZoomed))
      ensures index == old(index) && imageLoaded == old(imageLoaded) && isMobile == old(isMobile)
    {
      if Rendered() {
        isZoomed := !isZoomed;
      }
    }

    /** The image's `onLoad`: the current image is now shown. */
    method ImageLoad()
      modifies this
      ensures imageLoaded == (Rendered() || old(imageLoaded))
      ensures index == old(index) && isZoomed == old(isZoomed) && isMobile == old(isMobile)
    {
      if Rendered() {
        imageLoaded := true;
      }
    }

    /** The window `resize` listener re-reads the mobile flag. */
    method Resize(viewportWidth: int)
      modifies this
      ensures isMobile == (viewportWidth <= MobileMaxWidth)
      ensures index == old(index) && isZoomed == old(isZoomed) && imageLoaded == old(imageLoaded)
    {
      isMobile := viewportWidth <= MobileMaxWidth;
    }

    /** A click that reaches the overlay asks to close only on a non-mobile viewport and only
        when it did not land inside the image, a navigation button or the close button. */
    method OverlayClick(target: seq<set<string>>) returns (close: bool)
      ensures close <==> Rendered() && !isMobile
                         && !Closest(target, "modal-image")
                         && !Closest(target, "modal-nav-btn")
                         && !Closest(target, "modal-close-btn")
      ensures close ==> !Closest(target, "modal-image")
    {
      if !Rendered() || isMobile {
        return false;
      }
      if Closest(target, "modal-image") || Closest(target, "modal-nav-btn") || Closest(target, "modal-close-btn") {
        return false;
      }
      close := true;
    }

    /** The close button asks to close (whenever it exists). */
    method CloseButton() returns (close: bool)
      ensures close == Rendered()
    {
      close := Rendered();
    }

    /** Unmounting: the four body styles are cleared and the scroll saved at mount is restored. */
    method Unmount()
      modifies page
      ensures page.body == Cleared && page.scrollY == savedScroll
    {
      page.body := Cleared;
      page.scrollY := savedScroll;
    }
  }
}
