/**
 * The lightbox of backend/static/js/lightbox.js (and its copy in
 * frontend/script.js): opening at a position, cyclic previous/next with
 * JavaScript's remainder, and the display of the current image.
 */
module Lightbox {
  import opened Wrappers
  import opened State
  import Js
  import Ui

  /** `(i + 1) % n`; a remainder by zero is NaN, and NaN stays NaN. */
  function Next(i: LightboxIndex, n: nat): (r: LightboxIndex)
    ensures r.NaN? <==> i.NaN? || n == 0
    ensures i.At? && 0 <= i.i < n ==> 0 <= r.i < n
  {
    match i
    case NaN => NaN
    case At(k) => if n == 0 then NaN else At(Js.Rem(k + 1, n))
  }

  /** `(i - 1 + n) % n`. */
  function Previous(i: LightboxIndex, n: nat): (r: LightboxIndex)
    ensures r.NaN? <==> i.NaN? || n == 0
    ensures i.At? && 0 <= i.i < n ==> 0 <= r.i < n
  {
    match i
    case NaN => NaN
    case At(k) => if n == 0 then NaN else At(Js.Rem(k - 1 + n, n))
  }

  /** The remainder is the unique r in [0, n) with a == q * n + r. */
  lemma ModUnique(a: int, n: int, q: int, r: int)
    requires n > 0 && 0 <= r < n && a == q * n + r
    ensures a % n == r
  {
    var q' := a / n;
    var r' := a % n;
    assert a == q' * n + r';
    var d := q - q';
    assert d * n == r' - r by {
      assert q * n - q' * n == (q - q') * n;
    }
    if d >= 1 {
      MulAtLeast(d, n);
    } else if d <= -1 {
      MulAtLeast(-d, n);
    }
    assert d == 0;
  }

  lemma MulAtLeast(d: int, n: int)
    requires d >= 1 && n > 0
    ensures d * n >= n
  {
    assert d * n == (d - 1) * n + n;
  }

  /** Taking the remainder before adding one changes nothing. */
  lemma ModSucc(a: int, n: int)
    requires a >= 0 && n > 0
    ensures (a % n + 1) % n == (a + 1) % n
  {
    var q := a / n;
    var r := a % n;
    assert a == q * n + r;
    if r + 1 < n {
      ModUnique(a + 1, n, q, r + 1);
      ModUnique(r + 1, n, 0, r + 1);
    } else {
      ModUnique(a + 1, n, q + 1, 0);
      ModUnique(r + 1, n, 1, 0);
    }
  }

  /** Both steps keep a valid position valid: next is (i + 1) mod n, previous is (i - 1 + n) mod n. */
  lemma StepsStayInRange(k: int, n: nat)
    requires 0 <= k < n
    ensures Next(At(k), n) == At(if k == n - 1 then 0 else k + 1)
    ensures Previous(At(k), n) == At(if k == 0 then n - 1 else k - 1)
  {
    if k == n - 1 {
      ModUnique(k + 1, n, 1, 0);
    } else {
      ModUnique(k + 1, n, 0, k + 1);
    }
    if k == 0 {
      ModUnique(k - 1 + n, n, 0, n - 1);
    } else {
      ModUnique(k - 1 + n, n, 1, k - 1);
    }
  }

  /** Next then previous, and previous then next, come back to the same position. */
  lemma StepsAreInverse(k: int, n: nat)
    requires 0 <= k < n
    ensures Previous(Next(At(k), n), n) == At(k)
    ensures Next(Previous(At(k), n), n) == At(k)
  {
    StepsStayInRange(k, n);
    StepsStayInRange(if k == n - 1 then 0 else k + 1, n);
    StepsStayInRange(if k == 0 then n - 1 else k - 1, n);
  }

  /** The index after `steps` presses of next. */
  function NextN(i: LightboxIndex, n: nat, steps: nat): LightboxIndex
  {
    if steps == 0 then i else Next(NextN(i, n, steps - 1), n)
  }

  /** `steps` presses of next advance by `steps` positions modulo n. */
  lemma {:induction false} NextNAdvances(k: int, n: nat, steps: nat)
    requires 0 <= k < n
    ensures NextN(At(k), n, steps) == At((k + steps) % n)
  {
    if steps > 0 {
      NextNAdvances(k, n, steps - 1);
      var j := (k + steps - 1) % n;
      assert NextN(At(k), n, steps) == Next(At(j), n);
      assert Next(At(j), n) == At((j + 1) % n);
      ModSucc(k + steps - 1, n);
    }
  }

  /** n presses of next return to the start. */
  lemma FullCycleReturns(k: int, n: nat)
    requires 0 <= k < n
    ensures NextN(At(k), n, n) == At(k)
  {
    NextNAdvances(k, n, n);
    ModUnique(k + n, n, 1, k);
  }

  /**
   * What `updateLightboxImage` displays: nothing when the index names no
   * entry; otherwise the entry's overlay if it has one, else its data URL,
   * the counter "(i + 1) / n", and the prev/next buttons when n > 1.
   */
  function View(files: seq<ImageRecord>, i: LightboxIndex): Option<Ui.LightboxView>
  {
    if i.At? && 0 <= i.i < |files|
    then Some(Ui.LightboxView(Ui.Display(files[i.i]), i.i + 1, |files|, |files| > 1))
    else None
  }

  /**
   * Browsing from a shown image always shows an image again: the counter
   * wraps from n back to 1 (and from 1 to n), and the navigation buttons
   * appear exactly when there is more than one image.
   */
  lemma BrowsingKeepsShowing(files: seq<ImageRecord>, k: int)
    requires 0 <= k < |files|
    ensures View(files, Next(At(k), |files|)).Some?
    ensures View(files, Next(At(k), |files|)).value.position == (if k == |files| - 1 then 1 else k + 2)
    ensures View(files, Previous(At(k), |files|)).Some?
    ensures View(files, Previous(At(k), |files|)).value.position == (if k == 0 then |files| else k)
    ensures View(files, At(k)).value.navVisible <==> |files| > 1
    ensures View(files, At(k)).value.image.Rendered? <==> files[k].previewImage.Some?
  {
    StepsStayInRange(k, |files|);
  }

  /** `updateLightboxImage()`: shows the current entry, or does nothing when the index names none. */
  method UpdateLightboxImage(s: AppState, page: Ui.Page)
    modifies page`lightbox
    ensures var view := View(s.Files(), s.currentLightboxIndex);
      page.lightbox == if view.Some? then view else old(page.lightbox)
  {
    var n := |s.uploadedFiles.items|;
    if s.currentLightboxIndex.NaN? || !(0 <= s.currentLightboxIndex.i < n) {
      return;
    }
    var k := s.currentLightboxIndex.i;
    var imageObj := s.uploadedFiles.items[k];
    var image := if imageObj.previewImage.Some? then Ui.Rendered(imageObj.previewImage.value) else Ui.Encoded(imageObj.dataUrl);
    page.lightbox := Some(Ui.LightboxView(image, k + 1, n, n > 1));
  }

  /**
   * `openLightbox(index)`: nothing on an empty list; otherwise the index is
   * taken as given and the modal opens (still showing the previous picture
   * if the index names no entry).
   */
  method OpenLightbox(s: AppState, page: Ui.Page, index: int)
    modifies s`currentLightboxIndex, page`lightbox, page`lightboxActive
    ensures |s.uploadedFiles.items| == 0 ==> s.currentLightboxIndex == old(s.currentLightboxIndex) && unchanged(page)
    ensures |s.uploadedFiles.items| > 0 ==>
      && s.currentLightboxIndex == At(index)
      && page.lightboxActive
      && page.lightbox == (var view := View(s.Files(), At(index)); if view.Some? then view else old(page.lightbox))
  {
    if |s.uploadedFiles.items| == 0 {
      return;
    }
    s.currentLightboxIndex := At(index);
    UpdateLightboxImage(s, page);
    page.lightboxActive := true;
  }

  method CloseLightbox(page: Ui.Page)
    modifies page`lightboxActive
    ensures !page.lightboxActive
  {
    page.lightboxActive := false;
  }

  /** `showPreviousImage()`. */
  method ShowPreviousImage(s: AppState, page: Ui.Page)
    modifies s`currentLightboxIndex, page`lightbox
    ensures s.currentLightboxIndex == Previous(old(s.currentLightboxIndex), |s.uploadedFiles.items|)
    ensures var view := View(s.Files(), s.currentLightboxIndex);
      page.lightbox == if view.Some? then view else old(page.lightbox)
  {
    var n := |s.uploadedFiles.items|;
    s.currentLightboxIndex := Previous(s.currentLightboxIndex, n);
    UpdateLightboxImage(s, page);
  }

  /** `showNextImage()`. */
  method ShowNextImage(s: AppState, page: Ui.Page)
    modifies s`currentLightboxIndex, page`lightbox
    ensures s.currentLightboxIndex == Next(old(s.currentLightboxIndex), |s.uploadedFiles.items|)
    ensures var view := View(s.Files(), s.currentLightboxIndex);
      page.lightbox == if view.Some? then view else old(page.lightbox)
  {
    var n := |s.uploadedFiles.items|;
    s.currentLightboxIndex := Next(s.currentLightboxIndex, n);
    UpdateLightboxImage(s, page);
  }
}
