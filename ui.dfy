/**
 * The page elements the core reads and writes: the preview tiles, the output
 * grid, the buttons' flags, the placeholder texts and the lightbox. The flag
 * setters are those of backend/static/js/ui.js.
 */
module Ui {
  import opened Wrappers
  import Canvas
  import State

  /** What an `<img>` shows: a stored data URL, or a rendered overlay. */
  datatype Picture = Encoded(dataUrl: string) | Rendered(png: Canvas.Png)

  /** A preview tile: its `data-file-index` and the picture its image shows. */
  datatype Tile = Tile(fileIndex: nat, src: Picture)

  /** What the open lightbox displays: the picture, the counter "position / total", and whether prev/next are shown. */
  datatype LightboxView = LightboxView(image: Picture, position: int, total: nat, navVisible: bool)

  /** The picture that stands for a staged image: its overlay when it has one, otherwise its data URL. */
  function Display(r: State.ImageRecord): (p: Picture)
    ensures p.Rendered? <==> r.previewImage.Some?
  {
    if r.previewImage.Some? then Rendered(r.previewImage.value) else Encoded(r.dataUrl)
  }

  class Page {
    /** Whether `#image-preview-grid` and `#output-preview-grid` exist, and whether `#download-button` does. */
    const hasGrids: bool
    const hasDownloadButton: bool

    var tiles: seq<Tile>
    var outputTiles: nat
    var downloadDisabled: bool
    var previewDisabled: bool
    var deleteAllVisible: bool
    var inputPlaceholderShown: bool
    var outputPlaceholderShown: bool
    var lightboxActive: bool
    var lightbox: Option<LightboxView>

    /** An empty page, as before the first render. */
    constructor (hasGrids: bool, hasDownloadButton: bool)
      ensures this.hasGrids == hasGrids && this.hasDownloadButton == hasDownloadButton
      ensures tiles == [] && outputTiles == 0 && !lightboxActive && lightbox.None?
    {
      this.hasGrids := hasGrids;
      this.hasDownloadButton := hasDownloadButton;
      tiles := [];
      outputTiles := 0;
      downloadDisabled := true;
      previewDisabled := true;
      deleteAllVisible := false;
      inputPlaceholderShown := true;
      outputPlaceholderShown := true;
      lightboxActive := false;
      lightbox := None;
    }

    /** `updateDeleteAllButtonVisibility()`: visible iff there is at least one staged image. */
    method UpdateDeleteAllButtonVisibility(count: nat)
      modifies this`deleteAllVisible
      ensures deleteAllVisible <==> count > 0
    {
      deleteAllVisible := count > 0;
    }

    /** `updatePreviewButtonState()`: the preview button is disabled iff there are no staged images. */
    method UpdatePreviewButtonState(count: nat)
      modifies this`previewDisabled
      ensures previewDisabled <==> count == 0
    {
      previewDisabled := count == 0;
    }
  }
}
