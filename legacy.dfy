/**
 * The older front end in the repository's root script.js: a selection
 * replaces the staged files instead of adding to them, keeps the first ten,
 * and the process button fills the output grid with one placeholder per
 * staged file.
 */
module Legacy {
  import Js
  import State
  import Files

  /** The literal limit of `slice(0, 10)`. */
  const Limit: nat := 10

  /** The files a selection keeps: `Array.from(files).slice(0, 10)`. */
  function Kept(files: seq<Files.FileBlob>): seq<Files.FileBlob>
  {
    Js.SliceTo(files, Limit)
  }

  /**
   * A selection keeps its first min(|files|, 10) files in input order, and
   * keeps exactly what the newer front end admits into an empty list.
   */
  lemma KeptIsFirstTen(files: seq<Files.FileBlob>)
    ensures Kept(files) == files[..Files.Min(|files|, Limit)]
    ensures |Kept(files)| <= State.MaxFiles
    ensures Kept(files) == Files.Admitted(files, 0, State.MaxFiles)
  {
    Files.AdmittedFromSettled(files, 0, State.MaxFiles);
  }

  /**
   * The page of the root script. Each placeholder text is an element found
   * once, at load, inside its grid: it is on screen only while it is still
   * attached to the grid and its `display` style is "block". Clearing a grid
   * with `innerHTML = ""` detaches it for good; later style changes reach an
   * element that is no longer on the page.
   */
  class LegacyApp {
    var uploadedFiles: seq<Files.FileBlob>
    /** Data URLs of the preview tiles, in the order their reads completed. */
    var previewTiles: seq<string>
    var outputTiles: nat
    var downloadDisabled: bool
    var inputTextAttached: bool
    var inputTextDisplayed: bool
    var outputTextAttached: bool
    var outputTextDisplayed: bool

    predicate InputPlaceholderShown()
      reads this
    {
      inputTextAttached && inputTextDisplayed
    }

    predicate OutputPlaceholderShown()
      reads this
    {
      outputTextAttached && outputTextDisplayed
    }

    /** The page after `DOMContentLoaded`: nothing staged, both placeholder texts in their grids and shown. */
    constructor ()
      ensures uploadedFiles == [] && previewTiles == [] && outputTiles == 0
      ensures inputTextAttached && outputTextAttached
      ensures InputPlaceholderShown() && OutputPlaceholderShown()
    {
      uploadedFiles := [];
      previewTiles := [];
      outputTiles := 0;
      downloadDisabled := true;
      inputTextAttached := true;
      outputTextAttached := true;
      inputTextDisplayed := true;
      outputTextDisplayed := true;
    }

    /**
     * `handleFiles(files)`: discards the staged files and both grids (and
     * with them both placeholder texts), disables download, then stages the
     * first ten files one by one. The `display` styles it sets afterwards
     * are on detached elements, so no placeholder is shown, even for an
     * empty selection. Returns the files whose reads were started.
     */
    method HandleFiles(files: seq<Files.FileBlob>) returns (started: seq<Files.FileBlob>)
      modifies this
      ensures uploadedFiles == Kept(files) && started == uploadedFiles
      ensures previewTiles == [] && outputTiles == 0 && downloadDisabled
      ensures inputTextDisplayed <==> files == []
      ensures outputTextDisplayed
      ensures !inputTextAttached && !outputTextAttached
      ensures !InputPlaceholderShown() && !OutputPlaceholderShown()
    {
      uploadedFiles := [];
      previewTiles := [];
      inputTextAttached := false;
      outputTiles := 0;
      outputTextAttached := false;
      downloadDisabled := true;
      started := [];
      if |files| > 0 {
        inputTextDisplayed := false;
        outputTextDisplayed := true;
        var filesToProcess := Js.SliceTo(files, Limit);
        var i := 0;
        while i < |filesToProcess|
          invariant 0 <= i <= |filesToProcess|
          invariant uploadedFiles == filesToProcess[..i] && started == uploadedFiles
          invariant previewTiles == [] && outputTiles == 0 && downloadDisabled
          invariant !inputTextDisplayed && outputTextDisplayed && !inputTextAttached && !outputTextAttached
        {
          uploadedFiles := uploadedFiles + [filesToProcess[i]];
          started := started + [filesToProcess[i]];
          i := i + 1;
        }
      } else {
        inputTextDisplayed := true;
        outputTextDisplayed := true;
      }
    }

    /** A read completes: its tile is appended, whichever selection started it. */
    method OnPreviewRead(dataUrl: string)
      modifies this`previewTiles
      ensures previewTiles == old(previewTiles) + [dataUrl]
    {
      previewTiles := previewTiles + [dataUrl];
    }

    /**
     * The process button: on an empty list only the alert; otherwise the
     * output grid (and the output text with it) cleared, one placeholder
     * output per staged file, the text's style set to hidden and download
     * enabled. Returns whether the alert was shown.
     */
    method Process() returns (alerted: bool)
      modifies this`outputTiles, this`outputTextAttached, this`outputTextDisplayed, this`downloadDisabled
      ensures alerted <==> uploadedFiles == []
      ensures alerted ==> unchanged(this)
      ensures !alerted ==> outputTiles == |uploadedFiles| && !outputTextAttached && !outputTextDisplayed && !downloadDisabled
      ensures !alerted || !old(OutputPlaceholderShown()) ==> !OutputPlaceholderShown()
    {
      if |uploadedFiles| > 0 {
        outputTiles := 0;
        outputTextAttached := false;
        outputTextDisplayed := false;
        downloadDisabled := false;
        var index := 0;
        while index < |uploadedFiles|
          invariant 0 <= index <= |uploadedFiles| && outputTiles == index
          invariant !outputTextAttached && !outputTextDisplayed && !downloadDisabled
        {
          outputTiles := outputTiles + 1;
          index := index + 1;
        }
        alerted := false;
      } else {
        alerted := true;
      }
    }
  }

  /**
   * Two selections in a row: only the second one's files remain staged, and
   * neither placeholder text comes back, whatever the second selection is.
   */
  method SelectTwice(app: LegacyApp, first: seq<Files.FileBlob>, second: seq<Files.FileBlob>)
    modifies app
    ensures app.uploadedFiles == Kept(second)
    ensures !app.InputPlaceholderShown() && !app.OutputPlaceholderShown()
  {
    var _ := app.HandleFiles(first);
    var _ := app.HandleFiles(second);
  }
}
