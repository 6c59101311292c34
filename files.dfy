/**
 * File handling of backend/static/js/files.js (and its copy in
 * frontend/script.js): admitting selected files up to the remaining
 * capacity, appending each one when its read completes, removing one by
 * position with `splice`, and re-rendering the preview tiles.
 *
 * `handleFiles` fixes how many files it admits when it is called, but each
 * file is appended later, when its FileReader finishes; the two halves are
 * the methods HandleFiles and OnFileLoaded.
 */
module Files {
  import opened Wrappers
  import opened State
  import Js
  import Ui
  import Db

  /** A selected `File`: its name and MIME type (its bytes are read by the browser). */
  datatype FileBlob = FileBlob(name: string, mimeType: string)

  function Min(a: int, b: int): int { if a <= b then a else b }
  function Max(a: int, b: int): int { if a >= b then a else b }

  /** `Array.from(files).slice(0, capacity - length)`: the files one call admits. */
  function Admitted(files: seq<FileBlob>, length: nat, capacity: nat): (r: seq<FileBlob>)
    ensures |r| <= |files| && r == files[..|r|]
    ensures length <= capacity ==> |r| == if |files| <= capacity - length then |files| else capacity - length
  {
    Js.SliceTo(files, capacity - length)
  }

  /**
   * From a settled state (length at most the capacity) one call admits the
   * first min(|files|, capacity - length) files in input order, drops the
   * rest, and cannot take the list past the capacity.
   */
  lemma AdmittedFromSettled(files: seq<FileBlob>, length: nat, capacity: nat)
    requires length <= capacity
    ensures Admitted(files, length, capacity) == files[..Min(|files|, capacity - length)]
    ensures length + |Admitted(files, length, capacity)| <= capacity
  {
  }

  /**
   * Once the list is over capacity the end index is negative, and
   * `slice(0, negative)` still admits all but the last (length - capacity)
   * files.
   */
  lemma AdmittedWhenOverfull(files: seq<FileBlob>, length: nat, capacity: nat)
    requires length > capacity
    ensures Admitted(files, length, capacity) == files[..Max(|files| - (length - capacity), 0)]
  {
  }

  /**
   * Two selections made before any of their reads completes both see the
   * same length, so together they can admit more than the free capacity:
   * from 8 staged images, two selections of 2 files end with 12, and a third
   * selection of 3 files then still admits 1.
   */
  lemma OverlappingSelectionsOverfill(a: seq<FileBlob>, b: seq<FileBlob>, c: seq<FileBlob>)
    requires |a| == 2 && |b| == 2 && |c| == 3
    ensures 8 + |Admitted(a, 8, MaxFiles)| + |Admitted(b, 8, MaxFiles)| == 12
    ensures Admitted(c, 12, MaxFiles) == c[..1]
  {
    AdmittedFromSettled(a, 8, MaxFiles);
    AdmittedFromSettled(b, 8, MaxFiles);
    AdmittedWhenOverfull(c, 12, MaxFiles);
  }

  /** All files of a run of selections, in arrival order. */
  function Concat(calls: seq<seq<FileBlob>>): seq<FileBlob>
  {
    if calls == [] then [] else calls[0] + Concat(calls[1..])
  }

  /** The staged files after selections that each finish reading before the next one is made. */
  function AddSettled(current: seq<FileBlob>, calls: seq<seq<FileBlob>>, capacity: nat): seq<FileBlob>
    decreases |calls|
  {
    if calls == [] then current
    else AddSettled(current + Admitted(calls[0], |current|, capacity), calls[1..], capacity)
  }

  /**
   * Selections that settle one after the other keep exactly the first
   * `capacity` files in arrival order (all of them if there are fewer).
   */
  lemma {:induction false} SettledSelectionsKeepFirstArrivals(current: seq<FileBlob>, calls: seq<seq<FileBlob>>, capacity: nat)
    requires |current| <= capacity
    ensures AddSettled(current, calls, capacity)
         == (current + Concat(calls))[..Min(|current| + |Concat(calls)|, capacity)]
    decreases |calls|
  {
    if calls == [] {
      assert current + Concat(calls) == current;
    } else {
      var c0 := calls[0];
      var rest := Concat(calls[1..]);
      var free := capacity - |current|;
      AdmittedFromSettled(c0, |current|, capacity);
      var next := current + Admitted(c0, |current|, capacity);
      SettledSelectionsKeepFirstArrivals(next, calls[1..], capacity);
      assert current + Concat(calls) == current + c0 + rest;
      if |c0| <= free {
        assert next == current + c0;
        assert next + rest == current + c0 + rest;
      } else {
        assert |next| == capacity;
        assert (next + rest)[..capacity] == next;
        assert (current + c0 + rest)[..capacity] == current + c0[..free];
      }
    }
  }

  /** The tiles a render produces: the k-th tile carries file index k and shows the k-th data URL. */
  function TilesFor(files: seq<ImageRecord>): (tiles: seq<Ui.Tile>)
    ensures |tiles| == |files|
    ensures forall k :: 0 <= k < |files| ==> tiles[k].fileIndex == k
  {
    seq(|files|, k requires 0 <= k < |files| => Ui.Tile(k, Ui.Encoded(files[k].dataUrl)))
  }

  /** The page after a render of `files`: one tile per position, output grid emptied, placeholders and buttons derived from the list. */
  ghost predicate ShowsList(page: Ui.Page, files: seq<ImageRecord>)
    reads page
  {
    && page.tiles == TilesFor(files)
    && page.outputTiles == 0
    && (page.inputPlaceholderShown <==> page.tiles == [])
    && page.outputPlaceholderShown
    && (page.deleteAllVisible <==> files != [])
    && (page.previewDisabled <==> files == [])
  }

  /**
   * The `forEach` of `refreshImagePreviews()` on a cleared grid: one
   * `displayImagePreview(imageObj, index)` per element, in order.
   */
  method DisplayImagePreviews(page: Ui.Page, items: seq<ImageEntry>)
    modifies page`tiles
    ensures page.tiles == TilesFor(Records(items))
  {
    page.tiles := [];
    var i := 0;
    while i < |items|
      invariant 0 <= i <= |items|
      invariant page.tiles == TilesFor(Records(items))[..i]
    {
      page.tiles := page.tiles + [Ui.Tile(i, Ui.Encoded(items[i].dataUrl))];
      i := i + 1;
    }
  }

  /**
   * `refreshImagePreviews()`: rebuilds the tile grid from the list, so each
   * tile's delete button and lightbox link carry the tile's current position.
   * The modular copy does nothing when a grid is missing.
   */
  method RefreshImagePreviews(s: AppState, page: Ui.Page, v: Variant)
    modifies page`tiles, page`outputTiles, page`inputPlaceholderShown, page`outputPlaceholderShown,
             page`deleteAllVisible, page`previewDisabled
    ensures v == Modular && !page.hasGrids ==> unchanged(page)
    ensures v == Monolithic || page.hasGrids ==> ShowsList(page, s.Files())
    ensures s.Files() == old(s.Files()) && (old(s.Valid()) ==> s.Valid())
  {
    if v == Modular && !page.hasGrids {
      return;
    }
    page.outputTiles := 0;
    var items := s.uploadedFiles.items;
    DisplayImagePreviews(page, items);
    page.inputPlaceholderShown := |page.tiles| == 0;
    page.outputPlaceholderShown := page.outputTiles == 0;
    page.UpdateDeleteAllButtonVisibility(|items|);
    page.UpdatePreviewButtonState(|items|);
  }

  /**
   * `handleFiles(files)`, up to the point where the reads are started:
   * clears the output tiles, disables download and fixes the files to admit
   * from the length at call time. The modular copy does nothing when a grid
   * or the download button is missing.
   */
  method HandleFiles(s: AppState, page: Ui.Page, files: seq<FileBlob>, v: Variant) returns (pending: seq<FileBlob>)
    modifies page`outputTiles, page`downloadDisabled
    ensures v == Modular && !(page.hasGrids && page.hasDownloadButton) ==> pending == [] && unchanged(page)
    ensures v == Monolithic || (page.hasGrids && page.hasDownloadButton) ==>
      && pending == Admitted(files, |s.uploadedFiles.items|, Capacity(v))
      && page.outputTiles == 0 && page.downloadDisabled
  {
    if v == Modular && !(page.hasGrids && page.hasDownloadButton) {
      return [];
    }
    page.outputTiles := 0;
    page.downloadDisabled := true;
    pending := Js.SliceTo(files, Capacity(v) - |s.uploadedFiles.items|);
  }

  /**
   * The FileReader `onload` callback of one admitted file: appends
   * `{name, type, dataURL}` at the end without any capacity check, then saves
   * the full list and re-renders.
   */
  method OnFileLoaded(s: AppState, page: Ui.Page, file: FileBlob, dataUrl: string, o: Db.WriteOutcome, v: Variant)
    returns (alerted: bool)
    requires s.Valid()
    modifies s.uploadedFiles, s`dbAvailable, s`userWarnedAboutStorage, s.db, page
    ensures s.Valid()
    ensures s.uploadedFiles == old(s.uploadedFiles)
    ensures s.Files() == old(s.Files()) + [Staged(file.name, file.mimeType, dataUrl)]
    ensures var e := Db.SaveStep(old(Db.FlagsOf(s)), s.db != null, s.db != null && s.db.hasImageStore, o);
      && Db.FlagsOf(s) == e.flags && alerted == e.alerted
      && (s.db != null ==> s.db.images == if e.committed then Db.Snapshot(s.Files()) else old(s.db.images))
    ensures v == Monolithic || page.hasGrids ==> ShowsList(page, s.Files())
    ensures !page.previewDisabled
    ensures page.lightbox == old(page.lightbox) && page.lightboxActive == old(page.lightboxActive)
    ensures page.downloadDisabled == old(page.downloadDisabled)
  {
    // The button update sits between the push and the save in the callback;
    // it touches only the page, so it is made here after the save.
    alerted := PushAndSave(s, file, dataUrl, o);
    page.UpdatePreviewButtonState(|s.uploadedFiles.items|);
    RefreshImagePreviews(s, page, v);
  }

  /** The state half of the `onload` callback: the push, then the save of the longer list. */
  method PushAndSave(s: AppState, file: FileBlob, dataUrl: string, o: Db.WriteOutcome) returns (alerted: bool)
    requires s.Valid()
    modifies s.uploadedFiles, s`dbAvailable, s`userWarnedAboutStorage, s.db
    ensures s.Valid()
    ensures s.uploadedFiles == old(s.uploadedFiles)
    ensures s.Files() == old(s.Files()) + [Staged(file.name, file.mimeType, dataUrl)]
    ensures var e := Db.SaveStep(old(Db.FlagsOf(s)), s.db != null, s.db != null && s.db.hasImageStore, o);
      && Db.FlagsOf(s) == e.flags && alerted == e.alerted
      && (s.db != null ==> s.db.images == if e.committed then Db.Snapshot(s.Files()) else old(s.db.images))
  {
    PushStaged(s, file, dataUrl);
    ghost var files := s.Files();
    alerted := Db.SaveImages(s, o);
    assert s.Files() == files;
  }

  /** `state.uploadedFiles.push({name, type, dataURL})`: a new object at the end of the live array. */
  method PushStaged(s: AppState, file: FileBlob, dataUrl: string)
    requires s.Valid()
    modifies s.uploadedFiles
    ensures s.Valid()
    ensures s.Files() == old(s.Files()) + [Staged(file.name, file.mimeType, dataUrl)]
  {
    var e := new ImageEntry(file.name, file.mimeType, dataUrl);
    s.uploadedFiles.Push(e);
    assert s.Files() == old(s.Files()) + [e.Record()];
  }

  /**
   * `splice(index, 1)` removes exactly position `index` when it is one:
   * earlier entries stay, later entries move down by one. An index at or past
   * the end removes nothing; a negative one counts from the end, as in
   * JavaScript (tiles only ever pass non-negative positions).
   */
  lemma RemoveAtPosition<T>(s: seq<T>, i: int)
    ensures 0 <= i < |s| ==> Js.SpliceOne(s, i) == s[..i] + s[i + 1..]
    ensures 0 <= i < |s| ==>
              && |Js.SpliceOne(s, i)| == |s| - 1
              && (forall k :: 0 <= k < i ==> Js.SpliceOne(s, i)[k] == s[k])
              && (forall k :: i <= k < |s| - 1 ==> Js.SpliceOne(s, i)[k] == s[k + 1])
    ensures i >= |s| ==> Js.SpliceOne(s, i) == s
    ensures i < 0 && s != [] ==> Js.SpliceOne(s, i) == s[..Max(|s| + i, 0)] + s[Max(|s| + i, 0) + 1..]
  {
  }

  /** Removing at i twice removes the two originally adjacent entries i and i + 1, not the same entry twice. */
  lemma RemoveTwiceRemovesNeighbours<T>(s: seq<T>, i: nat)
    requires i + 1 < |s|
    ensures Js.SpliceOne(Js.SpliceOne(s, i), i) == s[..i] + s[i + 2..]
  {
    var once := Js.SpliceOne(s, i);
    assert once == s[..i] + s[i + 1..];
    assert once[..i] == s[..i];
    assert once[i + 1..] == s[i + 2..];
  }

  lemma RecordsSplice(es: seq<ImageEntry>, index: int)
    ensures Records(Js.SpliceOne(es, index)) == Js.SpliceOne(Records(es), index)
  {
    var k := Js.SpliceStart(index, |es|);
    if k < |es| {
      assert Js.SpliceOne(es, index) == es[..k] + es[k + 1..];
      assert Js.SpliceOne(Records(es), index) == Records(es)[..k] + Records(es)[k + 1..];
    }
  }

  /** Splicing keeps a list free of repeated objects and introduces no new ones. */
  lemma SpliceKeepsDistinct(es: seq<ImageEntry>, index: int)
    requires Distinct(es)
    ensures Distinct(Js.SpliceOne(es, index))
    ensures forall e :: e in Js.SpliceOne(es, index) ==> e in es
  {
    var k := Js.SpliceStart(index, |es|);
    if k < |es| {
      var r := Js.SpliceOne(es, index);
      RemoveAtPosition(es, k);
      assert r == Js.SpliceOne(es, k);
      forall i, j | 0 <= i < j < |r|
        ensures r[i] != r[j]
      {
        var i' := if i < k then i else i + 1;
        var j' := if j < k then j else j + 1;
        assert r[i] == es[i'] && r[j] == es[j'];
      }
      forall e | e in r
        ensures e in es
      {
        var i :| 0 <= i < |r| && r[i] == e;
        assert r[i] == es[if i < k then i else i + 1];
      }
    }
  }

  /** `state.uploadedFiles.splice(index, 1)` on the live array. */
  method SpliceFiles(s: AppState, index: int)
    requires s.Valid()
    modifies s.uploadedFiles
    ensures s.Valid()
    ensures s.uploadedFiles.items == Js.SpliceOne(old(s.uploadedFiles.items), index)
    ensures s.Files() == Js.SpliceOne(old(s.Files()), index)
  {
    ghost var before := s.uploadedFiles.items;
    s.uploadedFiles.SpliceOne(index);
    RecordsSplice(before, index);
    SpliceKeepsDistinct(before, index);
  }

  /** The state half of `removeImagePreview(index)`: the splice, then the save of the shortened list. */
  method SpliceAndSave(s: AppState, index: int, o: Db.WriteOutcome) returns (alerted: bool)
    requires s.Valid()
    modifies s.uploadedFiles, s`dbAvailable, s`userWarnedAboutStorage, s.db
    ensures s.Valid()
    ensures s.uploadedFiles == old(s.uploadedFiles)
    ensures s.uploadedFiles.items == Js.SpliceOne(old(s.uploadedFiles.items), index)
    ensures s.Files() == Js.SpliceOne(old(s.Files()), index)
    ensures var e := Db.SaveStep(old(Db.FlagsOf(s)), s.db != null, s.db != null && s.db.hasImageStore, o);
      && Db.FlagsOf(s) == e.flags && alerted == e.alerted
      && (s.db != null ==> s.db.images == if e.committed then Db.Snapshot(s.Files()) else old(s.db.images))
  {
    SpliceFiles(s, index);
    ghost var items := s.uploadedFiles.items;
    ghost var files := s.Files();
    alerted := Db.SaveImages(s, o);
    assert s.uploadedFiles.items == items && s.Files() == files;
  }

  /**
   * `removeImagePreview(index)`: splices the live array, saves the full list,
   * re-renders and disables download.
   */
  method RemoveImagePreview(s: AppState, page: Ui.Page, index: int, o: Db.WriteOutcome, v: Variant)
    returns (alerted: bool)
    requires s.Valid()
    modifies s.uploadedFiles, s`dbAvailable, s`userWarnedAboutStorage, s.db, page
    ensures s.Valid()
    ensures s.uploadedFiles == old(s.uploadedFiles)
    ensures s.uploadedFiles.items == Js.SpliceOne(old(s.uploadedFiles.items), index)
    ensures s.Files() == Js.SpliceOne(old(s.Files()), index)
    ensures var e := Db.SaveStep(old(Db.FlagsOf(s)), s.db != null, s.db != null && s.db.hasImageStore, o);
      && Db.FlagsOf(s) == e.flags && alerted == e.alerted
      && (s.db != null ==> s.db.images == if e.committed then Db.Snapshot(s.Files()) else old(s.db.images))
    ensures v == Monolithic || page.hasGrids ==> ShowsList(page, s.Files())
    ensures v == Monolithic || page.hasDownloadButton ==> page.downloadDisabled
    ensures page.lightbox == old(page.lightbox) && page.lightboxActive == old(page.lightboxActive)
  {
    alerted := SpliceAndSave(s, index, o);
    RefreshImagePreviews(s, page, v);
    if v == Monolithic || page.hasDownloadButton {
      page.downloadDisabled := true;
    }
  }

  /**
   * Two selections made from 8 staged images before any read completes:
   * both admit 2 files, and once the four reads complete 12 images are
   * staged, over the capacity of 10.
   */
  method OverlappingSelections(s: AppState, page: Ui.Page, a: seq<FileBlob>, b: seq<FileBlob>, urls: seq<string>,
                               o: Db.WriteOutcome, v: Variant)
    requires s.Valid() && |s.uploadedFiles.items| == 8
    requires |a| == 2 && |b| == 2 && |urls| == 4
    requires page.hasGrids && page.hasDownloadButton
    modifies s.uploadedFiles, s`dbAvailable, s`userWarnedAboutStorage, s.db, page
    ensures |s.uploadedFiles.items| == 12 > Capacity(v)
  {
    var first := HandleFiles(s, page, a, v);
    var second := HandleFiles(s, page, b, v);
    OverlappingSelectionsOverfill(a, b, a + [a[0]]);
    var pending := first + second;
    assert |pending| == 4;
    var i := 0;
    while i < 4
      invariant 0 <= i <= 4
      invariant s.Valid()
      invariant |s.uploadedFiles.items| == 8 + i
    {
      var _ := OnFileLoaded(s, page, pending[i], urls[i], o, v);
      i := i + 1;
    }
  }
}
