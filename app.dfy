/**
 * The application entry point of backend/static/js/app.js (and the same
 * handlers in frontend/script.js): the startup chain, the sequential
 * annotation batch behind the preview button, and delete-all.
 *
 * The detection service is an input: one `Response` per request. A batch
 * iterates `uploadedFiles.entries()`, a JavaScript array iterator that holds
 * the array object it was created on and reads its live length and elements
 * at each step; it annotates the entry objects themselves.
 */
module App {
  import opened Wrappers
  import opened State
  import Canvas
  import Ui
  import Db
  import Files

  /**
   * How one request ends: `fetch` or `response.json()` throws; a non-ok
   * status; or an ok response whose body has `objects` (absent, or a list of
   * boxes).
   */
  datatype Response = Threw | NotOk(status: int) | Ok(objects: Option<seq<Canvas.Box>>)

  /** The JSON body posted for one image: `{subject, image, filename, type}`. */
  datatype Payload = Payload(subject: string, image: string, filename: string, mimeType: string)

  /** The request for one staged image. */
  function RequestFor(subject: string, r: ImageRecord): Payload
  {
    Payload(subject, r.dataUrl, r.name, r.mimeType)
  }

  /** The requests for the first `count` staged images, in position order. */
  function RequestsFor(subject: string, records: seq<ImageRecord>, count: nat): (r: seq<Payload>)
    requires count <= |records|
    ensures |r| == count
    ensures forall k :: 0 <= k < count ==> r[k] == RequestFor(subject, records[k])
  {
    seq(count, k requires 0 <= k < count => RequestFor(subject, records[k]))
  }

  lemma RequestsForStep(subject: string, records: seq<ImageRecord>, i: nat)
    requires i < |records|
    ensures RequestsFor(subject, records, i + 1) == RequestsFor(subject, records, i) + [RequestFor(subject, records[i])]
  {
  }

  /** A response that leads to an annotation: ok, with a non-empty `objects` list. */
  predicate Annotates(o: Response)
  {
    o.Ok? && o.objects.Some? && |o.objects.value| > 0
  }

  /** The overlay drawn for an ok response over the image behind `src`. */
  function Overlay(src: string, o: Response, browser: Canvas.Browser): Canvas.Png
    requires o.Ok?
  {
    Canvas.Render(src, browser, o.objects)
  }

  /** The effect of one response on the staged image it was requested for. */
  function Annotate(r: ImageRecord, o: Response, browser: Canvas.Browser): (a: ImageRecord)
    ensures a.name == r.name && a.mimeType == r.mimeType && a.dataUrl == r.dataUrl
    ensures !Annotates(o) ==> a == r
    ensures Annotates(o) ==> a.previewImage.Some? && a.detections == o.objects
  {
    if Annotates(o)
    then r.(previewImage := Some(Overlay(r.dataUrl, o, browser)), detections := o.objects)
    else r
  }

  /**
   * Per-image failure isolation and pairing: a throw, a non-ok status or an
   * ok response without objects leave the image as it was; otherwise the
   * overlay and the detections are set together, the overlay is the image's
   * own data URL drawn on a canvas of that image's natural size with exactly
   * one stroke per detection, and name, type and data URL never change.
   */
  lemma AnnotateSetsPair(r: ImageRecord, o: Response, browser: Canvas.Browser)
    ensures !Annotates(o) ==> Annotate(r, o, browser) == r
    ensures Paired(r) ==> Paired(Annotate(r, o, browser))
    ensures var a := Annotate(r, o, browser);
      && a.name == r.name && a.mimeType == r.mimeType && a.dataUrl == r.dataUrl
      && (Annotates(o) ==>
            && a.previewImage.Some? && a.detections == o.objects
            && (a.previewImage.value.width, a.previewImage.value.height) == browser.naturalSize(r.dataUrl)
            && a.previewImage.value.ops[0] == Canvas.DrawImage(r.dataUrl, 0.0, 0.0)
            && |Canvas.Strokes(a.previewImage.value.ops[1..])| == |a.detections.value|)
  {
    if Annotates(o) {
      var png := Overlay(r.dataUrl, o, browser);
      assert png.ops[1..] == Canvas.OverlayOps(o.objects.value, browser.textWidth);
      Canvas.OneStrokePerBox(o.objects.value, browser.textWidth);
    }
  }

  /** The file indexes of a sequence of tiles, in document order. */
  function Indexes(tiles: seq<Ui.Tile>): seq<nat>
  {
    seq(|tiles|, j requires 0 <= j < |tiles| => tiles[j].fileIndex)
  }

  /** `querySelector('[data-file-index="k"]')`: the first tile, in document order, carrying index k. */
  function FirstTile(indexes: seq<nat>, k: nat): (r: Option<nat>)
    ensures r.Some? ==> r.value < |indexes| && indexes[r.value] == k
    ensures r.Some? ==> forall j :: 0 <= j < r.value ==> indexes[j] != k
    ensures r.None? ==> forall j :: 0 <= j < |indexes| ==> indexes[j] != k
  {
    if |indexes| == 0 then None
    else if indexes[0] == k then Some(0)
    else match FirstTile(indexes[1..], k)
      case None => None
      case Some(j) => Some(j + 1)
  }

  /**
   * The tiles after the first `count` responses: the first tile carrying
   * index k shows the overlay of response k over image k when that response
   * annotates, and every other tile is as it was.
   */
  function TilesAfter(tiles: seq<Ui.Tile>, records: seq<ImageRecord>, count: nat, responses: seq<Response>,
                      browser: Canvas.Browser): seq<Ui.Tile>
    requires count <= |records| == |responses|
  {
    seq(|tiles|, j requires 0 <= j < |tiles| =>
      var k := tiles[j].fileIndex;
      if k < count && Annotates(responses[k]) && FirstTile(Indexes(tiles), k) == Some(j)
      then tiles[j].(src := Ui.Rendered(Overlay(records[k].dataUrl, responses[k], browser)))
      else tiles[j])
  }

  /** Whether the completion animation runs for each of the first `count` images: on an ok response, when its tile exists. */
  function CompletedFor(tiles: seq<Ui.Tile>, count: nat, responses: seq<Response>): (r: seq<bool>)
    requires count <= |responses|
    ensures |r| == count
    ensures forall k :: 0 <= k < count ==> (r[k] <==> responses[k].Ok? && FirstTile(Indexes(tiles), k).Some?)
  {
    seq(count, k requires 0 <= k < count => responses[k].Ok? && FirstTile(Indexes(tiles), k).Some?)
  }

  lemma CompletedForStep(tiles: seq<Ui.Tile>, i: nat, responses: seq<Response>)
    requires i < |responses|
    ensures CompletedFor(tiles, i + 1, responses)
      == CompletedFor(tiles, i, responses) + [responses[i].Ok? && FirstTile(Indexes(tiles), i).Some?]
  {
  }

  lemma TilesAfterStart(tiles: seq<Ui.Tile>, records: seq<ImageRecord>, responses: seq<Response>, browser: Canvas.Browser)
    requires |records| == |responses|
    ensures TilesAfter(tiles, records, 0, responses, browser) == tiles
  {
  }

  /** One more response changes at most the first tile carrying its index, and no tile's index. */
  lemma TilesAfterStep(tiles: seq<Ui.Tile>, records: seq<ImageRecord>, i: nat, responses: seq<Response>,
                       browser: Canvas.Browser)
    requires i < |records| == |responses|
    ensures Indexes(TilesAfter(tiles, records, i, responses, browser)) == Indexes(tiles)
    ensures var before := TilesAfter(tiles, records, i, responses, browser);
      var t := FirstTile(Indexes(tiles), i);
      TilesAfter(tiles, records, i + 1, responses, browser) ==
        if Annotates(responses[i]) && t.Some?
        then before[t.value := before[t.value].(src := Ui.Rendered(Overlay(records[i].dataUrl, responses[i], browser)))]
        else before
  {
  }

  /**
   * On a freshly rendered grid of images without overlays, the grid after a
   * batch shows what the lightbox shows for each image: its new overlay, or
   * its data URL.
   */
  lemma BatchTilesMatchLightbox(records: seq<ImageRecord>, responses: seq<Response>, browser: Canvas.Browser)
    requires |responses| == |records|
    requires forall k :: 0 <= k < |records| ==> records[k].previewImage.None?
    ensures var tiles := TilesAfter(Files.TilesFor(records), records, |records|, responses, browser);
      && |tiles| == |records|
      && forall k :: 0 <= k < |records| ==>
           tiles[k].fileIndex == k && tiles[k].src == Ui.Display(Annotate(records[k], responses[k], browser))
  {
    var rendered := Files.TilesFor(records);
    var tiles := TilesAfter(rendered, records, |records|, responses, browser);
    forall k | 0 <= k < |records|
      ensures tiles[k].src == Ui.Display(Annotate(records[k], responses[k], browser))
    {
      var first := FirstTile(Indexes(rendered), k);
      assert Indexes(rendered)[k] == k;
      assert Indexes(rendered)[first.value] == first.value;
    }
  }

  /** The records after the first `count` responses of a batch: those annotated by their own response, the rest as they were. */
  function AnnotatedPrefix(records: seq<ImageRecord>, responses: seq<Response>, count: nat, browser: Canvas.Browser)
    : (r: seq<ImageRecord>)
    requires count <= |records| == |responses|
    ensures |r| == |records|
    ensures forall k :: 0 <= k < |records| ==> r[k] == if k < count then Annotate(records[k], responses[k], browser) else records[k]
  {
    seq(|records|, k requires 0 <= k < |records| =>
      if k < count then Annotate(records[k], responses[k], browser) else records[k])
  }

  lemma AnnotatedPrefixStep(records: seq<ImageRecord>, responses: seq<Response>, i: nat, browser: Canvas.Browser)
    requires i < |records| == |responses|
    ensures AnnotatedPrefix(records, responses, i, browser)[i] == records[i]
    ensures AnnotatedPrefix(records, responses, i + 1, browser)
         == AnnotatedPrefix(records, responses, i, browser)[i := Annotate(records[i], responses[i], browser)]
  {
  }

  /** Annotating keeps every staged image's overlay and detections paired. */
  lemma AnnotatedPrefixKeepsPaired(records: seq<ImageRecord>, responses: seq<Response>, count: nat, browser: Canvas.Browser)
    requires count <= |records| == |responses|
    requires AllPaired(records)
    ensures AllPaired(AnnotatedPrefix(records, responses, count, browser))
  {
    var annotated := AnnotatedPrefix(records, responses, count, browser);
    forall r | r in annotated
      ensures Paired(r)
    {
      var k :| 0 <= k < |annotated| && annotated[k] == r;
      AnnotateSetsPair(records[k], responses[k], browser);
    }
  }

  /**
   * `uploadedFiles.entries()`: an iterator over the array object it was
   * created on. Each step reads the array's current length and element;
   * once exhausted it stays exhausted.
   */
  class EntryIterator {
    const target: ImageList
    var nextIndex: nat
    var done: bool

    constructor (target: ImageList)
      ensures this.target == target && nextIndex == 0 && !done
    {
      this.target := target;
      nextIndex := 0;
      done := false;
    }

    method Next() returns (r: Option<(nat, ImageEntry)>)
      modifies this`nextIndex, this`done
      ensures old(done) || old(nextIndex) >= |target.items| ==> r.None? && done && nextIndex == old(nextIndex)
      ensures !old(done) && old(nextIndex) < |target.items| ==>
        && r == Some((old(nextIndex), target.items[old(nextIndex)]))
        && nextIndex == old(nextIndex) + 1 && !done
    {
      if done || nextIndex >= |target.items| {
        done := true;
        return None;
      }
      r := Some((nextIndex, target.items[nextIndex]));
      nextIndex := nextIndex + 1;
    }
  }

  /**
   * One pass of the loop body for the entry at `index`: the request, and,
   * on an ok response with objects, the overlay stored on the entry and
   * shown in the first tile carrying that index. Returns the request and
   * whether the completion animation ran (on every ok response, when the
   * tile exists).
   */
  method ProcessEntry(page: Ui.Page, subject: string, index: nat, entry: ImageEntry, o: Response, browser: Canvas.Browser,
                      ghost items: seq<ImageEntry>)
    returns (request: Payload, completed: bool)
    requires Distinct(items) && index < |items| && items[index] == entry
    modifies entry, page`tiles
    ensures request == RequestFor(subject, old(entry.Record()))
    ensures entry.Record() == Annotate(old(entry.Record()), o, browser)
    ensures Records(items) == old(Records(items))[index := Annotate(old(entry.Record()), o, browser)]
    ensures var t := FirstTile(Indexes(old(page.tiles)), index);
      && (completed <==> o.Ok? && t.Some?)
      && page.tiles == if Annotates(o) && t.Some?
                       then old(page.tiles)[t.value := old(page.tiles)[t.value].(src := Ui.Rendered(Overlay(entry.dataUrl, o, browser)))]
                       else old(page.tiles)
  {
    var previewElement := FirstTile(Indexes(page.tiles), index);
    request := Payload(subject, entry.dataUrl, entry.name, entry.mimeType);
    completed := false;
    if !o.Ok? {
      return;
    }
    if o.objects.Some? && |o.objects.value| > 0 {
      var imageWithDetections := Canvas.DrawDetectionsOnImage(entry.dataUrl, o.objects, browser);
      if previewElement.Some? {
        var t := previewElement.value;
        page.tiles := page.tiles[t := page.tiles[t].(src := Ui.Rendered(imageWithDetections))];
      }
      entry.previewImage := Some(imageWithDetections);
      entry.detections := o.objects;
    }
    completed := previewElement.Some?;
    forall k | 0 <= k < |items| && k != index
      ensures items[k].Record() == old(items[k].Record())
    {
      assert items[k] != entry;
    }
  }

  /**
   * The state of the preview loop after `i` turns over the array `it` walks:
   * the iterator at position `i`, the entries before `i` annotated by their
   * own responses and the rest as they were, and the tiles rendered for the
   * first `i` responses.
   */
  ghost predicate BatchProgress(it: EntryIterator, page: Ui.Page, responses: seq<Response>, browser: Canvas.Browser,
                                records: seq<ImageRecord>, tiles: seq<Ui.Tile>, i: nat)
    reads it, it.target, it.target.items, page
  {
    && i <= |it.target.items| == |responses| == |records|
    && it.nextIndex == i && !it.done && Distinct(it.target.items)
    && Records(it.target.items) == AnnotatedPrefix(records, responses, i, browser)
    && page.tiles == TilesAfter(tiles, records, i, responses, browser)
  }

  /**
   * One turn of the preview loop: the iterator yields position `i` and the
   * loop body processes that entry with its response.
   */
  method AnnotateNext(it: EntryIterator, page: Ui.Page, subject: string, responses: seq<Response>, browser: Canvas.Browser,
                      ghost records: seq<ImageRecord>, ghost tiles: seq<Ui.Tile>, i: nat)
    returns (request: Payload, completed: bool)
    requires i < |responses| && BatchProgress(it, page, responses, browser, records, tiles, i)
    modifies it`nextIndex, it`done, it.target.items[i], page`tiles
    ensures BatchProgress(it, page, responses, browser, records, tiles, i + 1)
    ensures request == RequestFor(subject, records[i])
    ensures completed == (responses[i].Ok? && FirstTile(Indexes(tiles), i).Some?)
  {
    ghost var items := it.target.items;
    ghost var before := Records(items);
    var next := it.Next();
    var (index, imageObj) := next.value;
    TilesAfterStep(tiles, records, i, responses, browser);
    AnnotatedPrefixStep(records, responses, i, browser);
    assert Records(items) == before;
    assert index == i && imageObj == items[i] && imageObj.Record() == records[i];
    request, completed := ProcessEntry(page, subject, index, imageObj, responses[i], browser, items);
    assert Records(items) == before[i := Annotate(records[i], responses[i], browser)];
  }

  /**
   * The loop of the preview handler over `list.entries()`, with no other
   * event interleaved: one request per entry in ascending position order,
   * each entry updated by its own response only.
   */
  method AnnotateEntries(list: ImageList, page: Ui.Page, subject: string, responses: seq<Response>, browser: Canvas.Browser)
    returns (requests: seq<Payload>, completed: seq<bool>)
    requires Distinct(list.items)
    requires |responses| == |list.items|
    modifies list.items, page`tiles
    ensures Records(list.items) == AnnotatedPrefix(old(Records(list.items)), responses, |responses|, browser)
    ensures requests == RequestsFor(subject, old(Records(list.items)), |responses|)
    ensures completed == CompletedFor(old(page.tiles), |responses|, responses)
    ensures page.tiles == TilesAfter(old(page.tiles), old(Records(list.items)), |responses|, responses, browser)
  {
    requests := [];
    completed := [];
    ghost var records := Records(list.items);
    ghost var tiles := page.tiles;
    var items := list.items;
    var it := new EntryIterator(list);
    var i := 0;
    assert AnnotatedPrefix(records, responses, 0, browser) == records;
    while i < |items|
      invariant it.target == list && list.items == items
      invariant BatchProgress(it, page, responses, browser, records, tiles, i)
      invariant requests == RequestsFor(subject, records, i)
      invariant completed == CompletedFor(tiles, i, responses)
    {
      CompletedForStep(tiles, i, responses);
      RequestsForStep(subject, records, i);
      var request, done := AnnotateNext(it, page, subject, responses, browser, records, tiles, i);
      requests := requests + [request];
      completed := completed + [done];
      i := i + 1;
    }
  }

  /**
   * The preview button's handler: nothing on an empty list; otherwise the
   * button is disabled for the run, the entries are annotated in order, and
   * the button is re-derived from the list length afterwards. The batch
   * does not save: the store is left as it was.
   */
  method RunPreviewBatch(s: AppState, page: Ui.Page, subject: string, responses: seq<Response>, browser: Canvas.Browser)
    returns (requests: seq<Payload>, completed: seq<bool>)
    requires s.Valid()
    requires |responses| == |s.uploadedFiles.items|
    modifies s.uploadedFiles.items, page`tiles, page`previewDisabled
    ensures s.uploadedFiles == old(s.uploadedFiles) && s.uploadedFiles.items == old(s.uploadedFiles.items)
    ensures s.Valid()
    ensures |s.Files()| == |old(s.Files())|
    ensures forall k :: 0 <= k < |s.Files()| ==> s.Files()[k] == Annotate(old(s.Files())[k], responses[k], browser)
    ensures |requests| == |responses|
    ensures forall k :: 0 <= k < |requests| ==> requests[k] == RequestFor(subject, old(s.Files())[k])
    ensures |completed| == |responses|
    ensures forall k :: 0 <= k < |completed| ==>
      (completed[k] <==> responses[k].Ok? && FirstTile(Indexes(old(page.tiles)), k).Some?)
    ensures page.tiles == TilesAfter(old(page.tiles), old(s.Files()), |responses|, responses, browser)
    ensures s.uploadedFiles.items == [] ==> page.previewDisabled == old(page.previewDisabled)
    ensures s.uploadedFiles.items != [] ==> !page.previewDisabled
    ensures s.db != null ==> s.db.images == old(s.db.images)
  {
    requests := [];
    completed := [];
    if |s.uploadedFiles.items| == 0 {
      return;
    }
    page.previewDisabled := true;
    ghost var records := s.Files();
    var items := s.uploadedFiles.items;
    requests, completed := AnnotateEntries(s.uploadedFiles, page, subject, responses, browser);
    page.UpdatePreviewButtonState(|s.uploadedFiles.items|);
    AnnotatedPrefixKeepsPaired(records, responses, |responses|, browser);
  }

  /**
   * The loop body as far as the entry is concerned: an annotating response
   * leaves an overlay on it, and nothing but the entry and the grid changes.
   */
  method AnnotateOne(page: Ui.Page, subject: string, index: nat, entry: ImageEntry, o: Response, browser: Canvas.Browser,
                     ghost items: seq<ImageEntry>)
    requires Distinct(items) && index < |items| && items[index] == entry
    requires Annotates(o)
    modifies entry, page`tiles
    ensures entry.previewImage.Some?
  {
    var _, _ := ProcessEntry(page, subject, index, entry, o, browser, items);
  }

  /**
   * The removal handler seen from a batch that holds the same array: the
   * entry at position 0 is spliced out of the live array in place.
   */
  method RemoveFirstInPlace(s: AppState, page: Ui.Page, o: Db.WriteOutcome, v: Variant)
    requires s.Valid() && s.uploadedFiles.items != []
    modifies s.uploadedFiles, s`dbAvailable, s`userWarnedAboutStorage, s.db, page
    ensures s.uploadedFiles == old(s.uploadedFiles) && s.uploadedFiles.items == old(s.uploadedFiles.items)[1..]
  {
    var _ := Files.RemoveImagePreview(s, page, 0, o, v);
    Files.RemoveAtPosition(old(s.uploadedFiles.items), 0);
  }

  /**
   * The confirmed delete-all handler seen from a batch that holds the old
   * array: a new, empty array is installed and the old one is left as it was.
   */
  method ReplaceWithEmpty(s: AppState, page: Ui.Page, o: Db.WriteOutcome, v: Variant)
    requires s.uploadedFiles.items != []
    modifies s`uploadedFiles, s`dbAvailable, s`userWarnedAboutStorage, s.db, page
    ensures fresh(s.uploadedFiles) && s.uploadedFiles.items == [] && s.Valid()
  {
    var _ := DeleteAll(s, page, true, o, v);
  }

  /**
   * Interleaving: removing the entry at position 0 after the batch has
   * taken it shifts the live array, so the iterator's next step reads
   * position 1 of the shortened array and the entry that was at position 1
   * is never visited.
   */
  method RemovalDuringBatchSkipsEntry(s: AppState, page: Ui.Page, o: Db.WriteOutcome, v: Variant)
    returns (visited: seq<ImageEntry>)
    requires s.Valid() && |s.uploadedFiles.items| == 3
    modifies s.uploadedFiles, s`dbAvailable, s`userWarnedAboutStorage, s.db, page
    ensures visited == [old(s.uploadedFiles.items[0]), old(s.uploadedFiles.items[2])]
    ensures old(s.uploadedFiles.items[1]) !in visited
  {
    var it := new EntryIterator(s.uploadedFiles);
    var first := it.Next();
    RemoveFirstInPlace(s, page, o, v);
    var second := it.Next();
    var third := it.Next();
    assert third.None?;
    visited := [first.value.1, second.value.1];
  }

  /**
   * `Delete all` (after confirmation) on a non-empty list: a new empty array
   * is installed and saved, the page re-rendered, the output grid emptied
   * and download disabled. Returns whether the quota warning was shown.
   */
  method DeleteAll(s: AppState, page: Ui.Page, confirmed: bool, o: Db.WriteOutcome, v: Variant) returns (alerted: bool)
    modifies s`uploadedFiles, s`dbAvailable, s`userWarnedAboutStorage, s.db, page
    ensures old(s.uploadedFiles.items) == [] || !confirmed ==>
      && !alerted && s.uploadedFiles == old(s.uploadedFiles)
      && Db.FlagsOf(s) == old(Db.FlagsOf(s)) && unchanged(page) && (s.db != null ==> unchanged(s.db))
    ensures old(s.uploadedFiles.items) != [] && confirmed ==>
      && fresh(s.uploadedFiles) && s.Files() == [] && s.Valid()
      && (var e := Db.SaveStep(old(Db.FlagsOf(s)), s.db != null, s.db != null && s.db.hasImageStore, o);
          && Db.FlagsOf(s) == e.flags && alerted == e.alerted
          && (s.db != null ==> s.db.images == if e.committed then Db.Snapshot([]) else old(s.db.images)))
      && (v == Monolithic || page.hasGrids ==> Files.ShowsList(page, []))
      && page.outputTiles == 0
      && (v == Monolithic || page.hasDownloadButton ==> page.downloadDisabled)
  {
    alerted := false;
    if |s.uploadedFiles.items| == 0 || !confirmed {
      return;
    }
    s.uploadedFiles := new ImageList([]);
    alerted := Db.SaveImages(s, o);
    Files.RefreshImagePreviews(s, page, v);
    page.outputTiles := 0;
    if v == Monolithic || page.hasDownloadButton {
      page.downloadDisabled := true;
    }
  }

  /**
   * Interleaving: delete-all installs a new array while the batch's
   * iterator goes on over the old one, so the second entry is still
   * requested and annotated, but it is no longer in the list.
   */
  method DeleteAllDuringBatchAnnotatesDetached(s: AppState, page: Ui.Page, o: Db.WriteOutcome, v: Variant,
                                               subject: string, r: Response, browser: Canvas.Browser)
    returns (visited: seq<ImageEntry>)
    requires s.Valid() && |s.uploadedFiles.items| == 2
    requires Annotates(r)
    modifies s`uploadedFiles, s`dbAvailable, s`userWarnedAboutStorage, s.db, page, s.uploadedFiles.items
    ensures visited == old(s.uploadedFiles.items)
    ensures s.Files() == []
    ensures visited[1].previewImage.Some? && visited[1] !in s.uploadedFiles.items
  {
    ghost var items := s.uploadedFiles.items;
    var it := new EntryIterator(s.uploadedFiles);
    var first := it.Next();
    ReplaceWithEmpty(s, page, o, v);
    assert it.target.items == items;
    var second := it.Next();
    var entry := second.value.1;
    visited := [first.value.1, entry];
    assert visited == items;
    AnnotateOne(page, subject, 1, entry, r, browser, items);
  }

  /**
   * The state half of the startup chain: open the database, then load; an
   * open failure switches to session-only mode and loads nothing. A list
   * read from a store whose lists are paired keeps the list invariant.
   */
  method OpenAndLoad(s: AppState, open: Db.OpenOutcome, read: Db.ReadOutcome) returns (loaded: bool)
    modifies s`dbAvailable, s`db, s`uploadedFiles
    modifies if open.Opened? then {open.database} else {}
    ensures open.OpenFailed? ==> !loaded && !s.dbAvailable && s.uploadedFiles == old(s.uploadedFiles)
    ensures open.Opened? ==> s.db == open.database && s.dbAvailable == old(s.dbAvailable)
    ensures open.Opened? ==>
      var l := Db.LoadStep(s.dbAvailable, true, open.database.hasImageStore, read, open.database.images);
      && (loaded <==> l.Some?)
      && (l.Some? ==> fresh(s.uploadedFiles) && s.Files() == l.value && Distinct(s.uploadedFiles.items))
      && (l.None? ==> s.uploadedFiles == old(s.uploadedFiles))
    ensures old(s.Valid()) && (open.Opened? ==> old(Db.StoredPaired(open.database.images))) ==> s.Valid()
  {
    loaded := false;
    var succeeded := Db.InitIndexedDB(s, open);
    if succeeded {
      assert old(Db.StoredPaired(open.database.images)) ==> Db.StoredPaired(s.db.images);
      loaded := Db.LoadImages(s, read);
    } else {
      s.dbAvailable := false;
    }
  }

  /**
   * The startup chain: open the database, then load; an open failure
   * switches to session-only mode. The modular copy always renders at the
   * end; the single script renders only when a stored list was loaded.
   */
  method Startup(s: AppState, page: Ui.Page, open: Db.OpenOutcome, read: Db.ReadOutcome, v: Variant)
    returns (loaded: bool)
    modifies s`dbAvailable, s`db, s`uploadedFiles, page
    modifies if open.Opened? then {open.database} else {}
    ensures open.OpenFailed? ==> !loaded && !s.dbAvailable && s.uploadedFiles == old(s.uploadedFiles)
    ensures open.Opened? ==> s.db == open.database && s.dbAvailable == old(s.dbAvailable)
    ensures open.Opened? ==>
      var l := Db.LoadStep(s.dbAvailable, true, open.database.hasImageStore, read, open.database.images);
      && (loaded <==> l.Some?)
      && (l.Some? ==> fresh(s.uploadedFiles) && s.Files() == l.value && Distinct(s.uploadedFiles.items))
      && (l.None? ==> s.uploadedFiles == old(s.uploadedFiles))
    ensures old(s.Valid()) && (open.Opened? ==> old(Db.StoredPaired(open.database.images))) ==> s.Valid()
    ensures v == Modular && page.hasGrids ==> Files.ShowsList(page, s.Files())
    ensures v == Monolithic && loaded ==> Files.ShowsList(page, s.Files())
    ensures v == Monolithic && !loaded ==> unchanged(page)
  {
    loaded := OpenAndLoad(s, open, read);
    if v == Monolithic && loaded {
      Files.RefreshImagePreviews(s, page, v);
    }
    if v == Modular {
      Files.RefreshImagePreviews(s, page, v);
    }
  }
}
