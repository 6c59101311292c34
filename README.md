# Bild-Verpixelung (image anonymizer): a Dafny model of its core

Bild-Verpixelung is a browser front end plus a small Flask back end. The user stages up to ten images. A "preview" run sends them one at a time to a detection endpoint and draws the returned boxes on each image. The staged list is kept in IndexedDB so it survives a reload.

This project models:

- **The session store.** The `state` record of `backend/static/js/state.js` and the list of staged images it owns. An element's position is its identity.
- **The durable backing.** `db.js`: open the database, write a clear-then-put snapshot, load at startup. Two flags, `dbAvailable` and `userWarnedAboutStorage`, only ever move one way.
- **File admission and removal.** `files.js`: appending up to the capacity, `splice`, and re-rendering the tiles.
- **The application.** `app.js`: the startup chain, the sequential annotation batch, and delete-all.
- **The overlay renderer.** `canvas.js`.
- **The lightbox.** `lightbox.js`.
- **The two other copies of the front end.** The single-file `frontend/script.js` is the `Monolithic` variant of the same methods. The older root `script.js` is module `Legacy`.
- **The back end's box arithmetic.** `backend/engine/detector.py` and `backend/api/routes.py`.

JavaScript objects that the code changes in place are Dafny classes:

- an element of `uploadedFiles` is `State.ImageEntry`;
- the array itself is `State.ImageList`;
- the open database is `State.Database`;
- `state` is `State.AppState`;
- the page elements the core writes are `Ui.Page`.

The batch iterates `uploadedFiles.entries()`. That is a live iterator over one array object, and `App.EntryIterator` models it, so the model shows what happens when a removal or a delete-all runs in the middle of a batch.

Every answer the browser or a library gives is an input to the model:

- the IndexedDB open, write and read outcomes;
- FileReader data URLs;
- fetch responses;
- the natural size of a decoded image;
- `measureText` widths;
- face locations;
- base64 and image decoding.

The front ends differ in a few places. The model states each difference:

- `frontend/script.js` checks the literal 10 and posts to the fixed URL `http://localhost:5001/api/v1/detect`.
- `frontend/script.js` re-renders at startup only when a stored list was loaded; it does so inside the load callback.
- The modular code returns early when a grid or the download button is missing.

The model follows the code where it departs from the intended design:

- **Capacity is checked when `handleFiles` is called, not when a file is appended.** Two selections made before their reads complete can take the list past 10 (`Files.OverlappingSelections`). Once the list is over capacity, `slice(0, negative)` still admits files.
- **The batch has no "position no longer exists" path.** It annotates the entry objects themselves. A removal in the middle of a batch makes the iterator skip an entry. After a delete-all, the batch annotates entries that are no longer in the list.
- **An empty list is saved but never restored.** A load installs only a non-empty stored array.
- **The payload comes from `data_url.split(",")[1]`.** That is the text between the first and the second comma, not everything after the first comma. For a data URL as section 3 of RFC 2397 writes it, the two are the same (`Routes.PayloadRoundTrip`).
- **A failed load does not switch to session-only mode.** `loadImagesFromIndexedDB` always resolves (`db.js:76-106`), so the `.catch` at `app.js:36-39` runs only when the open fails. `App.Startup` sets `dbAvailable` to false only on an open failure.
- **`_normalize_subject` returns "face" for every input.** So the unsupported-subject branch of `detect` cannot be reached.

## Model

| member | source | states |
|---|---|---|
| `State.AppState.constructor` | backend/static/js/state.js:11-18 | The initial state has an empty list, persistence available, no warning yet, no database handle, drag counter 0 and lightbox index 0, and satisfies the list invariant. `frontend/script.js:17-21` declares the same variables. |
| `State.Capacity` | backend/static/js/state.js:22 | Both variants' capacity is `maxFiles` = 10: the modular config value, and the literal 10 of `frontend/script.js:235`. |
| `State.DetectUrlFollowsPage` | backend/static/js/state.js:5-9 | The modular detection URL is the page's protocol, "//", the host, then "/api/v1/detect", so requests go to the origin that served the page. |
| `Routes.ClientsUseTheRoute` | backend/api/routes.py:8 | The URLs of both front ends (the page origin, and the fixed localhost URL of `frontend/script.js:22`) end in the route the handler is registered on. |
| `State.AppState.UpdateState` | backend/static/js/state.js:25-27 | After `updateState(p)`, the state's fields equal `Object.assign` of the old fields with the patch. |
| `State.Assign` | backend/static/js/state.js:25-27 | `Object.assign` as a value: each field the patch names takes the patch's value, and an empty patch gives back the old fields. |
| `State.AssignOverwritesNamedFields` | backend/static/js/state.js:25-27 | Each field named in the patch takes the patch's value; each unnamed field keeps its old value. |
| `State.AssignEmptyAndIdempotent` | backend/static/js/state.js:25-27 | An empty patch changes nothing, and applying the same patch twice equals applying it once. |
| `State.Staged` | backend/static/js/files.js:26-30 | A freshly read file has name, type and data URL, and no overlay and no detections, so overlay and detections are paired. |
| `State.ImageEntry.constructor` | backend/static/js/files.js:26-30 | The object pushed for a completed read holds exactly the staged record `{name, type, dataURL}`. |
| `State.ImageEntry.FromRecord` | backend/static/js/db.js:90-91 | A loaded object holds exactly the stored record. |
| `State.ImageList.Push` | backend/static/js/files.js:26 | `push` appends the object at the end and leaves every earlier element in place. |
| `State.ImageList.SpliceOne` | backend/static/js/files.js:90 | `splice(start, 1)` leaves the array holding `Js.SpliceOne` of its old contents. |
| `Js.SliceTo` | backend/static/js/files.js:21 | `slice(0, end)` returns the prefix of the input whose length is `end` resolved against the input's length: clamped to the length, and counted from the end when negative. |
| `Js.SpliceOne` | backend/static/js/files.js:90 | `splice(start, 1)` removes one element when the resolved start is inside the array, and nothing when it is at the end. |
| `Js.Rem` | backend/static/js/lightbox.js:40-45 | JavaScript `%` with a positive divisor keeps the dividend's sign: the result is in [0, n) for a non-negative dividend and in (-n, 0] for a negative one, and it differs from the dividend by a multiple of n. |
| `Db.InitIndexedDB` | backend/static/js/db.js:4-28 | A failed open clears `dbAvailable` and rejects, leaving the handle alone. A successful open keeps the handle. The "uploadedImages" store is created, empty, only during an upgrade and only when it is missing. `frontend/script.js:25-51` behaves the same. |
| `Db.SaveStep` | backend/static/js/db.js:30-74 | One save on the flags: availability is never restored, the warned flag is never cleared, a warning is shown only from an unwarned state and leaves persistence off, a commit leaves the flags alone, and any other outcome either disables persistence or leaves the flags alone. |
| `Db.SaveSkippedWhenUnavailable` | backend/static/js/db.js:31-33 | A save while persistence is unavailable, or without a handle, writes nothing, changes no flag and shows no warning. |
| `Db.SaveFlagsOneWay` | backend/static/js/db.js:48-54 | One save never restores availability and never clears the warned flag. A QuotaExceededError put disables persistence and sets the warned flag. Any other put error leaves the flags alone. A missing store or an exception while opening the transaction disables persistence. The warning shows exactly when a quota error meets an unwarned state. The snapshot is written exactly on commit. |
| `Db.UnavailableStaysQuiet` | backend/static/js/db.js:31-33 | Once persistence is unavailable, any run of further saves leaves the flags unchanged and shows no warning. |
| `Db.WarnedAtMostOnce` | backend/static/js/db.js:51-54 | Over any run of saves, the storage warning is shown at most once, and never after it has been shown. Availability never comes back. `frontend/script.js:79-82` behaves the same. |
| `Db.QuotaOnSecondWrite` | backend/static/js/db.js:48-54 | A committed write followed by a quota failure, then any writes, ends with persistence unavailable, the warned flag set and exactly one warning. |
| `Db.SaveImages` | backend/static/js/db.js:30-74 | The save's flags and warning follow the one-step save machine. On commit the store holds exactly the current list under "images". Otherwise the store is unchanged. If the state was valid and every stored array was paired, every stored array is still paired. `frontend/script.js:54-102` behaves the same. |
| `Db.LoadOnlyNonEmptyArrays` | backend/static/js/db.js:90 | A load installs a list if and only if persistence is available, the handle and the store exist, the read succeeds and the stored value under "images" is a non-empty array. The installed list is that array. |
| `Db.LoadImages` | backend/static/js/db.js:76-106 | The load returns whether it installed a list. If it did, `uploadedFiles` is a new array of new, distinct objects holding the stored records in order. Otherwise `uploadedFiles` is unchanged. A list loaded from a store whose arrays are all paired leaves the state valid, and a load that installs nothing keeps a valid state valid. |
| `Db.SaveThenLoad` | backend/static/js/db.js:43 | Round trip: a committed save of a non-empty list followed by a successful load gives back the same records in the same order. An empty list is saved but not restored. |
| `Db.LoadStep` | backend/static/js/db.js:76-106 | A load yields a list only when persistence is available, the handle and the store exist and the read succeeds. The list is non-empty and is exactly the array stored under "images". |
| `Files.AdmittedFromSettled` | backend/static/js/files.js:21 | From a length at most the capacity, one call admits the first min(\|files\|, capacity - length) files in input order, and cannot take the list past the capacity. |
| `Files.AdmittedWhenOverfull` | backend/static/js/files.js:21 | Over capacity, `slice(0, capacity - length)` still admits all but the last (length - capacity) files. |
| `Files.OverlappingSelectionsOverfill` | backend/static/js/files.js:21-30 | From 8 staged images, two selections of 2 files each made before any read completes admit 4 files, ending at 12. A third selection of 3 files then admits 1. |
| `Files.SettledSelectionsKeepFirstArrivals` | backend/static/js/files.js:21 | Selections that each settle before the next keep exactly the first `capacity` files in arrival order, or all of them when there are fewer. |
| `Files.HandleFiles` | backend/static/js/files.js:6-37 | Clears the output tiles, disables download and returns the files to read, `slice(0, capacity - length)` at call time. The modular copy does nothing when a grid or the download button is missing (line 11). `frontend/script.js:226-250` behaves the same. |
| `Files.Admitted` | backend/static/js/files.js:21 | The admitted files are a prefix of the selection. From a length at most the capacity, it has min(\|files\|, capacity - length) files. |
| `Files.PushStaged` | backend/static/js/files.js:26-30 | The push appends one new `{name, type, dataURL}` object at the end, changes no earlier record, and keeps the list free of repeated objects. |
| `Files.PushAndSave` | backend/static/js/files.js:26-32 | After the push, the save sees the longer list. Flags, warning and stored snapshot follow `Db.SaveStep`. |
| `Files.OnFileLoaded` | backend/static/js/files.js:25-34 | A completed read appends `{name, type, dataURL}` at the end and changes no earlier entry. It then saves the full list, re-renders, and enables preview. `frontend/script.js:239-244` behaves the same. |
| `Files.OverlappingSelections` | backend/static/js/files.js:21-34 | Running the file handler and the read callbacks together: from 8 staged images, two selections of 2 files end with 12 images staged, more than the capacity. |
| `Files.TilesFor` | backend/static/js/files.js:118-120 | A render makes one tile per image, and the k-th tile carries file index k. |
| `Files.DisplayImagePreviews` | backend/static/js/files.js:118-120 | The grid is rebuilt as one tile per entry, in order, each carrying its position and its data URL. |
| `Files.RefreshImagePreviews` | backend/static/js/files.js:96-131 | The grid shows one tile per image with its current position and data URL, and the output grid is empty. The input placeholder shows if and only if there are no tiles. Delete-all is visible and preview enabled if and only if the list is non-empty. The modular copy does nothing without its grids. `frontend/script.js:307-335` behaves the same. |
| `Files.RemoveAtPosition` | backend/static/js/files.js:90 | `splice(i, 1)` removes exactly position i: earlier entries stay and later ones move down by one. An index at or past the end removes nothing. A negative index counts from the end. |
| `Files.RemoveTwiceRemovesNeighbours` | backend/static/js/files.js:90 | Removing at i twice removes the two originally adjacent entries i and i + 1. |
| `Files.SpliceKeepsDistinct` | backend/static/js/files.js:90 | Splicing keeps the list free of repeated objects and introduces no new object. |
| `Files.SpliceFiles` | backend/static/js/files.js:90 | Splicing the live array gives `Js.SpliceOne` of the old objects and of the old records, and keeps the list invariant. |
| `Files.SpliceAndSave` | backend/static/js/files.js:90-91 | After the splice, the save sees the shortened list. Flags, warning and stored snapshot follow `Db.SaveStep`. |
| `Files.RemoveImagePreview` | backend/static/js/files.js:87-94 | Removal splices the live array in place. It then saves the full list, re-renders and disables download. `frontend/script.js:299-305` behaves the same. |
| `Canvas.DrawDetectionsOnImage` | backend/static/js/canvas.js:2-55 | The renderer returns `Render` of the data URL it was given: a canvas of that image's natural size, that image drawn at the origin, then each detection's drawing calls in order. `frontend/script.js:425-488` behaves the same. |
| `Canvas.Render` | backend/static/js/canvas.js:4-19 | The canvas has the natural size of the image behind the source URL, and its first drawing call draws that image at the origin. |
| `Canvas.OverlayOps` | backend/static/js/canvas.js:20-47 | Each box gives one to three drawing calls, and the first call for the first box is its stroke. |
| `Canvas.OneStrokePerBox` | backend/static/js/canvas.js:20-29 | There is exactly one stroke per detection, in input order. Each is at (x - w/2, y - h/2) with size (w, h) and the common colour and line width. No size is rejected. |
| `Canvas.WorkedExample` | backend/static/js/canvas.js:26-29 | Centre (100, 50) with size (20, 10) is stroked at (90, 45, 20, 10). |
| `Canvas.LabelAboveBox` | backend/static/js/canvas.js:31-46 | A box with a truthy `type` gets a background and a text after its stroke. The background starts at the box's left edge, ends 5 above its top edge and is the text width plus 8 wide. The text sits 4 right of the edge, inside the background. A box without a type gets the stroke alone. `frontend/script.js:461-478` behaves the same. |
| `Canvas.LabelsOnlyWhenTyped` | backend/static/js/canvas.js:31 | The texts written are exactly the truthy `type` values, in input order. |
| `Canvas.LabelColors` | backend/static/js/canvas.js:36-44 | Every label background is green and every label text black, and the base image is drawn only once. |
| `Canvas.NoBoxesBaseImageOnly` | backend/static/js/canvas.js:19 | A null or empty detection list gives the base image alone, at the source's size. |
| `Ui.Display` | backend/static/js/lightbox.js:30 | The picture for an image is its overlay exactly when it has one, and otherwise its data URL. |
| `Ui.Page.UpdateDeleteAllButtonVisibility` | backend/static/js/ui.js:4-13 | Delete-all is visible if and only if the list is non-empty. |
| `Ui.Page.UpdatePreviewButtonState` | backend/static/js/ui.js:15-20 | Preview is disabled if and only if the list is empty. |
| `App.RequestsFor` | backend/static/js/app.js:130-135 | The k-th request of a batch is `{subject, image: dataURL, filename: name, type}` of the k-th staged image. |
| `App.Annotate` | backend/static/js/app.js:151-163 | A response that does not annotate leaves the image as it was. One that does sets an overlay and the response's detections. Name, type and data URL never change. |
| `App.AnnotateSetsPair` | backend/static/js/app.js:143-163 | Per-image failure isolation: a throw, a non-ok status, or an ok response without objects leaves the image as it was. Otherwise the overlay and detections are set together, so pairing is preserved. The overlay is the image's own data URL drawn at the origin of a canvas of that image's natural size, with one stroke per detection. Name, type and data URL never change. |
| `App.FirstTile` | backend/static/js/app.js:125 | `querySelector` returns the first tile, in document order, that carries the index, and none when no tile does. |
| `App.CompletedFor` | backend/static/js/app.js:165-167 | The completion animation runs for image k exactly when its response is ok and its tile exists, with or without objects. |
| `App.TilesAfterStep` | backend/static/js/app.js:154-159 | One more response changes only the first tile carrying its index, and only when the response annotates. No tile's index changes. |
| `App.BatchTilesMatchLightbox` | backend/static/js/app.js:151-163 | On a freshly rendered grid, after a batch each tile k still carries index k and shows what the lightbox shows for image k. |
| `App.EntryIterator.Next` | backend/static/js/app.js:123 | The `entries()` iterator yields (index, element) from the array's live length and contents, and stays exhausted once done. |
| `App.ProcessEntry` | backend/static/js/app.js:124-170 | For one entry: the request is built from the entry as it stood, and the entry becomes `Annotate` of its record. No other entry of the list changes. The first tile carrying the index shows the overlay only on an annotating response. Completion runs on every ok response whose tile exists. `frontend/script.js:517-574` behaves the same. |
| `App.AnnotateEntries` | backend/static/js/app.js:123-171 | With no other event interleaved, the batch sends one request per entry in ascending position order. Each entry's record becomes `Annotate` of its own response, as `AnnotatedPrefix` gives it. Tiles and completions are as `TilesAfter` and `CompletedFor` give them. |
| `App.AnnotateNext` | backend/static/js/app.js:123-163 | One turn of the loop: the iterator moves from position i to i + 1, entry i is annotated by response i, and tile rendering is extended by that response. The request is built from entry i as it stood. Completion runs exactly when the response is ok and the tile exists. |
| `App.AnnotatedPrefixKeepsPaired` | backend/static/js/app.js:161-162 | Annotating any prefix of a batch keeps every image's overlay and detections set together. |
| `App.RunPreviewBatch` | backend/static/js/app.js:115-175 | An empty list is a no-op. Otherwise the entries are annotated in order and the list invariant is kept. The preview button is re-derived from the list length. The stored snapshot is untouched, because the batch never saves. `frontend/script.js:506-580` behaves the same. |
| `App.RemoveFirstInPlace` | backend/static/js/files.js:90 | Removing position 0 keeps the same array object and leaves its tail. An iterator holding that array sees the shift. |
| `App.ReplaceWithEmpty` | backend/static/js/app.js:184 | A confirmed delete-all installs a new, empty array and keeps the list invariant. The old array object is left as it was. |
| `App.AnnotateOne` | backend/static/js/app.js:151-163 | An annotating response leaves an overlay on the entry being processed, whether or not the list still holds it. |
| `App.RemovalDuringBatchSkipsEntry` | backend/static/js/app.js:123 | Removing position 0 after the iterator has yielded it means the batch visits the old entries 0 and 2, never entry 1. |
| `App.DeleteAll` | backend/static/js/app.js:178-195 | An empty list or a refused confirmation changes nothing. Otherwise a new empty array is installed and saved, the page shows an empty list, the output grid is emptied and download is disabled. `frontend/script.js:583-603` behaves the same. |
| `App.DeleteAllDuringBatchAnnotatesDetached` | backend/static/js/app.js:184 | A delete-all in the middle of a batch leaves the iterator on the old array. The second old entry is still annotated, but it is no longer staged. |
| `App.OpenAndLoad` | backend/static/js/app.js:34-39 | The open-then-load chain: an open failure sets session-only mode and keeps the list. A successful open loads by the load rule. A valid state stays valid when every array in the store is paired. |
| `App.Startup` | backend/static/js/app.js:34-45 | An open failure leaves session-only mode with the list unchanged. A successful open keeps the handle and loads by the load rule. A valid state stays valid when every array in the store is paired. The modular copy always renders at the end. `frontend/script.js:116-149` renders only when a list was loaded. |
| `Lightbox.OpenLightbox` | backend/static/js/lightbox.js:12-19 | An empty list changes nothing. Otherwise the index is set to the argument as given, the modal opens, and the view is updated when that index names an entry. `frontend/script.js:657-664` behaves the same. |
| `Lightbox.CloseLightbox` | backend/static/js/lightbox.js:21-24 | The modal is no longer active. |
| `Lightbox.UpdateLightboxImage` | backend/static/js/lightbox.js:26-37 | When the index names an entry, the display shows its overlay or data URL, the counter "(i + 1) / n", and prev/next exactly when n > 1. Otherwise nothing changes. |
| `Lightbox.ShowPreviousImage` | backend/static/js/lightbox.js:39-42 | The index becomes `(i - 1 + n) % n` with JavaScript's remainder (NaN for n = 0), and the display is updated. `frontend/script.js:687-690` behaves the same. |
| `Lightbox.ShowNextImage` | backend/static/js/lightbox.js:44-47 | The index becomes `(i + 1) % n` with JavaScript's remainder (NaN for n = 0), and the display is updated. `frontend/script.js:692-695` behaves the same. |
| `Lightbox.Next` | backend/static/js/lightbox.js:45 | The next index is NaN exactly when the index is NaN or the list is empty, and a valid position stays a valid position. |
| `Lightbox.Previous` | backend/static/js/lightbox.js:40 | The previous index is NaN exactly when the index is NaN or the list is empty, and a valid position stays a valid position. |
| `Lightbox.StepsStayInRange` | backend/static/js/lightbox.js:40-45 | From a valid position, next goes to i + 1 and wraps from n - 1 to 0. Previous goes to i - 1 and wraps from 0 to n - 1. |
| `Lightbox.StepsAreInverse` | backend/static/js/lightbox.js:40-45 | Next then previous, and previous then next, return to the same position. |
| `Lightbox.NextNAdvances` | backend/static/js/lightbox.js:45 | Pressing next k times from position i gives (i + k) mod n. |
| `Lightbox.FullCycleReturns` | backend/static/js/lightbox.js:45 | Pressing next n times returns to the start. |
| `Lightbox.BrowsingKeepsShowing` | backend/static/js/lightbox.js:26-47 | From a shown image, next and previous show an image again, with the counter wrapping between n and 1. The buttons appear exactly when n > 1. The picture is the overlay exactly when the image has one. |
| `Legacy.KeptIsFirstTen` | script.js:57 | A selection keeps its first min(\|files\|, 10) files in input order. That is what the newer front end admits into an empty list. |
| `Legacy.LegacyApp.constructor` | script.js:112-116 | The page starts with nothing staged and both placeholder texts inside their grids and shown. |
| `Legacy.LegacyApp.HandleFiles` | script.js:47-67 | A selection discards the staged files and both grids and disables download. It then stages the first ten files in order. Clearing the grids detaches both placeholder texts, so neither is shown afterwards; the display flags that the code sets (input text for an empty selection, output text always) apply to detached elements. |
| `Legacy.LegacyApp.OnPreviewRead` | script.js:69-83 | A completed read appends its tile, whichever selection started it. |
| `Legacy.LegacyApp.Process` | script.js:85-110 | An empty list shows the alert and changes nothing. Otherwise there is one output per staged file, the output text is detached and hidden, and download is enabled. The output placeholder is never shown afterwards. |
| `Legacy.SelectTwice` | script.js:48 | After two selections, only the second one's files are staged, and neither placeholder text is shown. |
| `Detector.NormalizeSubject` | backend/engine/detector.py:8-22 | Every subject, absent, empty, "face"/"faces" in any case and padding, or anything else, normalises to "face". |
| `Detector.Detect` | backend/engine/detector.py:25-73 | A ValueError unless the shape has three dimensions with three channels. Otherwise exactly one box per face location, in order, each the location's centre box. The unsupported-subject branch is unreachable. |
| `Detector.RoundHalfEven` | backend/engine/detector.py:66-67 | Python's `round` returns an integer within 1/2 of its argument, resolves a tie to the even neighbour, and leaves integers unchanged. |
| `Detector.CenterBox` | backend/engine/detector.py:55-71 | A face location's box is typed "face", has the location's width and height, and has its centre within 1/2 of the exact centre. |
| `Detector.CenterBoxGeometry` | backend/engine/detector.py:55-71 | Each box is typed "face", with w = right - left and h = bottom - top, and its centre is within 1/2 of the exact centre. For even w (h), centre minus half the size gives back left (top) exactly. |
| `Detector.CornerRoundTrip` | backend/engine/detector.py:60-61 | Across the API, the corner the front end strokes for a returned box is within 1/2 of the face location's (left, top), and is exactly it for even sizes. |
| `Routes.PayloadRoundTrip` | backend/api/routes.py:25-26 | For "header,payload" with no comma in either part, the split returns the payload exactly. A URL without a comma has no second piece. |
| `Routes.CentredBoxInside` | backend/api/routes.py:36-39 | The dummy box with centre (width // 2, height // 2) and size (width // 3, height // 3) lies inside the image. |
| `Routes.Handle` | backend/api/routes.py:10-53 | Every answer has code 200 or 400. A 200 carries exactly one object and a 400 none. The answer is 200 if and only if the body is an object whose "image" is a string, whose `split(",")` has a second piece, and whose payload decodes to an image size. |
| `Routes.FailedDetection` | backend/api/routes.py:25-30 | A string "image" without a comma gives the 400 answer for Python's IndexError text. A payload that cannot be decoded gives the 400 answer carrying the decoder's text. Both messages begin "Detection failed: ". The handler at lines 48-53 builds that answer. |
| `Routes.ReplyShapes` | backend/api/routes.py:10-53 | Every answer is either a 200 "success" with exactly one object, or a 400 "error" with no objects. The 400 message is the empty-body text or begins "Detection failed: ". A falsy body always gets the empty-body answer. |
| `Routes.SuccessfulDetection` | backend/api/routes.py:25-46 | A body whose data URL carries a decodable payload succeeds with the centred box of the decoded size. Its `type` is the request's subject, or "face" when the key is absent. |

## Left out

- Asynchronous interleaving is modelled on a single thread with these atomic steps:
  - one per event handler and per FileReader callback;
  - one per batch turn, from the tile lookup through the annotation (`app.js:125-163`), although the source awaits three times inside it (`fetch` at :137, `response.json()` at :148, `drawDetectionsOnImage` at :152);
  - one per save, from the transaction setup through its completion (`db.js:36-67`), although the source runs it over three callbacks.
  The interleavings modelled explicitly are a read finishing after another selection, and a removal or a delete-all between two turns of a batch.
- A removal or a delete-all that arrives while a batch turn is awaiting is not modelled. In the source, the turn then writes the overlay into the tile it looked up before the await. The re-render has detached that tile, so the overlay never reaches the page. `App.RemovalDuringBatchSkipsEntry` and `App.DeleteAllDuringBatchAnnotatesDetached` place the event between turns, so they capture the iterator and the entry objects but not this lost tile update.
- A change to the list while a save is running is not modelled. The put stores `state.uploadedFiles` as it stands when the clear succeeds (`db.js:43-57`), not as it stood when the save was called. `Db.SaveImages` stores the list as of the call.
- The progress animation (`backend/static/js/animations.js` and its copy in `frontend/script.js`) is left out. It is driven by timers, `performance.now`, `Math.random` and floating-point easing.
- DOM presentation is left out:
  - tile elements and styling;
  - the theme switch;
  - drag-over colours and the drag counter (the `dragCounter` field is kept but never changed);
  - keyboard and click listeners;
  - the placeholder output of the process button in `app.js` and `frontend/script.js`.
- The loading text of the preview button is left out.
- Browser and library computations are inputs, not modelled:
  - IndexedDB;
  - FileReader;
  - fetch;
  - `Image` and canvas pixel output;
  - `measureText`;
  - `face_recognition.face_locations`;
  - base64 and PIL decoding.
- Canvas.DrawDetectionsOnImage: the encoded PNG is modelled as the canvas size plus the list of drawing calls, not as pixels. A source image that fails to load, which leaves the promise unresolved, is not modelled.
- Db.SaveImages: a failed clear or put is assumed to abort the clear-then-put transaction, leaving the store as it was. This is IndexedDB's abort rule, which the model does not derive.
- Routes.Handle: the exception texts after "Detection failed: " are approximations of Python's messages. Flask's content-type handling in `get_json` is reduced to the body value it returns.
- Detector.NormalizeSubject: `strip` and `lower` are modelled on ASCII only. The result is "face" whatever they do.
- Detector.RoundHalfEven: it rounds the exact rational centre. Python's float arithmetic gives the same result for pixel coordinates of ordinary size.
- JSON numbers of detections are modelled as reals, not as IEEE doubles.
- After a re-render, the tiles show each image's data URL even when it has an overlay; the lightbox shows the overlay. The model states both as the code does and does not reconcile them.
- In the root `script.js`, a read started by an earlier selection can still append its tile after a newer selection cleared the grid. `Legacy.LegacyApp.OnPreviewRead` models that append, but tile order across selections is not tracked.
- A missing element crashes `frontend/script.js`, and that crash is not modelled. Its methods are modelled assuming every element exists.
- Ui.Page.UpdateDeleteAllButtonVisibility and Ui.Page.UpdatePreviewButtonState: the early return of `backend/static/js/ui.js` (lines 6 and 17) when the button is missing is not modelled. The page is assumed to have the delete-all and preview buttons. The page markup is not part of this model.
- App.DeleteAll: without a download button, `app.js:193` throws after the save, the re-render and the clearing of the output grid. The model skips that assignment instead. The state is the same, but the thrown `TypeError` is not modelled.
- `backend/api/app.py`, `backend/cli/main.py`, `backend/engine/image_adapter.py` and `backend/api/schemas.py` are not part of this model: they are wiring, file-system handling, foreign-library conversion and type declarations.
