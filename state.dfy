/**
 * The shared application state of backend/static/js/state.js: the staged
 * images, the persistence flags, the database handle, the drag counter and
 * the lightbox index, together with the configuration (capacity and the
 * detection endpoint) and `updateState`.
 *
 * JavaScript objects that the code mutates in place are classes here: an
 * element of `uploadedFiles` (ImageEntry), the array itself (ImageList), the
 * opened IndexedDB database (Database) and the `state` record (AppState).
 */
module State {
  import opened Wrappers
  import Js
  import Canvas

  /** The value of one staged image: `{name, type, dataURL, previewImage?, detections?}`. */
  datatype ImageRecord = ImageRecord(
    name: string,
    mimeType: string,
    dataUrl: string,
    previewImage: Option<Canvas.Png>,
    detections: Option<seq<Canvas.Box>>)

  /** A staged image carries an overlay exactly when it carries the detections drawn on it. */
  predicate Paired(r: ImageRecord)
  {
    r.previewImage.Some? <==> r.detections.Some?
  }

  /** A freshly read file: name, MIME type and data URL, not yet annotated. */
  function Staged(name: string, mimeType: string, dataUrl: string): (r: ImageRecord)
    ensures Paired(r) && r.previewImage.None?
  {
    ImageRecord(name, mimeType, dataUrl, None, None)
  }

  /** One element of `uploadedFiles`: an object the annotation batch updates in place. */
  class ImageEntry {
    var name: string
    var mimeType: string
    var dataUrl: string
    var previewImage: Option<Canvas.Png>
    var detections: Option<seq<Canvas.Box>>

    /** The object `{name, type, dataURL}` that a completed file read pushes. */
    constructor (name: string, mimeType: string, dataUrl: string)
      ensures Record() == Staged(name, mimeType, dataUrl)
    {
      this.name := name;
      this.mimeType := mimeType;
      this.dataUrl := dataUrl;
      this.previewImage := None;
      this.detections := None;
    }

    /** The object a structured clone of a stored record produces. */
    constructor FromRecord(r: ImageRecord)
      ensures Record() == r
    {
      name := r.name;
      mimeType := r.mimeType;
      dataUrl := r.dataUrl;
      previewImage := r.previewImage;
      detections := r.detections;
    }

    function Record(): ImageRecord
      reads this
    {
      ImageRecord(name, mimeType, dataUrl, previewImage, detections)
    }
  }

  /** The values of a list of entries, position by position. */
  function Records(es: seq<ImageEntry>): (r: seq<ImageRecord>)
    reads es
    ensures |r| == |es|
    ensures forall k :: 0 <= k < |es| ==> r[k] == es[k].Record()
  {
    seq(|es|, k requires 0 <= k < |es| reads es => es[k].Record())
  }

  /** Every record of a list has its overlay and detections set together. */
  predicate AllPaired(rs: seq<ImageRecord>)
  {
    forall r :: r in rs ==> Paired(r)
  }

  /** No object occurs twice in a list. */
  predicate Distinct(es: seq<ImageEntry>)
  {
    forall i, j :: 0 <= i < j < |es| ==> es[i] != es[j]
  }

  /** A JavaScript array of staged images: `push` and `splice` change it in place. */
  class ImageList {
    var items: seq<ImageEntry>

    constructor (items: seq<ImageEntry>)
      ensures this.items == items
    {
      this.items := items;
    }

    /** `array.push(e)`. */
    method Push(e: ImageEntry)
      modifies this
      ensures items == old(items) + [e]
    {
      items := items + [e];
    }

    /** `array.splice(start, 1)`. */
    method SpliceOne(start: int)
      modifies this
      ensures items == Js.SpliceOne(old(items), start)
    {
      items := Js.SpliceOne(items, start);
    }
  }

  /** A value stored under a key: an array of image records, or anything else (including a falsy value). */
  datatype StoredValue = ImageArray(records: seq<ImageRecord>) | NotAnArray

  /** The key under which the whole list is stored, and the store's name. */
  const ImagesKey := "images"
  const StoreName := "uploadedImages"

  /** An opened IndexedDB database "ImageAnonymizer": whether it has the store, and the store's contents. */
  class Database {
    var hasImageStore: bool
    var images: map<string, StoredValue>

    constructor (hasImageStore: bool, images: map<string, StoredValue>)
      ensures this.hasImageStore == hasImageStore && this.images == images
    {
      this.hasImageStore := hasImageStore;
      this.images := images;
    }
  }

  /** A JavaScript number used as the lightbox index: an integer, or NaN after a remainder by zero. */
  datatype LightboxIndex = At(i: int) | NaN

  /** Which copy of the front end: the modules under backend/static/js, or the single frontend/script.js. */
  datatype Variant = Modular | Monolithic

  /** `config.maxFiles`. */
  const MaxFiles: nat := 10

  /** The capacity each variant checks against: `config.maxFiles`, or the literal 10 of the single script. */
  function Capacity(v: Variant): (c: nat)
    ensures c == MaxFiles
  {
    match v
    case Modular => MaxFiles
    case Monolithic => 10
  }

  const DetectPath := "/api/v1/detect"

  /** `getApiBaseUrl()`: the page's protocol (with its colon) and host. */
  function ApiBaseUrl(protocol: string, host: string): string
  {
    protocol + "//" + host
  }

  /** `config.detectApiUrl`, or the single script's fixed URL. */
  function DetectApiUrl(v: Variant, protocol: string, host: string): string
  {
    match v
    case Modular => ApiBaseUrl(protocol, host) + DetectPath
    case Monolithic => "http://localhost:5001" + DetectPath
  }

  /** The modular URL is the page's own origin followed by the detection path, so the request goes to the server that served the page. */
  lemma DetectUrlFollowsPage(protocol: string, host: string)
    ensures DetectApiUrl(Modular, protocol, host) == protocol + "//" + host + "/api/v1/detect"
    ensures DetectApiUrl(Modular, protocol, host)[..|protocol|] == protocol
    ensures DetectApiUrl(Modular, protocol, host)[|protocol| + 2 + |host|..] == DetectPath
  {
    var u := DetectApiUrl(Modular, protocol, host);
    assert u == protocol + ("//" + host + DetectPath);
    assert u == (protocol + "//" + host) + DetectPath;
  }

  /** The fields of `state`, as a value. */
  datatype Fields = Fields(
    uploadedFiles: ImageList,
    dbAvailable: bool,
    userWarnedAboutStorage: bool,
    dragCounter: int,
    db: Database?,
    currentLightboxIndex: LightboxIndex)

  /** The argument of `updateState`: an object naming some of the fields. */
  datatype StatePatch = StatePatch(
    uploadedFiles: Option<ImageList>,
    dbAvailable: Option<bool>,
    userWarnedAboutStorage: Option<bool>,
    dragCounter: Option<int>,
    db: Option<Database?>,
    currentLightboxIndex: Option<LightboxIndex>)

  const EmptyPatch := StatePatch(None, None, None, None, None, None)

  function Pick<T>(o: Option<T>, current: T): T
  {
    if o.Some? then o.value else current
  }

  /** `Object.assign(state, patch)`: every named field takes the patch's value. */
  function Assign(f: Fields, p: StatePatch): (g: Fields)
    ensures p.uploadedFiles.Some? ==> g.uploadedFiles == p.uploadedFiles.value
    ensures p.dbAvailable.Some? ==> g.dbAvailable == p.dbAvailable.value
    ensures p.userWarnedAboutStorage.Some? ==> g.userWarnedAboutStorage == p.userWarnedAboutStorage.value
    ensures p.dragCounter.Some? ==> g.dragCounter == p.dragCounter.value
    ensures p.db.Some? ==> g.db == p.db.value
    ensures p.currentLightboxIndex.Some? ==> g.currentLightboxIndex == p.currentLightboxIndex.value
    ensures p == EmptyPatch ==> g == f
  {
    Fields(
      Pick(p.uploadedFiles, f.uploadedFiles),
      Pick(p.dbAvailable, f.dbAvailable),
      Pick(p.userWarnedAboutStorage, f.userWarnedAboutStorage),
      Pick(p.dragCounter, f.dragCounter),
      Pick(p.db, f.db),
      Pick(p.currentLightboxIndex, f.currentLightboxIndex))
  }

  /** A named field is overwritten, an unnamed one keeps its value. */
  lemma AssignOverwritesNamedFields(f: Fields, p: StatePatch)
    ensures Assign(f, p).dbAvailable == (if p.dbAvailable.Some? then p.dbAvailable.value else f.dbAvailable)
    ensures Assign(f, p).userWarnedAboutStorage == (if p.userWarnedAboutStorage.Some? then p.userWarnedAboutStorage.value else f.userWarnedAboutStorage)
    ensures Assign(f, p).uploadedFiles == (if p.uploadedFiles.Some? then p.uploadedFiles.value else f.uploadedFiles)
    ensures Assign(f, p).dragCounter == (if p.dragCounter.Some? then p.dragCounter.value else f.dragCounter)
    ensures Assign(f, p).db == (if p.db.Some? then p.db.value else f.db)
    ensures Assign(f, p).currentLightboxIndex == (if p.currentLightboxIndex.Some? then p.currentLightboxIndex.value else f.currentLightboxIndex)
  {
  }

  /** An empty update changes nothing, and an update applied twice is the update applied once. */
  lemma AssignEmptyAndIdempotent(f: Fields, p: StatePatch)
    ensures Assign(f, EmptyPatch) == f
    ensures Assign(Assign(f, p), p) == Assign(f, p)
  {
  }

  /** The module-level `state` object. */
  class AppState {
    var uploadedFiles: ImageList
    var dbAvailable: bool
    var userWarnedAboutStorage: bool
    var dragCounter: int
    var db: Database?
    var currentLightboxIndex: LightboxIndex

    /** The initial `state`: no images, persistence assumed available, no warning yet, no database handle. */
    constructor ()
      ensures fresh(uploadedFiles) && uploadedFiles.items == []
      ensures dbAvailable && !userWarnedAboutStorage
      ensures dragCounter == 0 && db == null && currentLightboxIndex == At(0)
      ensures Valid()
    {
      uploadedFiles := new ImageList([]);
      dbAvailable := true;
      userWarnedAboutStorage := false;
      dragCounter := 0;
      db := null;
      currentLightboxIndex := At(0);
    }

    /** The staged images as values, in order. */
    function Files(): seq<ImageRecord>
      reads this`uploadedFiles, uploadedFiles, uploadedFiles.items
    {
      Records(uploadedFiles.items)
    }

    /** The list holds distinct objects, each with its overlay and detections set together. */
    ghost predicate Valid()
      reads this`uploadedFiles, uploadedFiles, uploadedFiles.items
    {
      Distinct(uploadedFiles.items) && AllPaired(Files())
    }

    function Snapshot(): Fields
      reads this
    {
      Fields(uploadedFiles, dbAvailable, userWarnedAboutStorage, dragCounter, db, currentLightboxIndex)
    }

    /** `updateState(patch)`. */
    method UpdateState(p: StatePatch)
      modifies this
      ensures Snapshot() == Assign(old(Snapshot()), p)
    {
      if p.uploadedFiles.Some? { uploadedFiles := p.uploadedFiles.value; }
      if p.dbAvailable.Some? { dbAvailable := p.dbAvailable.value; }
      if p.userWarnedAboutStorage.Some? { userWarnedAboutStorage := p.userWarnedAboutStorage.value; }
      if p.dragCounter.Some? { dragCounter := p.dragCounter.value; }
      if p.db.Some? { db := p.db.value; }
      if p.currentLightboxIndex.Some? { currentLightboxIndex := p.currentLightboxIndex.value; }
    }
  }
}
