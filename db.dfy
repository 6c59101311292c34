/**
 * The best-effort durable backing of backend/static/js/db.js (and its copy in
 * frontend/script.js): open the "ImageAnonymizer" database, save the whole
 * list as one snapshot under the key "images" (clear, then put), and load it
 * back at startup. The browser's answers (open, write, read outcomes) are
 * inputs; the two flags `dbAvailable` and `userWarnedAboutStorage` form a
 * one-way state machine driven by the write outcomes.
 */
module Db {
  import opened Wrappers
  import opened State

  /** What `indexedDB.open` delivers: the database (and whether an upgrade ran first), or an error. */
  datatype OpenOutcome = Opened(database: Database, upgradeNeeded: bool) | OpenFailed

  /**
   * How a clear-then-put transaction ends: committed; aborted because the
   * clear failed; aborted because the put failed with an error of the given
   * name; or a synchronous exception while setting the transaction up.
   */
  datatype WriteOutcome = Committed | ClearFailed | PutFailed(errorName: string) | SetupThrew

  /** How the read of the key "images" ends. */
  datatype ReadOutcome = ReadSucceeded | ReadFailed | ReadThrew

  const QuotaExceededError := "QuotaExceededError"

  /** The persistence flags: `dbAvailable` and `userWarnedAboutStorage`. */
  datatype Flags = Flags(dbAvailable: bool, warned: bool)

  /** The effect of one save: the new flags, whether the snapshot was written, whether the quota warning was shown. */
  datatype SaveEffect = SaveEffect(flags: Flags, committed: bool, alerted: bool)

  /** The store contents after a committed save: the clear leaves nothing, the put adds the list under "images". */
  function Snapshot(files: seq<ImageRecord>): map<string, StoredValue>
  {
    map[ImagesKey := ImageArray(files)]
  }

  /**
   * One call of `saveImagesToIndexedDB` on a connection (`connected`) whose
   * database has the image store or not (`hasStore`; without it, opening the
   * transaction throws). An aborted transaction leaves the store unchanged.
   */
  function SaveStep(f: Flags, connected: bool, hasStore: bool, o: WriteOutcome): (e: SaveEffect)
    ensures e.flags.dbAvailable ==> f.dbAvailable
    ensures f.warned ==> e.flags.warned
    ensures e.alerted ==> !f.warned && e.flags.warned && !e.flags.dbAvailable
    ensures e.committed ==> e.flags == f && o == Committed
    ensures !e.committed && !e.alerted && e.flags.dbAvailable ==> e.flags == f
  {
    if !f.dbAvailable || !connected then SaveEffect(f, false, false)
    else if !hasStore || o.SetupThrew? then SaveEffect(Flags(false, f.warned), false, false)
    else match o
      case Committed => SaveEffect(f, true, false)
      case ClearFailed => SaveEffect(f, false, false)
      case PutFailed(name) =>
        if name == QuotaExceededError then SaveEffect(Flags(false, true), false, !f.warned)
        else SaveEffect(f, false, false)
  }

  /** Save is a no-op while persistence is unavailable or there is no database handle. */
  lemma SaveSkippedWhenUnavailable(f: Flags, connected: bool, hasStore: bool, o: WriteOutcome)
    requires !f.dbAvailable || !connected
    ensures SaveStep(f, connected, hasStore, o) == SaveEffect(f, false, false)
  {
  }

  /**
   * The flags only move one way: availability is never restored, the warned
   * flag is never cleared; a quota error disables persistence, any other put
   * error leaves it as it was; the warning is shown only when it had not been.
   */
  lemma SaveFlagsOneWay(f: Flags, connected: bool, hasStore: bool, o: WriteOutcome)
    ensures var e := SaveStep(f, connected, hasStore, o);
      && (e.flags.dbAvailable ==> f.dbAvailable)
      && (f.warned ==> e.flags.warned)
      && (e.alerted <==> f.dbAvailable && connected && hasStore && o == PutFailed(QuotaExceededError) && !f.warned)
      && (e.alerted ==> e.flags.warned)
      && (e.committed <==> f.dbAvailable && connected && hasStore && o == Committed)
      && (f.dbAvailable && connected && hasStore && o == PutFailed(QuotaExceededError) ==> !e.flags.dbAvailable && e.flags.warned)
      && (f.dbAvailable && connected && hasStore && o.PutFailed? && o.errorName != QuotaExceededError ==> e.flags == f)
      && (f.dbAvailable && connected && (!hasStore || o == SetupThrew) ==> e.flags == Flags(false, f.warned))
  {
  }

  /** The flags and the number of warnings shown after a run of saves on one connection. */
  function SaveRun(f: Flags, connected: bool, hasStore: bool, os: seq<WriteOutcome>): (Flags, nat)
    decreases os
  {
    if os == [] then (f, 0)
    else
      var e := SaveStep(f, connected, hasStore, os[0]);
      var rest := SaveRun(e.flags, connected, hasStore, os[1..]);
      (rest.0, rest.1 + if e.alerted then 1 else 0)
  }

  /** Once persistence is unavailable, every further save changes nothing and warns no one. */
  lemma {:induction false} UnavailableStaysQuiet(f: Flags, connected: bool, hasStore: bool, os: seq<WriteOutcome>)
    requires !f.dbAvailable
    ensures SaveRun(f, connected, hasStore, os) == (f, 0)
    decreases os
  {
    if os != [] {
      UnavailableStaysQuiet(f, connected, hasStore, os[1..]);
    }
  }

  /** The storage warning fires at most once per session, and never again once it has fired. */
  lemma {:induction false} WarnedAtMostOnce(f: Flags, connected: bool, hasStore: bool, os: seq<WriteOutcome>)
    ensures SaveRun(f, connected, hasStore, os).1 <= 1
    ensures f.warned ==> SaveRun(f, connected, hasStore, os).1 == 0
    ensures f.warned ==> SaveRun(f, connected, hasStore, os).0.warned
    ensures SaveRun(f, connected, hasStore, os).0.dbAvailable ==> f.dbAvailable
    decreases os
  {
    if os != [] {
      var e := SaveStep(f, connected, hasStore, os[0]);
      WarnedAtMostOnce(e.flags, connected, hasStore, os[1..]);
      SaveFlagsOneWay(f, connected, hasStore, os[0]);
    }
  }

  /**
   * A quota failure on the second write: persistence becomes unavailable and
   * the warning is shown exactly once, whatever writes follow.
   */
  lemma QuotaOnSecondWrite(rest: seq<WriteOutcome>)
    ensures var r := SaveRun(Flags(true, false), true, true, [Committed, PutFailed(QuotaExceededError)] + rest);
      !r.0.dbAvailable && r.0.warned && r.1 == 1
  {
    var os := [Committed, PutFailed(QuotaExceededError)] + rest;
    assert os[1..] == [PutFailed(QuotaExceededError)] + rest;
    assert os[1..][1..] == rest;
    UnavailableStaysQuiet(Flags(false, true), true, true, rest);
  }

  /**
   * Every list the store holds has each overlay set together with its
   * detections. Saves write only snapshots of the staged list, so a store
   * written by this code keeps this.
   */
  predicate StoredPaired(images: map<string, StoredValue>)
  {
    forall key :: key in images && images[key].ImageArray? ==> AllPaired(images[key].records)
  }

  /** What a read of "images" hands back for replacement: only a non-empty array. */
  function Loaded(images: map<string, StoredValue>): Option<seq<ImageRecord>>
  {
    if ImagesKey in images && images[ImagesKey].ImageArray? && |images[ImagesKey].records| > 0
    then Some(images[ImagesKey].records)
    else None
  }

  /** One call of `loadImagesFromIndexedDB`: the list it installs, if any. */
  function LoadStep(available: bool, connected: bool, hasStore: bool, o: ReadOutcome, images: map<string, StoredValue>)
    : (l: Option<seq<ImageRecord>>)
    ensures l.Some? ==> available && connected && hasStore && o == ReadSucceeded
    ensures l.Some? ==> l.value != [] && ImagesKey in images && images[ImagesKey] == ImageArray(l.value)
  {
    if available && connected && hasStore && o == ReadSucceeded then Loaded(images) else None
  }

  /**
   * Load replaces the list only with a non-empty stored array: a missing,
   * empty or non-array value, a failed or throwing read, or unavailability
   * leave the list alone.
   */
  lemma LoadOnlyNonEmptyArrays(available: bool, connected: bool, hasStore: bool, o: ReadOutcome, images: map<string, StoredValue>)
    ensures var l := LoadStep(available, connected, hasStore, o, images);
      l.Some? <==> (available && connected && hasStore && o == ReadSucceeded
                    && ImagesKey in images && images[ImagesKey].ImageArray? && images[ImagesKey].records != [])
    ensures var l := LoadStep(available, connected, hasStore, o, images);
      l.Some? ==> l.value == images[ImagesKey].records
  {
  }

  /**
   * Round trip: after a committed save of a non-empty list, a successful
   * load installs the same records in the same order; an empty list is
   * saved but not restored.
   */
  lemma SaveThenLoad(f: Flags, files: seq<ImageRecord>)
    requires f.dbAvailable
    ensures SaveStep(f, true, true, Committed).committed
    ensures files != [] ==> LoadStep(SaveStep(f, true, true, Committed).flags.dbAvailable, true, true, ReadSucceeded, Snapshot(files)) == Some(files)
    ensures files == [] ==> LoadStep(true, true, true, ReadSucceeded, Snapshot(files)) == None
  {
  }

  /**
   * `initIndexedDB()`: on failure the flag `dbAvailable` is cleared and the
   * promise rejects; on success the store "uploadedImages" is created during
   * an upgrade only if it is missing, and the handle is kept.
   */
  method InitIndexedDB(s: AppState, o: OpenOutcome) returns (succeeded: bool)
    modifies s`dbAvailable, s`db
    modifies if o.Opened? then {o.database} else {}
    ensures succeeded <==> o.Opened?
    ensures o.OpenFailed? ==> !s.dbAvailable && s.db == old(s.db)
    ensures o.Opened? ==> s.db == o.database && s.dbAvailable == old(s.dbAvailable)
    ensures o.Opened? ==>
      if o.upgradeNeeded && !old(o.database.hasImageStore)
      then o.database.hasImageStore && o.database.images == map[]
      else o.database.hasImageStore == old(o.database.hasImageStore) && o.database.images == old(o.database.images)
  {
    match o
    case OpenFailed =>
      s.dbAvailable := false;
      succeeded := false;
    case Opened(database, upgradeNeeded) =>
      if upgradeNeeded && !database.hasImageStore {
        database.hasImageStore := true;
        database.images := map[];
      }
      s.db := database;
      succeeded := true;
  }

  /** The current flags of a state. */
  function FlagsOf(s: AppState): Flags
    reads s
  {
    Flags(s.dbAvailable, s.userWarnedAboutStorage)
  }

  /**
   * `saveImagesToIndexedDB()`: never rejects. Returns whether the quota
   * warning was shown.
   */
  method SaveImages(s: AppState, o: WriteOutcome) returns (alerted: bool)
    modifies s`dbAvailable, s`userWarnedAboutStorage, s.db
    ensures var e := SaveStep(old(FlagsOf(s)), s.db != null, s.db != null && old(s.db.hasImageStore), o);
      && FlagsOf(s) == e.flags
      && alerted == e.alerted
      && (s.db != null ==> s.db.images == if e.committed then Snapshot(s.Files()) else old(s.db.images))
    ensures s.db != null ==> s.db.hasImageStore == old(s.db.hasImageStore)
    ensures s.Files() == old(s.Files()) && (old(s.Valid()) ==> s.Valid())
    ensures s.db != null && old(s.Valid() && StoredPaired(s.db.images)) ==> StoredPaired(s.db.images)
  {
    alerted := false;
    if !s.dbAvailable || s.db == null {
      return;
    }
    if !s.db.hasImageStore || o.SetupThrew? {
      s.dbAvailable := false;
      return;
    }
    match o
    case Committed =>
      s.db.images := Snapshot(s.Files());
      assert s.Valid() ==> StoredPaired(s.db.images);
    case ClearFailed =>
    case PutFailed(name) =>
      if name == QuotaExceededError {
        s.dbAvailable := false;
        if !s.userWarnedAboutStorage {
          s.userWarnedAboutStorage := true;
          alerted := true;
        }
      }
  }

  /**
   * `loadImagesFromIndexedDB()`: never rejects. When a non-empty array is
   * read, `uploadedFiles` becomes a new array of new objects holding the
   * stored records (a structured clone), in order.
   */
  method LoadImages(s: AppState, o: ReadOutcome) returns (loaded: bool)
    modifies s`uploadedFiles
    ensures var l := LoadStep(s.dbAvailable, s.db != null, s.db != null && s.db.hasImageStore, o,
                              if s.db != null then s.db.images else map[]);
      && (loaded <==> l.Some?)
      && (l.Some? ==> fresh(s.uploadedFiles) && s.Files() == l.value && Distinct(s.uploadedFiles.items)
                      && forall k :: 0 <= k < |s.uploadedFiles.items| ==> fresh(s.uploadedFiles.items[k]))
      && (l.None? ==> s.uploadedFiles == old(s.uploadedFiles))
    ensures loaded && s.db != null && StoredPaired(s.db.images) ==> s.Valid()
    ensures !loaded && old(s.Valid()) ==> s.Valid()
  {
    loaded := false;
    if !s.dbAvailable || s.db == null || !s.db.hasImageStore || o != ReadSucceeded {
      return;
    }
    var data := Loaded(s.db.images);
    if data.None? {
      return;
    }
    var records := data.value;
    var entries: seq<ImageEntry> := [];
    for i := 0 to |records|
      invariant |entries| == i
      invariant forall k :: 0 <= k < i ==> fresh(entries[k]) && entries[k].Record() == records[k]
      invariant Distinct(entries)
    {
      var e := new ImageEntry.FromRecord(records[i]);
      entries := entries + [e];
    }
    s.uploadedFiles := new ImageList(entries);
    loaded := true;
    assert s.Files() == records;
    assert StoredPaired(s.db.images) ==> AllPaired(records) by {
      assert ImagesKey in s.db.images && s.db.images[ImagesKey].ImageArray?;
    }
  }
}
