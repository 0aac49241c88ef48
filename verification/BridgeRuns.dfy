/**
 Whole runs of the bridge: any interleaving of calls of `advance` by any number of workers (from any
 checkpoint ever produced, with any faults), of what `advance_checkpoint` does before and after them, of
 import and ingest workers, and of edits by the owner through other clients. One call of `advance` is one
 event; a call of `advance_checkpoint` is several, and others may fall between them.
 */
module BridgeRuns {
  import opened Outcomes
  import opened VaultBridge
  import opened BridgeLaws

  /** `seen` holds every checkpoint ever produced, saved or lost; a restart may resume any of them. */
  datatype World = World(db: Db, seen: set<(Identity, Checkpoint)>)

  datatype Event =
    | Discover(k: Identity)
    | Call(k: Identity, cp: Checkpoint, faults: Faults, now: real)
    | Clear(k: Identity, cp: Checkpoint)
    | Catch(k: Identity, cp: Checkpoint, why: Failure, now: real)
    | HandOff(k: Identity, cp: Checkpoint, handOff: Option<Failure>, now: real, later: real)
    | ImportDecided(id: ImportId)
    | ImportFails(id: ImportId)
    | OwnerAccepts(id: ImportId, recording: RecordingId)
    | CatalogGrows(n: nat)
    | OwnerAdds(n: nat, ref: RefId, availability: Availability)
    | OwnerRemoves(i: nat)
    | OwnerRestores(i: nat)
    | UploadMoves(upload: UploadId, state: UploadState, variant: VariantId)
    | CanonicalByOthers(recording: RecordingId, variant: VariantId)

  predicate UploadStep(a: UploadState, b: UploadState) {
    || (a == OPEN && b in {EXPIRED, CANCELLED})
    || (a == SEALED && b in {PROCESSING, CANCELLED})
    || (a == PROCESSING && b in {COMMIT_PREPARED, QUARANTINED, FAILED})
    || (a == COMMIT_PREPARED && b in {COMMITTED, REUSED, QUARANTINED, FAILED})
  }

  /** What the ingest worker, or expiry, makes of an upload row. */
  function Moved(row: UploadRow, state: UploadState, variant: VariantId): UploadRow {
    if state in {COMMITTED, REUSED}
    then row.(state := state, computed := Some(Sha256(row.bytes)), variant := Some(variant))
    else row.(state := state)
  }

  /** The store after an event of the other processes; an event that is not enabled does nothing. */
  function Others(db: Db, e: Event): Db {
    match e
    case ImportDecided(id) =>
      if id in db.imports then db.(imports := db.imports[id := db.imports[id].(decided := true)]) else db
    case ImportFails(id) =>
      if id in db.imports then db.(imports := db.imports[id := db.imports[id].(failed := true)]) else db
    case OwnerAccepts(id, recording) =>
      if id in db.imports && db.imports[id].decided && db.imports[id].selected.None? && recording < db.recordings
      then Accepted(db, id, recording) else db
    case CatalogGrows(n) => db.(recordings := db.recordings + n)
    case OwnerAdds(n, ref, availability) =>
      if ref < |db.refs| && ActiveEntry(db, ref).None? && EntryAt(db, Foreign(n)).None?
      then db.(library := db.library + [LibraryRow(Foreign(n), ref, availability, availability, 1, 0, false)])
      else db
    case OwnerRemoves(i) =>
      if i < |db.library| && !db.library[i].removed
      then db.(library := db.library[i := Edited(db.library[i], true)]) else db
    case OwnerRestores(i) =>
      if i < |db.library| && db.library[i].removed && ActiveEntry(db, db.library[i].ref).None?
      then db.(library := db.library[i := Edited(db.library[i], false)]) else db
    case UploadMoves(id, state, variant) =>
      if id < |db.uploads| && UploadStep(db.uploads[id].state, state)
      then db.(uploads := db.uploads[id := Moved(db.uploads[id], state, variant)]) else db
    case CanonicalByOthers(recording, variant) => CanonicalChosen(db, recording, variant)
    case _ => db
  }

  function Edited(row: LibraryRow, removed: bool): LibraryRow {
    row.(removed := removed, version := row.version + 1, edits := row.edits + 1)
  }

  function Next(rs: Receipts, w: World, e: Event): World {
    match e
    case Discover(k) => if k in rs then World(w.db, w.seen + {(k, Discovered(rs[k]))}) else w
    case Call(k, cp, faults, now) =>
      if Resumes(rs, w, k, cp) && cp.state != PUBLISHED then
        var step := Advance(w.db, rs[k], cp, faults, now);
        World(step.db, if step.result.Ok? then w.seen + {(k, step.result.value)} else w.seen)
      else w
    case Clear(k, cp) => if Resumes(rs, w, k, cp) then World(w.db, w.seen + {(k, Cleared(cp))}) else w
    case Catch(k, cp, why, now) =>
      if Resumes(rs, w, k, cp) && cp.state != PUBLISHED then World(w.db, w.seen + {(k, Caught(cp, why, now))}) else w
    case HandOff(k, cp, handOff, now, later) =>
      if Resumes(rs, w, k, cp) && cp.state == PUBLISHED
      then World(w.db, w.seen + {(k, AdvanceMetadata(rs[k], cp, handOff, now, later))}) else w
    case _ => World(Others(w.db, e), w.seen)
  }

  predicate Resumes(rs: Receipts, w: World, k: Identity, cp: Checkpoint) {
    k in rs && (k, cp) in w.seen
  }

  /** What a success makes of the retry record. */
  function Cleared(cp: Checkpoint): Checkpoint {
    cp.(error := None, retryAt := None, failures := 0)
  }

  const EMPTY: World := World(Db(map[], 0, [], [], [], map[], []), {})

  function RunFrom(rs: Receipts, w: World, events: seq<Event>): World {
    if events == [] then w
    else Next(rs, RunFrom(rs, w, events[..|events| - 1]), events[|events| - 1])
  }

  function Run(rs: Receipts, events: seq<Event>): World {
    RunFrom(rs, EMPTY, events)
  }

  ghost predicate WorldOk(rs: Receipts, w: World) {
    && StoreOk(w.db, rs)
    && forall k, cp :: (k, cp) in w.seen ==> k in rs && Consistent(w.db, rs[k], cp)
  }

  // ---------------------------------------------------------------- around the calls of advance

  lemma CaughtConsistent(db: Db, r: Receipt, previous: Checkpoint, why: Failure, now: real)
    requires Consistent(db, r, previous) && previous.state != PUBLISHED
    ensures Consistent(db, r, Caught(previous, why, now))
  {
  }

  lemma MetadataConsistent(db: Db, r: Receipt, cp: Checkpoint, handOff: Option<Failure>, now: real, later: real)
    requires Consistent(db, r, cp)
    ensures Consistent(db, r, AdvanceMetadata(r, cp, handOff, now, later))
  {
    var next := AdvanceMetadata(r, cp, handOff, now, later);
    assert next == cp.(metadata := next.metadata);
    SameIds(db, r, cp, next);
  }

  lemma SameIds(db: Db, r: Receipt, a: Checkpoint, b: Checkpoint)
    requires Consistent(db, r, a)
    requires (a.importId, a.recordingId, a.refId, a.libraryId, a.uploadId, a.variantId)
      == (b.importId, b.recordingId, b.refId, b.libraryId, b.uploadId, b.variantId)
    requires b.state == PUBLISHED ==> a.state == PUBLISHED
    ensures Consistent(db, r, b)
  {
  }

  // ---------------------------------------------------------------- the other processes

  lemma OthersKeep(db: Db, rs: Receipts, e: Event)
    requires StoreOk(db, rs)
    ensures Keeps(db, Others(db, e), rs)
  {
    hide StoreOk, Grows;
    KeepsItself(db, rs);
    match e {
      case ImportDecided(id) => if id in db.imports { ImportMarked(db, rs, id, db.imports[id].(decided := true)); }
      case ImportFails(id) => if id in db.imports { ImportMarked(db, rs, id, db.imports[id].(failed := true)); }
      case OwnerAccepts(id, recording) =>
        if id in db.imports && db.imports[id].decided && db.imports[id].selected.None? && recording < db.recordings {
          AcceptedKeeps(db, rs, id, recording);
        }
      case CatalogGrows(n) => CatalogKeeps(db, rs, n);
      case OwnerAdds(n, ref, availability) =>
        if ref < |db.refs| && ActiveEntry(db, ref).None? && EntryAt(db, Foreign(n)).None? {
          OwnerAddsKeeps(db, rs, n, ref, availability);
        }
      case OwnerRemoves(i) => if i < |db.library| && !db.library[i].removed { EditedKeeps(db, rs, i, true); }
      case OwnerRestores(i) =>
        if i < |db.library| && db.library[i].removed && ActiveEntry(db, db.library[i].ref).None? {
          EditedKeeps(db, rs, i, false);
        }
      case UploadMoves(id, state, variant) =>
        if id < |db.uploads| && UploadStep(db.uploads[id].state, state) { MovedKeeps(db, rs, id, state, variant); }
      case CanonicalByOthers(recording, variant) => CanonicalChosenKeeps(db, rs, recording, variant);
      case _ =>
    }
  }

  lemma ImportMarked(db: Db, rs: Receipts, id: ImportId, row: ImportRow)
    requires StoreOk(db, rs) && id in db.imports
    requires (row.selected, row.ref) == (db.imports[id].selected, db.imports[id].ref)
    requires db.imports[id].decided ==> row.decided
    ensures Keeps(db, db.(imports := db.imports[id := row]), rs)
  {
    hide LibraryOk, UploadsOk, EventsOk;
    FrameKeeps(db, db.(imports := db.imports[id := row]), rs);
  }

  lemma CatalogKeeps(db: Db, rs: Receipts, n: nat)
    requires StoreOk(db, rs)
    ensures Keeps(db, db.(recordings := db.recordings + n), rs)
  {
    hide LibraryOk, UploadsOk, EventsOk;
    FrameKeeps(db, db.(recordings := db.recordings + n), rs);
  }

  lemma OwnerAddsKeeps(db: Db, rs: Receipts, n: nat, ref: RefId, availability: Availability)
    requires StoreOk(db, rs) && ref < |db.refs| && ActiveEntry(db, ref).None? && EntryAt(db, Foreign(n)).None?
    ensures var row := LibraryRow(Foreign(n), ref, availability, availability, 1, 0, false);
      Keeps(db, db.(library := db.library + [row]), rs)
  {
    hide ImportsOk, LibraryOk, UploadsOk, EventsOk;
    var b := db.(library := db.library + [LibraryRow(Foreign(n), ref, availability, availability, 1, 0, false)]);
    FrameImports(db, b);
    FrameUploads(db, b, rs);
    FrameEvents(db, b);
    EntryInserted(db, Foreign(n), ref, availability);
  }

  lemma EditedKeeps(db: Db, rs: Receipts, i: nat, removed: bool)
    requires StoreOk(db, rs) && i < |db.library|
    requires !removed ==> ActiveEntry(db, db.library[i].ref).None?
    ensures Keeps(db, db.(library := db.library[i := Edited(db.library[i], removed)]), rs)
  {
    assert RowOk(db, db.library[i]);
    hide StoreOk, Grows;
    EntryReplacedKeeps(db, rs, i, Edited(db.library[i], removed));
  }

  lemma MovedKeeps(db: Db, rs: Receipts, id: UploadId, state: UploadState, variant: VariantId)
    requires StoreOk(db, rs) && id < |db.uploads| && UploadStep(db.uploads[id].state, state)
    ensures Keeps(db, db.(uploads := db.uploads[id := Moved(db.uploads[id], state, variant)]), rs)
  {
    assert UploadOk(db, rs, db.uploads[id]);
    assert UploadOk(db, rs, Moved(db.uploads[id], state, variant));
    hide StoreOk, Grows;
    UploadReplacedKeeps(db, rs, id, Moved(db.uploads[id], state, variant));
  }

  // ---------------------------------------------------------------- every run

  /** The invariant holds after every event of every run. */
  lemma {:induction false} RunOk(rs: Receipts, events: seq<Event>)
    requires Keyed(rs)
    ensures WorldOk(rs, Run(rs, events))
  {
    if events != [] {
      var w, e := Run(rs, events[..|events| - 1]), events[|events| - 1];
      RunOk(rs, events[..|events| - 1]);
      NextOk(rs, w, e);
    }
  }

  lemma NextOk(rs: Receipts, w: World, e: Event)
    requires Keyed(rs) && WorldOk(rs, w)
    ensures WorldOk(rs, Next(rs, w, e)) && Grows(w.db, Next(rs, w, e).db)
  {
    hide StoreOk, Grows, Consistent, Advance, AdvanceMetadata, Caught, Others;
    var next := Next(rs, w, e);
    KeepsItself(w.db, rs);
    match e {
      case Discover(k) =>
        if k in rs {
          DiscoveredConsistent(w.db, rs[k]);
        }
      case Call(k, cp, faults, now) =>
        if Resumes(rs, w, k, cp) && cp.state != PUBLISHED {
          AdvanceOk(w.db, rs, rs[k], cp, faults, now);
        }
      case Clear(k, cp) =>
        if Resumes(rs, w, k, cp) {
          SameIds(w.db, rs[k], cp, Cleared(cp));
        }
      case Catch(k, cp, why, now) =>
        if Resumes(rs, w, k, cp) && cp.state != PUBLISHED {
          CaughtConsistent(w.db, rs[k], cp, why, now);
        }
      case HandOff(k, cp, handOff, now, later) =>
        if Resumes(rs, w, k, cp) && cp.state == PUBLISHED {
          MetadataConsistent(w.db, rs[k], cp, handOff, now, later);
        }
      case _ => OthersKeep(w.db, rs, e);
    }
    assert Keeps(w.db, next.db, rs);
    SeenOk(rs, w, next.db);
  }

  lemma DiscoveredConsistent(db: Db, r: Receipt)
    ensures Consistent(db, r, Discovered(r))
  {
  }

  lemma SeenOk(rs: Receipts, w: World, after: Db)
    requires WorldOk(rs, w) && Grows(w.db, after)
    ensures forall k, cp :: (k, cp) in w.seen ==> k in rs && Consistent(after, rs[k], cp)
  {
    hide StoreOk, Grows, Consistent;
    forall k, cp | (k, cp) in w.seen ensures k in rs && Consistent(after, rs[k], cp) {
      ConsistentGrows(w.db, after, rs[k], cp);
    }
  }

  // ---------------------------------------------------------------- calls of advance_checkpoint

  lemma {:induction false} RunOn(rs: Receipts, w: World, first: seq<Event>, second: seq<Event>)
    ensures RunFrom(rs, w, first + second) == RunFrom(rs, RunFrom(rs, w, first), second)
  {
    if second == [] {
      assert first + second == first;
    } else {
      hide Next;
      var n := |second| - 1;
      RunOn(rs, w, first, second[..n]);
      assert (first + second)[..|first| + n] == first + second[..n];
    }
  }

  lemma OneEvent(rs: Receipts, w: World, e: Event)
    ensures RunFrom(rs, w, [e]) == Next(rs, w, e)
  {
    hide Next;
    assert [e][..0] == [];
    assert RunFrom(rs, w, []) == w;
  }

  /** The calls of `advance` in one call of `advance_checkpoint`, with no other event between them. */
  lemma {:induction false} LoopIsRun(rs: Receipts, w: World, k: Identity, cp: Checkpoint, n: nat, f: nat -> Faults,
                                     now: real) returns (events: seq<Event>)
    requires Resumes(rs, w, k, cp) && cp.state != PUBLISHED
    ensures var step, end := AdvanceLoop(w.db, rs[k], cp, n, f, now), RunFrom(rs, w, events);
      && end.db == step.db && w.seen <= end.seen
      && (step.result.Ok? ==> (k, step.result.value) in end.seen)
    decreases n
  {
    hide Advance;
    events := [];
    if n > 0 {
      var call := Call(k, cp, f(n), now);
      OneEvent(rs, w, call);
      events := [call];
      var step := Advance(w.db, rs[k], cp, f(n), now);
      if step.result.Ok? && step.result.value != cp && step.result.value.state != PUBLISHED {
        var next := Next(rs, w, call);
        var rest := LoopIsRun(rs, next, k, step.result.value, n - 1, f, now);
        RunOn(rs, w, [call], rest);
        events := [call] + rest;
      }
    }
  }

  /** A call of `advance_checkpoint` with nothing in between is one of these runs: what it does to the store
      and the checkpoint it returns are among what the runs reach. */
  lemma AdvanceCheckpointIsRun(rs: Receipts, events: seq<Event>, k: Identity, cp: Checkpoint, e: Surroundings)
    requires Resumes(rs, Run(rs, events), k, cp)
    ensures exists more :: var (db, result) := AdvanceCheckpoint(Run(rs, events).db, rs[k], cp, e);
      Run(rs, events + more).db == db && (k, result) in Run(rs, events + more).seen
  {
    hide Run, RunFrom, Next, Advance, AdvanceLoop, AdvanceMetadata, Caught;
    var w := Run(rs, events);
    var more := CheckpointRun(rs, w, k, cp, e);
    assert Run(rs, events + more) == RunFrom(rs, w, more) by {
      RunsAre(rs, events);
      RunsAre(rs, events + more);
      RunOn(rs, EMPTY, events, more);
    }
  }

  lemma RunsAre(rs: Receipts, events: seq<Event>)
    ensures Run(rs, events) == RunFrom(rs, EMPTY, events)
  {
  }

  lemma CheckpointRun(rs: Receipts, w: World, k: Identity, cp: Checkpoint, e: Surroundings)
    returns (events: seq<Event>)
    requires Resumes(rs, w, k, cp)
    ensures var (db, result) := AdvanceCheckpoint(w.db, rs[k], cp, e);
      RunFrom(rs, w, events).db == db && (k, result) in RunFrom(rs, w, events).seen
  {
    hide RunFrom, Advance, AdvanceLoop, AdvanceMetadata, Caught;
    if cp.state == PUBLISHED {
      events := [HandOff(k, cp, e.handOff, e.metadataNow, e.metadataLater)];
      OneEvent(rs, w, events[0]);
    } else if Waiting(cp, e.now) {
      events := [];
      NoEvents(rs, w);
    } else if cp.signature != rs[k].signature {
      events := [Catch(k, cp, ReceiptError("source_changed"), e.caught)];
      OneEvent(rs, w, events[0]);
    } else {
      var calls := LoopIsRun(rs, w, k, cp, 6, e.faults, e.published);
      var reached := RunFrom(rs, w, calls);
      var step := AdvanceLoop(w.db, rs[k], cp, 6, e.faults, e.published);
      match step.result {
        case Err(why) =>
          var rest := [Catch(k, cp, why, e.caught)];
          OneEvent(rs, reached, rest[0]);
          RunOn(rs, w, calls, rest);
          events := calls + rest;
        case Ok(value) =>
          var rest := [Clear(k, value)];
          OneEvent(rs, reached, rest[0]);
          RunOn(rs, w, calls, rest);
          events := calls + rest;
          if value.state == PUBLISHED {
            var last := [HandOff(k, Cleared(value), e.handOff, e.metadataNow, e.metadataLater)];
            OneEvent(rs, RunFrom(rs, w, events), last[0]);
            RunOn(rs, w, events, last);
            events := events + last;
          }
      }
    }
  }

  lemma NoEvents(rs: Receipts, w: World)
    ensures RunFrom(rs, w, []) == w
  {
  }

  // ---------------------------------------------------------------- main results

  ghost predicate Active(db: Db, id: LibraryId) {
    exists i :: 0 <= i < |db.library| && db.library[i].id == id && !db.library[i].removed
  }

  ghost function StillActive(db: Db, id: Option<LibraryId>): Option<LibraryId> {
    if id.Some? && Active(db, id.value) then id else None
  }

  ghost predicate AgreeWhenKnown<T(!new)>(a: Option<T>, b: Option<T>) {
    a.Some? && b.Some? ==> a == b
  }

  /** Replay convergence: any two checkpoints ever produced for one receipt name the same import,
      recording, ref, upload and variant, and the same library entry unless the owner removed one. */
  lemma Convergence(rs: Receipts, events: seq<Event>, k: Identity, a: Checkpoint, b: Checkpoint)
    requires Keyed(rs) && (k, a) in Run(rs, events).seen && (k, b) in Run(rs, events).seen
    ensures AgreeWhenKnown(a.importId, b.importId) && AgreeWhenKnown(a.recordingId, b.recordingId)
    ensures AgreeWhenKnown(a.refId, b.refId) && AgreeWhenKnown(a.uploadId, b.uploadId)
    ensures AgreeWhenKnown(a.variantId, b.variantId)
    ensures AgreeWhenKnown(StillActive(Run(rs, events).db, a.libraryId), StillActive(Run(rs, events).db, b.libraryId))
  {
    hide Run, StoreOk, Consistent;
    RunOk(rs, events);
    var db := Run(rs, events).db;
    SameIdsOfReceipt(db, rs[k], a, b);
    SameUpload(db, rs, rs[k], a, b);
    SameEntry(db, rs, rs[k], a, b);
  }

  lemma SameIdsOfReceipt(db: Db, r: Receipt, a: Checkpoint, b: Checkpoint)
    requires Consistent(db, r, a) && Consistent(db, r, b)
    ensures AgreeWhenKnown(a.importId, b.importId) && AgreeWhenKnown(a.recordingId, b.recordingId)
    ensures AgreeWhenKnown(a.refId, b.refId) && AgreeWhenKnown(a.variantId, b.variantId)
  {
  }

  lemma SameUpload(db: Db, rs: Receipts, r: Receipt, a: Checkpoint, b: Checkpoint)
    requires StoreOk(db, rs) && Consistent(db, r, a) && Consistent(db, r, b)
    ensures AgreeWhenKnown(a.uploadId, b.uploadId)
  {
    hide ImportsOk, LibraryOk, EventsOk, UploadOk;
    if a.uploadId.Some? && b.uploadId.Some? {
      assert db.uploads[a.uploadId.value].key == db.uploads[b.uploadId.value].key;
    }
  }

  lemma SameEntry(db: Db, rs: Receipts, r: Receipt, a: Checkpoint, b: Checkpoint)
    requires StoreOk(db, rs) && Consistent(db, r, a) && Consistent(db, r, b)
    ensures AgreeWhenKnown(StillActive(db, a.libraryId), StillActive(db, b.libraryId))
  {
    hide ImportsOk, UploadsOk, EventsOk, RowOk;
    if StillActive(db, a.libraryId).Some? && StillActive(db, b.libraryId).Some? {
      var i :| 0 <= i < |db.library| && db.library[i].id == a.libraryId.value && !db.library[i].removed;
      var j :| 0 <= j < |db.library| && db.library[j].id == b.libraryId.value && !db.library[j].removed;
      EntryRef(db, i, a.libraryId.value, a.refId.value);
      EntryRef(db, j, b.libraryId.value, b.refId.value);
    }
  }

  lemma EntryRef(db: Db, i: nat, id: LibraryId, ref: RefId)
    requires LibraryOk(db) && i < |db.library| && db.library[i].id == id && HasEntry(db, id, ref)
    ensures db.library[i].ref == ref
  {
  }

  /** At most one of everything: one upload session and one sync event an identity, one active
      entry a ref, and a version bumped by at most one publication besides the owner's edits. */
  lemma AtMostOnce(rs: Receipts, events: seq<Event>)
    requires Keyed(rs)
    ensures var db := Run(rs, events).db;
      && (forall i, j :: 0 <= i < j < |db.uploads| ==> db.uploads[i].key != db.uploads[j].key)
      && (forall i, j :: 0 <= i < j < |db.events| ==> db.events[i].identity != db.events[j].identity)
      && (forall i, j :: 0 <= i < j < |db.library| && db.library[i].ref == db.library[j].ref ==>
        db.library[i].removed || db.library[j].removed)
      && (forall i :: 0 <= i < |db.library| ==> db.library[i].version - db.library[i].edits in {1, 2})
  {
    RunOk(rs, events);
    var db := Run(rs, events).db;
    forall i | 0 <= i < |db.library| ensures db.library[i].version - db.library[i].edits in {1, 2} {
      assert RowOk(db, db.library[i]);
    }
  }

  /** Resumable upload: every session of every run holds a prefix of its audio, cut at 1 MiB or
      complete, and it is sealed and ingested only with the whole audio. */
  lemma UploadsArePrefixes(rs: Receipts, events: seq<Event>, i: nat)
    requires Keyed(rs) && i < |Run(rs, events).db.uploads|
    ensures var row := Run(rs, events).db.uploads[i];
      && row.key in rs && row.bytes <= rs[row.key].audio
      && (|row.bytes| % MIB == 0 || row.bytes == rs[row.key].audio)
      && (row.state in {SEALED, PROCESSING, COMMIT_PREPARED, COMMITTED, REUSED} ==> row.bytes == rs[row.key].audio)
  {
    RunOk(rs, events);
    assert UploadOk(Run(rs, events).db, rs, Run(rs, events).db.uploads[i]);
  }

  // ---------------------------------------------------------------- replay of a finished receipt

  /** Everything that the publication of `done` left in the store, and nothing undone since. */
  ghost predicate Finished(db: Db, rs: Receipts, r: Receipt, done: Checkpoint) {
    && Good(db, rs, r, done) && done.state == PUBLISHED
    && Active(db, done.libraryId.value) && !db.imports[ImportOf(r)].failed
  }

  /** A stale checkpoint of a receipt that `done` finished: it agrees with it on what it knows. */
  ghost predicate StaleOf(db: Db, r: Receipt, cp: Checkpoint, done: Checkpoint) {
    && Consistent(db, r, cp) && cp.state != PUBLISHED
    && (cp.libraryId.Some? ==> cp.libraryId == done.libraryId)
    && (cp.uploadId.Some? ==> cp.uploadId == done.uploadId)
  }

  lemma FinishedTables(db: Db, rs: Receipts, r: Receipt, done: Checkpoint)
    requires Finished(db, rs, r, done)
    ensures var row := db.imports[ImportOf(r)];
      && row.decided && row.selected == done.recordingId && row.ref == done.refId
      && LibraryAdded(db, Derived(r.identity), done.refId.value) == Ok((db, done.libraryId.value))
      && UploadCreated(db, r, done.recordingId.value) == Ok((db, done.uploadId.value))
  {
    hide EventsOk;
    var i :| 0 <= i < |db.library| && db.library[i].id == done.libraryId.value && !db.library[i].removed;
    EntryRef(db, i, done.libraryId.value, done.refId.value);
    var entry := ActiveEntry(db, done.refId.value);
    assert db.library[entry.value].id == done.libraryId.value;
    var u := done.uploadId.value;
    assert UploadOk(db, rs, db.uploads[u]);
    var found := UploadFor(db, r.identity);
    assert found == Some(u);
  }

  /** Publishing again finds every row in place and changes nothing. */
  lemma FinishedPublish(db: Db, rs: Receipts, r: Receipt, done: Checkpoint, cp: Checkpoint)
    requires Finished(db, rs, r, done) && StaleOf(db, r, cp, done) && cp.uploadId.Some?
    ensures var row := db.uploads[cp.uploadId.value];
      && Some(row.recording) == cp.recordingId && row.computed == Some(Sha256(r.audio)) && row.variant.Some?
      && CanonicalChosen(db, row.recording, row.variant.value) == db
    ensures cp.refId.value < |db.refs| && db.refs[cp.refId.value] == cp.recordingId.value
    ensures ActiveEntry(db, cp.refId.value).Some?
    ensures var i := EntryAt(db, cp.libraryId.value);
      && i.Some? && !db.library[i.value].removed && db.library[i.value].ref == cp.refId.value
      && EntryPublished(db, r.identity, i.value) == db
  {
    hide EventsOk, ImportsOk, UploadsOk, RowOk;
    CommittedMatches(db, rs, r, cp);
    RefResolves(db, rs, r, cp);
    var i :| 0 <= i < |db.library| && db.library[i].id == done.libraryId.value && !db.library[i].removed;
    EntryRef(db, i, done.libraryId.value, done.refId.value);
    assert EntryAt(db, cp.libraryId.value) == Some(i);
    var j :| 0 <= j < |db.library| && db.library[j].id == done.libraryId.value && db.library[j].availability == Vault;
    assert i == j;
    EventKnown(db, r.identity);
    assert db.library[i := db.library[i]] == db.library;
  }

  lemma EventKnown(db: Db, identity: Identity)
    requires HasEvent(db, identity)
    ensures Find(db.events, (e: SyncEvent) => e.identity == identity).Some?
  {
  }

  function CallsLeft(cp: Checkpoint): nat {
    if cp.importId.None? then 3 else if cp.recordingId.None? then 2 else if cp.uploadId.None? then 1 else 0
  }

  /** Without faults, one call on a stale checkpoint recovers the ids of the next stage. */
  lemma ReplayStep(db: Db, rs: Receipts, r: Receipt, done: Checkpoint, cp: Checkpoint, f: Faults, now: real)
    requires Finished(db, rs, r, done) && StaleOf(db, r, cp, done) && (forall k :: f(k) == Fine)
    ensures var step := Advance(db, r, cp, f, now);
      && step.db == db && step.result.Ok?
      && var next := step.result.value;
      && (CallsLeft(cp) > 0 ==>
        next != cp && StaleOf(db, r, next, done) && CallsLeft(next) == CallsLeft(cp) - 1)
      && (CallsLeft(cp) == 0 ==>
        next == cp.(state := PUBLISHED, variantId := done.variantId, publishedAt := Some(now)))
  {
    hide StoreOk, EntryPublished, CanonicalChosen, LibraryAdded, UploadCreated, ActiveEntry, EntryAt;
    FinishedTables(db, rs, r, done);
    if CallsLeft(cp) == 0 {
      FinishedPublish(db, rs, r, done, cp);
    }
  }

  lemma {:induction false} ReplayLoop(db: Db, rs: Receipts, r: Receipt, done: Checkpoint, cp: Checkpoint,
                                      n: nat, f: nat -> Faults, now: real)
    requires Finished(db, rs, r, done) && StaleOf(db, r, cp, done) && (forall j, k :: f(j)(k) == Fine)
    requires CallsLeft(cp) < n
    ensures var step := AdvanceLoop(db, r, cp, n, f, now);
      && step.db == db && step.result.Ok? && step.result.value.state == PUBLISHED
      && SamePublication(step.result.value, done)
    decreases CallsLeft(cp)
  {
    hide Advance;
    assert forall k :: f(n)(k) == Fine;
    ReplayStep(db, rs, r, done, cp, f(n), now);
    if CallsLeft(cp) > 0 {
      ReplayLoop(db, rs, r, done, Advance(db, r, cp, f(n), now).result.value, n - 1, f, now);
    } else {
      assert cp.uploadId.Some? && cp.recordingId.Some? && cp.importId.Some?;
    }
  }

  predicate SamePublication(a: Checkpoint, b: Checkpoint) {
    (a.importId, a.recordingId, a.refId, a.libraryId, a.uploadId, a.variantId)
      == (b.importId, b.recordingId, b.refId, b.libraryId, b.uploadId, b.variantId)
  }

  /** Restarting a published receipt from any stale checkpoint, without further faults, publishes it
      again in one advance with the same ids, and does not change the store at all. */
  lemma ReplayChangesNothing(rs: Receipts, events: seq<Event>, k: Identity, done: Checkpoint, stale: Checkpoint,
                             e: Surroundings)
    requires Keyed(rs) && (k, done) in Run(rs, events).seen && (k, stale) in Run(rs, events).seen
    requires done.state == PUBLISHED && stale.state != PUBLISHED
    requires StillActive(Run(rs, events).db, done.libraryId) == done.libraryId
    requires StillActive(Run(rs, events).db, stale.libraryId) == stale.libraryId
    requires k in rs && ImportOf(rs[k]) in Run(rs, events).db.imports
    requires !Run(rs, events).db.imports[ImportOf(rs[k])].failed
    requires !Waiting(stale, e.now) && stale.signature == rs[k].signature
    requires forall i, j :: e.faults(i)(j) == Fine
    ensures var (db, result) := AdvanceCheckpoint(Run(rs, events).db, rs[k], stale, e);
      db == Run(rs, events).db && result.state == PUBLISHED && SamePublication(result, done)
  {
    hide Run, StoreOk, AdvanceLoop;
    RunOk(rs, events);
    var db := Run(rs, events).db;
    Convergence(rs, events, k, done, stale);
    ReplayLoop(db, rs, rs[k], done, stale, 6, e.faults, e.published);
  }
}
