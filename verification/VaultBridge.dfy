/**
 The acquisition-to-Vault bridge (tools/acquisition_vault_bridge.py): the durable store it writes
 through the import, library and Vault services, and `Backend.advance` over that store.

 Every call into a service can fail before it takes effect, or take effect and lose its reply;
 a `Fault` oracle chooses. Hashes and name-based UUIDs are constructors, hence injective.
 */
module VaultBridge {
  import opened Outcomes

  const MIB: nat := 1024 * 1024
  const CHUNKS_PER_CALL: nat := 32

  type Identity = string
  type Bytes = seq<bv8>
  type RecordingId = nat
  type RefId = nat
  type UploadId = nat
  type VariantId = nat

  datatype Digest = Sha256(content: Bytes)

  /** A validated receipt. Its size is that of the audio and its digest that of the audio's bytes;
      the payload of its import is fixed by the identity and the rounded duration. */
  datatype Receipt = Receipt(identity: Identity, durationMs: int, audio: Bytes,
                             signature: (int, int), metadataSha256: string)

  datatype ImportId = ImportId(externalId: Identity, durationMs: int)
  datatype LibraryId = Derived(identity: Identity) | Foreign(n: nat)

  // ---------------------------------------------------------------- the durable store

  datatype ImportRow = ImportRow(failed: bool, decided: bool, selected: Option<RecordingId>, ref: Option<RefId>)

  datatype Availability = Pending | Vault | Elsewhere

  /** `origin` is the availability the row was created with; `edits` counts the owner's own
      removals and restorations, each of which bumps `version` too. */
  datatype LibraryRow = LibraryRow(id: LibraryId, ref: RefId, availability: Availability,
                                   origin: Availability, version: nat, edits: nat, removed: bool)

  datatype UploadState = OPEN | SEALED | PROCESSING | COMMIT_PREPARED | COMMITTED | REUSED
                       | EXPIRED | CANCELLED | QUARANTINED | FAILED

  datatype UploadRow = UploadRow(key: Identity, recording: RecordingId, expectedSize: nat,
                                 declared: Digest, state: UploadState, bytes: Bytes,
                                 computed: Option<Digest>, variant: Option<VariantId>)

  datatype SyncEvent = SyncEvent(identity: Identity, entry: LibraryId, ref: RefId, version: nat)

  datatype Db = Db(imports: map<ImportId, ImportRow>, recordings: nat, refs: seq<RecordingId>,
                   library: seq<LibraryRow>, uploads: seq<UploadRow>,
                   canonical: map<RecordingId, VariantId>, events: seq<SyncEvent>)

  datatype Failure = ReceiptError(code: string) | OtherError(kind: string)

  datatype Fault = Fine | Before(why: Failure) | After(why: Failure)

  function ImportOf(r: Receipt): ImportId {
    ImportId(r.identity, r.durationMs)
  }

  function EntryAt(db: Db, id: LibraryId): (found: Option<nat>)
    ensures found.Some? ==> found.value < |db.library| && db.library[found.value].id == id
    ensures found.None? ==> forall i :: 0 <= i < |db.library| ==> db.library[i].id != id
  {
    Find(db.library, (row: LibraryRow) => row.id == id)
  }

  function ActiveEntry(db: Db, ref: RefId): (found: Option<nat>)
    ensures found.Some? ==>
      found.value < |db.library| && db.library[found.value].ref == ref && !db.library[found.value].removed
    ensures found.None? ==>
      forall i :: 0 <= i < |db.library| ==> db.library[i].ref != ref || db.library[i].removed
  {
    Find(db.library, (row: LibraryRow) => row.ref == ref && !row.removed)
  }

  function UploadFor(db: Db, key: Identity): (found: Option<nat>)
    ensures found.Some? ==> found.value < |db.uploads| && db.uploads[found.value].key == key
    ensures found.None? ==> forall i :: 0 <= i < |db.uploads| ==> db.uploads[i].key != key
  {
    Find(db.uploads, (row: UploadRow) => row.key == key)
  }

  function RefOf(db: Db, recording: RecordingId): (found: Option<nat>)
    ensures found.Some? ==> found.value < |db.refs| && db.refs[found.value] == recording
    ensures found.None? ==> forall i :: 0 <= i < |db.refs| ==> db.refs[i] != recording
  {
    Find(db.refs, (r: RecordingId) => r == recording)
  }

  // The writes of the services, each one transaction.

  /** ImportService.start: the job id is a hash of the payload, so a replay finds the same row. */
  function ImportStarted(db: Db, id: ImportId): Db {
    if id in db.imports then db
    else db.(imports := db.imports[id := ImportRow(false, false, None, None)])
  }

  /** A review that accepts `recording`; the owner's ref for that recording is found or created. */
  function Accepted(db: Db, id: ImportId, recording: RecordingId): Db
    requires id in db.imports
  {
    var row := db.imports[id];
    match RefOf(db, recording)
    case Some(ref) => db.(imports := db.imports[id := row.(selected := Some(recording), ref := Some(ref))])
    case None => db.(imports := db.imports[id := row.(selected := Some(recording), ref := Some(|db.refs|))],
                     refs := db.refs + [recording])
  }

  /** ImportService.review with CREATE_RECORDING: a new recording, selected for the entry. */
  function Reviewed(db: Db, id: ImportId): Db
    requires id in db.imports
  {
    Accepted(db.(recordings := db.recordings + 1), id, db.recordings)
  }

  /** add_library_entry: the active row of the ref, or a new row under the caller's id. */
  function LibraryAdded(db: Db, id: LibraryId, ref: RefId): Result<(Db, LibraryId), Failure> {
    match ActiveEntry(db, ref)
    case Some(i) => Ok((db, db.library[i].id))
    case None =>
      if EntryAt(db, id).Some? then Err(OtherError("IntegrityError"))
      else Ok((db.(library := db.library + [LibraryRow(id, ref, Pending, Pending, 1, 0, false)]), id))
  }

  /** create_or_replay: one upload session an idempotency key, for one request. */
  function UploadCreated(db: Db, r: Receipt, recording: RecordingId): Result<(Db, UploadId), Failure> {
    match UploadFor(db, r.identity)
    case Some(i) =>
      var row := db.uploads[i];
      if (row.recording, row.expectedSize, row.declared) == (recording, |r.audio|, Sha256(r.audio))
      then Ok((db, i))
      else Err(OtherError("UploadConflictError"))
    case None =>
      var row := UploadRow(r.identity, recording, |r.audio|, Sha256(r.audio), OPEN, [], None, None);
      Ok((db.(uploads := db.uploads + [row]), |db.uploads|))
  }

  function ChunkAppended(db: Db, id: UploadId, offset: nat, payload: Bytes): Result<Db, Failure>
    requires id < |db.uploads|
  {
    var row := db.uploads[id];
    if row.state != OPEN || offset != |row.bytes| || !(1 <= |payload| <= MIB)
       || offset + |payload| > row.expectedSize
    then Err(OtherError("UploadStateError"))
    else Ok(db.(uploads := db.uploads[id := row.(bytes := row.bytes + payload)]))
  }

  function Completed(db: Db, id: UploadId): Result<Db, Failure>
    requires id < |db.uploads|
  {
    var row := db.uploads[id];
    if row.state in {SEALED, PROCESSING, COMMIT_PREPARED, COMMITTED, REUSED} then Ok(db)
    else if row.state != OPEN || |row.bytes| != row.expectedSize then Err(OtherError("UploadStateError"))
    else Ok(db.(uploads := db.uploads[id := row.(state := SEALED)]))
  }

  function CanonicalChosen(db: Db, recording: RecordingId, variant: VariantId): Db {
    if recording in db.canonical then db
    else db.(canonical := db.canonical[recording := variant])
  }

  /** The publication transaction: the row becomes available, its event is inserted once. */
  function EntryPublished(db: Db, identity: Identity, i: nat): Db
    requires i < |db.library|
  {
    var row := db.library[i];
    var published :=
      if row.availability == Vault then row
      else row.(availability := Vault, version := row.version + 1);
    var known := Find(db.events, (e: SyncEvent) => e.identity == identity);
    db.(library := db.library[i := published],
        events := if known.Some? then db.events
                  else db.events + [SyncEvent(identity, published.id, published.ref, published.version)])
  }

  // ---------------------------------------------------------------- checkpoints

  datatype State = DISCOVERED | IMPORTING | UPLOADING | INGESTING | PUBLISHED | NEEDS_REVIEW

  datatype MetadataState = METADATA_PENDING | METADATA_SCHEDULED | METADATA_FAILED

  /** The private JSON of one identity. A key that is absent is `None`, or 0 for the counters. */
  datatype Checkpoint = Checkpoint(
    state: State, signature: (int, int),
    importId: Option<ImportId>, recordingId: Option<RecordingId>, refId: Option<RefId>,
    libraryId: Option<LibraryId>, uploadId: Option<UploadId>, variantId: Option<VariantId>,
    publishedAt: Option<real>,
    failures: nat, retryAt: Option<real>, error: Option<string>,
    metadata: Metadata)

  datatype Metadata = Metadata(sha256: Option<string>, state: Option<MetadataState>, failures: nat,
                               retryAt: Option<real>, error: Option<string>, scheduledAt: Option<real>)

  const NO_METADATA := Metadata(None, None, 0, None, None, None)

  function Discovered(r: Receipt): Checkpoint {
    Checkpoint(DISCOVERED, r.signature, None, None, None, None, None, None, None, 0, None, None, NO_METADATA)
  }

  datatype Step = Step(db: Db, result: Result<Checkpoint, Failure>)

  /** The reply to a write that takes the store from `before` to `after`. */
  function Reply(fault: Fault, before: Db, after: Db, cp: Checkpoint): Step {
    match fault
    case Fine => Step(after, Ok(cp))
    case Before(why) => Step(before, Err(why))
    case After(why) => Step(after, Err(why))
  }

  // ---------------------------------------------------------------- Backend.advance

  type Faults = nat -> Fault

  function AdvanceImport(db: Db, r: Receipt, cp: Checkpoint, f: Faults): Step {
    if f(0) != Fine then Step(db, Err(f(0).why))  // verify_audio
    else Reply(f(1), db, ImportStarted(db, ImportOf(r)), cp.(importId := Some(ImportOf(r)), state := IMPORTING))
  }

  function AdvanceLibrary(db: Db, r: Receipt, cp: Checkpoint, id: ImportId, fault: Fault): Step
    requires id in db.imports
  {
    var row := db.imports[id];
    if row.selected.None? then Step(db, Err(ReceiptError("import_recording_missing")))
    else if row.ref.None? then Step(db, Err(ReceiptError("import_ref_missing")))
    else
      match LibraryAdded(db, Derived(r.identity), row.ref.value)
      case Err(why) => Step(db, Err(why))
      case Ok((after, entry)) =>
        Reply(fault, db, after,
              cp.(recordingId := row.selected, refId := row.ref, libraryId := Some(entry), state := UPLOADING))
  }

  function AdvanceRecording(db: Db, r: Receipt, cp: Checkpoint, id: ImportId, f: Faults): Step {
    if f(0) != Fine then Step(db, Err(f(0).why))
    else if id !in db.imports then Step(db, Err(OtherError("ImportNotFoundError")))
    else
      var row := db.imports[id];
      if row.failed then Step(db, Err(ReceiptError("import_failed")))
      else if !row.decided then Step(db, Ok(cp))
      else if row.selected.Some? then AdvanceLibrary(db, r, cp, id, f(2))
      else
        match f(1)
        case Before(why) => Step(db, Err(why))
        case After(why) => Step(Reviewed(db, id), Err(why))
        case Fine => AdvanceLibrary(Reviewed(db, id), r, cp, id, f(2))
  }

  function AdvanceUpload(db: Db, r: Receipt, cp: Checkpoint, fault: Fault): Step
    requires cp.recordingId.Some?
  {
    match UploadCreated(db, r, cp.recordingId.value)
    case Err(why) => Step(db, Err(why))
    case Ok((after, id)) => Reply(fault, db, after, cp.(uploadId := Some(id)))
  }

  datatype Sent = Sent(db: Db, offset: Result<nat, Failure>)

  /** The bytes that the next `handle.read` returns when the handle stands at `position`. */
  function NextChunk(audio: Bytes, position: nat): Bytes {
    if position + MIB <= |audio| then audio[position..position + MIB]
    else if position <= |audio| then audio[position..]
    else []
  }

  /** At most `n` more chunks, read from `position` and sent at `offset`; chunk `k` meets fault f(k). */
  function Send(db: Db, id: UploadId, audio: Bytes, position: nat, offset: nat, n: nat, f: Faults, k: nat)
    : (sent: Sent)
    requires id < |db.uploads|
    ensures |sent.db.uploads| == |db.uploads|
    decreases n
  {
    var payload := NextChunk(audio, position);
    if n == 0 || payload == [] then Sent(db, Ok(offset))
    else if f(k).Before? then Sent(db, Err(f(k).why))
    else
      match ChunkAppended(db, id, offset, payload)
      case Err(why) => Sent(db, Err(why))
      case Ok(after) =>
        if f(k).After? then Sent(after, Err(f(k).why))
        else Send(after, id, audio, position + |payload|, |after.uploads[id].bytes|, n - 1, f, k + 1)
  }

  function AdvanceOpen(db: Db, r: Receipt, cp: Checkpoint, id: UploadId, f: Faults): Step
    requires id < |db.uploads|
  {
    if f(1) != Fine then Step(db, Err(f(1).why))  // verify_audio
    else
      var start := |db.uploads[id].bytes|;
      var sent := Send(db, id, r.audio, start, start, CHUNKS_PER_CALL, f, 3);
      if sent.offset.Err? then Step(sent.db, Err(sent.offset.error))
      else if sent.offset.value != |r.audio| then Step(sent.db, Ok(cp))
      else
        match Completed(sent.db, id)
        case Err(why) => Step(sent.db, Err(why))
        case Ok(after) => Reply(f(2), sent.db, after, cp.(state := INGESTING))
  }

  function AdvancePublish(db: Db, r: Receipt, cp: Checkpoint, id: UploadId, f: Faults, now: real): Step
    requires id < |db.uploads|
    requires cp.recordingId.Some? && cp.refId.Some? && cp.libraryId.Some?
  {
    var row := db.uploads[id];
    if row.recording != cp.recordingId.value || row.computed != Some(Sha256(r.audio)) || row.variant.None?
    then Step(db, Err(ReceiptError("committed_upload_mismatch")))
    else if f(1).Before? then Step(db, Err(f(1).why))
    else
      var chosen := CanonicalChosen(db, row.recording, row.variant.value);
      if f(1).After? then Step(chosen, Err(f(1).why))
      else if f(2) != Fine then Step(chosen, Err(f(2).why))
      else
        var ref := cp.refId.value;
        if ref >= |chosen.refs| || chosen.refs[ref] !in chosen.canonical || ActiveEntry(chosen, ref).None?
        then Step(chosen, Err(OtherError("VaultNotFoundError")))
        else
          match EntryAt(chosen, cp.libraryId.value)
          case None => Step(chosen, Err(ReceiptError("library_entry_removed")))
          case Some(i) =>
            if chosen.library[i].removed || chosen.library[i].ref != ref
            then Step(chosen, Err(ReceiptError("library_entry_removed")))
            else Reply(f(3), chosen, EntryPublished(chosen, r.identity, i),
                       cp.(state := PUBLISHED, variantId := Some(chosen.canonical[chosen.refs[ref]]),
                           publishedAt := Some(now)))
  }

  /** One call of `Backend.advance`. */
  function Advance(db: Db, r: Receipt, cp: Checkpoint, f: Faults, now: real): Step {
    match cp.importId
    case None => AdvanceImport(db, r, cp, f)
    case Some(importId) =>
      if cp.recordingId.None? then AdvanceRecording(db, r, cp, importId, f)
      else if cp.uploadId.None? then AdvanceUpload(db, r, cp, f(0))
      else if f(0) != Fine then Step(db, Err(f(0).why))  // status
      else if cp.uploadId.value >= |db.uploads| then Step(db, Err(OtherError("VaultNotFoundError")))
      else
        var id := cp.uploadId.value;
        match db.uploads[id].state
        case OPEN => AdvanceOpen(db, r, cp, id, f)
        case SEALED => Step(db, Ok(cp.(state := INGESTING)))
        case PROCESSING => Step(db, Ok(cp.(state := INGESTING)))
        case COMMIT_PREPARED => Step(db, Ok(cp.(state := INGESTING)))
        case COMMITTED => PublishOrKeyError(db, r, cp, id, f, now)
        case REUSED => PublishOrKeyError(db, r, cp, id, f, now)
        case EXPIRED => Step(db, Err(ReceiptError("upload_expired")))
        case CANCELLED => Step(db, Err(ReceiptError("upload_cancelled")))
        case QUARANTINED => Step(db, Err(ReceiptError("upload_quarantined")))
        case FAILED => Step(db, Err(ReceiptError("upload_failed")))
  }

  function PublishOrKeyError(db: Db, r: Receipt, cp: Checkpoint, id: UploadId, f: Faults, now: real): Step
    requires id < |db.uploads| && cp.recordingId.Some?
  {
    if cp.refId.None? || cp.libraryId.None? then Step(db, Err(OtherError("KeyError")))
    else AdvancePublish(db, r, cp, id, f, now)
  }

  // ---------------------------------------------------------------- the six-call loop

  /** At most `n` calls of `advance`, stopping at the first that changes nothing or publishes. */
  function AdvanceLoop(db: Db, r: Receipt, cp: Checkpoint, n: nat, f: nat -> Faults, now: real): Step
    decreases n
  {
    if n == 0 then Step(db, Ok(cp))
    else
      var step := Advance(db, r, cp, f(n), now);
      if step.result.Err? then step
      else if step.result.value == cp || step.result.value.state == PUBLISHED then step
      else AdvanceLoop(step.db, r, step.result.value, n - 1, f, now)
  }

  method AdvanceCalls(db: Db, r: Receipt, previous: Checkpoint, f: nat -> Faults, now: real)
    returns (store: Db, outcome: Result<Checkpoint, Failure>)
    ensures Step(store, outcome) == AdvanceLoop(db, r, previous, 6, f, now)
  {
    hide Advance;
    store := db;
    var updated := previous;
    for k: nat := 0 to 6
      invariant AdvanceLoop(db, r, previous, 6, f, now) == AdvanceLoop(store, r, updated, 6 - k, f, now)
    {
      var step := Advance(store, r, updated, f(6 - k), now);
      store := step.db;
      if step.result.Err? {
        return store, step.result;
      }
      var nextState := step.result.value;
      if nextState == updated || nextState.state == PUBLISHED {
        return store, Ok(nextState);
      }
      updated := nextState;
    }
    outcome := Ok(updated);
  }

  method SendChunks(db: Db, id: UploadId, audio: Bytes, start: nat, f: Faults)
    returns (store: Db, sent: Result<nat, Failure>)
    requires id < |db.uploads|
    ensures Sent(store, sent) == Send(db, id, audio, start, start, CHUNKS_PER_CALL, f, 3)
  {
    hide ChunkAppended, NextChunk;
    store := db;
    var position: nat, offset: nat := start, start;
    for k: nat := 0 to CHUNKS_PER_CALL
      invariant id < |store.uploads|
      invariant Send(db, id, audio, start, start, CHUNKS_PER_CALL, f, 3)
        == Send(store, id, audio, position, offset, CHUNKS_PER_CALL - k, f, 3 + k)
    {
      var payload := NextChunk(audio, position);
      if payload == [] {
        break;
      }
      if f(3 + k).Before? {
        return store, Err(f(3 + k).why);
      }
      var appended := ChunkAppended(store, id, offset, payload);
      if appended.Err? {
        return store, Err(appended.error);
      }
      store := appended.value;
      if f(3 + k).After? {
        return store, Err(f(3 + k).why);
      }
      position, offset := position + |payload|, |store.uploads[id].bytes|;
    }
    sent := Ok(offset);
  }

  // ---------------------------------------------------------------- checkpoints and retries

  function Power2(n: nat): nat {
    if n == 0 then 1 else 2 * Power2(n - 1)
  }

  /** Seconds before the next try after the given number of failures. */
  function RetryDelay(attempts: nat): real {
    var delay := 10 * Power2(if attempts < 5 then attempts else 5);
    (if delay < 300 then delay else 300) as real
  }

  predicate MetadataPending(r: Receipt, cp: Checkpoint) {
    || cp.metadata.sha256 != Some(r.metadataSha256)
    || cp.metadata.state !in {Some(METADATA_SCHEDULED), Some(METADATA_FAILED)}
  }

  /** The metadata keys just before the hand-off: a new digest starts with a clean record. */
  function MetadataStarted(r: Receipt, cp: Checkpoint): Metadata {
    if cp.metadata.sha256 != Some(r.metadataSha256)
    then Metadata(Some(r.metadataSha256), Some(METADATA_PENDING), 0, None, None, cp.metadata.scheduledAt)
    else cp.metadata.(state := Some(METADATA_PENDING))
  }

  function MetadataFailed(m: Metadata, why: Failure, now: real): Metadata {
    var attempts := m.failures + 1;
    m.(state := Some(if attempts >= 5 then METADATA_FAILED else METADATA_PENDING), failures := attempts,
       error := Some(if why.ReceiptError? then why.code else why.kind),
       retryAt := Some(now + RetryDelay(attempts)))
  }

  /** True when this call reaches the metadata service and is refused by it or by the signature. */
  predicate MetadataAttemptFails(r: Receipt, cp: Checkpoint, handOff: Option<Failure>, now: real) {
    && MetadataPending(r, cp)
    && !(MetadataStarted(r, cp).retryAt.Some? && MetadataStarted(r, cp).retryAt.value > now)
    && (cp.signature != r.signature || handOff.Some?)
  }

  /** `handOff` is what schedule_metadata raises, if anything; `now` and `later` are clock readings. */
  function AdvanceMetadata(r: Receipt, cp: Checkpoint, handOff: Option<Failure>, now: real, later: real): Checkpoint {
    if !MetadataPending(r, cp) then cp
    else
      var m := MetadataStarted(r, cp);
      if m.retryAt.Some? && m.retryAt.value > now then cp.(metadata := m)
      else if cp.signature != r.signature then
        cp.(metadata := MetadataFailed(m, ReceiptError("source_changed"), later))
      else if handOff.Some? then cp.(metadata := MetadataFailed(m, handOff.value, later))
      else cp.(metadata := Metadata(m.sha256, Some(METADATA_SCHEDULED), 0, None, None, Some(later)))
  }

  /** What the except clauses of advance_checkpoint return. */
  function Caught(previous: Checkpoint, why: Failure, now: real): Checkpoint {
    match why
    case ReceiptError(code) => previous.(state := NEEDS_REVIEW, error := Some(code))
    case OtherError(kind) =>
      var attempts := previous.failures + 1;
      previous.(state := if attempts >= 5 then NEEDS_REVIEW else previous.state,
                failures := attempts, error := Some(kind), retryAt := Some(now + RetryDelay(attempts)))
  }

  /** The readings of time.time() and the hand-off outcome that one call meets. */
  datatype Surroundings = Surroundings(faults: nat -> Faults, handOff: Option<Failure>,
                                       now: real, published: real, caught: real,
                                       metadataNow: real, metadataLater: real)

  predicate Waiting(previous: Checkpoint, now: real) {
    previous.retryAt.Some? && previous.retryAt.value > now
  }

  function AdvanceCheckpoint(db: Db, r: Receipt, previous: Checkpoint, e: Surroundings): (Db, Checkpoint) {
    if previous.state == PUBLISHED then
      (db, AdvanceMetadata(r, previous, e.handOff, e.metadataNow, e.metadataLater))
    else if Waiting(previous, e.now) then (db, previous)
    else if previous.signature != r.signature then
      (db, Caught(previous, ReceiptError("source_changed"), e.caught))
    else
      var step := AdvanceLoop(db, r, previous, 6, e.faults, e.published);
      match step.result
      case Err(why) => (step.db, Caught(previous, why, e.caught))
      case Ok(reached) =>
        var updated := reached.(error := None, retryAt := None, failures := 0);
        if updated.state == PUBLISHED
        then (step.db, AdvanceMetadata(r, updated, e.handOff, e.metadataNow, e.metadataLater))
        else (step.db, updated)
  }
}
