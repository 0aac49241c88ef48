/**
 Replay convergence of the bridge: whatever calls fail, whatever checkpoints are lost and however
 often stale ones are replayed, one identity has one import, one ref, one upload and one sync
 event, its published row is bumped once, and every checkpoint ever produced agrees on the ids.
 */
module BridgeLaws {
  import opened Outcomes
  import opened VaultBridge

  type Receipts = map<Identity, Receipt>

  ghost predicate Keyed(rs: Receipts) {
    forall k :: k in rs ==> rs[k].identity == k && rs[k].audio != []
  }

  // ---------------------------------------------------------------- the invariant of the store

  ghost predicate ImportsOk(db: Db) {
    && (forall id :: id in db.imports ==>
      var row := db.imports[id];
      && (row.selected.Some? <==> row.ref.Some?)
      && (row.selected.Some? ==> row.decided)
      && (row.selected.Some? ==> row.ref.value < |db.refs| && db.refs[row.ref.value] == row.selected.value))
    && (forall i :: 0 <= i < |db.refs| ==> db.refs[i] < db.recordings)
    && (forall i, j :: 0 <= i < j < |db.refs| ==> db.refs[i] != db.refs[j])
  }

  /** Library rows: one row an id, at most one active row a ref, and a version that counts exactly
      the owner's edits and at most one publication. */
  ghost predicate LibraryOk(db: Db) {
    && (forall i, j :: 0 <= i < j < |db.library| ==> db.library[i].id != db.library[j].id)
    && (forall i, j :: 0 <= i < j < |db.library| && !db.library[i].removed && !db.library[j].removed ==>
      db.library[i].ref != db.library[j].ref)
    && (forall i :: 0 <= i < |db.library| ==> RowOk(db, db.library[i]))
  }

  ghost predicate RowOk(db: Db, row: LibraryRow) {
    && row.ref < |db.refs|
    && (row.availability == row.origin || row.availability == Vault)
    && row.version == 1 + row.edits + (if row.availability == row.origin then 0 else 1)
  }

  /** What an upload session holds of the audio it was opened for. */
  ghost predicate UploadOk(db: Db, rs: Receipts, row: UploadRow) {
    && row.key in rs
    && var audio := rs[row.key].audio;
    && row.expectedSize == |audio| && row.declared == Sha256(audio)
    && row.bytes <= audio
    && (|row.bytes| % MIB == 0 || row.bytes == audio)
    && (row.state in {SEALED, PROCESSING, COMMIT_PREPARED, COMMITTED, REUSED} ==> row.bytes == audio)
    && (row.state in {COMMITTED, REUSED} ==> row.computed == Some(Sha256(audio)) && row.variant.Some?)
    && ImportOf(rs[row.key]) in db.imports
    && db.imports[ImportOf(rs[row.key])].selected == Some(row.recording)
  }

  ghost predicate UploadsOk(db: Db, rs: Receipts) {
    && (forall i, j :: 0 <= i < j < |db.uploads| ==> db.uploads[i].key != db.uploads[j].key)
    && (forall i :: 0 <= i < |db.uploads| ==> UploadOk(db, rs, db.uploads[i]))
  }

  ghost predicate EventsOk(db: Db) {
    && (forall i, j :: 0 <= i < j < |db.events| ==> db.events[i].identity != db.events[j].identity)
    && (forall i :: 0 <= i < |db.events| ==> EventOk(db, db.events[i]))
  }

  /** An event names a row that is available, with the ref and a version that the row has reached. */
  ghost predicate EventOk(db: Db, e: SyncEvent) {
    exists k :: 0 <= k < |db.library| && db.library[k].id == e.entry && db.library[k].ref == e.ref
      && db.library[k].availability == Vault && e.version <= db.library[k].version
  }

  ghost predicate StoreOk(db: Db, rs: Receipts) {
    ImportsOk(db) && LibraryOk(db) && UploadsOk(db, rs) && EventsOk(db)
  }

  // ---------------------------------------------------------------- what never changes

  ghost predicate ChoiceKept(before: ImportRow, after: ImportRow) {
    && (before.selected.Some? ==> after.selected == before.selected && after.ref == before.ref)
    && (before.decided ==> after.decided)
  }

  /** The store only grows in what checkpoints refer to. */
  ghost predicate Grows(a: Db, b: Db) {
    && (forall id :: id in a.imports ==> id in b.imports && ChoiceKept(a.imports[id], b.imports[id]))
    && a.recordings <= b.recordings
    && a.refs <= b.refs
    && |a.library| <= |b.library|
    && (forall i :: 0 <= i < |a.library| ==>
      && b.library[i].id == a.library[i].id && b.library[i].ref == a.library[i].ref
      && a.library[i].version <= b.library[i].version
      && (a.library[i].availability == Vault ==> b.library[i].availability == Vault))
    && |a.uploads| <= |b.uploads|
    && (forall i :: 0 <= i < |a.uploads| ==>
      && b.uploads[i].key == a.uploads[i].key && b.uploads[i].recording == a.uploads[i].recording
      && (a.uploads[i].state in {COMMITTED, REUSED} ==> b.uploads[i].state == a.uploads[i].state))
    && (forall k :: k in a.canonical ==> k in b.canonical && b.canonical[k] == a.canonical[k])
    && a.events <= b.events
  }

  lemma GrowsTransitive(a: Db, b: Db, c: Db)
    requires Grows(a, b) && Grows(b, c)
    ensures Grows(a, c)
  {
  }

  /** Every id a checkpoint holds is the one the store has for this receipt. */
  ghost predicate Consistent(db: Db, r: Receipt, cp: Checkpoint) {
    && (cp.importId.Some? ==> cp.importId.value == ImportOf(r) && ImportOf(r) in db.imports)
    && (cp.recordingId.Some? ==>
      && cp.importId.Some? && cp.refId.Some? && cp.libraryId.Some?
      && db.imports[ImportOf(r)].selected == cp.recordingId && db.imports[ImportOf(r)].ref == cp.refId
      && HasEntry(db, cp.libraryId.value, cp.refId.value))
    && (cp.refId.Some? || cp.libraryId.Some? ==> cp.recordingId.Some?)
    && (cp.uploadId.Some? ==>
      && cp.recordingId.Some? && cp.uploadId.value < |db.uploads|
      && db.uploads[cp.uploadId.value].key == r.identity)
    && (cp.variantId.Some? ==>
      && cp.uploadId.Some? && cp.recordingId.value in db.canonical
      && db.canonical[cp.recordingId.value] == cp.variantId.value)
    && (cp.state == PUBLISHED ==> cp.variantId.Some? && Published(db, r, cp))
  }

  ghost predicate HasEntry(db: Db, id: LibraryId, ref: RefId) {
    exists i :: 0 <= i < |db.library| && db.library[i].id == id && db.library[i].ref == ref
  }

  /** The entry is available and the sync event of this identity is in the store. */
  ghost predicate Published(db: Db, r: Receipt, cp: Checkpoint)
    requires cp.libraryId.Some?
  {
    && (exists i :: 0 <= i < |db.library|
          && db.library[i].id == cp.libraryId.value && db.library[i].availability == Vault)
    && HasEvent(db, r.identity)
    && cp.uploadId.Some? && cp.uploadId.value < |db.uploads|
    && db.uploads[cp.uploadId.value].state in {COMMITTED, REUSED}
  }

  ghost predicate HasEvent(db: Db, identity: Identity) {
    exists i :: 0 <= i < |db.events| && db.events[i].identity == identity
  }

  lemma ConsistentGrows(a: Db, b: Db, r: Receipt, cp: Checkpoint)
    requires Grows(a, b) && Consistent(a, r, cp)
    ensures Consistent(b, r, cp)
  {
    if cp.recordingId.Some? {
      var i :| 0 <= i < |a.library| && a.library[i].id == cp.libraryId.value && a.library[i].ref == cp.refId.value;
      assert b.library[i].id == a.library[i].id && b.library[i].ref == a.library[i].ref;
    }
    if cp.state == PUBLISHED {
      var i :| 0 <= i < |a.library| && a.library[i].id == cp.libraryId.value && a.library[i].availability == Vault;
      assert b.library[i].id == a.library[i].id && b.library[i].availability == Vault;
      var j :| 0 <= j < |a.events| && a.events[j].identity == r.identity;
      assert b.events[j] == a.events[j];
    }
  }

  // ---------------------------------------------------------------- each write keeps the invariant

  ghost predicate Keeps(a: Db, b: Db, rs: Receipts) {
    StoreOk(b, rs) && Grows(a, b)
  }

  // The part of the invariant about one table survives changes to the others.

  lemma FrameImports(a: Db, b: Db)
    requires ImportsOk(a) && (b.imports, b.recordings, b.refs) == (a.imports, a.recordings, a.refs)
    ensures ImportsOk(b)
  {
  }

  lemma FrameLibrary(a: Db, b: Db)
    requires LibraryOk(a) && b.library == a.library && |a.refs| <= |b.refs|
    ensures LibraryOk(b)
  {
    forall i | 0 <= i < |b.library| ensures RowOk(b, b.library[i]) {
      assert RowOk(a, a.library[i]);
    }
  }

  lemma FrameUploads(a: Db, b: Db, rs: Receipts)
    requires UploadsOk(a, rs) && b.uploads == a.uploads
    requires forall id :: id in a.imports ==> id in b.imports && ChoiceKept(a.imports[id], b.imports[id])
    ensures UploadsOk(b, rs)
  {
    forall i | 0 <= i < |b.uploads| ensures UploadOk(b, rs, b.uploads[i]) {
      assert UploadOk(a, rs, a.uploads[i]);
    }
  }

  lemma FrameEvents(a: Db, b: Db)
    requires EventsOk(a) && b.events == a.events && |a.library| <= |b.library|
    requires forall i :: 0 <= i < |a.library| ==>
      && b.library[i].id == a.library[i].id && b.library[i].ref == a.library[i].ref
      && a.library[i].version <= b.library[i].version
      && (a.library[i].availability == Vault ==> b.library[i].availability == Vault)
    ensures EventsOk(b)
  {
    forall i | 0 <= i < |b.events| ensures EventOk(b, b.events[i]) {
      EventGrows(a, b, a.events[i]);
    }
  }

  lemma EventGrows(a: Db, b: Db, e: SyncEvent)
    requires EventOk(a, e) && |a.library| <= |b.library|
    requires forall i :: 0 <= i < |a.library| ==>
      && b.library[i].id == a.library[i].id && b.library[i].ref == a.library[i].ref
      && a.library[i].version <= b.library[i].version
      && (a.library[i].availability == Vault ==> b.library[i].availability == Vault)
    ensures EventOk(b, e)
  {
    var k :| 0 <= k < |a.library| && a.library[k].id == e.entry && a.library[k].ref == e.ref
      && a.library[k].availability == Vault && e.version <= a.library[k].version;
    assert b.library[k].id == a.library[k].id;
  }

  /** A change that touches only imports, recordings, refs and canonical choices. */
  lemma FrameKeeps(a: Db, b: Db, rs: Receipts)
    requires StoreOk(a, rs) && Grows(a, b) && ImportsOk(b)
    requires b.library == a.library && b.uploads == a.uploads && b.events == a.events
    ensures Keeps(a, b, rs)
  {
    hide ImportsOk, LibraryOk, UploadsOk, EventsOk;
    FrameLibrary(a, b);
    FrameUploads(a, b, rs);
    FrameEvents(a, b);
  }

  lemma ImportStartedKeeps(db: Db, rs: Receipts, id: ImportId)
    requires StoreOk(db, rs)
    ensures Keeps(db, ImportStarted(db, id), rs)
  {
    hide LibraryOk, UploadsOk, EventsOk;
    FrameKeeps(db, ImportStarted(db, id), rs);
  }

  lemma AcceptedKeeps(db: Db, rs: Receipts, id: ImportId, recording: RecordingId)
    requires StoreOk(db, rs) && recording < db.recordings
    requires id in db.imports && db.imports[id].selected.None? && db.imports[id].decided
    ensures Keeps(db, Accepted(db, id, recording), rs)
  {
    hide ImportsOk, LibraryOk, UploadsOk, EventsOk;
    AcceptedImports(db, id, recording);
    FrameKeeps(db, Accepted(db, id, recording), rs);
  }

  lemma AcceptedImports(db: Db, id: ImportId, recording: RecordingId)
    requires ImportsOk(db) && recording < db.recordings
    requires id in db.imports && db.imports[id].selected.None? && db.imports[id].decided
    ensures ImportsOk(Accepted(db, id, recording))
  {
  }

  lemma ReviewedKeeps(db: Db, rs: Receipts, id: ImportId)
    requires StoreOk(db, rs) && id in db.imports && db.imports[id].selected.None? && db.imports[id].decided
    ensures Keeps(db, Reviewed(db, id), rs) && Reviewed(db, id).imports[id].selected.Some?
  {
    var mid := db.(recordings := db.recordings + 1);
    FrameKeeps(db, mid, rs);
    ReviewedLater(db, mid, rs, id);
  }

  lemma ReviewedLater(db: Db, mid: Db, rs: Receipts, id: ImportId)
    requires StoreOk(mid, rs) && Grows(db, mid)
    requires id in mid.imports && mid.imports[id].selected.None? && mid.imports[id].decided
    requires mid == db.(recordings := db.recordings + 1)
    ensures Keeps(db, Reviewed(db, id), rs)
  {
    hide StoreOk, Grows;
    AcceptedKeeps(mid, rs, id, db.recordings);
    GrowsTransitive(db, mid, Reviewed(db, id));
  }

  lemma LibraryAddedKeeps(db: Db, rs: Receipts, id: LibraryId, ref: RefId)
    requires StoreOk(db, rs) && ref < |db.refs|
    ensures LibraryAdded(db, id, ref).Ok? ==>
      var (after, entry) := LibraryAdded(db, id, ref).value;
      Keeps(db, after, rs) && HasEntry(after, entry, ref)
  {
    hide ImportsOk, LibraryOk, UploadsOk, EventsOk;
    var added := LibraryAdded(db, id, ref);
    if added.Ok? {
      var (b, entry) := added.value;
      if ActiveEntry(db, ref).Some? {
        assert db.library[ActiveEntry(db, ref).value].id == entry;
      } else {
        FrameImports(db, b);
        FrameUploads(db, b, rs);
        FrameEvents(db, b);
        EntryInserted(db, id, ref, Pending);
      }
    }
  }

  lemma EntryInserted(db: Db, id: LibraryId, ref: RefId, availability: Availability)
    requires LibraryOk(db) && ref < |db.refs| && ActiveEntry(db, ref).None? && EntryAt(db, id).None?
    ensures var b := db.(library := db.library + [LibraryRow(id, ref, availability, availability, 1, 0, false)]);
      LibraryOk(b) && HasEntry(b, id, ref)
  {
    var b := db.(library := db.library + [LibraryRow(id, ref, availability, availability, 1, 0, false)]);
    assert b.library[|db.library|].id == id;
    forall i | 0 <= i < |b.library| ensures RowOk(b, b.library[i]) {
      assert i < |db.library| ==> RowOk(db, db.library[i]);
    }
  }

  lemma UploadCreatedKeeps(db: Db, rs: Receipts, r: Receipt, recording: RecordingId)
    requires StoreOk(db, rs) && r.identity in rs && rs[r.identity] == r
    requires ImportOf(r) in db.imports && db.imports[ImportOf(r)].selected == Some(recording)
    ensures UploadCreated(db, r, recording).Ok?
    ensures var (after, id) := UploadCreated(db, r, recording).value;
      Keeps(db, after, rs) && id < |after.uploads| && after.uploads[id].key == r.identity
  {
    hide ImportsOk, LibraryOk, EventsOk;
    var found := UploadFor(db, r.identity);
    if found.Some? {
      assert UploadOk(db, rs, db.uploads[found.value]);
    } else {
      var (b, id) := UploadCreated(db, r, recording).value;
      FrameImports(db, b);
      FrameLibrary(db, b);
      FrameEvents(db, b);
      forall i | 0 <= i < |b.uploads| ensures UploadOk(b, rs, b.uploads[i]) {
        assert i < |db.uploads| ==> UploadOk(db, rs, db.uploads[i]);
      }
    }
  }

  /** Replacing one upload row by another good row of the same key and recording. */
  lemma UploadReplacedKeeps(db: Db, rs: Receipts, id: UploadId, row: UploadRow)
    requires StoreOk(db, rs) && id < |db.uploads| && UploadOk(db, rs, row)
    requires row.key == db.uploads[id].key && row.recording == db.uploads[id].recording
    requires db.uploads[id].state in {COMMITTED, REUSED} ==> row.state == db.uploads[id].state
    ensures Keeps(db, db.(uploads := db.uploads[id := row]), rs)
  {
    hide ImportsOk, LibraryOk, EventsOk;
    var b := db.(uploads := db.uploads[id := row]);
    FrameImports(db, b);
    FrameLibrary(db, b);
    FrameEvents(db, b);
    forall i | 0 <= i < |b.uploads| ensures UploadOk(b, rs, b.uploads[i]) {
      assert UploadOk(db, rs, db.uploads[i]);
    }
  }

  /** A row may change its availability and version; publishing is one such change. */
  lemma EntryReplacedKeeps(db: Db, rs: Receipts, i: nat, row: LibraryRow)
    requires StoreOk(db, rs) && i < |db.library| && RowOk(db, row)
    requires row.id == db.library[i].id && row.ref == db.library[i].ref && db.library[i].version <= row.version
    requires db.library[i].availability == Vault ==> row.availability == Vault
    requires !row.removed && db.library[i].removed ==>
      forall j :: 0 <= j < |db.library| && j != i && !db.library[j].removed ==> db.library[j].ref != row.ref
    ensures Keeps(db, db.(library := db.library[i := row]), rs)
  {
    hide ImportsOk, UploadsOk, EventsOk;
    var b := db.(library := db.library[i := row]);
    FrameImports(db, b);
    FrameUploads(db, b, rs);
    FrameEvents(db, b);
    forall j | 0 <= j < |b.library| ensures RowOk(b, b.library[j]) {
      assert RowOk(db, db.library[j]);
    }
  }

  lemma EntryPublishedKeeps(db: Db, rs: Receipts, identity: Identity, i: nat)
    requires StoreOk(db, rs) && i < |db.library|
    ensures Keeps(db, EntryPublished(db, identity, i), rs)
    ensures EntryPublished(db, identity, i).library[i].availability == Vault
    ensures HasEvent(EntryPublished(db, identity, i), identity)
  {
    hide ImportsOk, UploadsOk, Grows;
    var b := EntryPublished(db, identity, i);
    assert RowOk(db, db.library[i]);
    EntryReplacedKeeps(db, rs, i, b.library[i]);
    var mid := db.(library := b.library);
    var known := Find(db.events, (e: SyncEvent) => e.identity == identity);
    if known.Some? {
      assert b == mid && b.events[known.value].identity == identity;
    } else {
      EventInserted(mid, rs, b, i);
      assert b.events[|db.events|].identity == identity;
      GrowsTransitive(db, mid, b);
    }
  }

  lemma EventInserted(mid: Db, rs: Receipts, b: Db, i: nat)
    requires StoreOk(mid, rs) && i < |mid.library| && mid.library[i].availability == Vault
    requires |b.events| == |mid.events| + 1 && b == mid.(events := b.events)
    requires var e := b.events[|mid.events|];
      && b.events == mid.events + [e]
      && (e.entry, e.ref, e.version) == (mid.library[i].id, mid.library[i].ref, mid.library[i].version)
      && forall k :: 0 <= k < |mid.events| ==> mid.events[k].identity != e.identity
    ensures Keeps(mid, b, rs)
  {
    hide ImportsOk, UploadsOk;
    FrameImports(mid, b);
    FrameLibrary(mid, b);
    FrameUploads(mid, b, rs);
    forall k | 0 <= k < |b.events| ensures EventOk(b, b.events[k]) {
      if k < |mid.events| {
        EventGrows(mid, b, mid.events[k]);
      } else {
        assert b.library[i].id == b.events[k].entry;
      }
    }
  }

  lemma CanonicalChosenKeeps(db: Db, rs: Receipts, recording: RecordingId, variant: VariantId)
    requires StoreOk(db, rs)
    ensures Keeps(db, CanonicalChosen(db, recording, variant), rs)
  {
    hide LibraryOk, UploadsOk, EventsOk, ImportsOk;
    var b := CanonicalChosen(db, recording, variant);
    FrameImports(db, b);
    FrameKeeps(db, b, rs);
  }

  // ---------------------------------------------------------------- one call of advance

  ghost predicate Good(db: Db, rs: Receipts, r: Receipt, cp: Checkpoint) {
    && StoreOk(db, rs) && Keyed(rs) && r.identity in rs && rs[r.identity] == r
    && Consistent(db, r, cp)
  }

  ghost predicate StepOk(db: Db, rs: Receipts, r: Receipt, step: Step) {
    && Keeps(db, step.db, rs)
    && (step.result.Ok? ==> Consistent(step.db, r, step.result.value))
  }

  lemma KeepsItself(db: Db, rs: Receipts)
    requires StoreOk(db, rs)
    ensures Keeps(db, db, rs)
  {
    hide StoreOk;
  }

  lemma AdvanceImportOk(db: Db, rs: Receipts, r: Receipt, cp: Checkpoint, f: Faults)
    requires Good(db, rs, r, cp) && cp.importId.None? && cp.state != PUBLISHED
    ensures StepOk(db, rs, r, AdvanceImport(db, r, cp, f))
  {
    hide StoreOk, Grows;
    KeepsItself(db, rs);
    ImportStartedKeeps(db, rs, ImportOf(r));
  }

  lemma AdvanceLibraryOk(db: Db, rs: Receipts, r: Receipt, cp: Checkpoint, fault: Fault)
    requires Good(db, rs, r, cp) && cp.importId.Some? && cp.recordingId.None? && cp.state != PUBLISHED
    ensures StepOk(db, rs, r, AdvanceLibrary(db, r, cp, ImportOf(r), fault))
  {
    hide LibraryOk, UploadsOk, EventsOk;
    KeepsItself(db, rs);
    var row := db.imports[ImportOf(r)];
    if row.ref.Some? {
      LibraryAddedKeeps(db, rs, Derived(r.identity), row.ref.value);
    }
  }

  lemma AdvanceRecordingOk(db: Db, rs: Receipts, r: Receipt, cp: Checkpoint, f: Faults)
    requires Good(db, rs, r, cp) && cp.importId.Some? && cp.recordingId.None? && cp.state != PUBLISHED
    ensures StepOk(db, rs, r, AdvanceRecording(db, r, cp, cp.importId.value, f))
  {
    hide StoreOk, Grows;
    KeepsItself(db, rs);
    var id := ImportOf(r);
    if db.imports[id].selected.Some? {
      AdvanceLibraryOk(db, rs, r, cp, f(2));
    } else if db.imports[id].decided {
      var mid := Reviewed(db, id);
      ReviewedKeeps(db, rs, id);
      ConsistentGrows(db, mid, r, cp);
      AdvanceLibraryOk(mid, rs, r, cp, f(2));
      GrowsTransitive(db, mid, AdvanceLibrary(mid, r, cp, id, f(2)).db);
    }
  }

  lemma AdvanceUploadOk(db: Db, rs: Receipts, r: Receipt, cp: Checkpoint, fault: Fault)
    requires Good(db, rs, r, cp) && cp.recordingId.Some? && cp.uploadId.None? && cp.state != PUBLISHED
    ensures StepOk(db, rs, r, AdvanceUpload(db, r, cp, fault))
  {
    hide StoreOk, Grows;
    KeepsItself(db, rs);
    UploadCreatedKeeps(db, rs, r, cp.recordingId.value);
    ConsistentGrows(db, UploadCreated(db, r, cp.recordingId.value).value.0, r, cp);
  }

  /** The chunk loop: whatever fails, the session still holds a prefix of the audio, cut at a
      multiple of 1 MiB or complete, and the reported offset is the number of bytes it holds. */
  lemma {:induction false} SendKeeps(db: Db, rs: Receipts, id: UploadId, n: nat, f: Faults, k: nat)
    requires StoreOk(db, rs) && id < |db.uploads| && db.uploads[id].state == OPEN
    ensures var audio := rs[db.uploads[id].key].audio;
      var held := |db.uploads[id].bytes|;
      var sent := Send(db, id, audio, held, held, n, f, k);
      && Keeps(db, sent.db, rs)
      && sent.db == db.(uploads := db.uploads[id := db.uploads[id].(bytes := sent.db.uploads[id].bytes)])
      && held <= |sent.db.uploads[id].bytes| <= held + n * MIB
      && (sent.offset.Ok? ==> sent.offset.value == |sent.db.uploads[id].bytes|)
      && ((forall j :: f(j) == Fine) ==>
        sent.offset.Ok? && |sent.db.uploads[id].bytes| == if held + n * MIB <= |audio| then held + n * MIB else |audio|)
    decreases n
  {
    hide StoreOk, Grows, ChunkAppended, NextChunk;
    KeepsItself(db, rs);
    UploadHeld(db, rs, id);
    var row := db.uploads[id];
    var audio := rs[row.key].audio;
    var payload := NextChunk(audio, |row.bytes|);
    assert db == db.(uploads := db.uploads[id := row.(bytes := row.bytes)]);
    if payload == [] {
      NoChunkLeft(audio, |row.bytes|);
    } else if n > 0 {
      ChunkKeeps(db, rs, id);
      if f(k) == Fine {
        var after := ChunkAppended(db, id, |row.bytes|, payload).value;
        SendKeeps(after, rs, id, n - 1, f, k + 1);
        var sent := Send(after, id, audio, |row.bytes| + |payload|, |after.uploads[id].bytes|, n - 1, f, k + 1);
        GrowsTransitive(db, after, sent.db);
      }
    }
  }

  lemma NoChunkLeft(audio: Bytes, position: nat)
    requires position <= |audio| && NextChunk(audio, position) == []
    ensures position == |audio|
  {
  }

  lemma UploadHeld(db: Db, rs: Receipts, id: UploadId)
    requires StoreOk(db, rs) && id < |db.uploads|
    ensures var row := db.uploads[id];
      row.key in rs && |row.bytes| <= |rs[row.key].audio| && row.expectedSize == |rs[row.key].audio|
  {
    assert UploadOk(db, rs, db.uploads[id]);
  }

  lemma ChunkKeeps(db: Db, rs: Receipts, id: UploadId)
    requires StoreOk(db, rs) && id < |db.uploads| && db.uploads[id].state == OPEN
    requires db.uploads[id].key in rs
    requires NextChunk(rs[db.uploads[id].key].audio, |db.uploads[id].bytes|) != []
    ensures var row := db.uploads[id];
      var payload := NextChunk(rs[row.key].audio, |row.bytes|);
      var appended := ChunkAppended(db, id, |row.bytes|, payload);
      && 1 <= |payload| <= MIB && |row.bytes| + |payload| <= |rs[row.key].audio|
      && (|payload| < MIB ==> |row.bytes| + |payload| == |rs[row.key].audio|)
      && appended == Ok(db.(uploads := db.uploads[id := row.(bytes := row.bytes + payload)]))
      && Keeps(db, appended.value, rs)
  {
    var row := db.uploads[id];
    assert UploadOk(db, rs, row);
    LongerPrefix(rs[row.key].audio, row.bytes);
    hide StoreOk, Grows;
    UploadReplacedKeeps(db, rs, id, row.(bytes := row.bytes + NextChunk(rs[row.key].audio, |row.bytes|)));
  }

  lemma LongerPrefix(audio: Bytes, held: Bytes)
    requires held <= audio && (|held| % MIB == 0 || held == audio) && NextChunk(audio, |held|) != []
    ensures var payload := NextChunk(audio, |held|);
      && 1 <= |payload| <= MIB && held + payload <= audio
      && (if |payload| < MIB then held + payload == audio else |held + payload| % MIB == 0)
  {
    assert audio == audio[..|held|] + audio[|held|..];
    if |held| + MIB <= |audio| {
      assert audio[..|held| + MIB] == held + NextChunk(audio, |held|);
    }
  }

  lemma CompletedKeeps(db: Db, rs: Receipts, id: UploadId)
    requires StoreOk(db, rs) && id < |db.uploads| && db.uploads[id].state == OPEN
    requires |db.uploads[id].bytes| == db.uploads[id].expectedSize
    ensures Completed(db, id).Ok? && Keeps(db, Completed(db, id).value, rs)
  {
    var row := db.uploads[id];
    assert UploadOk(db, rs, row);
    assert row.bytes == rs[row.key].audio;
    hide StoreOk, Grows;
    UploadReplacedKeeps(db, rs, id, row.(state := SEALED));
  }

  lemma AdvanceOpenOk(db: Db, rs: Receipts, r: Receipt, cp: Checkpoint, f: Faults)
    requires Good(db, rs, r, cp) && cp.uploadId.Some? && db.uploads[cp.uploadId.value].state == OPEN
    requires cp.state != PUBLISHED
    ensures StepOk(db, rs, r, AdvanceOpen(db, r, cp, cp.uploadId.value, f))
  {
    hide StoreOk, Grows, Send;
    KeepsItself(db, rs);
    var id := cp.uploadId.value;
    UploadHeld(db, rs, id);
    SendKeeps(db, rs, id, CHUNKS_PER_CALL, f, 3);
    var held := |db.uploads[id].bytes|;
    var sent := Send(db, id, r.audio, held, held, CHUNKS_PER_CALL, f, 3);
    ConsistentGrows(db, sent.db, r, cp);
    if sent.offset == Ok(|r.audio|) {
      CompletedKeeps(sent.db, rs, id);
      var after := Completed(sent.db, id).value;
      GrowsTransitive(db, sent.db, after);
      ConsistentGrows(sent.db, after, r, cp);
    }
  }

  /** Without faults one call sends up to 32 chunks of 1 MiB, and seals the session exactly when the
      audio is complete: what is left to send strictly decreases until then. */
  lemma UploadProgress(db: Db, rs: Receipts, r: Receipt, cp: Checkpoint, f: Faults, now: real)
    requires Good(db, rs, r, cp) && cp.uploadId.Some? && db.uploads[cp.uploadId.value].state == OPEN
    requires forall k :: f(k) == Fine
    ensures var before := db.uploads[cp.uploadId.value];
      var after := Advance(db, r, cp, f, now).db.uploads[cp.uploadId.value];
      var due := |before.bytes| + CHUNKS_PER_CALL * MIB;
      && |after.bytes| == (if due <= |r.audio| then due else |r.audio|)
      && after.state == (if due < |r.audio| then OPEN else SEALED)
  {
    hide StoreOk, Grows, Send;
    var id := cp.uploadId.value;
    UploadHeld(db, rs, id);
    SendKeeps(db, rs, id, CHUNKS_PER_CALL, f, 3);
    assert Advance(db, r, cp, f, now) == AdvanceOpen(db, r, cp, id, f);
  }

  /** The check of a committed upload against the receipt cannot fail. */
  lemma CommittedMatches(db: Db, rs: Receipts, r: Receipt, cp: Checkpoint)
    requires Good(db, rs, r, cp) && cp.uploadId.Some?
    requires db.uploads[cp.uploadId.value].state in {COMMITTED, REUSED}
    ensures var row := db.uploads[cp.uploadId.value];
      Some(row.recording) == cp.recordingId && row.computed == Some(Sha256(r.audio)) && row.variant.Some?
  {
    assert UploadOk(db, rs, db.uploads[cp.uploadId.value]);
  }

  lemma RefResolves(db: Db, rs: Receipts, r: Receipt, cp: Checkpoint)
    requires Good(db, rs, r, cp) && cp.recordingId.Some?
    ensures cp.refId.value < |db.refs| && db.refs[cp.refId.value] == cp.recordingId.value
  {
  }

  lemma AdvancePublishOk(db: Db, rs: Receipts, r: Receipt, cp: Checkpoint, f: Faults, now: real)
    requires Good(db, rs, r, cp) && cp.uploadId.Some? && cp.state != PUBLISHED
    requires db.uploads[cp.uploadId.value].state in {COMMITTED, REUSED}
    ensures StepOk(db, rs, r, AdvancePublish(db, r, cp, cp.uploadId.value, f, now))
  {
    hide StoreOk, Grows, EntryPublished, CanonicalChosen;
    KeepsItself(db, rs);
    CommittedMatches(db, rs, r, cp);
    RefResolves(db, rs, r, cp);
    var row := db.uploads[cp.uploadId.value];
    var chosen := CanonicalChosen(db, row.recording, row.variant.value);
    CanonicalChosenKeeps(db, rs, row.recording, row.variant.value);
    CanonicalSame(db, row.recording, row.variant.value);
    ConsistentGrows(db, chosen, r, cp);
    var i := EntryAt(chosen, cp.libraryId.value);
    if i.Some? {
      PublishedOk(db, chosen, rs, r, cp, i.value, now);
    }
  }

  lemma CanonicalSame(db: Db, recording: RecordingId, variant: VariantId)
    ensures CanonicalChosen(db, recording, variant).refs == db.refs
    ensures CanonicalChosen(db, recording, variant).uploads == db.uploads
    ensures recording in CanonicalChosen(db, recording, variant).canonical
  {
  }

  lemma PublishedOk(db: Db, chosen: Db, rs: Receipts, r: Receipt, cp: Checkpoint, i: nat, now: real)
    requires Good(chosen, rs, r, cp) && Grows(db, chosen) && cp.uploadId.Some?
    requires cp.refId.value < |chosen.refs| && chosen.refs[cp.refId.value] == cp.recordingId.value
    requires cp.recordingId.value in chosen.canonical
    requires i < |chosen.library| && chosen.library[i].id == cp.libraryId.value
    requires chosen.uploads[cp.uploadId.value].state in {COMMITTED, REUSED}
    ensures var after := EntryPublished(chosen, r.identity, i);
      var done :=
        cp.(state := PUBLISHED, variantId := Some(chosen.canonical[cp.recordingId.value]), publishedAt := Some(now));
      Keeps(db, after, rs) && Consistent(after, r, done)
  {
    hide StoreOk, Grows;
    var after := EntryPublished(chosen, r.identity, i);
    EntryPublishedKeeps(chosen, rs, r.identity, i);
    GrowsTransitive(db, chosen, after);
    ConsistentGrows(chosen, after, r, cp);
    assert after.library[i].id == cp.libraryId.value;
    assert after.uploads == chosen.uploads;
  }

  /** One call of advance, with any faults, from any consistent checkpoint. */
  lemma AdvanceOk(db: Db, rs: Receipts, r: Receipt, cp: Checkpoint, f: Faults, now: real)
    requires Good(db, rs, r, cp) && cp.state != PUBLISHED
    ensures StepOk(db, rs, r, Advance(db, r, cp, f, now))
  {
    hide StoreOk, Grows, AdvanceImport, AdvanceRecording, AdvanceUpload, AdvanceOpen, AdvancePublish;
    KeepsItself(db, rs);
    if cp.importId.None? {
      AdvanceImportOk(db, rs, r, cp, f);
    } else if cp.recordingId.None? {
      AdvanceRecordingOk(db, rs, r, cp, f);
    } else if cp.uploadId.None? {
      AdvanceUploadOk(db, rs, r, cp, f(0));
    } else if db.uploads[cp.uploadId.value].state == OPEN {
      AdvanceOpenOk(db, rs, r, cp, f);
    } else if db.uploads[cp.uploadId.value].state in {COMMITTED, REUSED} {
      AdvancePublishOk(db, rs, r, cp, f, now);
    }
  }
}
