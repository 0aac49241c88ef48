/**
 What runs of the bridge keep besides the invariant of the store: who may remove a library entry, fail an
 import or abort an upload. Without such events all checkpoints of a receipt agree on its entry, and every
 receipt can still be published.
 */
module BridgeProgress {
  import opened Outcomes
  import opened VaultBridge
  import opened BridgeLaws
  import opened BridgeRuns

  predicate Aborted(state: UploadState) {
    state in {EXPIRED, CANCELLED, QUARANTINED, FAILED}
  }

  // ---------------------------------------------------------------- what one call leaves alone

  /** An entry of this receipt, for the ref that its import has chosen. */
  ghost predicate EntryOf(db: Db, r: Receipt, row: LibraryRow) {
    && row.id == Derived(r.identity) && ImportOf(r) in db.imports
    && db.imports[ImportOf(r)].selected.Some? && db.imports[ImportOf(r)].ref == Some(row.ref)
  }

  ghost predicate ImportsMild(a: Db, b: Db) {
    forall id :: id in b.imports && b.imports[id].failed ==> id in a.imports && a.imports[id].failed
  }

  ghost predicate UploadsMild(a: Db, b: Db) {
    forall i :: 0 <= i < |b.uploads| && Aborted(b.uploads[i].state) ==> i < |a.uploads| && Aborted(a.uploads[i].state)
  }

  ghost predicate LibraryMild(a: Db, b: Db, r: Receipt) {
    && |a.library| <= |b.library|
    && (forall i :: 0 <= i < |a.library| && b.library[i].removed ==> a.library[i].removed)
    && (forall i :: |a.library| <= i < |b.library| ==> !b.library[i].removed && EntryOf(b, r, b.library[i]))
  }

  /** Nothing is failed, aborted or removed, and the only new entries are this receipt's. */
  ghost predicate Mild(a: Db, b: Db, r: Receipt) {
    ImportsMild(a, b) && UploadsMild(a, b) && LibraryMild(a, b, r)
  }

  lemma MildTransitive(a: Db, b: Db, c: Db, r: Receipt)
    requires Mild(a, b, r) && Mild(b, c, r) && Grows(b, c)
    ensures Mild(a, c, r)
  {
    forall i | |a.library| <= i < |c.library| ensures !c.library[i].removed && EntryOf(c, r, c.library[i]) {
      if i < |b.library| {
        assert EntryOf(b, r, b.library[i]);
        assert c.library[i].id == b.library[i].id && c.library[i].ref == b.library[i].ref;
      }
    }
  }

  lemma MildItself(db: Db, r: Receipt)
    ensures Mild(db, db, r)
  {
  }

  lemma ImportStartedMild(db: Db, r: Receipt)
    ensures Mild(db, ImportStarted(db, ImportOf(r)), r)
  {
  }

  lemma ReviewedMild(db: Db, r: Receipt, id: ImportId)
    requires id in db.imports
    ensures Mild(db, Reviewed(db, id), r)
  {
  }

  lemma LibraryAddedMild(db: Db, r: Receipt, ref: RefId)
    requires ImportOf(r) in db.imports && db.imports[ImportOf(r)].selected.Some?
    requires db.imports[ImportOf(r)].ref == Some(ref) && LibraryAdded(db, Derived(r.identity), ref).Ok?
    ensures Mild(db, LibraryAdded(db, Derived(r.identity), ref).value.0, r)
  {
  }

  lemma UploadCreatedMild(db: Db, r: Receipt, recording: RecordingId)
    requires UploadCreated(db, r, recording).Ok?
    ensures Mild(db, UploadCreated(db, r, recording).value.0, r)
  {
  }

  lemma UploadReplacedMild(db: Db, r: Receipt, id: UploadId, row: UploadRow)
    requires id < |db.uploads| && (Aborted(row.state) ==> Aborted(db.uploads[id].state))
    ensures Mild(db, db.(uploads := db.uploads[id := row]), r)
  {
  }

  lemma CanonicalMild(db: Db, r: Receipt, recording: RecordingId, variant: VariantId)
    ensures Mild(db, CanonicalChosen(db, recording, variant), r)
  {
  }

  lemma EntryPublishedMild(db: Db, r: Receipt, i: nat)
    requires i < |db.library|
    ensures Mild(db, EntryPublished(db, r.identity, i), r)
  {
  }

  lemma AdvanceLibraryMild(db: Db, rs: Receipts, r: Receipt, cp: Checkpoint, fault: Fault)
    requires Good(db, rs, r, cp) && cp.importId.Some?
    ensures Mild(db, AdvanceLibrary(db, r, cp, ImportOf(r), fault).db, r)
  {
    hide Mild, Grows, LibraryOk, UploadsOk, EventsOk;
    MildItself(db, r);
    var row := db.imports[ImportOf(r)];
    if row.ref.Some? && LibraryAdded(db, Derived(r.identity), row.ref.value).Ok? {
      LibraryAddedMild(db, r, row.ref.value);
    }
  }

  lemma AdvanceRecordingMild(db: Db, rs: Receipts, r: Receipt, cp: Checkpoint, f: Faults)
    requires Good(db, rs, r, cp) && cp.importId.Some? && cp.recordingId.None? && cp.state != PUBLISHED
    ensures Mild(db, AdvanceRecording(db, r, cp, cp.importId.value, f).db, r)
  {
    hide Mild, Grows, StoreOk;
    MildItself(db, r);
    var id := ImportOf(r);
    if db.imports[id].selected.Some? {
      AdvanceLibraryMild(db, rs, r, cp, f(2));
    } else if db.imports[id].decided {
      var mid := Reviewed(db, id);
      ReviewedKeeps(db, rs, id);
      ReviewedMild(db, r, id);
      ConsistentGrows(db, mid, r, cp);
      AdvanceLibraryMild(mid, rs, r, cp, f(2));
      AdvanceLibraryOk(mid, rs, r, cp, f(2));
      MildTransitive(db, mid, AdvanceLibrary(mid, r, cp, id, f(2)).db, r);
    }
  }

  lemma AdvanceUploadMild(db: Db, rs: Receipts, r: Receipt, cp: Checkpoint, fault: Fault)
    requires Good(db, rs, r, cp) && cp.recordingId.Some?
    ensures Mild(db, AdvanceUpload(db, r, cp, fault).db, r)
  {
    hide Mild, Grows, StoreOk, Consistent;
    MildItself(db, r);
    if UploadCreated(db, r, cp.recordingId.value).Ok? {
      UploadCreatedMild(db, r, cp.recordingId.value);
    }
  }

  lemma AdvanceOpenMild(db: Db, rs: Receipts, r: Receipt, cp: Checkpoint, f: Faults)
    requires Good(db, rs, r, cp) && cp.uploadId.Some? && db.uploads[cp.uploadId.value].state == OPEN
    ensures Mild(db, AdvanceOpen(db, r, cp, cp.uploadId.value, f).db, r)
  {
    hide Mild, Grows, StoreOk, Send;
    MildItself(db, r);
    var id := cp.uploadId.value;
    SendKeeps(db, rs, id, CHUNKS_PER_CALL, f, 3);
    var held := |db.uploads[id].bytes|;
    var sent := Send(db, id, r.audio, held, held, CHUNKS_PER_CALL, f, 3);
    var row := db.uploads[id].(bytes := sent.db.uploads[id].bytes);
    assert db.uploads[id].key == r.identity && sent.db == db.(uploads := db.uploads[id := row]);
    UploadReplacedMild(db, r, id, row);
    UploadReplacedMild(db, r, id, row.(state := SEALED));
    assert db.uploads[id := row][id := row.(state := SEALED)] == db.uploads[id := row.(state := SEALED)];
  }

  lemma AdvancePublishMild(db: Db, rs: Receipts, r: Receipt, cp: Checkpoint, f: Faults, now: real)
    requires Good(db, rs, r, cp) && cp.uploadId.Some?
    requires db.uploads[cp.uploadId.value].state in {COMMITTED, REUSED}
    ensures Mild(db, AdvancePublish(db, r, cp, cp.uploadId.value, f, now).db, r)
  {
    hide Mild, Grows, StoreOk, EntryPublished, CanonicalChosen;
    MildItself(db, r);
    var row := db.uploads[cp.uploadId.value];
    if row.variant.Some? {
      var chosen := CanonicalChosen(db, row.recording, row.variant.value);
      CanonicalChosenKeeps(db, rs, row.recording, row.variant.value);
      CanonicalMild(db, r, row.recording, row.variant.value);
      var i := EntryAt(chosen, cp.libraryId.value);
      if i.Some? && chosen.library[i.value].id == cp.libraryId.value {
        PublishedMild(db, chosen, rs, r, i.value);
      }
    }
  }

  lemma PublishedMild(db: Db, chosen: Db, rs: Receipts, r: Receipt, i: nat)
    requires StoreOk(chosen, rs) && Mild(db, chosen, r) && i < |chosen.library|
    ensures Mild(db, EntryPublished(chosen, r.identity, i), r)
  {
    hide Mild, Grows, StoreOk, EntryPublished;
    EntryPublishedKeeps(chosen, rs, r.identity, i);
    EntryPublishedMild(chosen, r, i);
    MildTransitive(db, chosen, EntryPublished(chosen, r.identity, i), r);
  }

  /** One call of advance, with any faults. */
  lemma AdvanceMild(db: Db, rs: Receipts, r: Receipt, cp: Checkpoint, f: Faults, now: real)
    requires Good(db, rs, r, cp) && cp.state != PUBLISHED
    ensures Mild(db, Advance(db, r, cp, f, now).db, r)
  {
    hide Mild, StoreOk, Grows, AdvanceImport, AdvanceRecording, AdvanceUpload, AdvanceOpen, AdvancePublish;
    MildItself(db, r);
    if cp.importId.None? {
      AdvanceImportMild(db, r, cp, f);
    } else if cp.recordingId.None? {
      AdvanceRecordingMild(db, rs, r, cp, f);
    } else if cp.uploadId.None? {
      AdvanceUploadMild(db, rs, r, cp, f(0));
    } else if db.uploads[cp.uploadId.value].state == OPEN {
      AdvanceOpenMild(db, rs, r, cp, f);
    } else if db.uploads[cp.uploadId.value].state in {COMMITTED, REUSED} {
      AdvancePublishMild(db, rs, r, cp, f, now);
    }
  }

  lemma AdvanceImportMild(db: Db, r: Receipt, cp: Checkpoint, f: Faults)
    ensures Mild(db, AdvanceImport(db, r, cp, f).db, r)
  {
    hide Mild;
    MildItself(db, r);
    ImportStartedMild(db, r);
  }

  // ---------------------------------------------------------------- what runs keep

  ghost predicate NoneRemoved(db: Db) {
    forall i :: 0 <= i < |db.library| ==> !db.library[i].removed
  }

  /** No import has failed and no upload session has been aborted. */
  ghost predicate Unaborted(db: Db) {
    && (forall id :: id in db.imports ==> !db.imports[id].failed)
    && (forall i :: 0 <= i < |db.uploads| ==> !Aborted(db.uploads[i].state))
  }

  /** The entries under the ids that the bridge derives are for the refs that the imports have chosen. */
  ghost predicate Entries(db: Db, rs: Receipts) {
    forall i :: 0 <= i < |db.library| && db.library[i].id.Derived? ==>
      var k := db.library[i].id.identity; k in rs && EntryOf(db, rs[k], db.library[i])
  }

  predicate Removes(e: Event) {
    e.OwnerRemoves?
  }

  predicate Aborts(e: Event) {
    e.ImportFails? || (e.UploadMoves? && Aborted(e.state))
  }

  lemma EntriesGrow(a: Db, b: Db, rs: Receipts)
    requires Entries(a, rs) && Grows(a, b)
    requires forall i :: |a.library| <= i < |b.library| && b.library[i].id.Derived? ==>
      var k := b.library[i].id.identity; k in rs && EntryOf(b, rs[k], b.library[i])
    ensures Entries(b, rs)
  {
    forall i | 0 <= i < |b.library| && b.library[i].id.Derived?
      ensures var k := b.library[i].id.identity; k in rs && EntryOf(b, rs[k], b.library[i])
    {
      if i < |a.library| {
        assert b.library[i].id == a.library[i].id && b.library[i].ref == a.library[i].ref;
        assert EntryOf(a, rs[a.library[i].id.identity], a.library[i]);
      }
    }
  }

  lemma OthersMild(db: Db, rs: Receipts, e: Event)
    requires StoreOk(db, rs) && Entries(db, rs)
    ensures Entries(Others(db, e), rs)
    ensures NoneRemoved(db) && !Removes(e) ==> NoneRemoved(Others(db, e))
    ensures Unaborted(db) && !Aborts(e) ==> Unaborted(Others(db, e))
  {
    hide StoreOk, Grows, Entries, Others, NoneRemoved, Unaborted;
    OthersKeep(db, rs, e);
    OthersEntries(db, e);
    OthersSpare(db, e);
    EntriesGrow(db, Others(db, e), rs);
  }

  lemma OthersSpare(db: Db, e: Event)
    ensures NoneRemoved(db) && !Removes(e) ==> NoneRemoved(Others(db, e))
    ensures Unaborted(db) && !Aborts(e) ==> Unaborted(Others(db, e))
  {
  }

  lemma OthersEntries(db: Db, e: Event)
    ensures forall i :: |db.library| <= i < |Others(db, e).library| ==> Others(db, e).library[i].id.Foreign?
  {
  }

  lemma CallMild(rs: Receipts, w: World, k: Identity, cp: Checkpoint, f: Faults, now: real)
    requires Keyed(rs) && WorldOk(rs, w) && Entries(w.db, rs) && Resumes(rs, w, k, cp) && cp.state != PUBLISHED
    ensures var after := Advance(w.db, rs[k], cp, f, now).db;
      && Entries(after, rs) && (NoneRemoved(w.db) ==> NoneRemoved(after)) && (Unaborted(w.db) ==> Unaborted(after))
  {
    AdvanceOk(w.db, rs, rs[k], cp, f, now);
    AdvanceMild(w.db, rs, rs[k], cp, f, now);
    hide StoreOk, Grows, Advance, Entries, Consistent;
    EntriesGrow(w.db, Advance(w.db, rs[k], cp, f, now).db, rs);
  }

  lemma NextMild(rs: Receipts, w: World, e: Event)
    requires Keyed(rs) && WorldOk(rs, w) && Entries(w.db, rs)
    ensures var after := Next(rs, w, e).db;
      && Entries(after, rs)
      && (NoneRemoved(w.db) && !Removes(e) ==> NoneRemoved(after))
      && (Unaborted(w.db) && !Aborts(e) ==> Unaborted(after))
  {
    hide StoreOk, Grows, Advance, Entries, Consistent, Others, NoneRemoved, Unaborted, AdvanceMetadata, Caught;
    if e.Call? {
      if Resumes(rs, w, e.k, e.cp) && e.cp.state != PUBLISHED {
        CallMild(rs, w, e.k, e.cp, e.faults, e.now);
      }
    } else {
      OthersMild(w.db, rs, e);
    }
  }

  lemma {:induction false} RunMild(rs: Receipts, events: seq<Event>)
    requires Keyed(rs)
    ensures var db := Run(rs, events).db;
      && Entries(db, rs)
      && ((forall e :: e in events ==> !Removes(e)) ==> NoneRemoved(db))
      && ((forall e :: e in events ==> !Aborts(e)) ==> Unaborted(db))
  {
    if events != [] {
      hide StoreOk, Grows, Entries, Consistent, Next, NoneRemoved, Unaborted, Removes, Aborts;
      var n := |events| - 1;
      RunOk(rs, events[..n]);
      RunMild(rs, events[..n]);
      NextMild(rs, Run(rs, events[..n]), events[n]);
      assert events[n] in events;
    }
  }

  // ---------------------------------------------------------------- one entry a receipt

  lemma StaysActive(db: Db, r: Receipt, cp: Checkpoint)
    requires Consistent(db, r, cp) && NoneRemoved(db)
    ensures StillActive(db, cp.libraryId) == cp.libraryId
  {
    if cp.libraryId.Some? {
      var i :| 0 <= i < |db.library| && db.library[i].id == cp.libraryId.value && db.library[i].ref == cp.refId.value;
      assert Active(db, cp.libraryId.value);
    }
  }

  /** Unless the owner removes an entry, all checkpoints of a receipt name the same library entry, whatever
      else happens. */
  lemma SameEntryThroughout(rs: Receipts, events: seq<Event>, k: Identity, a: Checkpoint, b: Checkpoint)
    requires Keyed(rs) && (k, a) in Run(rs, events).seen && (k, b) in Run(rs, events).seen
    requires forall e :: e in events ==> !Removes(e)
    ensures AgreeWhenKnown(a.libraryId, b.libraryId)
  {
    hide Run, StoreOk, Consistent, Removes, Entries, NoneRemoved, Unaborted;
    RunOk(rs, events);
    RunMild(rs, events);
    Convergence(rs, events, k, a, b);
    StaysActive(Run(rs, events).db, rs[k], a);
    StaysActive(Run(rs, events).db, rs[k], b);
  }

  /** And the replay of a finished receipt needs no further condition on the store than that. */
  lemma ReplayUndisturbed(rs: Receipts, events: seq<Event>, k: Identity, done: Checkpoint, stale: Checkpoint,
                          e: Surroundings)
    requires Keyed(rs) && (k, done) in Run(rs, events).seen && (k, stale) in Run(rs, events).seen
    requires k in rs && done.state == PUBLISHED && stale.state != PUBLISHED
    requires forall e :: e in events ==> !Removes(e) && !Aborts(e)
    requires !Waiting(stale, e.now) && stale.signature == rs[k].signature
    requires forall i, j :: e.faults(i)(j) == Fine
    ensures var (db, result) := AdvanceCheckpoint(Run(rs, events).db, rs[k], stale, e);
      db == Run(rs, events).db && result.state == PUBLISHED && SamePublication(result, done)
  {
    RunOk(rs, events);
    RunMild(rs, events);
    assert Consistent(Run(rs, events).db, rs[k], done) && done.importId.Some?;
    hide Run, StoreOk, Consistent, Removes, Aborts, Entries, NoneRemoved, AdvanceCheckpoint;
    StaysActive(Run(rs, events).db, rs[k], done);
    StaysActive(Run(rs, events).db, rs[k], stale);
    ReplayChangesNothing(rs, events, k, done, stale, e);
  }

  // ---------------------------------------------------------------- a removal makes a difference

  const FINE: Faults := (n: nat) => Fine

  /** The store once the import of `r` has its recording and entry. */
  function Entered(r: Receipt): Db {
    Db(map[ImportOf(r) := ImportRow(false, true, Some(0), Some(0))], 1, [0],
       [LibraryRow(Derived(r.identity), 0, Pending, Pending, 1, 0, false)], [], map[], [])
  }

  function Imported(r: Receipt): Checkpoint {
    Discovered(r).(importId := Some(ImportOf(r)), state := IMPORTING)
  }

  function WithEntry(r: Receipt, id: LibraryId): Checkpoint {
    Imported(r).(recordingId := Some(0), refId := Some(0), libraryId := Some(id), state := UPLOADING)
  }

  /** Discovery, import, decision, and the call that creates recording and entry. */
  function FirstEntry(r: Receipt): seq<Event> {
    [Discover(r.identity), Call(r.identity, Discovered(r), FINE, 0.0), ImportDecided(ImportOf(r)),
     Call(r.identity, Imported(r), FINE, 0.0)]
  }

  /** The owner removes the entry and adds the recording again; the checkpoint after the import is resumed. */
  function SecondEntry(r: Receipt): seq<Event> {
    [OwnerRemoves(0), OwnerAdds(0, 0, Pending), Call(r.identity, Imported(r), FINE, 0.0)]
  }

  lemma Unroll(rs: Receipts, w: World, events: seq<Event>)
    requires events != []
    ensures RunFrom(rs, w, events) == RunFrom(rs, Next(rs, w, events[0]), events[1..])
  {
    hide Next, RunFrom;
    OneEvent(rs, w, events[0]);
    RunOn(rs, w, [events[0]], events[1..]);
    assert events == [events[0]] + events[1..];
  }

  function Started(r: Receipt, decided: bool): Db {
    Db(map[ImportOf(r) := ImportRow(false, decided, None, None)], 0, [], [], [], map[], [])
  }

  lemma ImportCall(r: Receipt)
    ensures Advance(EMPTY.db, r, Discovered(r), FINE, 0.0) == Step(Started(r, false), Ok(Imported(r)))
  {
    assert FINE(0) == Fine && FINE(1) == Fine;
  }

  lemma EntryCall(r: Receipt)
    ensures Advance(Started(r, true), r, Imported(r), FINE, 0.0)
      == Step(Entered(r), Ok(WithEntry(r, Derived(r.identity))))
  {
    var db := Started(r, true);
    assert FINE(0) == Fine && FINE(1) == Fine && FINE(2) == Fine;
    var mid := Reviewed(db, ImportOf(r));
    assert mid.refs == [0] && mid.library == [];
    assert ActiveEntry(mid, 0).None? && EntryAt(mid, Derived(r.identity)).None?;
    assert mid.imports == Entered(r).imports;
  }

  /** The store once the owner has replaced the entry. */
  function Replaced(r: Receipt): Db {
    Entered(r).(library := [Edited(Entered(r).library[0], true),
                            LibraryRow(Foreign(0), 0, Pending, Pending, 1, 0, false)])
  }

  lemma OwnerReplaces(r: Receipt)
    ensures var removed := Others(Entered(r), OwnerRemoves(0));
      Others(removed, OwnerAdds(0, 0, Pending)) == Replaced(r)
  {
    var removed := Others(Entered(r), OwnerRemoves(0));
    assert removed.library == [Edited(Entered(r).library[0], true)];
    assert ActiveEntry(removed, 0).None? && EntryAt(removed, Foreign(0)).None?;
  }

  lemma OtherEntryCall(r: Receipt)
    ensures Advance(Replaced(r), r, Imported(r), FINE, 0.0) == Step(Replaced(r), Ok(WithEntry(r, Foreign(0))))
  {
    var db := Replaced(r);
    assert FINE(0) == Fine && FINE(1) == Fine && FINE(2) == Fine;
    assert db.library[0].removed && !db.library[1].removed;
    assert ActiveEntry(db, 0) == Some(1);
  }

  lemma FirstRun(rs: Receipts, k: Identity)
    requires Keyed(rs) && k in rs
    ensures var w := Run(rs, FirstEntry(rs[k]));
      && w.db == Entered(rs[k]) && (k, Imported(rs[k])) in w.seen
      && (k, WithEntry(rs[k], Derived(k))) in w.seen
  {
    hide Advance, RunFrom, EMPTY;
    var r, events := rs[k], FirstEntry(rs[k]);
    ImportCall(r);
    EntryCall(r);
    var first := Next(rs, EMPTY, events[0]);
    var second := Next(rs, first, events[1]);
    var third := Next(rs, second, events[2]);
    assert EMPTY.db == first.db && second.db == Started(r, false);
    assert third.db == Started(r, true) by {
      assert second.db.imports[ImportOf(r) := ImportRow(false, true, None, None)] == Started(r, true).imports;
    }
    Unroll(rs, EMPTY, events);
    Unroll(rs, first, events[1..]);
    Unroll(rs, second, events[2..]);
    OneEvent(rs, third, events[3]);
    assert events[1..][1..] == events[2..] && events[2..][1..] == [events[3]];
  }

  /** A removal makes a difference: for every receipt there is a run with one in which two checkpoints of the
      receipt name different entries. */
  lemma RemovalDiverges(rs: Receipts, k: Identity)
    requires Keyed(rs) && k in rs
    ensures exists events, a, b :: ((k, a) in Run(rs, events).seen && (k, b) in Run(rs, events).seen
      && !AgreeWhenKnown(a.libraryId, b.libraryId))
  {
    var r, more := rs[k], SecondEntry(rs[k]);
    var w := Run(rs, FirstEntry(r));
    FirstRun(rs, k);
    OwnerReplaces(r);
    OtherEntryCall(r);
    hide Advance, RunFrom, EMPTY, Others;
    var second := Next(rs, w, more[0]);
    var third := Next(rs, second, more[1]);
    RunOn(rs, EMPTY, FirstEntry(r), more);
    Unroll(rs, w, more);
    Unroll(rs, second, more[1..]);
    OneEvent(rs, third, more[2]);
    assert more[1..][1..] == [more[2]];
    SeenOn(rs, w, more);
    var a, b := WithEntry(r, Derived(k)), WithEntry(r, Foreign(0));
    assert (k, a) in Run(rs, FirstEntry(r) + more).seen && (k, b) in Run(rs, FirstEntry(r) + more).seen;
    assert a.libraryId != b.libraryId;
  }

  lemma {:induction false} SeenOn(rs: Receipts, w: World, events: seq<Event>)
    ensures w.seen <= RunFrom(rs, w, events).seen
  {
    if events != [] {
      hide Advance, AdvanceMetadata, Caught, Others;
      SeenOn(rs, w, events[..|events| - 1]);
    }
  }

  // ---------------------------------------------------------------- a receipt can be published

  ghost predicate Gentle(events: seq<Event>) {
    forall e :: e in events ==> !Removes(e) && !Aborts(e)
  }

  /** A state of a run without removals, failed imports and aborted uploads. */
  ghost predicate Calm(rs: Receipts, w: World) {
    Keyed(rs) && WorldOk(rs, w) && Entries(w.db, rs) && NoneRemoved(w.db) && Unaborted(w.db)
  }

  lemma CalmNext(rs: Receipts, w: World, e: Event)
    requires Calm(rs, w) && !Removes(e) && !Aborts(e)
    ensures Calm(rs, Next(rs, w, e)) && w.seen <= Next(rs, w, e).seen
  {
    NextOk(rs, w, e);
    NextMild(rs, w, e);
    hide Advance, AdvanceMetadata, Caught, Others, WorldOk, Entries, NoneRemoved, Unaborted;
  }

  /** The call that starts the import. */
  lemma CallOne(rs: Receipts, w: World, k: Identity, cp: Checkpoint)
    requires Calm(rs, w) && Resumes(rs, w, k, cp) && cp.state != PUBLISHED && CallsLeft(cp) == 3
    ensures var step := Advance(w.db, rs[k], cp, FINE, 0.0);
      step.result.Ok? && CallsLeft(step.result.value) == 2 && step.result.value.state != PUBLISHED
  {
    assert FINE(0) == Fine && FINE(1) == Fine;
    assert Consistent(w.db, rs[k], cp);
  }

  /** The call that creates or finds recording, ref and entry, once the import is decided. */
  lemma CallTwo(rs: Receipts, w: World, k: Identity, cp: Checkpoint)
    requires Calm(rs, w) && Resumes(rs, w, k, cp) && cp.state != PUBLISHED && CallsLeft(cp) == 2
    requires ImportOf(rs[k]) in w.db.imports && w.db.imports[ImportOf(rs[k])].decided
    ensures var step := Advance(w.db, rs[k], cp, FINE, 0.0);
      step.result.Ok? && CallsLeft(step.result.value) == 1 && step.result.value.state != PUBLISHED
  {
    assert FINE(0) == Fine && FINE(1) == Fine && FINE(2) == Fine;
    assert Consistent(w.db, rs[k], cp);
    var r, db, id := rs[k], w.db, ImportOf(rs[k]);
    if EntryAt(db, Derived(k)).Some? {
      EntryFree(db, rs, k);
    }
    if db.imports[id].selected.None? {
      ReviewedKeeps(db, rs, id);
    }
  }

  /** The derived id is free, or it is that of the active entry of the chosen ref. */
  lemma EntryFree(db: Db, rs: Receipts, k: Identity)
    requires Entries(db, rs) && NoneRemoved(db) && k in rs && rs[k].identity == k
    requires EntryAt(db, Derived(k)).Some?
    ensures var row := db.library[EntryAt(db, Derived(k)).value];
      EntryOf(db, rs[k], row) && ActiveEntry(db, row.ref).Some?
  {
    var i := EntryAt(db, Derived(k)).value;
    assert db.library[i].id.Derived? && !db.library[i].removed;
  }

  /** The call that creates or finds the upload session. */
  lemma CallThree(rs: Receipts, w: World, k: Identity, cp: Checkpoint)
    requires Calm(rs, w) && Resumes(rs, w, k, cp) && cp.state != PUBLISHED && CallsLeft(cp) == 1
    ensures var step := Advance(w.db, rs[k], cp, FINE, 0.0);
      step.result.Ok? && CallsLeft(step.result.value) == 0 && step.result.value.state != PUBLISHED
  {
    assert FINE(0) == Fine;
    assert Consistent(w.db, rs[k], cp);
    hide StoreOk;
    UploadCreatedKeeps(w.db, rs, rs[k], cp.recordingId.value);
  }

  lemma EntryThere(db: Db, r: Receipt, cp: Checkpoint)
    requires LibraryOk(db) && NoneRemoved(db) && Consistent(db, r, cp) && cp.recordingId.Some?
    ensures ActiveEntry(db, cp.refId.value).Some? && EntryAt(db, cp.libraryId.value).Some?
    ensures var row := db.library[EntryAt(db, cp.libraryId.value).value];
      !row.removed && row.ref == cp.refId.value
  {
    hide RowOk;
    var i :| 0 <= i < |db.library| && db.library[i].id == cp.libraryId.value && db.library[i].ref == cp.refId.value;
    assert !db.library[i].removed;
  }

  lemma PublishCall(db: Db, rs: Receipts, r: Receipt, cp: Checkpoint)
    requires Good(db, rs, r, cp) && NoneRemoved(db) && cp.uploadId.Some?
    requires db.uploads[cp.uploadId.value].state in {COMMITTED, REUSED}
    ensures var step := AdvancePublish(db, r, cp, cp.uploadId.value, FINE, 0.0);
      step.result.Ok? && step.result.value.state == PUBLISHED
  {
    assert FINE(1) == Fine && FINE(2) == Fine && FINE(3) == Fine;
    var row := db.uploads[cp.uploadId.value];
    CommittedMatches(db, rs, r, cp);
    var chosen := CanonicalChosen(db, row.recording, row.variant.value);
    CanonicalChosenKeeps(db, rs, row.recording, row.variant.value);
    CanonicalSame(db, row.recording, row.variant.value);
    assert chosen.library == db.library;
    hide StoreOk, Grows, EntryPublished, CanonicalChosen, ActiveEntry, EntryAt;
    ConsistentGrows(db, chosen, r, cp);
    RefResolves(db, rs, r, cp);
    LibraryIsOk(chosen, rs);
    EntryThere(chosen, r, cp);
  }

  lemma LibraryIsOk(db: Db, rs: Receipts)
    requires StoreOk(db, rs)
    ensures LibraryOk(db)
  {
  }

  /** The call that publishes. */
  lemma CallLast(rs: Receipts, w: World, k: Identity, cp: Checkpoint)
    requires Calm(rs, w) && Resumes(rs, w, k, cp) && cp.state != PUBLISHED && CallsLeft(cp) == 0
    requires cp.uploadId.value < |w.db.uploads| && w.db.uploads[cp.uploadId.value].state in {COMMITTED, REUSED}
    ensures var step := Advance(w.db, rs[k], cp, FINE, 0.0);
      step.result.Ok? && step.result.value.state == PUBLISHED
  {
    hide AdvancePublish, StoreOk, NoneRemoved, Unaborted, Entries;
    assert FINE(0) == Fine;
    assert Consistent(w.db, rs[k], cp);
    PublishCall(w.db, rs, rs[k], cp);
  }

  const BATCH: nat := CHUNKS_PER_CALL * MIB

  /** How many more events it may take to publish from this checkpoint. */
  ghost function EventsLeft(w: World, r: Receipt, cp: Checkpoint): nat
    requires CallsLeft(cp) == 0 ==> cp.uploadId.value < |w.db.uploads|
  {
    if CallsLeft(cp) > 0 then 2 * CallsLeft(cp) + |r.audio| / BATCH + 5
    else
      var row := w.db.uploads[cp.uploadId.value];
      match row.state
      case OPEN => (if |row.bytes| <= |r.audio| then (|r.audio| - |row.bytes|) / BATCH else 0) + 5
      case SEALED => 4
      case PROCESSING => 3
      case COMMIT_PREPARED => 2
      case _ => 1
  }

  lemma FewerBatches(total: nat, held: nat)
    requires held <= total
    ensures (total - held) / BATCH <= total / BATCH
    ensures held + BATCH <= total ==> (total - held - BATCH) / BATCH == (total - held) / BATCH - 1
  {
  }

  lemma AtUpload(rs: Receipts, w: World, k: Identity, cp: Checkpoint)
    requires Calm(rs, w) && Resumes(rs, w, k, cp) && CallsLeft(cp) == 0
    ensures cp.uploadId.value < |w.db.uploads| && cp.recordingId.Some? && cp.importId.Some?
    ensures var row := w.db.uploads[cp.uploadId.value];
      !Aborted(row.state) && row.key == k && |row.bytes| <= |rs[k].audio|
    ensures EventsLeft(w, rs[k], cp) <= |rs[k].audio| / BATCH + 5
  {
    hide Entries, NoneRemoved;
    assert Consistent(w.db, rs[k], cp);
    UploadHeld(w.db, rs, cp.uploadId.value);
    FewerBatches(|rs[k].audio|, |w.db.uploads[cp.uploadId.value].bytes|);
  }

  /** The ingest worker takes the upload one state further. */
  lemma MoveOn(rs: Receipts, w: World, k: Identity, cp: Checkpoint, state: UploadState)
    requires Calm(rs, w) && Resumes(rs, w, k, cp) && CallsLeft(cp) == 0 && cp.uploadId.value < |w.db.uploads|
    requires UploadStep(w.db.uploads[cp.uploadId.value].state, state) && !Aborted(state)
    ensures var next := Next(rs, w, UploadMoves(cp.uploadId.value, state, 0));
      && Calm(rs, next) && Resumes(rs, next, k, cp) && cp.uploadId.value < |next.db.uploads|
      && next.db.uploads[cp.uploadId.value].state == state
  {
    CalmNext(rs, w, UploadMoves(cp.uploadId.value, state, 0));
  }

  /** The call that sends up to 32 chunks. */
  lemma CallOpen(rs: Receipts, w: World, k: Identity, cp: Checkpoint)
    requires Calm(rs, w) && Resumes(rs, w, k, cp) && cp.state != PUBLISHED && CallsLeft(cp) == 0
    requires cp.uploadId.value < |w.db.uploads| && w.db.uploads[cp.uploadId.value].state == OPEN
    ensures var next := Next(rs, w, Call(k, cp, FINE, 0.0));
      cp.uploadId.value < |next.db.uploads| && EventsLeft(next, rs[k], cp) < EventsLeft(w, rs[k], cp)
  {
    hide Advance, StoreOk, Entries, NoneRemoved, Unaborted, Grows;
    assert Consistent(w.db, rs[k], cp);
    AtUpload(rs, w, k, cp);
    UploadProgress(w.db, rs, rs[k], cp, FINE, 0.0);
    AdvanceOk(w.db, rs, rs[k], cp, FINE, 0.0);
    UploadsStay(w.db, Advance(w.db, rs[k], cp, FINE, 0.0).db);
    FewerBatches(|rs[k].audio|, |w.db.uploads[cp.uploadId.value].bytes|);
  }

  lemma UploadsStay(a: Db, b: Db)
    requires Grows(a, b)
    ensures |a.uploads| <= |b.uploads|
  {
  }

  /** A state in which a receipt waits to be published, and how far that is. */
  ghost predicate Awaits(rs: Receipts, w: World, k: Identity, cp: Checkpoint, left: nat) {
    && Calm(rs, w) && Resumes(rs, w, k, cp) && cp.state != PUBLISHED
    && (CallsLeft(cp) == 0 ==> cp.uploadId.value < |w.db.uploads|)
    && EventsLeft(w, rs[k], cp) <= left
  }

  /** One call, or one event of the services, brings the receipt nearer. */
  lemma CallNext(rs: Receipts, w: World, k: Identity, cp: Checkpoint, left: nat, next: Checkpoint)
    requires Awaits(rs, w, k, cp, left)
    requires Advance(w.db, rs[k], cp, FINE, 0.0).result == Ok(next)
    ensures var after := Next(rs, w, Call(k, cp, FINE, 0.0));
      && Calm(rs, after) && Resumes(rs, after, k, cp) && Resumes(rs, after, k, next)
      && after.db == Advance(w.db, rs[k], cp, FINE, 0.0).db
  {
    hide Advance, WorldOk, Entries, NoneRemoved, Unaborted;
    CalmNext(rs, w, Call(k, cp, FINE, 0.0));
  }

  lemma EarlyCall(rs: Receipts, w: World, k: Identity, cp: Checkpoint, left: nat) returns (next: Checkpoint)
    requires Awaits(rs, w, k, cp, left) && CallsLeft(cp) > 0
    requires CallsLeft(cp) == 2 ==> ImportOf(rs[k]) in w.db.imports && w.db.imports[ImportOf(rs[k])].decided
    ensures Awaits(rs, Next(rs, w, Call(k, cp, FINE, 0.0)), k, next, left - (if CallsLeft(cp) == 1 then 1 else 2))
  {
    hide Advance, Calm;
    if CallsLeft(cp) == 3 {
      CallOne(rs, w, k, cp);
    } else if CallsLeft(cp) == 2 {
      CallTwo(rs, w, k, cp);
    } else {
      CallThree(rs, w, k, cp);
    }
    next := Advance(w.db, rs[k], cp, FINE, 0.0).result.value;
    CallNext(rs, w, k, cp, left, next);
    if CallsLeft(next) == 0 {
      AtUpload(rs, Next(rs, w, Call(k, cp, FINE, 0.0)), k, next);
    }
  }

  lemma Decide(rs: Receipts, w: World, k: Identity, cp: Checkpoint, left: nat)
    requires Awaits(rs, w, k, cp, left) && CallsLeft(cp) == 2
    ensures var next := Next(rs, w, ImportDecided(ImportOf(rs[k])));
      && Awaits(rs, next, k, cp, left)
      && ImportOf(rs[k]) in next.db.imports && next.db.imports[ImportOf(rs[k])].decided
  {
    assert Consistent(w.db, rs[k], cp);
    hide Calm, Consistent, StoreOk;
    CalmNext(rs, w, ImportDecided(ImportOf(rs[k])));
  }

  lemma LastCall(rs: Receipts, w: World, k: Identity, cp: Checkpoint, left: nat) returns (done: Checkpoint)
    requires Awaits(rs, w, k, cp, left) && CallsLeft(cp) == 0
    requires w.db.uploads[cp.uploadId.value].state in {COMMITTED, REUSED}
    ensures (k, done) in Next(rs, w, Call(k, cp, FINE, 0.0)).seen && done.state == PUBLISHED && left >= 1
  {
    hide Advance, Calm;
    CallLast(rs, w, k, cp);
    done := Advance(w.db, rs[k], cp, FINE, 0.0).result.value;
  }

  /** The upload is not committed yet: a call sends more of it, or the ingest worker goes on with it. */
  function UploadEvent(w: World, k: Identity, cp: Checkpoint): Event
    requires CallsLeft(cp) == 0 && cp.uploadId.value < |w.db.uploads|
  {
    var id := cp.uploadId.value;
    match w.db.uploads[id].state
    case OPEN => Call(k, cp, FINE, 0.0)
    case SEALED => UploadMoves(id, PROCESSING, 0)
    case PROCESSING => UploadMoves(id, COMMIT_PREPARED, 0)
    case _ => UploadMoves(id, COMMITTED, 0)
  }

  lemma UploadNext(rs: Receipts, w: World, k: Identity, cp: Checkpoint, left: nat)
    requires Awaits(rs, w, k, cp, left) && CallsLeft(cp) == 0
    requires w.db.uploads[cp.uploadId.value].state !in {COMMITTED, REUSED}
    ensures left >= 1 && Awaits(rs, Next(rs, w, UploadEvent(w, k, cp)), k, cp, left - 1)
    ensures !Removes(UploadEvent(w, k, cp)) && !Aborts(UploadEvent(w, k, cp))
  {
    hide Calm, Next;
    AtUpload(rs, w, k, cp);
    var row := w.db.uploads[cp.uploadId.value];
    if row.state == OPEN {
      CallOpen(rs, w, k, cp);
      CalmNext(rs, w, Call(k, cp, FINE, 0.0));
    } else {
      MoveOn(rs, w, k, cp, UploadEvent(w, k, cp).state);
    }
  }

  /** One event, and then the others. */
  lemma Continue(rs: Receipts, w: World, e: Event, rest: seq<Event>)
    requires !Removes(e) && !Aborts(e) && Gentle(rest)
    ensures Gentle([e] + rest) && RunFrom(rs, w, [e] + rest) == RunFrom(rs, Next(rs, w, e), rest)
  {
    hide Next, RunFrom;
    OneEvent(rs, w, e);
    RunOn(rs, w, [e], rest);
  }

  lemma {:induction false} PublishFrom(rs: Receipts, w: World, k: Identity, cp: Checkpoint, left: nat)
    returns (events: seq<Event>, done: Checkpoint)
    requires Awaits(rs, w, k, cp, left)
    ensures Gentle(events) && |events| <= left
    ensures (k, done) in RunFrom(rs, w, events).seen && done.state == PUBLISHED
    decreases left
  {
    hide Calm, RunFrom, Next, Gentle, EventsLeft, StoreOk;
    var call := Call(k, cp, FINE, 0.0);
    NoEvents(rs, w);
    if CallsLeft(cp) == 0 && w.db.uploads[cp.uploadId.value].state in {COMMITTED, REUSED} {
      done := LastCall(rs, w, k, cp, left);
      events := [call];
      OneEvent(rs, w, call);
      GentleCall(call);
    } else if CallsLeft(cp) == 0 {
      var e := UploadEvent(w, k, cp);
      UploadNext(rs, w, k, cp, left);
      var rest;
      rest, done := PublishFrom(rs, Next(rs, w, e), k, cp, left - 1);
      Continue(rs, w, e, rest);
      events := [e] + rest;
    } else if CallsLeft(cp) == 2 {
      var e := ImportDecided(ImportOf(rs[k]));
      Decide(rs, w, k, cp, left);
      var mid := Next(rs, w, e);
      var next := EarlyCall(rs, mid, k, cp, left);
      var rest;
      rest, done := PublishFrom(rs, Next(rs, mid, call), k, next, left - 2);
      Continue(rs, mid, call, rest);
      Continue(rs, w, e, [call] + rest);
      events := [e] + ([call] + rest);
    } else {
      var next := EarlyCall(rs, w, k, cp, left);
      var rest;
      rest, done := PublishFrom(rs, Next(rs, w, call), k, next, left - (if CallsLeft(cp) == 1 then 1 else 2));
      Continue(rs, w, call, rest);
      events := [call] + rest;
    }
  }

  lemma GentleCall(e: Event)
    requires e.Call?
    ensures Gentle([e])
  {
  }

  /** Every receipt can be published: after any run without removals, failed imports and aborted uploads, from
      any checkpoint of it that is not published yet, calls without faults and the services' own events publish
      it within a number of events that is known beforehand, a call for each 32 MiB included. */
  lemma CanPublish(rs: Receipts, events: seq<Event>, k: Identity, cp: Checkpoint)
    requires Keyed(rs) && Gentle(events) && (k, cp) in Run(rs, events).seen && cp.state != PUBLISHED
    ensures exists more, done :: (Gentle(more) && (k, done) in Run(rs, events + more).seen
      && done.state == PUBLISHED && k in rs && |more| <= 2 * CallsLeft(cp) + |rs[k].audio| / BATCH + 5)
  {
    hide RunFrom, StoreOk, Entries, NoneRemoved, Unaborted, Removes, Aborts, EventsLeft, Consistent;
    RunOk(rs, events);
    RunMild(rs, events);
    var w := Run(rs, events);
    var left := 2 * CallsLeft(cp) + |rs[k].audio| / BATCH + 5;
    Begins(rs, w, k, cp);
    var more, done := PublishFrom(rs, w, k, cp, left);
    RunOn(rs, EMPTY, events, more);
    assert Run(rs, events + more) == RunFrom(rs, w, more);
  }

  lemma Begins(rs: Receipts, w: World, k: Identity, cp: Checkpoint)
    requires Calm(rs, w) && Resumes(rs, w, k, cp) && cp.state != PUBLISHED
    ensures Awaits(rs, w, k, cp, 2 * CallsLeft(cp) + |rs[k].audio| / BATCH + 5)
  {
    hide Calm;
    if CallsLeft(cp) == 0 {
      AtUpload(rs, w, k, cp);
    }
  }

  /** In particular there is a run that publishes, for every receipt. */
  lemma SomeRunPublishes(rs: Receipts, k: Identity)
    requires Keyed(rs) && k in rs
    ensures exists events, done :: (k, done) in Run(rs, events).seen && done.state == PUBLISHED
  {
    var start := [Discover(k)];
    OneEvent(rs, EMPTY, start[0]);
    assert (k, Discovered(rs[k])) in Run(rs, start).seen;
    CanPublish(rs, start, k, Discovered(rs[k]));
  }
}
