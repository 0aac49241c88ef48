/**
 The retry automaton of one receipt: what a call of advance_checkpoint may do to the checkpoint,
 and what follows for every sequence of calls.
 */
module CheckpointLaws {
  import opened Outcomes
  import opened VaultBridge

  // ---------------------------------------------------------------- one call

  /** A call that was refused with an ordinary exception and schedules a retry. */
  predicate RetryStep(a: Checkpoint, b: Checkpoint, at: real) {
    && b.failures == a.failures + 1 && b.retryAt == Some(at + RetryDelay(b.failures))
    && b.state == (if b.failures >= 5 then NEEDS_REVIEW else a.state)
    && b == a.(state := b.state, failures := b.failures, retryAt := b.retryAt, error := b.error)
  }

  /** A call that reaches `advance`: not published, not waiting, and the receipt unchanged. */
  predicate Attempts(r: Receipt, a: Checkpoint, now: real) {
    a.state != PUBLISHED && !Waiting(a, now) && a.signature == r.signature
  }

  /** The outcome of the calls of `advance` that one call makes. */
  function Attempted(db: Db, r: Receipt, a: Checkpoint, e: Surroundings): Step {
    AdvanceLoop(db, r, a, 6, e.faults, e.published)
  }

  /** A call that an ordinary exception ends. */
  predicate Refused(db: Db, r: Receipt, a: Checkpoint, e: Surroundings) {
    Attempts(r, a, e.now) && Attempted(db, r, a, e).result.Err? && Attempted(db, r, a, e).result.error.OtherError?
  }

  /** What one call does to the retry record. A retry is scheduled by exactly those calls that an ordinary
      exception ends; a receipt error asks for review; on any exception the ids reached inside the call are
      dropped, while the store keeps what was written; a success keeps the ids and clears the record. A
      publication is kept for good, a call before the retry time does nothing. */
  lemma CallOutcomes(db: Db, r: Receipt, a: Checkpoint, e: Surroundings)
    ensures var (after, b) := AdvanceCheckpoint(db, r, a, e);
      var step := Attempted(db, r, a, e);
      && (RetryStep(a, b, e.caught) <==> Refused(db, r, a, e))
      && (a.state == PUBLISHED ==> after == db && b == a.(metadata := b.metadata))
      && (a.state != PUBLISHED && Waiting(a, e.now) ==> after == db && b == a)
      && (a.state != PUBLISHED && !Waiting(a, e.now) && a.signature != r.signature ==>
            after == db && b == a.(state := NEEDS_REVIEW, error := Some("source_changed")))
      && (Attempts(r, a, e.now) ==> after == step.db)
      && (Attempts(r, a, e.now) && step.result.Err? && step.result.error.ReceiptError? ==>
            b == a.(state := NEEDS_REVIEW, error := Some(step.result.error.code)))
      && (Attempts(r, a, e.now) && step.result.Ok? ==>
            && b == step.result.value.(failures := 0, retryAt := None, error := None, metadata := b.metadata)
            && (b.state != PUBLISHED ==> b.metadata == step.result.value.metadata))
  {
    hide AdvanceLoop, RetryDelay;
  }

  /** A call of a run, and the store that it meets: other processes may write to it between the calls. */
  datatype Turn = Turn(db: Db, around: Surroundings)

  /** The checkpoint after a run of calls, each resuming the checkpoint of the last. */
  function CallRun(r: Receipt, cp: Checkpoint, calls: seq<Turn>): Checkpoint
    decreases |calls|
  {
    if calls == [] then cp
    else CallRun(r, AdvanceCheckpoint(calls[0].db, r, cp, calls[0].around).1, calls[1..])
  }

  /** Does every call of the run leave the store as it meets it? */
  predicate WritesNothing(r: Receipt, cp: Checkpoint, calls: seq<Turn>)
    decreases |calls|
  {
    calls == [] ||
    var (after, next) := AdvanceCheckpoint(calls[0].db, r, cp, calls[0].around);
    after == calls[0].db && WritesNothing(r, next, calls[1..])
  }

  /** A publication is permanent: no run of calls changes the store or anything but metadata keys. */
  lemma {:induction false} PublishedForever(r: Receipt, cp: Checkpoint, calls: seq<Turn>)
    requires cp.state == PUBLISHED
    ensures WritesNothing(r, cp, calls)
    ensures var end := CallRun(r, cp, calls); end == cp.(metadata := end.metadata)
    decreases |calls|
  {
    if calls != [] {
      CallOutcomes(calls[0].db, r, cp, calls[0].around);
      PublishedForever(r, AdvanceCheckpoint(calls[0].db, r, cp, calls[0].around).1, calls[1..]);
    }
  }

  /** The delay grows with the number of failures, from 20 seconds to 300. */
  lemma DelayGrows(m: nat, n: nat)
    requires 1 <= m <= n
    ensures 20.0 <= RetryDelay(m) <= RetryDelay(n) <= 300.0
  {
    assert Power2(2) == 4 && Power2(3) == 8 && Power2(4) == 16 && Power2(5) == 32;
  }

  // ---------------------------------------------------------------- consecutive failures

  /** No call of the run succeeds: each waits for the retry time, or an ordinary exception ends it. */
  predicate NoneSucceeds(r: Receipt, cp: Checkpoint, calls: seq<Turn>)
    decreases |calls|
  {
    calls == [] ||
    var first := calls[0];
    && (Refused(first.db, r, cp, first.around) || Waiting(cp, first.around.now))
    && NoneSucceeds(r, AdvanceCheckpoint(first.db, r, cp, first.around).1, calls[1..])
  }

  /** How many calls of the run an ordinary exception ends. */
  function Refusals(r: Receipt, cp: Checkpoint, calls: seq<Turn>): nat
    decreases |calls|
  {
    if calls == [] then 0
    else
      var first := calls[0];
      (if Refused(first.db, r, cp, first.around) then 1 else 0)
      + Refusals(r, AdvanceCheckpoint(first.db, r, cp, first.around).1, calls[1..])
  }

  /** Over any run without a success the failures count up by one for each attempt, however many calls wait
      in between and whatever others write to the store. The fifth failure, and none before it, asks for
      review, and the progress of the last success is kept throughout. */
  lemma {:induction false} FiveFailures(r: Receipt, cp: Checkpoint, calls: seq<Turn>)
    requires cp.state != PUBLISHED && NoneSucceeds(r, cp, calls)
    ensures var end, n := CallRun(r, cp, calls), Refusals(r, cp, calls);
      && end.failures == cp.failures + n
      && end.state == (if n > 0 && cp.failures + n >= 5 then NEEDS_REVIEW else cp.state)
      && end == cp.(state := end.state, failures := end.failures, retryAt := end.retryAt, error := end.error)
      && (n == 0 ==> end == cp)
    decreases |calls|
  {
    if calls != [] {
      hide AdvanceCheckpoint, Refused, Waiting, RetryDelay;
      CallOutcomes(calls[0].db, r, cp, calls[0].around);
      FiveFailures(r, AdvanceCheckpoint(calls[0].db, r, cp, calls[0].around).1, calls[1..]);
    }
  }

  /** After a refused call no call does anything before the delay has passed, whatever the store has become. */
  lemma AttemptsAreSpaced(db: Db, r: Receipt, a: Checkpoint, d: Surroundings, later: Db, e: Surroundings)
    requires Refused(db, r, a, d)
    requires var b := AdvanceCheckpoint(db, r, a, d).1; AdvanceCheckpoint(later, r, b, e) != (later, b)
    ensures e.now >= d.caught + RetryDelay(a.failures + 1) && RetryDelay(a.failures + 1) >= 20.0
  {
    hide AdvanceLoop;
    CallOutcomes(db, r, a, d);
    DelayGrows(a.failures + 1, a.failures + 1);
  }

  // ---------------------------------------------------------------- metadata

  datatype Attempt = Attempt(handOff: Option<Failure>, now: real, later: real)

  /** The checkpoint after a run of calls on a published receipt. */
  function MetadataRun(r: Receipt, cp: Checkpoint, calls: seq<Attempt>): Checkpoint
    decreases |calls|
  {
    if calls == [] then cp
    else
      var c := calls[0];
      MetadataRun(r, AdvanceMetadata(r, cp, c.handOff, c.now, c.later), calls[1..])
  }

  /** How many of the calls reach the hand-off and fail. */
  function FailedAttempts(r: Receipt, cp: Checkpoint, calls: seq<Attempt>): nat
    decreases |calls|
  {
    if calls == [] then 0
    else
      var c := calls[0];
      (if MetadataAttemptFails(r, cp, c.handOff, c.now) then 1 else 0)
      + FailedAttempts(r, AdvanceMetadata(r, cp, c.handOff, c.now, c.later), calls[1..])
  }

  /** Metadata records that the automaton can reach for the receipt's digest. */
  predicate MetadataSound(r: Receipt, cp: Checkpoint) {
    cp.metadata.sha256 == Some(r.metadataSha256) ==>
      && (cp.metadata.state == Some(METADATA_FAILED) || cp.metadata.failures <= 4)
      && cp.metadata.failures <= 5
  }

  function FailuresLeft(r: Receipt, cp: Checkpoint): nat
    requires MetadataSound(r, cp)
  {
    if cp.metadata.sha256 != Some(r.metadataSha256) then 5 else 5 - cp.metadata.failures
  }

  lemma MetadataStep(r: Receipt, cp: Checkpoint, c: Attempt)
    requires MetadataSound(r, cp)
    ensures var next := AdvanceMetadata(r, cp, c.handOff, c.now, c.later);
      && MetadataSound(r, next) && next == cp.(metadata := next.metadata)
      && (MetadataAttemptFails(r, cp, c.handOff, c.now) ==> FailuresLeft(r, next) == FailuresLeft(r, cp) - 1)
      && (!MetadataAttemptFails(r, cp, c.handOff, c.now) ==>
        FailuresLeft(r, next) == FailuresLeft(r, cp) || !MetadataPending(r, next))
  {
  }

  lemma {:induction false} MetadataSettled(r: Receipt, cp: Checkpoint, calls: seq<Attempt>)
    requires !MetadataPending(r, cp)
    ensures MetadataRun(r, cp, calls) == cp && FailedAttempts(r, cp, calls) == 0
    decreases |calls|
  {
    if calls != [] {
      MetadataSettled(r, cp, calls[1..]);
    }
  }

  /** For one digest the hand-off fails at most five times over any run, only metadata keys change,
      and the fifth failure is final: the record is FAILED and no later call changes it. */
  lemma {:induction false} AtMostFiveMetadataFailures(r: Receipt, cp: Checkpoint, calls: seq<Attempt>)
    requires MetadataSound(r, cp)
    ensures var end := MetadataRun(r, cp, calls);
      && FailedAttempts(r, cp, calls) <= FailuresLeft(r, cp) <= 5
      && end == cp.(metadata := end.metadata) && MetadataSound(r, end)
      && (FailedAttempts(r, cp, calls) == FailuresLeft(r, cp) && FailuresLeft(r, cp) > 0 ==>
        end.metadata.state == Some(METADATA_FAILED) && !MetadataPending(r, end))
    decreases |calls|
  {
    if calls != [] {
      var c := calls[0];
      var next := AdvanceMetadata(r, cp, c.handOff, c.now, c.later);
      MetadataStep(r, cp, c);
      if !MetadataPending(r, next) {
        MetadataSettled(r, next, calls[1..]);
      }
      AtMostFiveMetadataFailures(r, next, calls[1..]);
    }
  }
}
