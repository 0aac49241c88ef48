/**
 The main loop of the bridge: it selects receipts, keeps at most eight of them in flight, saves
 every result before it resubmits the receipt, and in --once mode submits each key at most once.
 */
module BridgeScheduler {
  import opened FiniteSets
  import opened Outcomes
  import opened StableSort
  import opened VaultBridge

  const WORKERS: nat := 8

  // ---------------------------------------------------------------- selection

  /** A receipt with the completion time that orders it. */
  datatype Item = Item(receipt: Receipt, completedAt: int)

  type Items = seq<Item>
  type Checkpoints = map<Identity, Checkpoint>

  predicate Unpublished(checkpoints: Checkpoints, k: Identity) {
    k in checkpoints ==> checkpoints[k].state != PUBLISHED
  }

  /** A receipt that still has work: audio to publish, or metadata that is pending and due. */
  predicate HasWork(item: Item, checkpoints: Checkpoints, wall: real) {
    var k := item.receipt.identity;
    k !in checkpoints ||
    var cp := checkpoints[k];
    && cp.state != NEEDS_REVIEW
    && (cp.state == PUBLISHED ==>
      && MetadataPending(item.receipt, cp)
      && (|| cp.metadata.sha256 != Some(item.receipt.metadataSha256)
          || (cp.metadata.retryAt.Some? ==> cp.metadata.retryAt.value <= wall)))
  }

  /** The sort key order: unpublished before published, then the most recent completion first. */
  predicate Precedes(a: Item, b: Item, checkpoints: Checkpoints) {
    var ua, ub := Unpublished(checkpoints, a.receipt.identity), Unpublished(checkpoints, b.receipt.identity);
    if ua != ub then ua else a.completedAt >= b.completedAt
  }

  function Pending(items: Items, checkpoints: Checkpoints, wall: real): Items {
    if items == [] then []
    else (if HasWork(items[0], checkpoints, wall) then [items[0]] else [])
         + Pending(items[1..], checkpoints, wall)
  }

  function Urgency(checkpoints: Checkpoints): Order<Item> {
    (a: Item, b: Item) => Precedes(a, b, checkpoints)
  }

  function SortedWork(items: Items, checkpoints: Checkpoints, wall: real): Items {
    Sort(Pending(items, checkpoints, wall), Urgency(checkpoints))
  }

  function Keys(items: Items): (keys: seq<Identity>)
    ensures |keys| == |items|
    ensures forall i :: 0 <= i < |items| ==> keys[i] == items[i].receipt.identity
  {
    seq(|items|, i requires 0 <= i < |items| => items[i].receipt.identity)
  }

  function SelectWork(items: Items, checkpoints: Checkpoints, limit: nat, wall: real): (keys: seq<Identity>)
    ensures |keys| <= limit
  {
    var sorted := SortedWork(items, checkpoints, wall);
    Keys(if limit <= |sorted| then sorted[..limit] else sorted)
  }

  /** One receipt an identity, as `receipts.setdefault` guarantees. */
  predicate DistinctItems(items: Items) {
    forall i, j :: 0 <= i < j < |items| ==> items[i].receipt.identity != items[j].receipt.identity
  }

  lemma UrgencyOrders(checkpoints: Checkpoints)
    ensures TotalPreorder(Urgency(checkpoints))
  {
  }

  lemma {:induction false} PendingItems(items: Items, checkpoints: Checkpoints, wall: real, x: Item)
    ensures x in Pending(items, checkpoints, wall) <==> x in items && HasWork(x, checkpoints, wall)
    ensures multiset(Pending(items, checkpoints, wall)) <= multiset(items)
  {
    if items != [] {
      PendingItems(items[1..], checkpoints, wall, x);
      assert items == [items[0]] + items[1..];
    }
  }

  lemma SortedWorkItems(items: Items, checkpoints: Checkpoints, wall: real)
    ensures var sorted := SortedWork(items, checkpoints, wall);
      && Ordered(sorted, Urgency(checkpoints))
      && forall x :: x in sorted <==> x in items && HasWork(x, checkpoints, wall)
  {
    hide HasWork, Pending, Precedes;
    UrgencyOrders(checkpoints);
    SortOrdered(Pending(items, checkpoints, wall), Urgency(checkpoints));
    forall x ensures x in SortedWork(items, checkpoints, wall) <==> x in items && HasWork(x, checkpoints, wall) {
      PendingItems(items, checkpoints, wall, x);
      SameElements(Pending(items, checkpoints, wall), Urgency(checkpoints), x);
    }
  }

  lemma {:induction false} PendingDistinct(items: Items, checkpoints: Checkpoints, wall: real)
    requires DistinctItems(items)
    ensures DistinctItems(Pending(items, checkpoints, wall))
  {
    if items != [] {
      hide HasWork;
      PendingDistinct(items[1..], checkpoints, wall);
      var rest := Pending(items[1..], checkpoints, wall);
      forall i | 0 <= i < |rest| ensures rest[i] in items[1..] {
        PendingItems(items[1..], checkpoints, wall, rest[i]);
      }
    }
  }

  lemma SortedDistinct(items: Items, checkpoints: Checkpoints, wall: real)
    requires DistinctItems(items)
    ensures DistinctItems(SortedWork(items, checkpoints, wall))
  {
    hide Pending, Precedes;
    PendingDistinct(items, checkpoints, wall);
    var apart: Order<Item> := (a: Item, b: Item) => a.receipt.identity != b.receipt.identity;
    SortPairwise(Pending(items, checkpoints, wall), Urgency(checkpoints), apart);
    var sorted := SortedWork(items, checkpoints, wall);
    assert forall i, j :: 0 <= i < j < |sorted| ==> apart(sorted[i], sorted[j]);
  }

  /** No key is selected twice. */
  lemma SelectedDistinct(items: Items, checkpoints: Checkpoints, limit: nat, wall: real)
    requires DistinctItems(items)
    ensures Unrepeated(SelectWork(items, checkpoints, limit, wall))
  {
    hide SortedWork;
    SortedDistinct(items, checkpoints, wall);
  }

  /** No receipt under review is selected, and every selected key has work. */
  lemma SelectedHaveWork(items: Items, checkpoints: Checkpoints, limit: nat, wall: real, k: Identity)
    requires k in SelectWork(items, checkpoints, limit, wall)
    ensures exists x :: x in items && x.receipt.identity == k && HasWork(x, checkpoints, wall)
    ensures k in checkpoints ==> checkpoints[k].state != NEEDS_REVIEW
  {
    hide SortedWork;
    SortedWorkItems(items, checkpoints, wall);
    var sorted := SortedWork(items, checkpoints, wall);
    var keys := SelectWork(items, checkpoints, limit, wall);
    var i :| 0 <= i < |keys| && keys[i] == k;
    assert sorted[i] in sorted;
  }

  /** A receipt with work that is left out has to yield to all that are in; in particular no
      published receipt is selected while an unpublished one with work is left out. */
  lemma LeftOutYields(items: Items, checkpoints: Checkpoints, limit: nat, wall: real, x: Item, k: Identity)
    requires x in items && HasWork(x, checkpoints, wall)
    requires x.receipt.identity !in SelectWork(items, checkpoints, limit, wall)
    ensures |SelectWork(items, checkpoints, limit, wall)| == limit
    ensures k in SelectWork(items, checkpoints, limit, wall) ==>
      exists y :: y in items && y.receipt.identity == k && Precedes(y, x, checkpoints)
  {
    hide SortedWork, HasWork;
    SortedWorkItems(items, checkpoints, wall);
    var sorted := SortedWork(items, checkpoints, wall);
    var keys := SelectWork(items, checkpoints, limit, wall);
    var j :| 0 <= j < |sorted| && sorted[j] == x;
    assert forall i :: 0 <= i < |keys| ==> keys[i] in keys && keys[i] == sorted[i].receipt.identity;
    if k in keys {
      var i :| 0 <= i < |keys| && keys[i] == k;
      assert sorted[i] in sorted && Urgency(checkpoints)(sorted[i], sorted[j]);
    }
  }

  /** Receipts that yield to each other. */
  predicate SameRank(a: Item, b: Item, checkpoints: Checkpoints) {
    Precedes(a, b, checkpoints) && Precedes(b, a, checkpoints)
  }

  lemma {:induction false} PendingBefore(items: Items, checkpoints: Checkpoints, wall: real, a: Item, b: Item)
    requires InOrder(items, a, b) && HasWork(a, checkpoints, wall) && HasWork(b, checkpoints, wall)
    ensures InOrder(Pending(items, checkpoints, wall), a, b)
  {
    hide HasWork;
    var i, j :| 0 <= i < j < |items| && items[i] == a && items[j] == b;
    var rest := Pending(items[1..], checkpoints, wall);
    if i > 0 {
      assert items[1..][i - 1] == a && items[1..][j - 1] == b;
      PendingBefore(items[1..], checkpoints, wall, a, b);
      var m, n :| 0 <= m < n < |rest| && rest[m] == a && rest[n] == b;
      var shift := |Pending(items, checkpoints, wall)| - |rest|;
      assert Pending(items, checkpoints, wall)[m + shift] == a && Pending(items, checkpoints, wall)[n + shift] == b;
    } else {
      assert items[1..][j - 1] == b;
      PendingItems(items[1..], checkpoints, wall, b);
      var n :| 0 <= n < |rest| && rest[n] == b;
      assert Pending(items, checkpoints, wall)[0] == a && Pending(items, checkpoints, wall)[n + 1] == b;
    }
  }

  /** Receipts of one rank keep the order of the scan: one that is selected has before it all those that the
      scan lists earlier and that have work. */
  lemma ScanOrderKept(items: Items, checkpoints: Checkpoints, limit: nat, wall: real, i: nat, j: nat, q: nat)
    requires DistinctItems(items) && i < j < |items| && SameRank(items[i], items[j], checkpoints)
    requires HasWork(items[i], checkpoints, wall) && HasWork(items[j], checkpoints, wall)
    requires var keys := SelectWork(items, checkpoints, limit, wall);
      q < |keys| && keys[q] == items[j].receipt.identity
    ensures var keys := SelectWork(items, checkpoints, limit, wall);
      exists p :: 0 <= p < q && keys[p] == items[i].receipt.identity
  {
    hide HasWork, Pending, Precedes;
    var pending, sorted := Pending(items, checkpoints, wall), SortedWork(items, checkpoints, wall);
    UrgencyOrders(checkpoints);
    PendingBefore(items, checkpoints, wall, items[i], items[j]);
    SortKeepsBefore(pending, Urgency(checkpoints), items[i], items[j]);
    SortedDistinct(items, checkpoints, wall);
    var m, n :| 0 <= m < n < |sorted| && sorted[m] == items[i] && sorted[n] == items[j];
    assert n == q;
    assert SelectWork(items, checkpoints, limit, wall)[m] == items[i].receipt.identity;
  }

  // ---------------------------------------------------------------- the history of submissions

  datatype Entry =
    | Submitted(k: Identity, cp: Checkpoint)
    | Completed(k: Identity, cp: Checkpoint)
    | Saved(k: Identity, cp: Checkpoint)

  type History = seq<Entry>

  /** The last entry about one key. */
  function Last(h: History, k: Identity): Option<Entry> {
    if h == [] then None
    else if h[|h| - 1].k == k then Some(h[|h| - 1])
    else Last(h[..|h| - 1], k)
  }

  /** Per key: submit, complete with some result, save that result, submit it again. */
  predicate Follows(last: Option<Entry>, e: Entry) {
    match e
    case Submitted(_, cp) => last.None? || (last.value.Saved? && last.value.cp == cp)
    case Completed(_, _) => last.Some? && last.value.Submitted?
    case Saved(_, cp) => last.Some? && last.value.Completed? && last.value.cp == cp
  }

  predicate Chained(h: History) {
    h != [] ==> Chained(h[..|h| - 1]) && Follows(Last(h[..|h| - 1], h[|h| - 1].k), h[|h| - 1])
  }

  /** No checkpoint under review is ever submitted. */
  predicate NoReview(h: History) {
    forall i :: 0 <= i < |h| && h[i].Submitted? ==> h[i].cp.state != NEEDS_REVIEW
  }

  predicate Admissible(checkpoints: Checkpoints, k: Identity) {
    k in checkpoints ==> checkpoints[k].state != NEEDS_REVIEW
  }

  function Submissions(h: History, k: Identity): nat {
    if h == [] then 0
    else Submissions(h[..|h| - 1], k) + (if h[|h| - 1].k == k && h[|h| - 1].Submitted? then 1 else 0)
  }

  lemma Appended(h: History, e: Entry, k: Identity)
    ensures Last(h + [e], k) == if e.k == k then Some(e) else Last(h, k)
    ensures Chained(h + [e]) <==> Chained(h) && Follows(Last(h, e.k), e)
    ensures Submissions(h + [e], k) == Submissions(h, k) + (if e.k == k && e.Submitted? then 1 else 0)
  {
    assert (h + [e])[..|h|] == h;
  }

  lemma {:induction false} ChainedPrefix(h: History, n: nat)
    requires Chained(h) && n <= |h|
    ensures Chained(h[..n])
  {
    if n < |h| {
      ChainedPrefix(h[..|h| - 1], n);
      assert h[..|h| - 1][..n] == h[..n];
    } else {
      assert h[..n] == h;
    }
  }

  /** The entry about `k` before position `i`, if there is one. */
  lemma {:induction false} LastFound(h: History, k: Identity) returns (i: nat)
    requires Last(h, k).Some?
    ensures i < |h| && h[i] == Last(h, k).value && h[i].k == k && forall j :: i < j < |h| ==> h[j].k != k
  {
    if h[|h| - 1].k == k {
      i := |h| - 1;
    } else {
      i := LastFound(h[..|h| - 1], k);
    }
  }

  /** No update is lost: a resubmission starts from exactly the result of the previous advance of
      that key, and that result was saved in between. */
  lemma NoLostUpdate(h: History, i: nat, j: nat)
    requires Chained(h) && i < j < |h| && h[i].Submitted? && h[j].Submitted? && h[i].k == h[j].k
    requires forall m :: i < m < j ==> !(h[m].Submitted? && h[m].k == h[i].k)
    ensures exists c, s :: i < c < s < j && h[c] == Completed(h[i].k, h[j].cp) && h[s] == Saved(h[i].k, h[j].cp)
  {
    hide Chained, Last;
    var k := h[i].k;
    PreviousOf(h, j);
    SomethingBefore(h, i, j);
    var s := LastFound(h[..j], k);
    assert h[..j][i].k == k && s >= i;
    assert h[..j][s] == h[s] == Saved(k, h[j].cp);
    PreviousOf(h, s);
    SomethingBefore(h, i, s);
    var c := LastFound(h[..s], k);
    assert h[..s][i].k == k && c >= i;
    assert h[..s][c] == h[c] == Completed(k, h[j].cp);
  }

  lemma SomethingBefore(h: History, i: nat, n: nat)
    requires i < n <= |h|
    ensures Last(h[..n], h[i].k).Some?
  {
    if n > i + 1 && h[n - 1].k != h[i].k {
      SomethingBefore(h, i, n - 1);
      assert h[..n][..n - 1] == h[..n - 1];
    }
  }

  lemma PreviousOf(h: History, n: nat)
    requires Chained(h) && n < |h|
    ensures Follows(Last(h[..n], h[n].k), h[n])
  {
    ChainedPrefix(h, n + 1);
    assert h[..n + 1][..n] == h[..n];
  }

  // ---------------------------------------------------------------- the loop

  datatype Job = Job(input: Checkpoint, outcome: Option<Checkpoint>)

  /** The keys that --once mode still has to submit, in their order. */
  function LeftKeys(keys: seq<Identity>, submitted: set<Identity>): (left: seq<Identity>)
    ensures forall k :: k in left <==> k in keys && k !in submitted
    ensures Unrepeated(keys) ==> Unrepeated(left)
    ensures |left| <= |keys|
  {
    if keys == [] then []
    else (if keys[0] in submitted then [] else [keys[0]]) + LeftKeys(keys[1..], submitted)
  }

  lemma {:induction false} LeftShrinks(keys: seq<Identity>, submitted: set<Identity>)
    requires Unrepeated(keys) && LeftKeys(keys, submitted) != []
    ensures var left := LeftKeys(keys, submitted); LeftKeys(keys, submitted + {left[0]}) == left[1..]
  {
    if keys[0] in submitted {
      LeftShrinks(keys[1..], submitted);
    } else {
      LeftUnchanged(keys[1..], submitted, keys[0]);
    }
  }

  lemma {:induction false} LeftUnchanged(keys: seq<Identity>, submitted: set<Identity>, k: Identity)
    requires k !in keys
    ensures LeftKeys(keys, submitted + {k}) == LeftKeys(keys, submitted)
  {
    if keys != [] {
      LeftUnchanged(keys[1..], submitted, k);
      assert keys[0] in submitted + {k} <==> keys[0] in submitted;
    }
  }

  function Finished(jobs: map<Identity, Job>): map<Identity, Checkpoint> {
    map k | k in jobs && jobs[k].outcome.Some? :: jobs[k].outcome.value
  }

  function Running(jobs: map<Identity, Job>): (running: map<Identity, Job>)
    ensures running.Keys <= jobs.Keys
  {
    map k | k in jobs && jobs[k].outcome.None? :: jobs[k]
  }

  /** What the surroundings do during one round; `done` picks those of the running jobs that finish. */
  datatype Round = Round(now: real, wall: real, scan: Option<Items>, signalled: bool,
                         done: set<Identity> -> set<Identity>, results: Identity -> Checkpoint)

  /** Does any of these running jobs finish in this round? */
  predicate Ends(round: Round, running: set<Identity>) {
    round.done(running) * running != {}
  }

  /** Futures complete: whatever jobs are running, some of them finishes sooner or later. In between, any
      number of rounds may pass in which the wait times out. */
  ghost predicate Fair(rounds: nat -> Round) {
    forall n: nat, running: set<Identity> :: running != {} ==> EndsLater(rounds, n, running)
  }

  ghost predicate EndsLater(rounds: nat -> Round, n: nat, running: set<Identity>) {
    exists m: nat :: n <= m && Ends(rounds(m), running)
  }

  /** No signal asks the loop to stop. */
  ghost predicate Quiet(rounds: nat -> Round) {
    forall n: nat :: !rounds(n).signalled
  }

  /** These receipts include one for each of the keys. */
  predicate Present(receipts: Items, keys: seq<Identity>) {
    forall k :: k in keys ==> ReceiptAt(receipts, k).Some?
  }

  /** No scan misses a receipt of these keys. */
  ghost predicate Lasting(rounds: nat -> Round, keys: seq<Identity>) {
    forall n: nat :: rounds(n).scan.Some? ==> Present(rounds(n).scan.value, keys)
  }

  lemma StillPresent(rounds: nat -> Round, n: nat, keys: seq<Identity>, stopping: bool, receipts: Items)
    requires Lasting(rounds, keys) && Present(receipts, keys)
    ensures Present(Viewed(stopping, rounds(n).scan, receipts), keys)
  {
  }

  /** Each of these clock readings is that of some round. */
  ghost predicate Clocked(rounds: nat -> Round, turns: map<Identity, real>) {
    forall k :: k in turns ==> exists n: nat :: turns[k] == rounds(n).wall
  }

  lemma NoClocks(rounds: nat -> Round)
    ensures Clocked(rounds, map[])
  {
  }

  lemma ClockedNext(rounds: nat -> Round, n: nat, before: map<Identity, real>, after: map<Identity, real>)
    requires Clocked(rounds, before)
    requires forall k :: k in after ==> after[k] == rounds(n).wall || (k in before && after[k] == before[k])
    ensures Clocked(rounds, after)
  {
  }

  lemma SelectedPresent(items: Items, checkpoints: Checkpoints, limit: nat, wall: real)
    ensures Present(items, SelectWork(items, checkpoints, limit, wall))
  {
    hide SelectWork, HasWork;
    forall k | k in SelectWork(items, checkpoints, limit, wall) ensures ReceiptAt(items, k).Some? {
      SelectedHaveWork(items, checkpoints, limit, wall, k);
    }
  }

  lemma NextEnd(rounds: nat -> Round, n: nat, running: set<Identity>) returns (m: nat)
    requires Fair(rounds) && running != {}
    ensures n <= m && Ends(rounds(m), running)
  {
    assert EndsLater(rounds, n, running);
    m :| n <= m && Ends(rounds(m), running);
  }

  /** A key is due at its turn unless its saved checkpoint waits for a retry. */
  predicate Due(saved: Checkpoints, k: Identity, wall: real) {
    k in saved ==> !Waiting(saved[k], wall)
  }

  /** No worker has finished since the loop last looked. */
  predicate Busy(jobs: map<Identity, Job>) {
    forall k :: k in jobs ==> jobs[k].outcome.None?
  }

  /** A turn of the loop gets nearer to the end, or nothing happens because no running job finishes. */
  predicate Shrinks(round: Round, before: set<Identity>, jobs: set<Identity>, after: set<Identity>,
                    left: seq<Identity>, left': seq<Identity>)
  {
    && |left'| <= |left|
    && (|| Work(left', after) < Work(left, before)
        || (after == before == jobs && |left'| == |left| && !Ends(round, before)))
  }

  /** What a run of the loop has left to do: two steps for each key, one for each running job. */
  function Work(left: seq<Identity>, running: set<Identity>): nat {
    2 * |left| + |running|
  }

  lemma Nearer(round: Round, before: set<Identity>, jobs: set<Identity>, after: set<Identity>, left: seq<Identity>,
               left': seq<Identity>)
    requires Shrinks(round, before, jobs, after, left, left')
    ensures left == [] ==> left' == []
    ensures Work(left', after) < Work(left, before)
      || (Work(left', after) == Work(left, before) && after == before == jobs && !Ends(round, before))
  {
  }

  lemma ShrinksWhen(round: Round, before: set<Identity>, started: set<Identity>, after: set<Identity>,
                    left: seq<Identity>, left': seq<Identity>)
    requires before <= started && after == started - round.done(started)
    requires |left'| - |left| <= |before| - |started| <= 0
    ensures Shrinks(round, before, started, after, left, left')
  {
    SubsetSize(before, started);
    SubsetSize(after, started);
    if |left'| == |left| {
      assert started == before;
      assert after == before ==> round.done(before) * before == {};
    }
  }

  /** The receipts that a round works with. */
  function Viewed(stopping: bool, scan: Option<Items>, receipts: Items): Items {
    if stopping || scan.None? then receipts else scan.value
  }

  lemma KeyCount<V>(jobs: map<Identity, V>)
    ensures |jobs| == |jobs.Keys|
  {
  }

  /** The table once the results are in it, all but those of `left`. */
  function SavedBut(table: Checkpoints, ready: Checkpoints, left: set<Identity>): Checkpoints {
    table + (ready - left)
  }

  lemma NothingSaved(table: Checkpoints, ready: Checkpoints)
    ensures SavedBut(table, ready, ready.Keys) == table
  {
  }

  lemma OneMoreSaved(table: Checkpoints, ready: Checkpoints, left: set<Identity>, k: Identity)
    requires k in left && left <= ready.Keys
    ensures SavedBut(table, ready, left)[k := ready[k]] == SavedBut(table, ready, left - {k})
  {
  }

  lemma EverythingSaved(table: Checkpoints, ready: Checkpoints)
    ensures SavedBut(table, ready, {}) == table + ready
  {
  }

  predicate SameAt(a: Checkpoints, b: Checkpoints, k: Identity) {
    (k in a <==> k in b) && (k in a ==> a[k] == b[k])
  }

  function ReceiptAt(receipts: Items, key: Identity): (at: Option<nat>)
    ensures at.Some? ==> at.value < |receipts| && receipts[at.value].receipt.identity == key
    ensures at.None? ==> forall i :: 0 <= i < |receipts| ==> receipts[i].receipt.identity != key
  {
    Find(receipts, (item: Item) => item.receipt.identity == key)
  }

  lemma NewIsAdmissible(r: Receipt, wall: real)
    ensures Discovered(r).state == DISCOVERED && !Waiting(Discovered(r), wall)
  {
  }

  lemma NoReviewAppended(h: History, e: Entry)
    requires NoReview(h) && (e.Submitted? ==> e.cp.state != NEEDS_REVIEW)
    ensures NoReview(h + [e])
  {
  }

  // ---------------------------------------------------------------- where a key stands

  /** What is on disk is what is in memory: a crash loses no saved result. */
  predicate Durable(k: Identity, checkpoints: Checkpoints, disk: Checkpoints) {
    k in disk ==> k in checkpoints && disk[k] == checkpoints[k]
  }

  /** Where a key stands in its cycle, as the history, the tables and the disk agree. */
  predicate KeyAt(k: Identity, checkpoints: Checkpoints, disk: Checkpoints, jobs: map<Identity, Job>, h: History) {
    && Durable(k, checkpoints, disk)
    && if k in jobs then
         && k in checkpoints && jobs[k].input == checkpoints[k]
         && Last(h, k) == Some(if jobs[k].outcome.Some? then Completed(k, jobs[k].outcome.value)
                               else Submitted(k, jobs[k].input))
       else
         || Last(h, k) == None
         || (k in disk && Last(h, k) == Some(Saved(k, disk[k])))
  }

  /** A result that is collected but not saved yet. */
  predicate OwedAt(k: Identity, result: Checkpoint, checkpoints: Checkpoints, disk: Checkpoints,
                   jobs: map<Identity, Job>, h: History)
  {
    k in checkpoints && k !in jobs && Durable(k, checkpoints, disk) && Last(h, k) == Some(Completed(k, result))
  }

  /** In --once mode a key is submitted exactly once if its turn has come and it was due then, and else
      not at all; until its turn its checkpoint is the one that was saved before. */
  predicate OnceAt(k: Identity, saved: Checkpoints, checkpoints: Checkpoints, jobs: map<Identity, Job>,
                   readyAt: map<Identity, real>, keys: Option<seq<Identity>>, marked: set<Identity>, h: History,
                   turns: map<Identity, real>)
  {
    && Submissions(h, k) == (if k in turns && Due(saved, k, turns[k]) then 1 else 0)
    && (k in turns || k in readyAt || k in jobs ==> k in marked)
    && (k in marked ==> keys.Some? && k in keys.value)
    && (k !in marked ==> SameAt(checkpoints, saved, k))
    && (keys.Some? && k in keys.value && k !in marked ==> Admissible(checkpoints, k))
  }

  lemma KeyLaunched(k: Identity, key: Identity, checkpoints: Checkpoints, disk: Checkpoints,
                    jobs: map<Identity, Job>, h: History)
    requires KeyAt(k, checkpoints, disk, jobs, h) && key in checkpoints && key !in jobs
    ensures KeyAt(k, checkpoints, disk, jobs[key := Job(checkpoints[key], None)],
                  h + [Submitted(key, checkpoints[key])])
    ensures k == key ==> Follows(Last(h, key), Submitted(key, checkpoints[key]))
  {
    hide Last;
    Appended(h, Submitted(key, checkpoints[key]), k);
  }

  lemma OnceLaunched(k: Identity, key: Identity, wall: real, saved: Checkpoints, checkpoints: Checkpoints,
                     jobs: map<Identity, Job>, readyAt: map<Identity, real>, keys: Option<seq<Identity>>,
                     marked: set<Identity>, h: History, turns: map<Identity, real>)
    requires OnceAt(k, saved, checkpoints, jobs, readyAt, keys, marked, h, turns) && key in checkpoints
    requires key in marked && key !in turns && Due(saved, key, wall)
    ensures OnceAt(k, saved, checkpoints, jobs[key := Job(checkpoints[key], None)], readyAt, keys, marked,
                   h + [Submitted(key, checkpoints[key])], turns[key := wall])
  {
    hide Submissions, Due, SameAt, Admissible;
    Appended(h, Submitted(key, checkpoints[key]), k);
  }

  lemma KeySaved(k: Identity, key: Identity, updated: Checkpoint, checkpoints: Checkpoints, disk: Checkpoints,
                 jobs: map<Identity, Job>, h: History)
    requires if k == key then OwedAt(k, updated, checkpoints, disk, jobs, h) else KeyAt(k, checkpoints, disk, jobs, h)
    ensures KeyAt(k, checkpoints[key := updated], disk[key := updated], jobs, h + [Saved(key, updated)])
    ensures k == key ==> Follows(Last(h, key), Saved(key, updated))
  {
    hide Last;
    Appended(h, Saved(key, updated), k);
  }

  lemma OwedStays(k: Identity, result: Checkpoint, key: Identity, updated: Checkpoint, checkpoints: Checkpoints,
                  disk: Checkpoints, jobs: map<Identity, Job>, h: History)
    requires k != key && OwedAt(k, result, checkpoints, disk, jobs, h)
    ensures OwedAt(k, result, checkpoints[key := updated], disk[key := updated], jobs, h + [Saved(key, updated)])
  {
    hide Last;
    Appended(h, Saved(key, updated), k);
  }

  lemma OnceSaved(k: Identity, key: Identity, updated: Checkpoint, at: real, saved: Checkpoints,
                  checkpoints: Checkpoints, jobs: map<Identity, Job>, readyAt: map<Identity, real>,
                  keys: Option<seq<Identity>>, marked: set<Identity>, h: History, turns: map<Identity, real>)
    requires OnceAt(k, saved, checkpoints, jobs, readyAt, keys, marked, h, turns) && key in marked
    ensures OnceAt(k, saved, checkpoints[key := updated], jobs, readyAt[key := at], keys, marked,
                   h + [Saved(key, updated)], turns)
  {
    hide Submissions, Due;
    Appended(h, Saved(key, updated), k);
  }

  class Scheduler {
    const once: bool
    const maxActive: nat
    var checkpoints: Checkpoints
    var disk: Checkpoints
    var inFlight: map<Identity, Job>
    var readyAt: map<Identity, real>
    var receipts: Items
    var onceKeys: Option<seq<Identity>>
    var onceSubmitted: set<Identity>
    var stopping: bool
    ghost const saved: Checkpoints
    ghost var history: History

    /** The clock at the turn of each key of --once mode. */
    ghost var turns: map<Identity, real>

    ghost predicate KeyOk(k: Identity)
      reads this`checkpoints, this`disk, this`inFlight, this`history
    {
      KeyAt(k, checkpoints, disk, inFlight, history)
    }

    ghost predicate OnceOk(k: Identity)
      reads this`checkpoints, this`inFlight, this`readyAt, this`onceKeys, this`onceSubmitted
      reads this`history, this`turns
    {
      once ==> OnceAt(k, saved, checkpoints, inFlight, readyAt, onceKeys, onceSubmitted, history, turns)
    }

    ghost predicate Valid()
      reads this
    {
      && |inFlight| <= WORKERS
      && Chained(history) && NoReview(history)
      && (forall k :: KeyOk(k))
      && (forall k :: OnceOk(k))
      && DistinctItems(receipts)
      && (onceKeys.Some? ==> Unrepeated(onceKeys.value))
    }

    constructor (once: bool, maxActive: nat, saved: Checkpoints)
      ensures Valid() && fresh(this)
      ensures checkpoints == saved && disk == saved && inFlight == map[] && history == [] && !stopping
      ensures onceKeys == None && onceSubmitted == {} && this.once == once && this.maxActive == maxActive
      ensures this.saved == saved && turns == map[]
    {
      this.once, this.maxActive, this.saved := once, maxActive, saved;
      checkpoints, disk, inFlight, readyAt := saved, saved, map[], map[];
      receipts, onceKeys, onceSubmitted, stopping := [], None, {}, false;
      history, turns := [], map[];
    }

    /** A worker finishes an advance; the loop learns of it when it next looks. */
    method Finish(k: Identity, result: Checkpoint)
      requires Valid() && k in inFlight && inFlight[k].outcome.None?
      modifies this`inFlight, this`history
      ensures Valid() && inFlight == old(inFlight)[k := old(inFlight)[k].(outcome := Some(result))]
      ensures |inFlight| == |old(inFlight)|
      ensures history == old(history) + [Completed(k, result)]
    {
      assert KeyOk(k);
      inFlight := inFlight[k := inFlight[k].(outcome := Some(result))];
      history := history + [Completed(k, result)];
      assert inFlight.Keys == old(inFlight).Keys;
      assert |inFlight| == |inFlight.Keys| == |old(inFlight).Keys|;
      forall j ensures KeyOk(j) && OnceOk(j) {
        Appended(old(history), Completed(k, result), j);
        assert old(KeyOk(j)) && old(OnceOk(j));
      }
      Appended(old(history), Completed(k, result), k);
    }

    /** Takes the finished jobs out of the table. */
    method Collect() returns (ready: map<Identity, Checkpoint>)
      requires Valid()
      modifies this`inFlight
      ensures ready == Finished(old(inFlight)) && inFlight == Running(old(inFlight))
      ensures |inFlight| <= |old(inFlight)| && Busy(inFlight)
      ensures Draining(ready, ready.Keys)
    {
      ghost var jobs := inFlight;
      ready := Finished(inFlight);
      inFlight := Running(inFlight);
      assert inFlight.Keys <= jobs.Keys;
      SubsetSize(inFlight.Keys, jobs.Keys);
      assert |inFlight| == |inFlight.Keys| && |jobs| == |jobs.Keys|;
      forall k ensures StageOk(k, ready, ready.Keys) {
        assert old(KeyOk(k)) && old(OnceOk(k));
      }
    }

    /** A collected result that is not saved yet. */
    ghost predicate Owes(k: Identity, result: Checkpoint)
      reads this`checkpoints, this`disk, this`inFlight, this`onceSubmitted, this`history
    {
      OwedAt(k, result, checkpoints, disk, inFlight, history) && (once ==> k in onceSubmitted)
    }

    ghost predicate StageOk(k: Identity, ready: map<Identity, Checkpoint>, owing: set<Identity>)
      requires owing <= ready.Keys
      reads this`checkpoints, this`disk, this`inFlight, this`readyAt, this`onceKeys, this`onceSubmitted
      reads this`history, this`turns
    {
      OnceOk(k) && if k in owing then Owes(k, ready[k]) else KeyOk(k)
    }

    /** The invariant while the results of `owing` are still to be saved. */
    ghost predicate Draining(ready: map<Identity, Checkpoint>, owing: set<Identity>)
      reads this
    {
      && |inFlight| <= WORKERS && Chained(history) && NoReview(history) && owing <= ready.Keys
      && (forall k :: StageOk(k, ready, owing))
      && DistinctItems(receipts)
      && (onceKeys.Some? ==> Unrepeated(onceKeys.value))
    }

    /** Collects the finished jobs and saves each result before anything else happens to its key. */
    method Drain(now: real)
      requires Valid()
      modifies this`checkpoints, this`disk, this`inFlight, this`readyAt, this`history
      ensures Valid()
      ensures inFlight == Running(old(inFlight))
      ensures |inFlight| <= |old(inFlight)| && Busy(inFlight)
      ensures checkpoints == old(checkpoints) + Finished(old(inFlight))
      ensures disk == old(disk) + Finished(old(inFlight))
    {
      hide *;
      var ready := Collect();
      SaveAll(ready, now);
    }

    method SaveAll(ready: map<Identity, Checkpoint>, now: real)
      requires Draining(ready, ready.Keys)
      modifies this`checkpoints, this`disk, this`readyAt, this`history
      ensures Valid()
      ensures checkpoints == old(checkpoints) + ready && disk == old(disk) + ready
    {
      hide *;
      var left := ready.Keys;
      NothingSaved(checkpoints, ready);
      NothingSaved(disk, ready);
      while left != {}
        invariant left <= ready.Keys && Draining(ready, left)
        invariant checkpoints == SavedBut(old(checkpoints), ready, left)
        invariant disk == SavedBut(old(disk), ready, left)
      {
        var key :| key in left;
        SaveOne(key, ready, left, now);
        OneMoreSaved(old(checkpoints), ready, left, key);
        OneMoreSaved(old(disk), ready, left, key);
        left := left - {key};
      }
      EverythingSaved(old(checkpoints), ready);
      EverythingSaved(old(disk), ready);
      AllSaved(ready);
    }

    lemma AllSaved(ready: map<Identity, Checkpoint>)
      requires Draining(ready, {})
      ensures Valid()
    {
      forall k ensures KeyOk(k) && OnceOk(k) {
        assert StageOk(k, ready, {});
      }
    }

    lemma OwedHasCheckpoint(k: Identity, result: Checkpoint)
      requires Owes(k, result)
      ensures k in checkpoints
    {
    }

    method SaveOne(key: Identity, ready: map<Identity, Checkpoint>, ghost owing: set<Identity>, now: real)
      requires Draining(ready, owing) && key in owing
      modifies this`checkpoints, this`disk, this`readyAt, this`history
      ensures checkpoints == old(checkpoints)[key := ready[key]] && disk == old(disk)[key := ready[key]]
      ensures history == old(history) + [Saved(key, ready[key])]
      ensures Draining(ready, owing - {key})
    {
      hide Last, Chained, Submissions, Finished, NoReview, DistinctItems, Unrepeated, KeyAt, OwedAt, OnceAt;
      var updated := ready[key];
      assert StageOk(key, ready, owing);
      OwedHasCheckpoint(key, updated);
      var same := checkpoints[key] == updated;
      checkpoints := checkpoints[key := updated];
      disk := disk[key := updated];
      history := history + [Saved(key, updated)];
      readyAt := readyAt[key := now + (if same then 1.0 else 0.0)];
      assert Chained(history) && NoReview(history) by {
        KeySaved(key, key, updated, old(checkpoints), old(disk), inFlight, old(history));
        Appended(old(history), Saved(key, updated), key);
        NoReviewAppended(old(history), Saved(key, updated));
      }
      forall k ensures StageOk(k, ready, owing - {key}) {
        assert old(StageOk(k, ready, owing));
        if once {
          OnceSaved(k, key, updated, readyAt[key], saved, old(checkpoints), inFlight, old(readyAt), onceKeys,
            onceSubmitted, old(history), turns);
        }
        if k in owing && k != key {
          OwedStays(k, ready[k], key, updated, old(checkpoints), old(disk), inFlight, old(history));
        } else {
          KeySaved(k, key, updated, old(checkpoints), old(disk), inFlight, old(history));
        }
      }
    }

    /** One receipt of the selection: skipped while it is busy or waiting, else handed to a worker
        with the checkpoint in memory, which is the saved one if there is one. The loop dies on a
        key whose receipt has disappeared. */
    method Consider(key: Identity, now: real, wall: real) returns (crashed: bool)
      requires Valid() && |inFlight| < WORKERS && Admissible(checkpoints, key)
      requires once ==> onceKeys.Some? && key in onceKeys.value && key !in onceSubmitted
      modifies this`checkpoints, this`inFlight, this`onceSubmitted, this`history, this`turns
      ensures Valid()
      ensures crashed <==> !Skipped(old(inFlight), key, now) && ReceiptAt(receipts, key).None?
      ensures onceSubmitted == if once && !crashed then old(onceSubmitted) + {key} else old(onceSubmitted)
      ensures turns == if once && !crashed then old(turns)[key := wall] else old(turns)
      ensures checkpoints == old(checkpoints) || (key !in old(checkpoints) && ReceiptAt(receipts, key).Some?
        && checkpoints == old(checkpoints)[key := Discovered(receipts[ReceiptAt(receipts, key).value].receipt)])
      ensures crashed || Skipped(old(inFlight), key, now) || key in checkpoints
      ensures |old(inFlight)| <= |inFlight| <= |old(inFlight)| + 1
      ensures inFlight == if crashed || Skipped(old(inFlight), key, now) || Waiting(checkpoints[key], wall)
                          then old(inFlight) else old(inFlight)[key := Job(checkpoints[key], None)]
      ensures history == if inFlight == old(inFlight) then old(history)
                         else old(history) + [Submitted(key, checkpoints[key])]
    {
      hide Chained, Last, Submissions, DistinctItems, Unrepeated, Discovered, Waiting, NoReview;
      assert KeyOk(key) && OnceOk(key);
      if Skipped(inFlight, key, now) {
        return false;
      }
      var at := ReceiptAt(receipts, key);
      if at.None? {
        return true;
      }
      NewIsAdmissible(receipts[at.value].receipt, wall);
      Note(key, receipts[at.value].receipt);
      if Waiting(checkpoints[key], wall) {
        Postpone(key, wall);
      } else {
        Launch(key, wall);
      }
      crashed := false;
    }

    /** Enters a new receipt in the table, and the key in the set of --once mode. */
    method Note(key: Identity, r: Receipt)
      requires Valid() && key !in inFlight && Admissible(checkpoints, key)
      requires once ==> onceKeys.Some? && key in onceKeys.value
      modifies this`checkpoints, this`onceSubmitted
      ensures Valid()
      ensures checkpoints == if key in old(checkpoints) then old(checkpoints)
                             else old(checkpoints)[key := Discovered(r)]
      ensures key in checkpoints && checkpoints[key].state != NEEDS_REVIEW
      ensures onceSubmitted == if once then old(onceSubmitted) + {key} else old(onceSubmitted)
    {
      hide Chained, Last, Submissions, DistinctItems, Unrepeated, Discovered, Waiting, NoReview, Due;
      assert KeyOk(key) && OnceOk(key);
      if key !in checkpoints {
        NewIsAdmissible(r, 0.0);
        checkpoints := checkpoints[key := Discovered(r)];
      }
      if once {
        onceSubmitted := onceSubmitted + {key};
      }
      forall k ensures KeyOk(k) && OnceOk(k) {
        assert old(KeyOk(k)) && old(OnceOk(k));
      }
    }

    /** A key that waits for its retry is marked in --once mode, but not submitted. */
    method Postpone(key: Identity, wall: real)
      requires Valid()
      requires once ==> key in onceSubmitted && key !in turns && !Due(saved, key, wall)
      modifies this`turns
      ensures Valid()
      ensures turns == if once then old(turns)[key := wall] else old(turns)
    {
      hide KeyOk, Chained, Submissions, DistinctItems, Unrepeated, NoReview, Due, Admissible, SameAt;
      if once {
        turns := turns[key := wall];
      }
      forall k ensures OnceOk(k) {
        assert old(OnceOk(k));
      }
    }

    /** Hands the key to a worker. */
    method Launch(key: Identity, wall: real)
      requires Valid() && |inFlight| < WORKERS && key !in inFlight
      requires key in checkpoints && checkpoints[key].state != NEEDS_REVIEW
      requires once ==> key in onceSubmitted && key !in turns && Due(saved, key, wall)
      modifies this`inFlight, this`history, this`turns
      ensures Valid()
      ensures inFlight == old(inFlight)[key := Job(checkpoints[key], None)] && |inFlight| == |old(inFlight)| + 1
      ensures history == old(history) + [Submitted(key, checkpoints[key])]
      ensures turns == if once then old(turns)[key := wall] else old(turns)
    {
      hide Chained, Last, Submissions, DistinctItems, Unrepeated, NoReview, Due, KeyAt, OnceAt;
      assert KeyOk(key) && OnceOk(key);
      var entry := Submitted(key, checkpoints[key]);
      inFlight := inFlight[key := Job(checkpoints[key], None)];
      history := history + [entry];
      if once {
        turns := turns[key := wall];
      }
      assert inFlight.Keys == old(inFlight).Keys + {key};
      KeyCount(inFlight);
      KeyCount(old(inFlight));
      assert Chained(history) && NoReview(history) by {
        KeyLaunched(key, key, checkpoints, disk, old(inFlight), old(history));
        Appended(old(history), entry, key);
        NoReviewAppended(old(history), entry);
      }
      forall k ensures KeyOk(k) && OnceOk(k) {
        assert old(KeyOk(k)) && old(OnceOk(k));
        KeyLaunched(k, key, checkpoints, disk, old(inFlight), old(history));
        if once {
          OnceLaunched(k, key, wall, saved, checkpoints, old(inFlight), readyAt, onceKeys, onceSubmitted, old(history),
            old(turns));
        }
      }
    }

    /** Busy, or finished less than a second ago with nothing changed. */
    predicate Skipped(busy: map<Identity, Job>, key: Identity, now: real)
      reads this`readyAt
    {
      key in busy || (key in readyAt && readyAt[key] > now)
    }

    /** In work, or not due. */
    predicate Settled(key: Identity, now: real, wall: real)
      reads this`inFlight, this`readyAt, this`checkpoints
    {
      Skipped(inFlight, key, now) || (key in checkpoints && Waiting(checkpoints[key], wall))
    }

    /** Fills the free workers from the selection: afterwards the loop is stopping, or all eight are busy,
        or every selected key is in work or not due. */
    method Submit(active: seq<Identity>, now: real, wall: real) returns (crashed: bool)
      requires Valid() && Unrepeated(active)
      requires forall k :: k in active ==> Admissible(checkpoints, k)
      requires once ==> Marked() && onceKeys.Some? && active == LeftKeys(onceKeys.value, onceSubmitted)
      modifies this`checkpoints, this`inFlight, this`onceSubmitted, this`history, this`turns
      ensures Valid() && (once ==> Marked())
      ensures crashed ==> exists k :: k in active && ReceiptAt(receipts, k).None?
      ensures Busy(old(inFlight)) ==> Busy(inFlight)
      ensures old(inFlight).Keys <= inFlight.Keys
      ensures !crashed ==>
        (stopping || |inFlight| == WORKERS || forall k :: k in active ==> Settled(k, now, wall))
      ensures forall k :: k in turns ==> turns[k] == wall || (k in old(turns) && turns[k] == old(turns)[k])
      ensures once && !crashed ==>
        && |LeftKeys(onceKeys.value, onceSubmitted)| - |active| <= |old(inFlight)| - |inFlight| <= 0
        && (stopping || |inFlight| == WORKERS || LeftKeys(onceKeys.value, onceSubmitted) == [])
    {
      hide Valid, LeftKeys, Admissible, Settled, ReceiptAt, Busy, Marked;
      crashed := false;
      assert active[0..] == active;
      for i := 0 to |active|
        invariant Valid() && !crashed && (once ==> Marked())
        invariant forall j :: i <= j < |active| ==> Admissible(checkpoints, active[j])
        invariant once ==> LeftKeys(onceKeys.value, onceSubmitted) == active[i..]
        invariant |old(inFlight)| <= |inFlight| <= |old(inFlight)| + i && old(inFlight).Keys <= inFlight.Keys
        invariant Busy(old(inFlight)) ==> Busy(inFlight)
        invariant forall k :: k in turns ==> turns[k] == wall || (k in old(turns) && turns[k] == old(turns)[k])
        invariant forall j :: 0 <= j < i ==> Settled(active[j], now, wall)
      {
        if stopping || |inFlight| >= WORKERS {
          AtMostEight();
          break;
        }
        crashed := Offer(active[i], now, wall);
        if crashed {
          return;
        }
      }
    }

    /** Is this the first key that --once mode has left? */
    predicate NextLeft(key: Identity)
      reads this`onceKeys, this`onceSubmitted
    {
      onceKeys.Some? && var left := LeftKeys(onceKeys.value, onceSubmitted); left != [] && left[0] == key
    }

    /** One step of `Submit`: everything settled and admissible stays so. */
    method Offer(key: Identity, now: real, wall: real) returns (crashed: bool)
      requires Valid() && |inFlight| < WORKERS && Admissible(checkpoints, key)
      requires once ==> Marked() && NextLeft(key)
      modifies this`checkpoints, this`inFlight, this`onceSubmitted, this`history, this`turns
      ensures Valid() && (once ==> Marked())
      ensures crashed ==> ReceiptAt(receipts, key).None?
      ensures !crashed ==> Settled(key, now, wall)
      ensures forall k :: old(Settled(k, now, wall)) ==> Settled(k, now, wall)
      ensures forall k :: old(Admissible(checkpoints, k)) ==> Admissible(checkpoints, k)
      ensures Busy(old(inFlight)) ==> Busy(inFlight)
      ensures |old(inFlight)| <= |inFlight| <= |old(inFlight)| + 1 && old(inFlight).Keys <= inFlight.Keys
      ensures turns == old(turns) || turns == old(turns)[key := wall]
      ensures once && !crashed ==>
        LeftKeys(onceKeys.value, onceSubmitted) == old(LeftKeys(onceKeys.value, onceSubmitted))[1..]
    {
      hide Valid, LeftKeys, Waiting, Discovered, ReceiptAt;
      if once {
        LeftOnly();
      }
      crashed := Consider(key, now, wall);
      if ReceiptAt(receipts, key).Some? {
        NewIsAdmissible(receipts[ReceiptAt(receipts, key).value].receipt, wall);
      }
      if once && !crashed {
        LeftShrinks(onceKeys.value, old(onceSubmitted));
      }
    }

    /** The keys marked as submitted are those whose turn has come. */
    ghost predicate Marked()
      reads this`turns, this`onceSubmitted
    {
      turns.Keys == onceSubmitted
    }

    lemma AtMostEight()
      requires Valid()
      ensures |inFlight| <= WORKERS
    {
    }

    lemma LeftOnly()
      requires Valid() && onceKeys.Some?
      ensures Unrepeated(onceKeys.value)
      ensures forall k :: k in LeftKeys(onceKeys.value, onceSubmitted) ==>
        k in onceKeys.value && k !in onceSubmitted
    {
    }

    /** One round of the loop: save the finished results, look at a new scan, submit. */
    method Iterate(now: real, wall: real, scan: Option<Items>) returns (crashed: bool)
      requires Valid() && (scan.Some? ==> DistinctItems(scan.value)) && (once ==> Marked())
      modifies this
      ensures Valid() && Busy(inFlight) && (old(stopping) ==> stopping) && (once ==> Marked())
      ensures Running(old(inFlight)).Keys <= inFlight.Keys
      ensures forall k :: k in turns ==> turns[k] == wall || (k in old(turns) && turns[k] == old(turns)[k])
      ensures crashed ==> once && onceKeys.Some? && !Present(receipts, onceKeys.value)
      ensures once ==> onceKeys == Some(KeysOf(old(onceKeys), Viewed(old(stopping), scan, old(receipts)),
                                               old(checkpoints) + Finished(old(inFlight)), wall))
      ensures receipts == Viewed(old(stopping), scan, old(receipts))
      ensures once && !crashed ==>
        && (stopping || |inFlight| == WORKERS)
        && (stopping ==> old(stopping) || LeftKeys(onceKeys.value, onceSubmitted) == [])
        && (old(onceKeys).Some? ==>
              |LeftKeys(onceKeys.value, onceSubmitted)| - |LeftKeys(onceKeys.value, old(onceSubmitted))|
                <= |Running(old(inFlight))| - |inFlight| <= 0)
    {
      hide Valid, LeftKeys, DistinctItems, ReceiptAt, Settled, Marked, Running, Finished, Viewed, KeysOf, Busy;
      Drain(now);
      Rescan(scan);
      var active := Choose(wall);
      crashed := Submit(active, now, wall);
      if once && !crashed && LeftKeys(onceKeys.value, onceSubmitted) == [] {
        Halt();
      }
    }

    method Rescan(scan: Option<Items>)
      requires Valid() && (scan.Some? ==> DistinctItems(scan.value))
      modifies this`receipts
      ensures Valid() && receipts == Viewed(stopping, scan, old(receipts))
    {
      if !stopping && scan.Some? {
        receipts := scan.value;
      }
    }

    method Halt()
      requires Valid()
      modifies this`stopping
      ensures Valid() && stopping
    {
      stopping := true;
    }

    /** The keys of --once mode: those it has, or else those that it selects. */
    function KeysOf(known: Option<seq<Identity>>, receipts: Items, checkpoints: Checkpoints, wall: real)
      : (keys: seq<Identity>)
      ensures known.Some? ==> keys == known.value
    {
      if known.Some? then known.value else SelectWork(receipts, checkpoints, maxActive, wall)
    }

    /** The keys to submit now: the selection, or what --once mode has left of its first one. */
    method Choose(wall: real) returns (active: seq<Identity>)
      requires Valid()
      modifies this`onceKeys
      ensures Valid() && Unrepeated(active)
      ensures forall k :: k in active ==> Admissible(checkpoints, k)
      ensures !once ==> onceKeys == old(onceKeys) && forall k :: k in active ==> ReceiptAt(receipts, k).Some?
      ensures once ==> onceKeys.Some? && active == LeftKeys(onceKeys.value, onceSubmitted)
      ensures once ==> onceKeys == Some(KeysOf(old(onceKeys), receipts, checkpoints, wall))
    {
      hide KeyOk, LeftKeys, SelectWork, DistinctItems, Unrepeated, ReceiptAt, Chained, NoReview;
      active := SelectWork(receipts, checkpoints, maxActive, wall);
      SelectedDistinct(receipts, checkpoints, maxActive, wall);
      forall k | k in active ensures Admissible(checkpoints, k) && ReceiptAt(receipts, k).Some? {
        SelectedHaveWork(receipts, checkpoints, maxActive, wall, k);
      }
      if once {
        if onceKeys.None? {
          Remember(active);
        }
        active := LeftKeys(onceKeys.value, onceSubmitted);
        assert forall k :: k in active ==> OnceOk(k);
      }
    }

    /** Fixes the keys of --once mode. */
    method Remember(active: seq<Identity>)
      requires Valid() && onceKeys.None?
      requires Unrepeated(active) && forall k :: k in active ==> Admissible(checkpoints, k)
      modifies this`onceKeys
      ensures Valid() && onceKeys == Some(active)
    {
      hide KeyOk, Submissions;
      onceKeys := Some(active);
      forall k ensures OnceOk(k) {
        assert old(OnceOk(k));
      }
    }

    /** Those workers finish that the round picks. */
    method FinishSome(round: Round)
      requires Valid() && Busy(inFlight)
      modifies this`inFlight, this`history
      ensures Valid() && inFlight.Keys == old(inFlight).Keys
      ensures Running(inFlight).Keys == old(inFlight).Keys - round.done(old(inFlight).Keys)
    {
      hide Valid;
      var rest := inFlight.Keys * round.done(inFlight.Keys);
      while rest != {}
        invariant Valid() && inFlight.Keys == old(inFlight).Keys
        invariant rest <= inFlight.Keys * round.done(inFlight.Keys)
        invariant forall k :: k in inFlight ==>
          (inFlight[k].outcome.None? <==> k !in round.done(old(inFlight).Keys) || k in rest)
      {
        var k :| k in rest;
        rest := rest - {k};
        Finish(k, round.results(k));
      }
    }

    /** One turn of the loop of --once mode: the signal, the round, and then the workers. */
    method Turn(round: Round) returns (crashed: bool)
      requires Valid() && once && Marked() && (round.scan.Some? ==> DistinctItems(round.scan.value))
      modifies this
      ensures Valid() && Marked()
      ensures onceKeys == Some(KeysOf(old(onceKeys),
                                      Viewed(old(stopping) || round.signalled, round.scan, old(receipts)),
                                      old(checkpoints) + Finished(old(inFlight)), round.wall))
      ensures receipts == Viewed(old(stopping) || round.signalled, round.scan, old(receipts))
      ensures crashed ==> !Present(receipts, onceKeys.value)
      ensures forall k :: k in turns ==> turns[k] == round.wall || (k in old(turns) && turns[k] == old(turns)[k])
      ensures !crashed ==>
        && (stopping ==> old(stopping) || round.signalled || LeftKeys(onceKeys.value, onceSubmitted) == [])
        && (inFlight == map[] ==> stopping)
        && (old(onceKeys).Some? ==>
              Shrinks(round, old(Running(inFlight).Keys), inFlight.Keys, Running(inFlight).Keys,
                LeftKeys(onceKeys.value, old(onceSubmitted)), LeftKeys(onceKeys.value, onceSubmitted)))
    {
      hide Valid, LeftKeys, DistinctItems, ReceiptAt, Submissions, SelectWork, Finished, Shrinks;
      if round.signalled {
        Halt();
      }
      crashed := Iterate(round.now, round.wall, round.scan);
      if !crashed {
        ghost var started := inFlight;
        FinishSome(round);
        assert Running(started) == started;
        if old(onceKeys).Some? {
          KeyCount(old(Running(inFlight)));
          KeyCount(started);
          ShrinksWhen(round, old(Running(inFlight).Keys), started.Keys, Running(inFlight).Keys,
            LeftKeys(onceKeys.value, old(onceSubmitted)), LeftKeys(onceKeys.value, onceSubmitted));
        }
      }
    }

    /** --once mode ends, whatever the workers return, however long they take and however the scans change.
        Its keys are those that the first round selects. It dies only if a later scan misses the receipt of one
        of them. If it does not, and no signal stops it, the turn of every key comes once: the keys that are due
        then are submitted exactly once, and all others never. */
    method RunOnce(rounds: nat -> Round) returns (crashed: bool)
      requires Valid() && once && onceKeys == None && onceSubmitted == {} && turns == map[] && !stopping
      requires inFlight == map[] && Fair(rounds)
      requires forall n :: rounds(n).scan.Some? ==> DistinctItems(rounds(n).scan.value)
      modifies this
      ensures Valid()
      ensures onceKeys == Some(SelectWork(Viewed(rounds(0).signalled, rounds(0).scan, old(receipts)),
                                          old(checkpoints), maxActive, rounds(0).wall))
      ensures crashed ==> !Present(receipts, onceKeys.value)
      ensures Lasting(rounds, onceKeys.value) ==> !crashed
      ensures !crashed ==> inFlight == map[]
      ensures !crashed && Quiet(rounds) ==> turns.Keys == SetOf(onceKeys.value)
      ensures Clocked(rounds, turns)
      ensures saved == old(checkpoints)
      ensures forall k :: Submissions(history, k) == if k in turns && Due(saved, k, turns[k]) then 1 else 0
    {
      hide Valid, Marked, SelectWork, LeftKeys, DistinctItems, ReceiptAt, Submissions, Running, Finished, Shrinks;
      hide Fair, Due, Quiet, Viewed, Lasting, Present, Clocked;
      FirstTurn();
      NoClocks(rounds);
      crashed := Turn(rounds(0));
      SelectedPresent(receipts, old(checkpoints), maxActive, rounds(0).wall);
      ClockedNext(rounds, 0, map[], turns);
      if !crashed {
        Unsignalled(rounds, 0);
        crashed := Rest(rounds);
      }
      NoneTwice();
    }

    /** What every turn but the first meets. */
    ghost predicate Going(rounds: nat -> Round)
      reads this
    {
      && Valid() && once && onceKeys.Some? && Marked() && Clocked(rounds, turns) && (inFlight == map[] ==> stopping)
      && (stopping && Quiet(rounds) ==> LeftKeys(onceKeys.value, onceSubmitted) == [])
    }

    /** What --once mode has left to do. */
    ghost function WorkLeft(): nat
      requires onceKeys.Some?
      reads this`onceKeys, this`onceSubmitted, this`inFlight
    {
      Work(LeftKeys(onceKeys.value, onceSubmitted), Running(inFlight).Keys)
    }

    /** The turns after the first. */
    method Rest(rounds: nat -> Round) returns (crashed: bool)
      requires Going(rounds) && onceKeys.Some? && Fair(rounds)
      requires forall n :: rounds(n).scan.Some? ==> DistinctItems(rounds(n).scan.value)
      modifies this
      ensures Valid() && Marked() && Clocked(rounds, turns) && onceKeys == old(onceKeys)
      ensures crashed ==> !Present(receipts, onceKeys.value)
      ensures Lasting(rounds, onceKeys.value) && Present(old(receipts), onceKeys.value) ==> !crashed
      ensures !crashed ==> inFlight == map[]
      ensures !crashed && Quiet(rounds) ==> turns.Keys == SetOf(onceKeys.value)
    {
      hide *;
      var n: nat := 1;
      ghost var due: nat := 0;
      ghost var lasting := Lasting(rounds, onceKeys.value) && Present(receipts, onceKeys.value);
      crashed := false;
      if Running(inFlight).Keys != {} {
        due := NextEnd(rounds, n, Running(inFlight).Keys);
      }
      while !stopping || inFlight != map[]
        invariant Going(rounds) && onceKeys.Some? && onceKeys == old(onceKeys)
        invariant Running(inFlight).Keys != {} ==> n <= due && Ends(rounds(due), Running(inFlight).Keys)
        invariant lasting ==> Present(receipts, onceKeys.value)
        invariant !crashed
        decreases WorkLeft(), inFlight != map[], if Running(inFlight).Keys == {} then 0 else due - n
      {
        ghost var running := Running(inFlight).Keys;
        StillGoing(rounds);
        crashed := Later(rounds, n);
        if crashed {
          return;
        }
        StillGoing(rounds);
        n := n + 1;
        ghost var after := Running(inFlight).Keys;
        if after != {} && !(after == running && n <= due) {
          due := NextEnd(rounds, n, after);
        }
      }
      if Quiet(rounds) {
        Gone(rounds);
      }
      StillGoing(rounds);
    }

    lemma StillGoing(rounds: nat -> Round)
      requires Going(rounds)
      ensures Valid() && Marked() && Clocked(rounds, turns) && (inFlight == map[] ==> stopping)
    {
    }

    lemma Gone(rounds: nat -> Round)
      requires Going(rounds) && stopping && Quiet(rounds)
      ensures turns.Keys == SetOf(onceKeys.value)
    {
      AllMarked();
    }

    /** One of these turns: less work is left, or no running job finishes and nothing happens. */
    method Later(rounds: nat -> Round, n: nat) returns (crashed: bool)
      requires Going(rounds) && (rounds(n).scan.Some? ==> DistinctItems(rounds(n).scan.value))
      modifies this
      ensures Valid() && Marked() && Clocked(rounds, turns) && onceKeys == old(onceKeys)
      ensures crashed ==> !Present(receipts, onceKeys.value)
      ensures Lasting(rounds, onceKeys.value) && Present(old(receipts), onceKeys.value) ==>
        !crashed && Present(receipts, onceKeys.value)
      ensures !crashed ==> Going(rounds)
      ensures !crashed ==>
        || WorkLeft() < old(WorkLeft())
        || (&& WorkLeft() == old(WorkLeft()) && !Ends(rounds(n), old(Running(inFlight).Keys))
            && Running(inFlight).Keys == old(Running(inFlight).Keys)
            && (Running(inFlight).Keys == {} ==> inFlight == map[]))
    {
      hide Valid, Marked, LeftKeys, DistinctItems, ReceiptAt, Running, Shrinks, Ends, Quiet, Viewed, Lasting, Present;
      hide Clocked, Work;
      if Lasting(rounds, onceKeys.value) && Present(receipts, onceKeys.value) {
        StillPresent(rounds, n, onceKeys.value, stopping || rounds(n).signalled, receipts);
      }
      crashed := Turn(rounds(n));
      ClockedNext(rounds, n, old(turns), turns);
      if !crashed {
        Unsignalled(rounds, n);
        Nearer(rounds(n), old(Running(inFlight).Keys), inFlight.Keys, Running(inFlight).Keys,
          LeftKeys(onceKeys.value, old(onceSubmitted)), LeftKeys(onceKeys.value, onceSubmitted));
        assert inFlight.Keys == {} ==> inFlight == map[];
      }
    }

    lemma Unsignalled(rounds: nat -> Round, n: nat)
      ensures Quiet(rounds) ==> !rounds(n).signalled
    {
    }

    lemma FirstTurn()
      requires Valid() && once && inFlight == map[] && onceSubmitted == {} && turns == map[]
      ensures saved == checkpoints && Marked() && checkpoints + Finished(inFlight) == checkpoints
    {
      forall k ensures SameAt(checkpoints, saved, k) {
        assert OnceOk(k);
      }
      assert forall k :: k in checkpoints <==> SameAt(checkpoints, saved, k) && k in saved;
      assert forall k :: k in saved ==> SameAt(checkpoints, saved, k);
    }

    lemma AllMarked()
      requires Valid() && once && Marked() && onceKeys.Some? && LeftKeys(onceKeys.value, onceSubmitted) == []
      ensures turns.Keys == SetOf(onceKeys.value)
    {
      forall k ensures k in turns.Keys <==> k in onceKeys.value {
        assert OnceOk(k);
        assert k in LeftKeys(onceKeys.value, onceSubmitted) <==> k in onceKeys.value && k !in onceSubmitted;
      }
    }

    lemma NoneTwice()
      requires Valid() && once
      ensures forall k :: Submissions(history, k) == if k in turns && Due(saved, k, turns[k]) then 1 else 0
    {
      forall k ensures Submissions(history, k) == if k in turns && Due(saved, k, turns[k]) then 1 else 0 {
        assert OnceOk(k);
      }
    }
  }
}
