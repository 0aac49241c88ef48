/**
 The sample writer (tools/face-experiment/prepare_audio.py): probe the inventory, pick eight sources
 from each duration tercile, decode their clips, write the manifest that the loader reads.
 */
module AudioSample {
  import opened AudioManifest
  import opened ClipPlan
  import opened FiniteSets
  import opened Outcomes
  import opened Rounding
  import opened StableSort

  const PER_TERCILE: nat := 8
  const SAMPLE: nat := 24

  /** `probe` is the duration in seconds that ffprobe reports, if it reports one. */
  datatype Item = Item(sha256: string, safePath: bool, probe: Option<real>, size: int, artist: string)

  datatype Candidate = Candidate(sha256: string, duration: int, artist: string)

  datatype SampleError =
    | INVENTORY_COUNT_INVALID | SOURCE_PATH_INVALID | INSUFFICIENT_SAMPLE_CANDIDATES | SOURCE_HASH_MISMATCH
    | AUDIO_COMMAND_FAILED | PLAN_REFUSED | PCM_LENGTH_INVALID | SOURCE_CHANGED_DURING_DECODE

  // ---------------------------------------------------------------- probing

  predicate Probed(item: Item) {
    item.probe.Some? && 24.0 <= item.probe.value <= 3600.0 && 1 <= item.size <= 200 * 1024 * 1024
  }

  predicate CandidatesOk(candidates: seq<Candidate>) {
    && (forall i :: 0 <= i < |candidates| ==> DurationOk(candidates[i].duration))
    && (forall i, j :: 0 <= i < j < |candidates| ==> candidates[i].sha256 != candidates[j].sha256)
  }

  lemma ProbedDuration(item: Item)
    requires Probed(item)
    ensures DurationOk(RoundHalfEven(item.probe.value * 1000.0))
  {
    var x := item.probe.value * 1000.0;
    assert 24000.0 <= x <= 3600000.0;
  }

  predicate CountOk(inventory: seq<Item>) {
    24 <= |inventory| <= 5000
  }

  predicate IsFirst(inventory: seq<Item>, i: nat)
    requires i < |inventory|
  {
    forall j :: 0 <= j < i ==> inventory[j].sha256 != inventory[i].sha256
  }

  /** The first item of every digest has a safe path; the paths of its repetitions do not matter. */
  predicate PathsSafe(inventory: seq<Item>) {
    forall i :: 0 <= i < |inventory| && IsFirst(inventory, i) ==> inventory[i].safePath
  }

  function CandidateOf(item: Item): Candidate
    requires Probed(item)
  {
    Candidate(item.sha256, RoundHalfEven(item.probe.value * 1000.0), item.artist)
  }

  /** The first item of every digest, if its probe is in bounds, in the order of the inventory. */
  function Candidates(inventory: seq<Item>): seq<Candidate> {
    if inventory == [] then []
    else
      var n := |inventory| - 1;
      Candidates(inventory[..n])
      + (if IsFirst(inventory, n) && Probed(inventory[n]) then [CandidateOf(inventory[n])] else [])
  }

  /** And where the others are, whose probe is refused. */
  function Rejected(inventory: seq<Item>): seq<int> {
    if inventory == [] then []
    else
      var n := |inventory| - 1;
      Rejected(inventory[..n]) + (if IsFirst(inventory, n) && !Probed(inventory[n]) then [n] else [])
  }

  /** Succeeds exactly on an inventory of an acceptable size whose first occurrences have safe paths. */
  method Probe(inventory: seq<Item>) returns (result: Result<(seq<Candidate>, seq<int>), SampleError>)
    ensures result.Ok? <==> CountOk(inventory) && PathsSafe(inventory)
    ensures result.Err? ==>
      result.error == if CountOk(inventory) then SOURCE_PATH_INVALID else INVENTORY_COUNT_INVALID
    ensures result.Ok? ==> result.value == (Candidates(inventory), Rejected(inventory))
  {
    hide Probed, CandidateOf;
    if !(24 <= |inventory| <= 5000) {
      return Err(INVENTORY_COUNT_INVALID);
    }
    var candidates: seq<Candidate> := [];
    var rejected: seq<int> := [];
    var seen: set<string> := {};
    for k := 0 to |inventory|
      invariant forall s :: s in seen <==> exists j :: 0 <= j < k && inventory[j].sha256 == s
      invariant PathsSafe(inventory[..k])
      invariant candidates == Candidates(inventory[..k]) && rejected == Rejected(inventory[..k])
    {
      var item := inventory[k];
      OneMore(inventory, k);
      assert IsFirst(inventory, k) <==> item.sha256 !in seen;
      if item.sha256 in seen {
        continue;
      }
      seen := seen + {item.sha256};
      if !item.safePath {
        return Err(SOURCE_PATH_INVALID);
      }
      if Probed(item) {
        candidates := candidates + [CandidateOf(item)];
      } else {
        rejected := rejected + [k];
      }
    }
    assert inventory[..|inventory|] == inventory;
    return Ok((candidates, rejected));
  }

  lemma OneMore(inventory: seq<Item>, k: nat)
    requires k < |inventory|
    ensures Candidates(inventory[..k + 1]) == Candidates(inventory[..k])
      + (if IsFirst(inventory, k) && Probed(inventory[k]) then [CandidateOf(inventory[k])] else [])
    ensures Rejected(inventory[..k + 1]) == Rejected(inventory[..k])
      + (if IsFirst(inventory, k) && !Probed(inventory[k]) then [k] else [])
    ensures PathsSafe(inventory[..k + 1]) <==>
      PathsSafe(inventory[..k]) && (IsFirst(inventory, k) ==> inventory[k].safePath)
  {
    hide Probed, CandidateOf;
    var more := inventory[..k + 1];
    assert more[..k] == inventory[..k] && more[k] == inventory[k];
    assert forall i :: 0 <= i <= k ==> (IsFirst(more, i) <==> IsFirst(inventory, i));
    assert forall i :: 0 <= i < k ==> (IsFirst(inventory[..k], i) <==> IsFirst(inventory, i));
  }

  /** Every candidate is a probed first occurrence and every such occurrence is a candidate; no digest has
      two, and each duration is one for which there is a clip plan. */
  lemma {:induction false} CandidatesAreFirst(inventory: seq<Item>)
    ensures CandidatesOk(Candidates(inventory))
    ensures forall c :: (c in Candidates(inventory) <==> FirstProbed(inventory, c))
  {
    if inventory != [] {
      var n := |inventory| - 1;
      CandidatesAreFirst(inventory[..n]);
      hide CandidatesOk, DurationOk, RoundHalfEven;
      forall c ensures c in Candidates(inventory) <==> FirstProbed(inventory, c) {
        ProbedNext(inventory, c);
      }
      if IsFirst(inventory, n) && Probed(inventory[n]) {
        ProbedDuration(inventory[n]);
        CandidateAdded(Candidates(inventory[..n]), CandidateOf(inventory[n]));
      }
    } else {
      assert CandidatesOk([]);
    }
  }

  lemma CandidateAdded(candidates: seq<Candidate>, c: Candidate)
    requires CandidatesOk(candidates) && DurationOk(c.duration)
    requires forall x :: x in candidates ==> x.sha256 != c.sha256
    ensures CandidatesOk(candidates + [c])
  {
  }

  predicate FirstProbed(inventory: seq<Item>, c: Candidate) {
    exists i :: 0 <= i < |inventory| && Probed(inventory[i]) && IsFirst(inventory, i) && c == CandidateOf(inventory[i])
  }

  lemma ProbedNext(inventory: seq<Item>, c: Candidate)
    requires inventory != []
    ensures var n := |inventory| - 1;
      FirstProbed(inventory, c) <==>
        (FirstProbed(inventory[..n], c)
         || (Probed(inventory[n]) && IsFirst(inventory, n) && c == CandidateOf(inventory[n])))
  {
    hide Probed, CandidateOf;
    var n := |inventory| - 1;
    assert forall i :: 0 <= i < n ==> (IsFirst(inventory[..n], i) <==> IsFirst(inventory, i));
    if FirstProbed(inventory[..n], c) {
      var i :| 0 <= i < n && Probed(inventory[..n][i]) && IsFirst(inventory[..n], i)
        && c == CandidateOf(inventory[..n][i]);
      assert inventory[i] == inventory[..n][i];
    }
    if FirstProbed(inventory, c) {
      var i :| 0 <= i < |inventory| && Probed(inventory[i]) && IsFirst(inventory, i) && c == CandidateOf(inventory[i]);
      if i < n {
        assert inventory[i] == inventory[..n][i];
      }
    }
  }

  // ---------------------------------------------------------------- the order of candidates

  predicate TextLe(a: string, b: string) {
    a == [] || (b != [] && (a[0] < b[0] || (a[0] == b[0] && TextLe(a[1..], b[1..]))))
  }

  lemma {:induction false} TextTotal(a: string, b: string)
    ensures TextLe(a, b) || TextLe(b, a)
    ensures TextLe(a, b) && TextLe(b, a) ==> a == b
  {
    if a != [] && b != [] {
      TextTotal(a[1..], b[1..]);
      assert a == [a[0]] + a[1..] && b == [b[0]] + b[1..];
    }
  }

  lemma {:induction false} TextTransitive(a: string, b: string, c: string)
    requires TextLe(a, b) && TextLe(b, c)
    ensures TextLe(a, c)
  {
    if a != [] {
      if a[0] == b[0] == c[0] {
        TextTransitive(a[1..], b[1..], c[1..]);
      }
    }
  }

  predicate CandidateLe(a: Candidate, b: Candidate) {
    a.duration < b.duration || (a.duration == b.duration && TextLe(a.sha256, b.sha256))
  }

  function ByDuration(): Order<Candidate> {
    (a: Candidate, b: Candidate) => CandidateLe(a, b)
  }

  lemma ByDurationOrders()
    ensures TotalPreorder(ByDuration())
  {
    var le := ByDuration();
    forall a, b ensures le(a, b) || le(b, a) {
      TextTotal(a.sha256, b.sha256);
    }
    forall a, b, c | le(a, b) && le(b, c) ensures le(a, c) {
      if a.duration == b.duration == c.duration {
        TextTransitive(a.sha256, b.sha256, c.sha256);
      }
    }
  }

  // ---------------------------------------------------------------- selection

  function Cut(n: nat, index: nat): nat {
    index * n / 3
  }

  lemma Cuts(n: nat, i: nat, j: nat)
    requires i <= j <= 3
    ensures Cut(n, i) <= Cut(n, j) <= n
  {
    assert i * n <= j * n by {
      assert (j - i) * n >= 0;
    }
    assert j * n <= 3 * n by {
      assert (3 - j) * n >= 0;
    }
  }

  function Tercile(sorted: seq<Candidate>, index: nat): seq<Candidate>
    requires index < 3
  {
    Cuts(|sorted|, index, index + 1);
    sorted[Cut(|sorted|, index)..Cut(|sorted|, index + 1)]
  }

  function Artists(selected: seq<Candidate>): set<string> {
    set c | c in selected :: c.artist
  }

  predicate Available(bucket: seq<Candidate>, selected: seq<Candidate>, c: Candidate) {
    c in bucket && c !in selected
  }

  predicate Diverse(bucket: seq<Candidate>, selected: seq<Candidate>, c: Candidate) {
    Available(bucket, selected, c) && c.artist !in Artists(selected)
  }

  /** An available source, of a new artist if there is one, and of those the one with the least digest. */
  ghost predicate IsChoice(bucket: seq<Candidate>, selected: seq<Candidate>, c: Candidate) {
    && Available(bucket, selected, c)
    && ((exists x :: Diverse(bucket, selected, x)) ==> Diverse(bucket, selected, c))
    && (forall x :: (if exists y :: Diverse(bucket, selected, y) then Diverse(bucket, selected, x)
                     else Available(bucket, selected, x)) ==> TextLe(c.sha256, x.sha256))
  }

  /** Eight choices from each tercile in turn. */
  ghost predicate IsSample(sorted: seq<Candidate>, selected: seq<Candidate>) {
    forall k :: 0 <= k < |selected| && k < SAMPLE ==>
      IsChoice(Tercile(sorted, k / PER_TERCILE), selected[..k], selected[k])
  }

  /** A whole sample of the candidates. */
  ghost predicate Sampled(candidates: seq<Candidate>, selected: seq<Candidate>) {
    |selected| == SAMPLE && IsSample(Sort(candidates, ByDuration()), selected)
  }

  function Filter(s: seq<Candidate>, p: Candidate -> bool): (r: seq<Candidate>)
    ensures forall c :: c in r <==> c in s && p(c)
  {
    if s == [] then [] else (if p(s[0]) then [s[0]] else []) + Filter(s[1..], p)
  }

  method Least(pool: seq<Candidate>) returns (least: Candidate)
    requires pool != []
    ensures least in pool && forall c :: c in pool ==> TextLe(least.sha256, c.sha256)
  {
    least := pool[0];
    TextTotal(least.sha256, least.sha256);
    for k := 1 to |pool|
      invariant least in pool && forall j :: 0 <= j < k ==> TextLe(least.sha256, pool[j].sha256)
    {
      if !TextLe(least.sha256, pool[k].sha256) {
        TextTotal(least.sha256, pool[k].sha256);
        TextTotal(pool[k].sha256, pool[k].sha256);
        forall j | 0 <= j < k ensures TextLe(pool[k].sha256, pool[j].sha256) {
          TextTransitive(pool[k].sha256, least.sha256, pool[j].sha256);
        }
        least := pool[k];
      }
    }
  }

  method Choose(bucket: seq<Candidate>, selected: seq<Candidate>, artists: set<string>)
    returns (chosen: Option<Candidate>)
    requires artists == Artists(selected)
    ensures chosen.Some? ==> IsChoice(bucket, selected, chosen.value)
    ensures chosen.None? <==> forall c :: !Available(bucket, selected, c)
  {
    var available := Filter(bucket, (c: Candidate) => c !in selected);
    var diverse := Filter(available, (c: Candidate) => c.artist !in artists);
    if available == [] {
      assert forall c :: c !in available;
      return None;
    }
    assert available[0] in available;
    var pool := if diverse != [] then diverse else available;
    assert diverse != [] ==> Diverse(bucket, selected, diverse[0]) by {
      assert diverse != [] ==> diverse[0] in diverse;
    }
    assert forall c :: Diverse(bucket, selected, c) ==> c in diverse;
    var least := Least(pool);
    return Some(least);
  }

  lemma TercileSizes(sorted: seq<Candidate>, index: nat)
    requires index < 3
    ensures |sorted| >= SAMPLE ==> |Tercile(sorted, index)| >= PER_TERCILE
    ensures |sorted| < SAMPLE ==> |Tercile(sorted, 0)| < PER_TERCILE
  {
  }

  lemma ChoiceAt(sorted: seq<Candidate>, selected: seq<Candidate>, k: nat)
    requires k < |selected| <= SAMPLE && IsSample(sorted, selected)
    ensures selected[k] in Tercile(sorted, k / PER_TERCILE) && selected[k] !in selected[..k]
  {
    assert IsChoice(Tercile(sorted, k / PER_TERCILE), selected[..k], selected[k]);
  }

  /** No source is selected twice. */
  lemma SampleUnrepeated(sorted: seq<Candidate>, selected: seq<Candidate>)
    requires |selected| <= SAMPLE && IsSample(sorted, selected)
    ensures Unrepeated(selected)
  {
    hide IsSample;
    forall i, j | 0 <= i < j < |selected| ensures selected[i] != selected[j] {
      ChoiceAt(sorted, selected, j);
      assert selected[..j][i] == selected[i];
    }
  }

  /** The choices of one tercile so far are different sources of it. */
  lemma RecentFits(sorted: seq<Candidate>, selected: seq<Candidate>, index: nat, n: nat)
    requires index < 3 && n <= PER_TERCILE && |selected| == index * PER_TERCILE + n
    requires IsSample(sorted, selected)
    ensures n <= |Tercile(sorted, index)|
  {
    hide IsSample, Tercile;
    var bucket, recent := Tercile(sorted, index), selected[index * PER_TERCILE..];
    SampleUnrepeated(sorted, selected);
    forall c | c in SetOf(recent) ensures c in SetOf(bucket) {
      var i :| 0 <= i < n && recent[i] == c;
      ChoiceAt(sorted, selected, index * PER_TERCILE + i);
      assert (index * PER_TERCILE + i) / PER_TERCILE == index;
    }
    DistinctSize(recent);
    DistinctSize(bucket);
    SubsetSize(SetOf(recent), SetOf(bucket));
  }

  /** The search of a bucket comes up empty only when all of it is selected. */
  lemma AllSelected(sorted: seq<Candidate>, selected: seq<Candidate>, index: nat, n: nat)
    requires index < 3 && n < PER_TERCILE && |selected| == index * PER_TERCILE + n
    requires Ordered(sorted, ByDuration()) && Unrepeated(sorted) && IsSample(sorted, selected)
    requires forall c :: !Available(Tercile(sorted, index), selected, c)
    ensures |Tercile(sorted, index)| <= n
  {
    hide IsSample, Tercile;
    var bucket, recent := Tercile(sorted, index), selected[index * PER_TERCILE..];
    forall c | c in bucket ensures c in recent {
      assert !Available(bucket, selected, c);
      var k :| 0 <= k < |selected| && selected[k] == c;
      if k < index * PER_TERCILE {
        ChoiceAt(sorted, selected, k);
        if c in Tercile(sorted, index) {
          TercilesOrdered(sorted, k / PER_TERCILE, index, c, c);
        }
      } else {
        assert recent[k - index * PER_TERCILE] == c;
      }
    }
    BucketUnrepeated(sorted, index);
    DistinctSize(bucket);
    DistinctSize(recent);
    SubsetSize(SetOf(bucket), SetOf(recent));
  }

  lemma SampleGrows(sorted: seq<Candidate>, selected: seq<Candidate>, c: Candidate)
    requires |selected| < SAMPLE && IsSample(sorted, selected)
    requires IsChoice(Tercile(sorted, |selected| / PER_TERCILE), selected, c)
    ensures IsSample(sorted, selected + [c])
  {
    var more := selected + [c];
    forall k | 0 <= k < |more| ensures IsChoice(Tercile(sorted, k / PER_TERCILE), more[..k], more[k]) {
      if k < |selected| {
        assert more[..k] == selected[..k] && more[k] == selected[k];
      } else {
        assert more[..k] == selected;
      }
    }
  }

  lemma ArtistAdded(selected: seq<Candidate>, c: Candidate)
    ensures Artists(selected + [c]) == Artists(selected) + {c.artist}
  {
    forall a ensures a in Artists(selected + [c]) <==> a in Artists(selected) + {c.artist} {
      if a in Artists(selected) {
        var x :| x in selected && x.artist == a;
        assert x in selected + [c];
      }
      assert c in selected + [c];
    }
  }

  lemma NothingSelected(sorted: seq<Candidate>)
    ensures IsSample(sorted, []) && Artists([]) == {}
  {
  }

  lemma SortedCandidates(candidates: seq<Candidate>)
    requires CandidatesOk(candidates)
    ensures var sorted := Sort(candidates, ByDuration());
      && |sorted| == |candidates| && multiset(sorted) == multiset(candidates)
      && Ordered(sorted, ByDuration()) && Unrepeated(sorted) && CandidatesOk(sorted)
  {
    var sorted := Sort(candidates, ByDuration());
    var apart: Order<Candidate> := (a: Candidate, b: Candidate) => a.sha256 != b.sha256;
    ByDurationOrders();
    SortOrdered(candidates, ByDuration());
    SortPairwise(candidates, ByDuration(), apart);
    assert |multiset(sorted)| == |sorted|;
    forall i, j | 0 <= i < j < |sorted| ensures sorted[i].sha256 != sorted[j].sha256 {
      assert apart(sorted[i], sorted[j]);
    }
    forall i | 0 <= i < |sorted| ensures DurationOk(sorted[i].duration) {
      assert sorted[i] in multiset(sorted);
      assert sorted[i] in candidates;
    }
  }

  lemma BucketUnrepeated(sorted: seq<Candidate>, index: nat)
    requires index < 3 && Unrepeated(sorted)
    ensures Unrepeated(Tercile(sorted, index))
  {
  }

  lemma TercilePositions(sorted: seq<Candidate>, i: nat, j: nat, m: nat, n: nat)
    requires i < j < 3 && m < |Tercile(sorted, i)| && n < |Tercile(sorted, j)|
    ensures var a, b := Tercile(sorted, i)[m], Tercile(sorted, j)[n];
      exists p, q :: 0 <= p < q < |sorted| && sorted[p] == a && sorted[q] == b
  {
    var size := |sorted|;
    Cuts(size, i, i + 1);
    Cuts(size, i + 1, j);
    Cuts(size, j, j + 1);
    hide Cut;
    var p, q := Cut(size, i) + m, Cut(size, j) + n;
    assert sorted[p] == Tercile(sorted, i)[m] && sorted[q] == Tercile(sorted, j)[n];
  }

  /** No source of an earlier tercile is longer than one of a later tercile, or is in both. */
  lemma TercilesOrdered(sorted: seq<Candidate>, i: nat, j: nat, a: Candidate, b: Candidate)
    requires Ordered(sorted, ByDuration()) && Unrepeated(sorted)
    requires i < j < 3 && a in Tercile(sorted, i) && b in Tercile(sorted, j)
    ensures a != b && a.duration <= b.duration
  {
    hide Tercile;
    var m :| 0 <= m < |Tercile(sorted, i)| && Tercile(sorted, i)[m] == a;
    var n :| 0 <= n < |Tercile(sorted, j)| && Tercile(sorted, j)[n] == b;
    TercilePositions(sorted, i, j, m, n);
    var p, q :| 0 <= p < q < |sorted| && sorted[p] == a && sorted[q] == b;
    assert ByDuration()(sorted[p], sorted[q]);
  }

  /** Selection succeeds exactly when at least 24 candidates are left. */
  method SelectSample(candidates: seq<Candidate>) returns (result: Result<seq<Candidate>, SampleError>)
    requires CandidatesOk(candidates)
    ensures result.Ok? <==> |candidates| >= SAMPLE
    ensures result.Err? ==> result.error == INSUFFICIENT_SAMPLE_CANDIDATES
    ensures result.Ok? ==> Sampled(candidates, result.value)
  {
    hide Sort, IsSample, Tercile, CandidatesOk, Artists, Available;
    var sorted := Sort(candidates, ByDuration());
    SortedCandidates(candidates);
    NothingSelected(sorted);
    var selected: seq<Candidate> := [];
    var artists: set<string> := {};
    for index := 0 to 3
      invariant |selected| == index * PER_TERCILE && IsSample(sorted, selected) && artists == Artists(selected)
      invariant index > 0 ==> |candidates| >= SAMPLE
    {
      var bucket := Tercile(sorted, index);
      TercileSizes(sorted, index);
      for n := 0 to PER_TERCILE
        invariant |selected| == index * PER_TERCILE + n && IsSample(sorted, selected) && artists == Artists(selected)
        invariant n <= |bucket|
      {
        var chosen := Choose(bucket, selected, artists);
        if chosen.None? {
          AllSelected(sorted, selected, index, n);
          return Err(INSUFFICIENT_SAMPLE_CANDIDATES);
        }
        ghost var before := selected;
        assert |selected| / PER_TERCILE == index;
        SampleGrows(sorted, selected, chosen.value);
        selected := selected + [chosen.value];
        RecentFits(sorted, selected, index, n + 1);
        artists := artists + {chosen.value.artist};
        ArtistAdded(before, chosen.value);
      }
    }
    return Ok(selected);
  }

  /** The candidates leave no choice: there are not two samples of them. */
  lemma {:induction false} SampleUnique(candidates: seq<Candidate>, a: seq<Candidate>, b: seq<Candidate>)
    requires CandidatesOk(candidates) && Sampled(candidates, a) && Sampled(candidates, b)
    ensures a == b
  {
    hide IsSample, Sort, CandidatesOk;
    var sorted := Sort(candidates, ByDuration());
    SortedCandidates(candidates);
    for k := 0 to SAMPLE
      invariant a[..k] == b[..k]
    {
      SameChoice(sorted, a, b, k);
      assert a[..k + 1] == a[..k] + [a[k]] && b[..k + 1] == b[..k] + [b[k]];
    }
    assert a[..SAMPLE] == a && b[..SAMPLE] == b;
  }

  lemma SameChoice(sorted: seq<Candidate>, a: seq<Candidate>, b: seq<Candidate>, k: nat)
    requires CandidatesOk(sorted) && |a| == |b| == SAMPLE && k < SAMPLE && a[..k] == b[..k]
    requires IsSample(sorted, a) && IsSample(sorted, b)
    ensures a[k] == b[k]
  {
    hide Tercile;
    var bucket := Tercile(sorted, k / PER_TERCILE);
    assert IsChoice(bucket, a[..k], a[k]) && IsChoice(bucket, a[..k], b[k]);
    OneChoice(bucket, a[..k], a[k], b[k]);
    InTercile(sorted, k / PER_TERCILE, a[k]);
    InTercile(sorted, k / PER_TERCILE, b[k]);
    var p :| 0 <= p < |sorted| && sorted[p] == a[k];
    var q :| 0 <= q < |sorted| && sorted[q] == b[k];
    assert p < q || p == q || q < p;
  }

  lemma OneChoice(bucket: seq<Candidate>, selected: seq<Candidate>, c: Candidate, d: Candidate)
    requires IsChoice(bucket, selected, c) && IsChoice(bucket, selected, d)
    ensures c.sha256 == d.sha256 && c in bucket && d in bucket
  {
    TextTotal(c.sha256, d.sha256);
  }

  lemma InTercile(sorted: seq<Candidate>, index: nat, c: Candidate)
    requires index < 3 && c in Tercile(sorted, index)
    ensures c in sorted
  {
  }

  // ---------------------------------------------------------------- writing the manifest

  /** What the files and FFmpeg do for one source: `pcm(k)` is the byte count of clip k, if it decodes. */
  datatype Source = Source(unchangedBefore: bool, decodes: bool, unchangedAfter: bool,
                           pcm: nat -> Option<nat>, pcmSha256: nat -> string)

  /** A clip decodes to whole samples, at most half a second short and a tenth of a second long. */
  predicate ClipGood(source: Source, segment: nat)
    requires segment < 3
  {
    && source.pcm(segment).Some? && source.pcm(segment).value % 4 == 0
    && (ClipLength(segment) - 500) * 16 <= source.pcm(segment).value / 4 <= (ClipLength(segment) + 100) * 16
  }

  /** A source that the writer accepts. */
  predicate SourceGood(c: Candidate, source: Source) {
    && IsSha256(c.sha256) && source.unchangedBefore && source.decodes && source.unchangedAfter
    && ClipGood(source, 0) && ClipGood(source, 1) && ClipGood(source, 2)
  }

  predicate AllGood(selected: seq<Candidate>, sources: string -> Source) {
    forall k :: 0 <= k < |selected| ==> SourceGood(selected[k], sources(selected[k].sha256))
  }

  function DigitChar(n: nat): char
    requires n < 10
  {
    ('0' as int + n) as char
  }

  function TrackName(index: nat): string
    requires index < 1000
  {
    "track-" + [DigitChar(index / 100), DigitChar(index / 10 % 10), DigitChar(index % 10)]
  }

  lemma TrackNames(i: nat, j: nat)
    requires i < 1000 && j < 1000
    ensures IsTrackId(TrackName(i))
    ensures TrackName(i) == TrackName(j) ==> i == j
  {
    var a, b := TrackName(i), TrackName(j);
    assert a[..6] == "track-";
    Digits(i);
    Digits(j);
    hide DigitChar;
    assert a[6] == DigitChar(i / 100) && a[7] == DigitChar(i / 10 % 10) && a[8] == DigitChar(i % 10);
    assert b[6] == DigitChar(j / 100) && b[7] == DigitChar(j / 10 % 10) && b[8] == DigitChar(j % 10);
    DigitsDiffer(i / 100, j / 100);
    DigitsDiffer(i / 10 % 10, j / 10 % 10);
    DigitsDiffer(i % 10, j % 10);
  }

  lemma Digits(n: nat)
    requires n < 1000
    ensures n == n / 100 * 100 + n / 10 % 10 * 10 + n % 10
  {
  }

  lemma DigitsDiffer(a: nat, b: nat)
    requires a < 10 && b < 10
    ensures '0' <= DigitChar(a) <= '9'
    ensures DigitChar(a) == DigitChar(b) <==> a == b
  {
    assert DigitChar(a) as int == '0' as int + a && DigitChar(b) as int == '0' as int + b;
  }

  function TrackOf(selected: seq<Candidate>, index: nat): Track
    requires index < |selected| <= SAMPLE
  {
    Track(TrackName(index), selected[index].sha256, selected[index].duration)
  }

  function Tracks(selected: seq<Candidate>): (tracks: seq<Track>)
    requires |selected| <= SAMPLE
    ensures |tracks| == |selected| && forall k :: 0 <= k < |tracks| ==> tracks[k] == TrackOf(selected, k)
  {
    seq(|selected|, k requires 0 <= k < |selected| => TrackOf(selected, k))
  }

  /** The k-th clip written: clip k % 3 of track k / 3, as the plan says. */
  predicate Written(selected: seq<Candidate>, k: nat, clip: Clip, seeds: Seeds)
    requires |selected| <= SAMPLE && k < 3 * |selected|
  {
    && clip.track == TrackName(k / 3) && clip.index == k % 3
    && DurationOk(selected[k / 3].duration) && IsSha256(selected[k / 3].sha256)
    && MetadataOk(2, TrackOf(selected, k / 3), clip, seeds)
  }

  /** Decodes one clip of a source. */
  method WriteClip(selected: seq<Candidate>, index: nat, segment: nat, slot: Slot, source: Source, seeds: Seeds)
    returns (result: Result<Clip, SampleError>)
    requires index < |selected| <= SAMPLE && segment < 3
    requires DurationOk(selected[index].duration) && IsSha256(selected[index].sha256)
    requires slot == SlotOf(selected[index].duration, segment, seeds(selected[index].sha256)(segment))
    requires IsSha256(source.pcmSha256(segment))
    ensures result.Ok? <==> ClipGood(source, segment)
    ensures result.Ok? ==> Written(selected, 3 * index + segment, result.value, seeds)
  {
    var pcm := source.pcm(segment);
    if pcm.None? {
      return Err(AUDIO_COMMAND_FAILED);
    }
    var samples := pcm.value / 4;
    if pcm.value % 4 != 0 || !((slot.length - 500) * 16 <= samples <= (slot.length + 100) * 16) {
      return Err(PCM_LENGTH_INVALID);
    }
    assert (3 * index + segment) / 3 == index && (3 * index + segment) % 3 == segment;
    return Ok(Clip(TrackName(index), segment, FileName(TrackName(index), segment), slot.start,
                   Some(slot.length), samples, source.pcmSha256(segment)));
  }

  /** Writes clips and tracks for the sample, exactly when all of its sources are good; everything it writes
      passes the loader. */
  method WriteSample(selected: seq<Candidate>, rejected: seq<int>, seeds: Seeds, sources: string -> Source)
    returns (result: Result<(Manifest, Document), SampleError>)
    requires |selected| == SAMPLE && CandidatesOk(selected)
    requires forall sha, k :: IsSha256(sources(sha).pcmSha256(k))
    ensures result.Ok? <==> AllGood(selected, sources)
    ensures result.Ok? ==>
      var (m, d) := result.value;
      && ManifestOk(m, d, seeds)
      && d == Document(Tracks(selected), rejected)
  {
    hide Written, TrackName, IsSha256, SlotOf, ClipGood;
    var clips: seq<Clip> := [];
    var tracks: seq<Track> := [];
    for index := 0 to |selected|
      invariant |clips| == 3 * index && |tracks| == index
      invariant forall k :: 0 <= k < |clips| ==> Written(selected, k, clips[k], seeds)
      invariant forall k :: 0 <= k < index ==> tracks[k] == TrackOf(selected, k)
      invariant forall k :: 0 <= k < index ==> SourceGood(selected[k], sources(selected[k].sha256))
    {
      var item := selected[index];
      var source := sources(item.sha256);
      if !source.unchangedBefore {
        return Err(SOURCE_HASH_MISMATCH);
      }
      if !source.decodes {
        return Err(AUDIO_COMMAND_FAILED);
      }
      var plan := PlanClips(item.sha256, item.duration, seeds);
      if plan.Err? {
        return Err(PLAN_REFUSED);
      }
      for segment := 0 to 3
        invariant |clips| == 3 * index + segment
        invariant forall k :: 0 <= k < |clips| ==> Written(selected, k, clips[k], seeds)
        invariant forall n: nat :: n < segment ==> ClipGood(source, n)
      {
        var clip := WriteClip(selected, index, segment, plan.value[segment], source, seeds);
        if clip.Err? {
          return Err(clip.error);
        }
        clips := clips + [clip.value];
      }
      if !source.unchangedAfter {
        return Err(SOURCE_CHANGED_DURING_DECODE);
      }
      tracks := tracks + [TrackOf(selected, index)];
    }
    assert tracks == Tracks(selected);
    var document := Document(tracks, rejected);
    var manifest := Manifest(2, SAMPLE_RATE, "f32le", Sha256(document), true, true, |tracks|, clips);
    WrittenIsAccepted(selected, manifest, document, seeds);
    return Ok((manifest, document));
  }

  /** The writer and the loader agree. */
  lemma WrittenIsAccepted(selected: seq<Candidate>, m: Manifest, d: Document, seeds: Seeds)
    requires |selected| == SAMPLE && CandidatesOk(selected)
    requires |d.tracks| == SAMPLE && forall k :: 0 <= k < SAMPLE ==> d.tracks[k] == TrackOf(selected, k)
    requires |m.clips| == 3 * SAMPLE && forall k :: 0 <= k < |m.clips| ==> Written(selected, k, m.clips[k], seeds)
    requires m == Manifest(2, SAMPLE_RATE, "f32le", Sha256(d), true, true, SAMPLE, m.clips)
    ensures ManifestOk(m, d, seeds)
  {
    WrittenTracks(selected, m, d, seeds);
    WrittenKeys(selected, m.clips, seeds);
    hide MetadataOk, TracksOk, Unrepeated, CandidatesOk, TrackName;
    forall k | 0 <= k < |m.clips| ensures ClipOk(2, d.tracks, m.clips[k], seeds) {
      assert Written(selected, k, m.clips[k], seeds);
      assert d.tracks[k / 3] == TrackOf(selected, k / 3);
    }
    FilesFollowKeys(m, d, seeds);
  }

  lemma WrittenTracks(selected: seq<Candidate>, m: Manifest, d: Document, seeds: Seeds)
    requires |selected| == SAMPLE && CandidatesOk(selected)
    requires |d.tracks| == SAMPLE && forall k :: 0 <= k < SAMPLE ==> d.tracks[k] == TrackOf(selected, k)
    requires |m.clips| == 3 * SAMPLE && forall k :: 0 <= k < |m.clips| ==> Written(selected, k, m.clips[k], seeds)
    ensures TracksOk(d.tracks)
  {
    hide TrackName, IsSha256, IsTrackId, MetadataOk;
    forall i, j | 0 <= i < j < SAMPLE
      ensures d.tracks[i].id != d.tracks[j].id && d.tracks[i].sha256 != d.tracks[j].sha256
    {
      TrackNames(i, j);
    }
    forall i | 0 <= i < SAMPLE ensures TrackOk(d.tracks[i]) {
      TrackNames(i, i);
      assert Written(selected, 3 * i, m.clips[3 * i], seeds);
    }
  }

  lemma WrittenKeys(selected: seq<Candidate>, clips: seq<Clip>, seeds: Seeds)
    requires |selected| == SAMPLE
    requires |clips| == 3 * SAMPLE && forall k :: 0 <= k < |clips| ==> Written(selected, k, clips[k], seeds)
    ensures Unrepeated(Keys(clips))
  {
    hide TrackName, MetadataOk, IsSha256;
    forall j, k | 0 <= j < k < |clips| ensures Keys(clips)[j] != Keys(clips)[k] {
      assert Written(selected, j, clips[j], seeds) && Written(selected, k, clips[k], seeds);
      TrackNames(j / 3, k / 3);
    }
  }

  /** The whole program. It succeeds exactly on an inventory of an acceptable size, with safe paths, from which
      the probe leaves 24 different sources, when every source of the sample is good; then its tracks are the
      sample in order, and the loader accepts what it has written. */
  method PrepareAudio(inventory: seq<Item>, seeds: Seeds, sources: string -> Source)
    returns (result: Result<(Manifest, Document), SampleError>)
    requires forall sha, k :: IsSha256(sources(sha).pcmSha256(k))
    ensures result.Ok? <==>
      && CountOk(inventory) && PathsSafe(inventory) && |Candidates(inventory)| >= SAMPLE
      && forall selected :: Sampled(Candidates(inventory), selected) ==> AllGood(selected, sources)
    ensures result.Ok? ==> exists selected :: (Sampled(Candidates(inventory), selected)
      && |selected| == SAMPLE && result.value.1 == Document(Tracks(selected), Rejected(inventory)))
    ensures result.Ok? ==> ManifestOk(result.value.0, result.value.1, seeds)
  {
    hide Sampled, AllGood, IsSha256, ManifestOk, PathsSafe, CandidatesOk;
    var probed := Probe(inventory);
    if probed.Err? {
      return Err(probed.error);
    }
    var (candidates, rejected) := probed.value;
    CandidatesAreFirst(inventory);
    var sample := SelectSample(candidates);
    if sample.Err? {
      return Err(sample.error);
    }
    SampleOk(candidates, sample.value);
    forall selected | Sampled(candidates, selected) ensures selected == sample.value {
      SampleUnique(candidates, selected, sample.value);
    }
    result := WriteSample(sample.value, rejected, seeds, sources);
  }

  /** The sample consists of different sources of the inventory. */
  lemma SampleOk(candidates: seq<Candidate>, selected: seq<Candidate>)
    requires CandidatesOk(candidates) && Sampled(candidates, selected)
    ensures CandidatesOk(selected) && |selected| == SAMPLE
    ensures forall c :: c in selected ==> c in candidates
  {
    hide IsSample, Sort;
    var sorted := Sort(candidates, ByDuration());
    SortedCandidates(candidates);
    SampleUnrepeated(sorted, selected);
    forall k | 0 <= k < |selected| ensures selected[k] in sorted {
      ChoiceAt(sorted, selected, k);
    }
    forall i, j | 0 <= i < j < |selected| ensures selected[i].sha256 != selected[j].sha256 {
      var p :| 0 <= p < |sorted| && sorted[p] == selected[i];
      var q :| 0 <= q < |sorted| && sorted[q] == selected[j];
      assert p < q || q < p;
    }
    forall c | c in selected ensures c in candidates {
      assert c in multiset(sorted);
    }
  }
}
