/** The clip plan of one source recording (tools/face-experiment/audio_inputs.py). */
module ClipPlan {
  import opened Outcomes

  const MIN_DURATION: int := 24000
  const MAX_DURATION: int := 3600000
  const TAIL: int := 1000
  const SEEDS: nat := 0x1_0000_0000_0000_0000

  /** From this duration on the three clips never overlap, whatever the source's digest. */
  const DISJOINT_FROM: int := 80998

  datatype Slot = Slot(start: int, length: int)

  datatype PlanError = SOURCE_IDENTITY_INVALID | SOURCE_DURATION_INVALID

  predicate HexDigit(c: char) {
    '0' <= c <= '9' || 'a' <= c <= 'f'
  }

  predicate IsSha256(text: string) {
    |text| == 64 && forall i :: 0 <= i < 64 ==> HexDigit(text[i])
  }

  function ClipLength(index: nat): int
    requires index < 3
  {
    if index == 0 then 10000 else if index == 1 then 12000 else 14000
  }

  function LastStart(duration: int, index: nat): int
    requires index < 3
  {
    duration - ClipLength(index) - TAIL
  }

  function Lower(duration: int, index: nat): int
    requires index < 3
  {
    LastStart(duration, index) * (2 * index) / 5
  }

  function Upper(duration: int, index: nat): int
    requires index < 3
  {
    LastStart(duration, index) * (2 * index + 1) / 5
  }

  predicate DurationOk(duration: int) {
    MIN_DURATION <= duration <= MAX_DURATION
  }

  lemma Bounds(duration: int, index: nat)
    requires DurationOk(duration) && index < 3
    ensures 0 <= Lower(duration, index) <= Upper(duration, index) <= LastStart(duration, index)
  {
  }

  /** `seed` is the number in the first eight bytes of the digest for this clip. */
  function StartOf(duration: int, index: nat, seed: nat): (start: int)
    requires DurationOk(duration) && index < 3
    ensures Lower(duration, index) <= start <= Upper(duration, index)
  {
    Bounds(duration, index);
    Lower(duration, index) + seed % (Upper(duration, index) - Lower(duration, index) + 1)
  }

  function SlotOf(duration: int, index: nat, seed: nat): Slot
    requires DurationOk(duration) && index < 3
  {
    Slot(StartOf(duration, index, seed), ClipLength(index))
  }

  type Seeds = string -> nat -> nat

  /** The plan of a source: one clip in the first, third and fifth fifth of the possible starts. */
  method PlanClips(sha256: string, duration: int, seeds: Seeds) returns (result: Result<seq<Slot>, PlanError>)
    ensures result.Ok? <==> IsSha256(sha256) && DurationOk(duration)
    ensures result.Ok? ==>
      && |result.value| == 3
      && forall i :: 0 <= i < 3 ==> result.value[i] == SlotOf(duration, i, seeds(sha256)(i))
  {
    if !IsSha256(sha256) {
      return Err(SOURCE_IDENTITY_INVALID);
    }
    if !DurationOk(duration) {
      return Err(SOURCE_DURATION_INVALID);
    }
    var plan: seq<Slot> := [];
    for index := 0 to 3
      invariant |plan| == index
      invariant forall i :: 0 <= i < index ==> plan[i] == SlotOf(duration, i, seeds(sha256)(i))
    {
      Bounds(duration, index);
      var last := LastStart(duration, index);
      var lower, upper := last * (2 * index) / 5, last * (2 * index + 1) / 5;
      var offset := seeds(sha256)(index) % (upper - lower + 1);
      plan := plan + [Slot(lower + offset, ClipLength(index))];
    }
    return Ok(plan);
  }

  // ---------------------------------------------------------------- what every plan satisfies

  predicate Apart(a: Slot, b: Slot) {
    a.start + a.length <= b.start || b.start + b.length <= a.start
  }

  /** Every clip starts inside the source and ends at least a second before its end. */
  lemma InsideSource(duration: int, index: nat, seed: nat)
    requires DurationOk(duration) && index < 3
    ensures var slot := SlotOf(duration, index, seed);
      0 <= slot.start && slot.start + slot.length + TAIL <= duration
  {
    Bounds(duration, index);
  }

  /** Consecutive starts are at least 600 ms apart. */
  lemma Separated(duration: int, index: nat, seed: nat, next: nat)
    requires DurationOk(duration) && index < 2
    ensures StartOf(duration, index, seed) + 600 <= StartOf(duration, index + 1, next)
  {
    assert Upper(duration, index) + 600 <= Lower(duration, index + 1);
  }

  /** The bound of 600 ms is attained. */
  lemma SeparationIsTight()
    ensures exists seed: nat, next: nat ::
      StartOf(MIN_DURATION, 1, seed) + 600 == StartOf(MIN_DURATION, 2, next)
  {
    AnyStart(MIN_DURATION, 1, 6600);
    AnyStart(MIN_DURATION, 2, 7200);
    var seed: nat :| StartOf(MIN_DURATION, 1, seed) == 6600;
    var next: nat :| StartOf(MIN_DURATION, 2, next) == 7200;
    assert StartOf(MIN_DURATION, 1, seed) + 600 == StartOf(MIN_DURATION, 2, next);
  }

  lemma SmallModulo(a: nat, m: nat)
    requires a < m
    ensures a % m == a
  {
  }

  /** Every start of the range is taken by some seed. */
  lemma AnyStart(duration: int, index: nat, start: int)
    requires DurationOk(duration) && index < 3
    requires Lower(duration, index) <= start <= Upper(duration, index)
    ensures exists seed: nat :: seed < SEEDS && StartOf(duration, index, seed) == start
  {
    Bounds(duration, index);
    assert Upper(duration, index) <= MAX_DURATION;
    hide Lower, Upper, LastStart;
    var seed: nat := start - Lower(duration, index);
    SmallModulo(seed, Upper(duration, index) - Lower(duration, index) + 1);
    assert StartOf(duration, index, seed) == start;
  }

  predicate Disjoint(duration: int, a: nat, b: nat, c: nat)
    requires DurationOk(duration)
  {
    && Apart(SlotOf(duration, 0, a), SlotOf(duration, 1, b))
    && Apart(SlotOf(duration, 1, b), SlotOf(duration, 2, c))
    && Apart(SlotOf(duration, 0, a), SlotOf(duration, 2, c))
  }

  /** The seeds are 64-bit numbers. */
  predicate AlwaysDisjoint(duration: int)
    requires DurationOk(duration)
  {
    forall a: nat, b: nat, c: nat ::
      a < SEEDS && b < SEEDS && c < SEEDS ==> Disjoint(duration, a, b, c)
  }

  lemma Gaps(duration: int)
    requires DurationOk(duration)
    ensures duration >= DISJOINT_FROM <==> Upper(duration, 1) + ClipLength(1) <= Lower(duration, 2)
    ensures duration >= DISJOINT_FROM ==> Upper(duration, 0) + ClipLength(0) <= Lower(duration, 1)
  {
  }

  /** The clips are pairwise disjoint for every three seeds exactly from 80 998 ms on. */
  lemma DisjointIff(duration: int)
    requires DurationOk(duration)
    ensures AlwaysDisjoint(duration) <==> duration >= DISJOINT_FROM
  {
    Gaps(duration);
    hide StartOf, Lower, Upper;
    if duration >= DISJOINT_FROM {
      forall a: nat, b: nat, c: nat
        ensures Disjoint(duration, a, b, c)
      {
        var first, second, third := StartOf(duration, 0, a), StartOf(duration, 1, b), StartOf(duration, 2, c);
        assert first + 10000 <= second && second + 12000 <= third;
      }
    } else {
      AnyStart(duration, 1, Upper(duration, 1)) by {
        Bounds(duration, 1);
      }
      AnyStart(duration, 2, Lower(duration, 2)) by {
        Bounds(duration, 2);
      }
      var b: nat :| b < SEEDS && StartOf(duration, 1, b) == Upper(duration, 1);
      var c: nat :| c < SEEDS && StartOf(duration, 2, c) == Lower(duration, 2);
      Separated(duration, 1, b, c);
      assert !Disjoint(duration, 0, b, c);
    }
  }
}
