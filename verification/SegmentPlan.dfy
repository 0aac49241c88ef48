/**
 The segment plan of the audio preprocessor (gpu/src/autplay_gpu/preprocessing.py): starts spread
 evenly over the source and rounded half to even, and the loop that decodes one segment a start.
 Quotients are exact here.
 */
module SegmentPlan {
  import opened Outcomes
  import opened Rounding

  const MAX_SEGMENT_BYTES: nat := 16 * 1024 * 1024

  type Positive = x: int | x > 0 witness 1

  function CeilDiv(n: nat, d: Positive): (q: nat)
    ensures (q - 1) * d < n <= q * d || (n == 0 && q == 0)
  {
    if n == 0 then 0 else (n - 1) / d + 1
  }

  function Min(a: int, b: int): int {
    if a < b then a else b
  }

  function Max(a: int, b: int): int {
    if a < b then b else a
  }

  function Count(duration: Positive, segment: Positive, maximum: Positive): (count: nat)
    ensures 1 <= count <= maximum
  {
    Min(maximum, Max(1, CeilDiv(duration, segment)))
  }

  function LastStart(duration: Positive, segment: Positive): nat {
    Max(0, duration - segment)
  }

  function SegmentStarts(duration: Positive, segment: Positive, maximum: Positive): (starts: seq<nat>)
    ensures |starts| == Count(duration, segment, maximum)
  {
    var count, last := Count(duration, segment, maximum), LastStart(duration, segment);
    if count == 1 then [0]
    else seq(count, i requires 0 <= i < count => Rounded(i * last, count - 1))
  }

  // ---------------------------------------------------------------- rounding

  /** `round` of the quotient n / d. */
  function Rounded(n: nat, d: Positive): nat {
    assert n as real / d as real >= 0.0;
    RoundHalfEven(n as real / d as real)
  }

  lemma MulGap(x: int, y: int, k: int, d: nat)
    requires x - y >= k
    ensures x * d - y * d >= k * d
  {
    assert (x - y - k) * d >= 0;
    assert (x - y - k) * d == x * d - y * d - k * d;
  }

  /** The rounded value is at most a half away, and on a tie it is even. */
  lemma RoundedNear(n: nat, d: Positive)
    ensures var error := 2 * (n - Rounded(n, d) * d);
      && 0 - d <= error <= d
      && ((error == d || error == 0 - d) ==> Rounded(n, d) % 2 == 0)
  {
    Nearest(n as real / d as real);
    hide RoundHalfEven;
    Off(n, d, Rounded(n, d), 1);
    Off(n, d, Rounded(n, d), -1);
  }

  /** How twice the distance of a quotient from an integer compares with k, in whole numbers. */
  lemma Off(n: nat, d: Positive, m: nat, k: int)
    ensures var twice := 2.0 * (n as real / d as real - m as real);
      && (twice > k as real <==> 2 * (n - m * d) > k * d)
      && (twice == k as real <==> 2 * (n - m * d) == k * d)
  {
    var r := d as real;
    Sign(2.0 * (n as real / r - m as real) - k as real, r);
    assert (n as real / r) * r == n as real;
    assert m as real * r == (m * d) as real && k as real * r == (k * d) as real;
  }

  lemma Sign(a: real, r: real)
    requires r > 0.0
    ensures (a > 0.0 <==> a * r > 0.0) && (a == 0.0 <==> a * r == 0.0)
  {
  }

  /** And that determines it. */
  lemma RoundedIs(n: nat, d: Positive, m: nat)
    requires 0 - d < 2 * (n - m * d) < d
    ensures Rounded(n, d) == m
  {
    RoundedNear(n, d);
    hide Rounded;
    var k := Rounded(n, d);
    if k > m {
      MulGap(k, m, 1, d);
    } else if k < m {
      MulGap(m, k, 1, d);
    }
  }

  /** An exact quotient is not changed. */
  lemma RoundedExact(m: nat, d: Positive)
    ensures m * d >= 0 && Rounded(m * d, d) == m
  {
    RoundedIs(m * d, d, m);
  }

  /** Numbers more than one apart round to different integers, in order. */
  lemma RoundsApart(a: nat, b: nat, d: Positive)
    requires b > a + d
    ensures Rounded(a, d) < Rounded(b, d)
  {
    RoundedNear(a, d);
    RoundedNear(b, d);
    hide Rounded;
    var x, y := Rounded(a, d), Rounded(b, d);
    if y <= x {
      MulGap(x, y, 0, d);
    }
  }

  /** Numbers less than `s` apart round to integers at most `s` apart. */
  lemma RoundsTogether(a: nat, b: nat, d: Positive, s: nat)
    requires a <= b < a + s * d
    ensures Rounded(b, d) <= Rounded(a, d) + s
  {
    RoundedNear(a, d);
    RoundedNear(b, d);
    hide Rounded;
    var x, y := Rounded(a, d), Rounded(b, d);
    assert (s + 1) * d == s * d + d;
    if y > x + s {
      MulGap(y, x, s + 1, d);
    }
  }

  /** A spacing of exactly `s` rounds to multiples of `s`. */
  lemma ExactSpacing(i: nat, d: Positive, s: nat)
    ensures i * (s * d) >= 0 && Rounded(i * (s * d), d) == i * s
  {
    assert i * (s * d) == (i * s) * d;
    RoundedExact(i * s, d);
  }

  /** A spacing of last / d that is at least one keeps the rounded starts apart, and one that is at
      most `s` keeps them within `s`: on a tie the spacing is below `s`, not equal to it. */
  lemma RoundedSpacing(i: nat, last: nat, d: Positive, s: nat)
    requires d <= last
    ensures i * last >= 0 && (i + 1) * last >= 0
    ensures Rounded(i * last, d) < Rounded((i + 1) * last, d)
    ensures last <= s * d ==> Rounded((i + 1) * last, d) <= Rounded(i * last, d) + s
  {
    hide Rounded;
    var a, b := i * last, (i + 1) * last;
    assert b == a + last;
    if last == d {
      ExactSpacing(i, d, 1);
      ExactSpacing(i + 1, d, 1);
      assert last <= s * d ==> s >= 1;
    } else {
      RoundsApart(a, b, d);
      if last == s * d {
        ExactSpacing(i, d, s);
        ExactSpacing(i + 1, d, s);
        assert (i + 1) * s == i * s + s;
      } else if last < s * d {
        RoundsTogether(a, b, d, s);
      }
    }
  }

  // ---------------------------------------------------------------- the plan

  lemma AtLeast(k: nat, m: Positive)
    ensures k * m >= k && (k >= 1 ==> k * m >= m)
  {
  }

  lemma SpacingOf(q: nat, duration: Positive, segment: Positive)
    requires q > 1 && (q - 1) * segment < duration <= q * segment
    ensures q - 1 <= duration - segment <= (q - 1) * segment
  {
    AtLeast(q - 2, segment);
    assert (q - 1) * segment == (q - 2) * segment + segment;
    assert q * segment == (q - 1) * segment + segment;
  }

  /** With more than one segment, the spacing is at least one; it is at most `segment` if the count is
      not capped. */
  lemma Spacing(duration: Positive, segment: Positive, maximum: Positive)
    requires Count(duration, segment, maximum) > 1
    ensures duration > segment
    ensures Count(duration, segment, maximum) - 1 <= LastStart(duration, segment)
    ensures CeilDiv(duration, segment) <= maximum ==>
      LastStart(duration, segment) <= segment * (Count(duration, segment, maximum) - 1)
  {
    var q := CeilDiv(duration, segment);
    assert (q - 1) * segment < duration <= q * segment;
    hide CeilDiv;
    SpacingOf(q, duration, segment);
  }

  lemma StartAt(duration: Positive, segment: Positive, maximum: Positive, i: nat)
    requires i < Count(duration, segment, maximum) && Count(duration, segment, maximum) > 1
    ensures SegmentStarts(duration, segment, maximum)[i]
      == Rounded(i * LastStart(duration, segment), Count(duration, segment, maximum) - 1)
  {
  }

  /** The plan begins at 0 and, with more than one segment, ends at the last possible start. */
  lemma StartsAtEnds(duration: Positive, segment: Positive, maximum: Positive)
    ensures var starts := SegmentStarts(duration, segment, maximum);
      && starts[0] == 0
      && (|starts| > 1 ==> starts[|starts| - 1] == LastStart(duration, segment))
  {
    var count, last := Count(duration, segment, maximum), LastStart(duration, segment);
    if count > 1 {
      RoundedExact(0, count - 1);
      RoundedExact(last, count - 1);
      StartAt(duration, segment, maximum, 0);
      StartAt(duration, segment, maximum, count - 1);
      assert (count - 1) * last == last * (count - 1);
    }
  }

  lemma NextStart(duration: Positive, segment: Positive, maximum: Positive, i: nat)
    requires i + 1 < Count(duration, segment, maximum)
    ensures var starts := SegmentStarts(duration, segment, maximum);
      && starts[i] < starts[i + 1]
      && (CeilDiv(duration, segment) <= maximum ==> starts[i + 1] <= starts[i] + segment)
  {
    hide Rounded, CeilDiv, SegmentStarts;
    Spacing(duration, segment, maximum);
    StartAt(duration, segment, maximum, i);
    StartAt(duration, segment, maximum, i + 1);
    RoundedSpacing(i, LastStart(duration, segment), Count(duration, segment, maximum) - 1, segment);
  }

  /** The starts increase strictly. */
  lemma {:induction false} Increasing(duration: Positive, segment: Positive, maximum: Positive, i: nat, j: nat)
    requires i < j < Count(duration, segment, maximum)
    ensures SegmentStarts(duration, segment, maximum)[i] < SegmentStarts(duration, segment, maximum)[j]
    decreases j
  {
    NextStart(duration, segment, maximum, j - 1);
    if i < j - 1 {
      Increasing(duration, segment, maximum, i, j - 1);
    }
  }

  /** What `decode` asks for from one start. */
  function Length(duration: Positive, segment: Positive, start: nat): int {
    Min(segment, duration - start)
  }

  /** Every segment lies inside the source and has the full length, or that of a shorter source. */
  lemma EveryLength(duration: Positive, segment: Positive, maximum: Positive, i: nat)
    requires i < Count(duration, segment, maximum)
    ensures var start := SegmentStarts(duration, segment, maximum)[i];
      && start <= LastStart(duration, segment)
      && Length(duration, segment, start) == Min(segment, duration)
  {
    var count := Count(duration, segment, maximum);
    StartsAtEnds(duration, segment, maximum);
    if 0 < i < count - 1 {
      Increasing(duration, segment, maximum, i, count - 1);
    }
  }

  predicate Covered(duration: Positive, segment: Positive, starts: seq<nat>, t: nat) {
    exists i :: 0 <= i < |starts| && starts[i] <= t < starts[i] + Length(duration, segment, starts[i])
  }

  /** The segment that covers a moment is the last one that starts before it. */
  lemma {:induction false} CoveredBefore(duration: Positive, segment: Positive, maximum: Positive, t: nat, n: nat)
    requires CeilDiv(duration, segment) <= maximum
    requires n < Count(duration, segment, maximum)
    requires t < SegmentStarts(duration, segment, maximum)[n] + Min(segment, duration)
    ensures Covered(duration, segment, SegmentStarts(duration, segment, maximum), t)
    decreases n
  {
    var starts := SegmentStarts(duration, segment, maximum);
    EveryLength(duration, segment, maximum, n);
    StartsAtEnds(duration, segment, maximum);
    if t < starts[n] {
      NextStart(duration, segment, maximum, n - 1);
      Spacing(duration, segment, maximum);
      CoveredBefore(duration, segment, maximum, t, n - 1);
    } else {
      assert starts[n] <= t < starts[n] + Length(duration, segment, starts[n]);
    }
  }

  /** Some gap is wider than a segment when there are too few of them. */
  lemma {:induction false} WideGap(starts: seq<nat>, segment: Positive, n: nat) returns (i: nat)
    requires n < |starts| && starts[n] > starts[0] + n * segment
    ensures i < n && starts[i + 1] > starts[i] + segment
  {
    if starts[n] > starts[n - 1] + segment {
      i := n - 1;
    } else {
      assert n * segment == (n - 1) * segment + segment;
      i := WideGap(starts, segment, n - 1);
    }
  }

  lemma Uncovered(duration: Positive, segment: Positive, maximum: Positive) returns (t: nat)
    requires CeilDiv(duration, segment) > maximum
    ensures t < duration && !Covered(duration, segment, SegmentStarts(duration, segment, maximum), t)
  {
    var starts := SegmentStarts(duration, segment, maximum);
    var q := CeilDiv(duration, segment);
    assert |starts| == maximum;
    assert (q - 1) * segment < duration;
    MulGap(q - 1, maximum, 0, segment);
    hide CeilDiv, SegmentStarts;
    if maximum == 1 {
      t := segment;
    } else {
      StartsAtEnds(duration, segment, maximum);
      assert maximum * segment == (maximum - 1) * segment + segment;
      var i := WideGap(starts, segment, maximum - 1);
      t := starts[i] + segment;
      forall j | 0 <= j < |starts|
        ensures !(starts[j] <= t < starts[j] + Length(duration, segment, starts[j]))
      {
        if j < i {
          Increasing(duration, segment, maximum, j, i);
        } else if j > i + 1 {
          Increasing(duration, segment, maximum, i + 1, j);
        }
      }
      EveryLength(duration, segment, maximum, i + 1);
    }
  }

  /** The segments cover the whole source exactly when the cap allows enough of them. */
  lemma CoverageIff(duration: Positive, segment: Positive, maximum: Positive)
    ensures (forall t: nat :: t < duration ==>
              Covered(duration, segment, SegmentStarts(duration, segment, maximum), t))
      <==> CeilDiv(duration, segment) <= maximum
  {
    if CeilDiv(duration, segment) <= maximum {
      var n := Count(duration, segment, maximum) - 1;
      StartsAtEnds(duration, segment, maximum);
      if n == 0 {
        assert duration <= 1 * segment;
      } else {
        Spacing(duration, segment, maximum);
      }
      forall t: nat | t < duration
        ensures Covered(duration, segment, SegmentStarts(duration, segment, maximum), t)
      {
        CoveredBefore(duration, segment, maximum, t, n);
      }
    } else {
      var t := Uncovered(duration, segment, maximum);
    }
  }

  // ---------------------------------------------------------------- decoding

  datatype Segment = Segment(index: nat, start: nat, pcm: nat)

  datatype DecodeError = TOO_LARGE | INVALID_PCM

  function ExpectedBytes(length: int, rate: Positive): nat
    requires length >= 0
  {
    assert length * rate >= 0;
    CeilDiv(length * rate, 1000) * 4
  }

  lemma SomeBytes(length: Positive, rate: Positive)
    ensures length * rate > 0 && ExpectedBytes(length, rate) >= 4
  {
  }

  /** `pcm(k)` is the number of bytes that FFmpeg returns for the k-th start. */
  method Decode(duration: Positive, segment: Positive, maximum: Positive, rate: Positive, pcm: nat -> nat)
    returns (result: Result<seq<Segment>, DecodeError>)
    ensures var expected := ExpectedBytes(Min(segment, duration), rate);
      && (expected > MAX_SEGMENT_BYTES ==> result == Err(TOO_LARGE))
      && (expected <= MAX_SEGMENT_BYTES ==>
           (result.Ok? <==> forall k :: 0 <= k < Count(duration, segment, maximum) ==>
                              0 < pcm(k) <= expected && pcm(k) % 4 == 0))
    ensures var starts := SegmentStarts(duration, segment, maximum);
      result.Ok? ==>
        && |result.value| == |starts|
        && forall k :: 0 <= k < |starts| ==> result.value[k] == Segment(k, starts[k], pcm(k))
  {
    hide SegmentStarts, CeilDiv, ExpectedBytes;
    var starts := SegmentStarts(duration, segment, maximum);
    var segments: seq<Segment> := [];
    for k := 0 to |starts|
      invariant |segments| == k
      invariant forall j :: 0 <= j < k ==> segments[j] == Segment(j, starts[j], pcm(j))
      invariant forall j :: 0 <= j < k ==>
        0 < pcm(j) <= ExpectedBytes(Min(segment, duration), rate) <= MAX_SEGMENT_BYTES && pcm(j) % 4 == 0
    {
      EveryLength(duration, segment, maximum, k);
      SomeBytes(Min(segment, duration), rate);
      var length := Min(segment, duration - starts[k]);
      var expected := ExpectedBytes(length, rate);
      if expected < 4 || expected > MAX_SEGMENT_BYTES {
        return Err(TOO_LARGE);
      }
      if pcm(k) == 0 || pcm(k) % 4 != 0 || pcm(k) > expected {
        return Err(INVALID_PCM);
      }
      segments := segments + [Segment(k, starts[k], pcm(k))];
    }
    assert 0 < pcm(0);
    return Ok(segments);
  }
}
