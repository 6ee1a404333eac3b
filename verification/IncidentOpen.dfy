/** Incident-open discovery: candidate reference blocks on a sampling grid, sliding window sums,
    and the choice of the last price drop's rising edge. */
module IncidentOpen {
  import opened Wrappers
  import opened FloorMath
  import opened U64

  const MAX_SAMPLES: nat := 256
  const MAX_POINTS: nat := 256
  const BPS: nat := 10_000

  datatype Discovery = Discovery(
    latestBlock: nat, finalizedBlock: nat, maxAge: nat, twapBlocks: nat, step: nat, minimumDropBps: nat)

  datatype Selection = Selection(referenceBlock: nat, baselineSum: nat, distressSum: nat, sampleCount: nat)

  datatype Outcome =
    | Selected(selection: Selection)
    | NoFinalizedCandidateWindow | InvalidPriceConfig | DiscoveryTooLarge(points: nat) | InsufficientPriceDrop

  /** The configuration checks, made before discovery. */
  predicate ValidPriceConfig(d: Discovery) {
    && d.twapBlocks > 0 && d.step > 0 && d.step <= d.twapBlocks && d.twapBlocks % d.step == 0
    && 2 <= d.twapBlocks / d.step <= MAX_SAMPLES
    && 0 < d.minimumDropBps < BPS && d.twapBlocks < d.maxAge
  }

  predicate WithinU64(d: Discovery) {
    d.finalizedBlock <= d.latestBlock <= U64_MAX && d.maxAge <= U64_MAX
  }

  // ---- The candidate grid ----

  function CeilDiv(a: nat, b: nat): nat
    requires b > 0
  {
    if a % b == 0 then a / b else a / b + 1
  }

  function Samples(d: Discovery): nat
    requires ValidPriceConfig(d)
  {
    d.twapBlocks / d.step
  }

  function Earliest(d: Discovery): nat {
    Max(Max(SatSub(d.latestBlock, d.maxAge), d.twapBlocks), 1)
  }

  /** The grid indices of the first and the last candidate. */
  function FirstIndex(d: Discovery): nat
    requires ValidPriceConfig(d)
  {
    CeilDiv(Earliest(d), d.step)
  }

  function LastIndex(d: Discovery): nat
    requires ValidPriceConfig(d) && d.twapBlocks <= d.finalizedBlock
  {
    (d.finalizedBlock - d.twapBlocks) / d.step
  }

  function At(index: nat, step: nat): nat {
    index * step
  }

  lemma GridIs(d: Discovery)
    requires ValidPriceConfig(d)
    ensures At(Samples(d), d.step) == d.twapBlocks
    ensures Earliest(d) <= At(FirstIndex(d), d.step) < Earliest(d) + d.step
    ensures Samples(d) <= FirstIndex(d)
    ensures d.twapBlocks <= d.finalizedBlock ==>
              d.finalizedBlock - d.twapBlocks - d.step < At(LastIndex(d), d.step) <= d.finalizedBlock - d.twapBlocks
  {
    DivisionIs(d.twapBlocks, d.step);
    DivisionIs(Earliest(d), d.step);
    AtAdds(Earliest(d) / d.step, 1, d.step);
    AtOrder(Samples(d), FirstIndex(d), d.step);
    if d.twapBlocks <= d.finalizedBlock {
      DivisionIs(d.finalizedBlock - d.twapBlocks, d.step);
    }
  }

  lemma DivisionIs(a: nat, b: nat)
    requires b > 0
    ensures At(a / b, b) + a % b == a && a % b < b
  {
  }

  lemma AtAdds(i: nat, j: nat, step: nat)
    ensures At(i + j, step) == At(i, step) + At(j, step) && At(1, step) == step
  {
  }

  lemma AtOrder(i: nat, j: nat, step: nat)
    requires step > 0
    ensures At(i, step) <= At(j, step) <==> i <= j
    ensures At(i, step) < At(j, step) <==> i < j
  {
    if i < j {
      Scale(i + 1, j, step);
    } else {
      Scale(j, i, step);
    }
  }

  lemma AtDivides(i: nat, j: nat, step: nat)
    requires step > 0 && i <= j
    ensures At(j, step) >= At(i, step) && (At(j, step) - At(i, step)) / step == j - i
    ensures At(i, step) % step == 0
  {
    AtAdds(i, j - i, step);
    ExactQuotient(j - i, step);
    ExactQuotient(i, step);
  }

  lemma ExactQuotient(i: nat, step: nat)
    requires step > 0
    ensures At(i, step) / step == i && At(i, step) % step == 0
  {
    var q := At(i, step) / step;
    DivisionIs(At(i, step), step);
    AtAdds(q, 1, step);
    AtAdds(i, 1, step);
    hide At;
    if q < i {
      AtOrder(q + 1, i, step);
    } else if q > i {
      AtOrder(i + 1, q, step);
    }
  }

  // ---- The specification ----

  /** `count` prices, `step` blocks apart. */
  function PricesFrom(price: nat -> nat, start: nat, step: nat, count: nat): (s: seq<nat>)
    ensures |s| == count
  {
    if count == 0 then [] else PricesFrom(price, start, step, count - 1) + [price(start + At(count - 1, step))]
  }

  /** The samples before and after a reference block; the reference itself is in neither. */
  function Baseline(price: nat -> nat, d: Discovery, reference: nat): nat
    requires ValidPriceConfig(d) && d.twapBlocks <= reference
  {
    SumOf(PricesFrom(price, reference - d.twapBlocks, d.step, Samples(d)))
  }

  function Distress(price: nat -> nat, d: Discovery, reference: nat): nat
    requires ValidPriceConfig(d)
  {
    SumOf(PricesFrom(price, reference + d.step, d.step, Samples(d)))
  }

  predicate Drops(baseline: nat, distress: nat, minimumDropBps: nat)
    requires minimumDropBps <= BPS
  {
    distress * BPS < baseline * (BPS - minimumDropBps)
  }

  predicate Qualifies(price: nat -> nat, d: Discovery, reference: nat)
    requires ValidPriceConfig(d) && d.twapBlocks <= reference
  {
    Drops(Baseline(price, d, reference), Distress(price, d, reference), d.minimumDropBps)
  }

  lemma {:induction false} PriceAt(price: nat -> nat, start: nat, step: nat, count: nat, k: nat)
    requires k < count
    ensures PricesFrom(price, start, step, count)[k] == price(start + At(k, step))
  {
    if k < count - 1 {
      PriceAt(price, start, step, count - 1, k);
    }
  }

  /** A stretch of a sampled list is the list sampled from there. */
  lemma PricesWithin(price: nat -> nat, start: nat, step: nat, count: nat, i: nat, n: nat)
    requires i + n <= count
    ensures PricesFrom(price, start, step, count)[i..i + n] == PricesFrom(price, start + At(i, step), step, n)
  {
    var whole, part := PricesFrom(price, start, step, count), PricesFrom(price, start + At(i, step), step, n);
    forall k | 0 <= k < n ensures whole[i..i + n][k] == part[k] {
      PriceAt(price, start, step, count, i + k);
      PriceAt(price, start + At(i, step), step, n, k);
      AtAdds(i, k, step);
    }
  }

  // ---- Choosing the reference ----

  /** The window sums of candidate `i` in the list of ratios. */
  function BaselineOf(ratios: seq<nat>, i: nat, n: nat): nat
    requires i + n <= |ratios|
  {
    SumOf(ratios[i..i + n])
  }

  function DistressOf(ratios: seq<nat>, i: nat, n: nat): nat
    requires i + 2 * n < |ratios|
  {
    SumOf(ratios[i + n + 1..i + 2 * n + 1])
  }

  predicate QualifiesAt(ratios: seq<nat>, i: nat, n: nat, minimumDropBps: nat)
    requires i + 2 * n < |ratios| && minimumDropBps <= BPS
  {
    Drops(BaselineOf(ratios, i, n), DistressOf(ratios, i, n), minimumDropBps)
  }

  /** `i` starts the last run of qualifying candidates among the first `count`. */
  predicate LastRunStarts(ratios: seq<nat>, i: nat, count: nat, n: nat, minimumDropBps: nat)
    requires count + 2 * n <= |ratios| && minimumDropBps <= BPS
  {
    && i < count && QualifiesAt(ratios, i, n, minimumDropBps)
    && (i > 0 ==> !QualifiesAt(ratios, i - 1, n, minimumDropBps))
    && forall j :: i < j < count && QualifiesAt(ratios, j, n, minimumDropBps) ==>
      QualifiesAt(ratios, j - 1, n, minimumDropBps)
  }

  lemma SumSlides(s: seq<nat>, i: nat, n: nat)
    requires i + n < |s|
    ensures SumOf(s[i..i + n]) + s[i + n] == SumOf(s[i + 1..i + n + 1]) + s[i]
    ensures n > 0 ==> s[i] <= SumOf(s[i..i + n])
  {
    var all := s[i..i + n + 1];
    assert all[..n] == s[i..i + n];
    assert all == [s[i]] + s[i + 1..i + n + 1];
    SumAppends([s[i]], s[i + 1..i + n + 1]);
    assert SumOf([s[i]]) == SumOf([]) + s[i];
    if n > 0 {
      SumBounds(s[i..i + n], 0);
    }
  }

  lemma WindowsAre(ratios: seq<nat>, i: nat, n: nat)
    requires i + 2 * n < |ratios|
    ensures BaselineOf(ratios, i, n) == SumOf(ratios[i..i + n])
    ensures DistressOf(ratios, i, n) == SumOf(ratios[i + n + 1..i + 2 * n + 1])
  {
  }

  lemma WindowsSlide(ratios: seq<nat>, i: nat, n: nat)
    requires n > 0 && i + 1 + 2 * n < |ratios|
    ensures ratios[i] <= BaselineOf(ratios, i, n) && ratios[i + n + 1] <= DistressOf(ratios, i, n)
    ensures BaselineOf(ratios, i, n) - ratios[i] + ratios[i + n] == BaselineOf(ratios, i + 1, n)
    ensures DistressOf(ratios, i, n) - ratios[i + n + 1] + ratios[i + 2 * n + 1] == DistressOf(ratios, i + 1, n)
  {
    SumSlides(ratios, i, n);
    SumSlides(ratios, i + n + 1, n);
  }

  /** The loop over candidates: the running sums are the windows' sums, no subtraction falls below
      zero, and the first candidate of the last qualifying run is chosen, if any qualifies. */
  method Choose(ratios: seq<nat>, count: nat, n: nat, minimumDropBps: nat)
    returns (chosen: Option<nat>, baseline: nat, distress: nat)
    requires 0 < count && 0 < n && count + 2 * n == |ratios| && minimumDropBps <= BPS
    ensures chosen.None? <==> forall i :: 0 <= i < count ==> !QualifiesAt(ratios, i, n, minimumDropBps)
    ensures chosen.Some? ==>
              && LastRunStarts(ratios, chosen.value, count, n, minimumDropBps)
              && baseline == BaselineOf(ratios, chosen.value, n) && distress == DistressOf(ratios, chosen.value, n)
  {
    hide SumOf, Drops, BaselineOf, DistressOf;
    WindowsAre(ratios, 0, n);
    var baselineSum, distressSum := SumOf(ratios[..n]), SumOf(ratios[n + 1..2 * n + 1]);
    assert ratios[..n] == ratios[0..n];
    chosen, baseline, distress := None, 0, 0;
    var previousQualified := false;
    var i := 0;
    while i < count
      invariant 0 <= i <= count
      invariant i < count ==> baselineSum == BaselineOf(ratios, i, n) && distressSum == DistressOf(ratios, i, n)
      invariant previousQualified == (i > 0 && QualifiesAt(ratios, i - 1, n, minimumDropBps))
      invariant chosen.None? <==> forall j :: 0 <= j < i ==> !QualifiesAt(ratios, j, n, minimumDropBps)
      invariant chosen.Some? ==>
                  && LastRunStarts(ratios, chosen.value, i, n, minimumDropBps)
                  && baseline == BaselineOf(ratios, chosen.value, n) && distress == DistressOf(ratios, chosen.value, n)
    {
      var qualified := Drops(baselineSum, distressSum, minimumDropBps);
      assert qualified == QualifiesAt(ratios, i, n, minimumDropBps);
      if qualified && !previousQualified {
        chosen, baseline, distress := Some(i), baselineSum, distressSum;
      }
      previousQualified := qualified;
      if i + 1 < count {
        WindowsSlide(ratios, i, n);
        baselineSum := baselineSum - ratios[i];
        baselineSum := baselineSum + ratios[i + n];
        distressSum := distressSum - ratios[i + n + 1];
        distressSum := distressSum + ratios[i + 2 * n + 1];
      }
      i := i + 1;
    }
  }

  // ---- Discovery ----

  /** The sampled blocks: the grid from one window before the first candidate to one after the last. */
  method SamplePoints(firstPoint: nat, lastPoint: nat, step: nat, ghost count: nat) returns (blocks: seq<nat>)
    requires step > 0 && lastPoint == firstPoint + At(count, step) && lastPoint <= U64_MAX
    ensures |blocks| == count + 1 && forall k :: 0 <= k <= count ==> blocks[k] == firstPoint + At(k, step)
  {
    blocks := [];
    var block := firstPoint;
    assert At(0, step) == 0;
    while block <= lastPoint
      invariant |blocks| <= count + 1 && block == firstPoint + At(|blocks|, step)
      invariant forall k :: 0 <= k < |blocks| ==> blocks[k] == firstPoint + At(k, step)
      decreases count + 1 - |blocks|
    {
      AtOrder(|blocks|, count, step);
      AtAdds(|blocks|, 1, step);
      blocks := blocks + [block];
      if block + step > U64_MAX {
        AtOrder(|blocks|, count, step);
        break;
      }
      block := block + step;
    }
    AtOrder(|blocks|, count, step);
  }

  /** One batch of reads. */
  method RatiosAt(price: nat -> nat, blocks: seq<nat>, ghost start: nat, ghost step: nat) returns (ratios: seq<nat>)
    requires forall k :: 0 <= k < |blocks| ==> blocks[k] == start + At(k, step)
    ensures ratios == PricesFrom(price, start, step, |blocks|)
  {
    ratios := [];
    for k := 0 to |blocks|
      invariant ratios == PricesFrom(price, start, step, k)
    {
      ratios := ratios + [price(blocks[k])];
    }
  }

  /** Whether there is a window of candidates at all, and of an acceptable size. */
  function Window(d: Discovery): Option<Outcome>
    requires ValidPriceConfig(d)
  {
    if d.finalizedBlock < d.twapBlocks then Some(NoFinalizedCandidateWindow)
    else if At(FirstIndex(d), d.step) > U64_MAX then Some(InvalidPriceConfig)
    else if FirstIndex(d) > LastIndex(d) || At(FirstIndex(d), d.step) >= d.latestBlock
      then Some(NoFinalizedCandidateWindow)
    else
      var points := LastIndex(d) - FirstIndex(d) + 1 + 2 * Samples(d);
      if points > U64_MAX then Some(InvalidPriceConfig)
      else if points > MAX_POINTS then Some(DiscoveryTooLarge(points))
      else None
  }

  /** Candidate `i` of the window. */
  function Candidate(d: Discovery, i: nat): nat
    requires ValidPriceConfig(d)
  {
    At(FirstIndex(d) + i, d.step)
  }

  function CandidateCount(d: Discovery): nat
    requires ValidPriceConfig(d) && Window(d).None?
  {
    LastIndex(d) - FirstIndex(d) + 1
  }

  /** Every candidate is recent, and it and all its samples are finalized. */
  lemma CandidatesAreSound(d: Discovery, i: nat)
    requires ValidPriceConfig(d) && WithinU64(d) && Window(d).None? && i < CandidateCount(d)
    ensures d.twapBlocks <= Candidate(d, i)
    ensures Candidate(d, i) + d.twapBlocks <= d.finalizedBlock
    ensures d.latestBlock <= Candidate(d, i) + d.maxAge
    ensures 1 <= Candidate(d, i) && Candidate(d, i) < d.latestBlock && Candidate(d, i) % d.step == 0
  {
    GridIs(d);
    AtOrder(FirstIndex(d), FirstIndex(d) + i, d.step);
    AtOrder(FirstIndex(d) + i, LastIndex(d), d.step);
    ExactQuotient(FirstIndex(d) + i, d.step);
  }

  lemma StretchSums(price: nat -> nat, start: nat, step: nat, ratios: seq<nat>, i: nat, n: nat)
    requires ratios == PricesFrom(price, start, step, |ratios|) && i + 2 * n < |ratios|
    ensures BaselineOf(ratios, i, n) == SumOf(PricesFrom(price, start + At(i, step), step, n))
    ensures DistressOf(ratios, i, n) == SumOf(PricesFrom(price, start + At(i + n + 1, step), step, n))
  {
    hide SumOf, PricesFrom, At;
    assert i + n + 1 + n == i + 2 * n + 1;
    PricesWithin(price, start, step, |ratios|, i, n);
    PricesWithin(price, start, step, |ratios|, i + n + 1, n);
  }

  /** Where candidate `i`'s samples lie in the sampled list. */
  lemma SamplePlaces(d: Discovery, i: nat)
    requires ValidPriceConfig(d) && WithinU64(d) && Window(d).None? && i < CandidateCount(d)
    ensures d.twapBlocks <= Candidate(d, 0) && d.twapBlocks <= Candidate(d, i)
    ensures Candidate(d, 0) - d.twapBlocks + At(i, d.step) == Candidate(d, i) - d.twapBlocks
    ensures Candidate(d, 0) - d.twapBlocks + At(i + Samples(d) + 1, d.step) == Candidate(d, i) + d.step
  {
    CandidatesAreSound(d, 0);
    CandidatesAreSound(d, i);
    GridIs(d);
    AtAdds(FirstIndex(d), i, d.step);
    AtAdds(i, Samples(d), d.step);
    AtAdds(i + Samples(d), 1, d.step);
  }

  lemma BaselineIs(price: nat -> nat, d: Discovery, reference: nat)
    requires ValidPriceConfig(d) && d.twapBlocks <= reference
    ensures Baseline(price, d, reference) == SumOf(PricesFrom(price, reference - d.twapBlocks, d.step, Samples(d)))
    ensures Distress(price, d, reference) == SumOf(PricesFrom(price, reference + d.step, d.step, Samples(d)))
  {
    hide SumOf, PricesFrom, At;
  }

  /** The window sums of candidate `i` are those of the chain's prices around it. */
  lemma WindowSums(price: nat -> nat, d: Discovery, ratios: seq<nat>, i: nat)
    requires ValidPriceConfig(d) && WithinU64(d) && Window(d).None? && i < CandidateCount(d)
    requires |ratios| == CandidateCount(d) + 2 * Samples(d) && d.twapBlocks <= Candidate(d, 0)
    requires ratios == PricesFrom(price, Candidate(d, 0) - d.twapBlocks, d.step, |ratios|)
    ensures d.twapBlocks <= Candidate(d, i)
    ensures BaselineOf(ratios, i, Samples(d)) == Baseline(price, d, Candidate(d, i))
    ensures DistressOf(ratios, i, Samples(d)) == Distress(price, d, Candidate(d, i))
  {
    hide *;
    SamplePlaces(d, i);
    BaselineIs(price, d, Candidate(d, i));
    StretchSums(price, Candidate(d, 0) - d.twapBlocks, d.step, ratios, i, Samples(d));
  }

  /** Some candidate qualifies. */
  predicate AnyQualifies(price: nat -> nat, d: Discovery)
    requires ValidPriceConfig(d) && WithinU64(d) && Window(d).None?
  {
    exists i :: 0 <= i < CandidateCount(d) && CandidateQualifies(price, d, i)
  }

  predicate CandidateQualifies(price: nat -> nat, d: Discovery, i: nat)
    requires ValidPriceConfig(d) && WithinU64(d) && Window(d).None? && i < CandidateCount(d)
  {
    CandidatesAreSound(d, i);
    Qualifies(price, d, Candidate(d, i))
  }

  /** Candidate `i` starts the last run of qualifying candidates. */
  predicate LastRising(price: nat -> nat, d: Discovery, i: nat)
    requires ValidPriceConfig(d) && WithinU64(d) && Window(d).None? && i < CandidateCount(d)
  {
    && CandidateQualifies(price, d, i)
    && (i > 0 ==> !CandidateQualifies(price, d, i - 1))
    && forall j :: i < j < CandidateCount(d) && CandidateQualifies(price, d, j) ==> CandidateQualifies(price, d, j - 1)
  }

  // ---- In terms of blocks and prices ----

  /** A block that may be the reference: on the grid, recent enough, and it and all its samples on
      the finalized chain. */
  predicate MayRefer(d: Discovery, b: nat)
    requires d.step > 0
  {
    && 1 <= b && b % d.step == 0 && d.twapBlocks <= b
    && d.latestBlock <= b + d.maxAge && b + d.twapBlocks <= d.finalizedBlock
  }

  /** The prices sampled after the block fall short of those before it by more than the minimum part. */
  predicate Fell(price: nat -> nat, d: Discovery, b: nat)
    requires d.step > 0 && d.twapBlocks <= b
  {
    var n := d.twapBlocks / d.step;
    var before, after := SumOf(PricesFrom(price, b - d.twapBlocks, d.step, n)),
                         SumOf(PricesFrom(price, b + d.step, d.step, n));
    (before - after) * 10_000 > before * d.minimumDropBps
  }

  predicate FellAt(price: nat -> nat, d: Discovery, b: nat)
    requires d.step > 0
  {
    MayRefer(d, b) && Fell(price, d, b)
  }

  lemma GridBlock(b: nat, step: nat) returns (i: nat)
    requires step > 0 && b % step == 0
    ensures b == At(i, step)
  {
    i := b / step;
    DivisionIs(b, step);
  }

  lemma CeilingIs(a: nat, i: nat, step: nat)
    requires step > 0
    ensures a <= At(i, step) <==> CeilDiv(a, step) <= i
  {
    var q := a / step;
    DivisionIs(a, step);
    AtAdds(q, 1, step);
    AtOrder(CeilDiv(a, step), i, step);
    AtOrder(i, q, step);
    hide At;
    if a % step != 0 && a <= At(i, step) {
      assert q < i;
    }
  }

  lemma FloorIs(a: nat, i: nat, step: nat)
    requires step > 0
    ensures At(i, step) <= a <==> i <= a / step
  {
    DivisionIs(a, step);
    AtAdds(a / step, 1, step);
    AtOrder(i, a / step, step);
    AtOrder(a / step + 1, i, step);
  }

  /** The grid between the first and the last index is exactly what may be the reference. */
  lemma GridMayRefer(d: Discovery, i: nat)
    requires ValidPriceConfig(d) && WithinU64(d)
    ensures MayRefer(d, At(i, d.step)) <==> d.twapBlocks <= d.finalizedBlock && FirstIndex(d) <= i <= LastIndex(d)
  {
    CeilingIs(Earliest(d), i, d.step);
    ExactQuotient(i, d.step);
    if d.twapBlocks <= d.finalizedBlock {
      FloorIs(d.finalizedBlock - d.twapBlocks, i, d.step);
    }
  }

  /** The candidates are all the blocks that may be the reference, in order. */
  lemma CandidatesAreAll(d: Discovery, b: nat) returns (i: nat)
    requires ValidPriceConfig(d) && WithinU64(d) && Window(d).None? && MayRefer(d, b)
    ensures i < CandidateCount(d) && b == Candidate(d, i)
  {
    var j := GridBlock(b, d.step);
    GridMayRefer(d, j);
    i := j - FirstIndex(d);
  }

  lemma CandidateMayRefer(d: Discovery, i: nat)
    requires ValidPriceConfig(d) && WithinU64(d) && Window(d).None?
    ensures MayRefer(d, Candidate(d, i)) <==> i < CandidateCount(d)
    ensures i > 0 ==> Candidate(d, i) >= d.step && Candidate(d, i - 1) == Candidate(d, i) - d.step
  {
    GridMayRefer(d, FirstIndex(d) + i);
    if i > 0 {
      AtAdds(FirstIndex(d) + i - 1, 1, d.step);
    }
  }

  /** Something may be the reference, and the search takes at most the maximum number of points. */
  ghost predicate Searchable(d: Discovery)
    requires d.step > 0
  {
    && (exists b: nat :: MayRefer(d, b))
    && forall x: nat, y: nat :: MayRefer(d, x) && MayRefer(d, y) && x <= y ==>
         (y - x) / d.step + 1 + 2 * (d.twapBlocks / d.step) <= MAX_POINTS
  }

  lemma WindowIsSearchable(d: Discovery)
    requires ValidPriceConfig(d) && WithinU64(d)
    ensures Window(d).None? <==> Searchable(d)
    ensures Window(d) == Some(NoFinalizedCandidateWindow) ==> forall b: nat :: !MayRefer(d, b)
  {
    if Window(d).None? {
      FirstMayRefer(d);
      forall x: nat, y: nat | MayRefer(d, x) && MayRefer(d, y) && x <= y
        ensures (y - x) / d.step + 1 + 2 * (d.twapBlocks / d.step) <= MAX_POINTS
      {
        SpanFits(d, x, y);
      }
    } else {
      forall b: nat | MayRefer(d, b) ensures !Searchable(d) && Window(d) != Some(NoFinalizedCandidateWindow) {
        TooWide(d, b);
      }
    }
  }

  lemma FirstMayRefer(d: Discovery)
    requires ValidPriceConfig(d) && WithinU64(d) && Window(d).None?
    ensures MayRefer(d, Candidate(d, 0))
  {
    CandidateMayRefer(d, 0);
  }

  lemma SpanFits(d: Discovery, x: nat, y: nat)
    requires ValidPriceConfig(d) && WithinU64(d) && Window(d).None? && MayRefer(d, x) && MayRefer(d, y) && x <= y
    ensures (y - x) / d.step + 1 + 2 * (d.twapBlocks / d.step) <= MAX_POINTS
  {
    var i := CandidatesAreAll(d, x);
    var j := CandidatesAreAll(d, y);
    AtOrder(FirstIndex(d) + i, FirstIndex(d) + j, d.step);
    AtDivides(FirstIndex(d) + i, FirstIndex(d) + j, d.step);
  }

  /** Where something may be the reference but there is no window, there are too many points. */
  lemma TooWide(d: Discovery, b: nat)
    requires ValidPriceConfig(d) && WithinU64(d) && Window(d).Some? && MayRefer(d, b)
    ensures !Searchable(d) && Window(d) != Some(NoFinalizedCandidateWindow)
  {
    var i := GridBlock(b, d.step);
    GridMayRefer(d, i);
    AtOrder(FirstIndex(d), i, d.step);
    AtOrder(FirstIndex(d), LastIndex(d), d.step);
    GridMayRefer(d, FirstIndex(d));
    GridMayRefer(d, LastIndex(d));
    AtDivides(FirstIndex(d), LastIndex(d), d.step);
    var x, y := At(FirstIndex(d), d.step), At(LastIndex(d), d.step);
    assert MayRefer(d, x) && MayRefer(d, y) && x <= y;
  }

  /** The comparison that the loop makes says that the price fell by more than the minimum part. */
  lemma QualifyingFell(price: nat -> nat, d: Discovery, i: nat)
    requires ValidPriceConfig(d) && WithinU64(d) && Window(d).None? && i < CandidateCount(d)
    ensures d.twapBlocks <= Candidate(d, i)
    ensures CandidateQualifies(price, d, i) <==> Fell(price, d, Candidate(d, i))
  {
    CandidatesAreSound(d, i);
    hide Candidate, PricesFrom, SumOf, Drops, Window;
    FallIs(Baseline(price, d, Candidate(d, i)), Distress(price, d, Candidate(d, i)), d.minimumDropBps);
  }

  lemma FallIs(before: nat, after: nat, minimum: nat)
    requires minimum <= BPS
    ensures Drops(before, after, minimum) <==> (before - after) * 10_000 > before * minimum
  {
    var gap: int := before - after;
    Commute(before, BPS - minimum);
    Distribute(BPS - minimum, minimum, before);
    Commute(before, minimum);
    Commute(before, BPS);
    Distribute(gap, after, BPS);
  }

  /** The whole selection, over blocks: the reference fell, the grid block before it did not (or may
      not be a reference), and any later block that fell continues a run from it or from a block that
      may be a reference and fell. */
  ghost predicate IsLastEdge(price: nat -> nat, d: Discovery, reference: nat)
    requires d.step > 0
  {
    && FellAt(price, d, reference)
    && (reference >= d.step ==> !FellAt(price, d, reference - d.step))
    && forall b :: b > reference && FellAt(price, d, b) ==> b >= d.step && FellAt(price, d, b - d.step)
  }

  lemma RisingIsEdge(price: nat -> nat, d: Discovery, i: nat)
    requires ValidPriceConfig(d) && WithinU64(d) && Window(d).None? && i < CandidateCount(d)
    requires LastRising(price, d, i)
    ensures IsLastEdge(price, d, Candidate(d, i))
  {
    hide ValidPriceConfig, Window, Fell, CandidateQualifies, MayRefer, Candidate;
    var reference := Candidate(d, i);
    StepPositive(d);
    CandidateMayRefer(d, i);
    QualifyingFell(price, d, i);
    if i > 0 {
      CandidateMayRefer(d, i - 1);
      QualifyingFell(price, d, i - 1);
    } else if reference >= d.step && MayRefer(d, reference - d.step) {
      var k := CandidatesAreAll(d, reference - d.step);
      CandidatesRise(d, 0, k);
    }
    forall b | b > reference && FellAt(price, d, b) ensures b >= d.step && FellAt(price, d, b - d.step) {
      var j := CandidatesAreAll(d, b);
      CandidatesRise(d, i, j);
      QualifyingFell(price, d, j);
      CandidateMayRefer(d, j);
      CandidateMayRefer(d, j - 1);
      QualifyingFell(price, d, j - 1);
    }
  }

  lemma StepPositive(d: Discovery)
    requires ValidPriceConfig(d)
    ensures d.step > 0 && d.twapBlocks / d.step > 0 && d.minimumDropBps < BPS
  {
  }

  lemma CandidatesRise(d: Discovery, i: nat, j: nat)
    requires ValidPriceConfig(d)
    ensures Candidate(d, i) < Candidate(d, j) <==> i < j
  {
    AtOrder(FirstIndex(d) + i, FirstIndex(d) + j, d.step);
  }

  /** Some candidate qualifies exactly when the price fell at some block that may be the reference. */
  lemma AnyFell(price: nat -> nat, d: Discovery)
    requires ValidPriceConfig(d) && WithinU64(d) && Window(d).None?
    ensures d.step > 0
    ensures AnyQualifies(price, d) <==> exists b: nat :: FellAt(price, d, b)
  {
    hide ValidPriceConfig, Window, Fell, CandidateQualifies, MayRefer, Candidate;
    StepPositive(d);
    if AnyQualifies(price, d) {
      var i :| 0 <= i < CandidateCount(d) && CandidateQualifies(price, d, i);
      CandidateMayRefer(d, i);
      QualifyingFell(price, d, i);
      assert FellAt(price, d, Candidate(d, i));
    }
    if b: nat :| FellAt(price, d, b) {
      var i := CandidatesAreAll(d, b);
      QualifyingFell(price, d, i);
    }
  }

  // ---- Steady prices and steep falls ----

  lemma {:induction false} PricesOrdered(price: nat -> nat, x: nat, y: nat, step: nat, n: nat)
    requires forall i, j :: 0 <= i < n && 0 <= j < n ==> price(x + At(i, step)) <= price(y + At(j, step))
    ensures SumOf(PricesFrom(price, x, step, n)) <= SumOf(PricesFrom(price, y, step, n))
  {
    if n > 0 {
      PricesOrdered(price, x, y, step, n - 1);
      SumOfPrices(price, x, step, n);
      SumOfPrices(price, y, step, n);
    }
  }

  lemma SumOfPrices(price: nat -> nat, start: nat, step: nat, n: nat)
    requires n > 0
    ensures SumOf(PricesFrom(price, start, step, n))
         == SumOf(PricesFrom(price, start, step, n - 1)) + price(start + At(n - 1, step))
  {
    var s := PricesFrom(price, start, step, n);
    assert s[..n - 1] == PricesFrom(price, start, step, n - 1);
  }

  /** A sample before the block lies before it, a sample after it after. */
  lemma SamplesAround(d: Discovery, b: nat, i: nat)
    requires ValidPriceConfig(d) && d.twapBlocks <= b && i < d.twapBlocks / d.step
    ensures b - d.twapBlocks + At(i, d.step) < b < b + d.step + At(i, d.step)
  {
    GridIs(d);
    AtOrder(i, Samples(d), d.step);
  }

  /** A price that never falls is never found to have. */
  lemma SteadyPriceNeverFell(price: nat -> nat, d: Discovery, b: nat)
    requires ValidPriceConfig(d) && d.twapBlocks <= b
    requires forall x: nat, y: nat :: x < b < y ==> price(x) <= price(y)
    ensures !Fell(price, d, b)
  {
    hide PricesFrom, SumOf, At, ValidPriceConfig;
    StepPositive(d);
    var n := d.twapBlocks / d.step;
    forall i, j | 0 <= i < n && 0 <= j < n
      ensures price(b - d.twapBlocks + At(i, d.step)) <= price(b + d.step + At(j, d.step))
    {
      SamplesAround(d, b, i);
      SamplesAround(d, b, j);
    }
    PricesOrdered(price, b - d.twapBlocks, b + d.step, d.step, n);
    NoFall(SumOf(PricesFrom(price, b - d.twapBlocks, d.step, n)), SumOf(PricesFrom(price, b + d.step, d.step, n)),
           d.minimumDropBps);
  }

  lemma NoFall(before: nat, after: nat, minimum: nat)
    requires before <= after
    ensures (before - after) * 10_000 <= before * minimum
  {
    Scale(0, before, minimum);
  }

  lemma {:induction false} PricesBelow(price: nat -> nat, x: nat, y: nat, step: nat, n: nat, part: nat)
    requires forall i, j :: 0 <= i < n && 0 <= j < n ==> price(y + At(j, step)) * BPS < price(x + At(i, step)) * part
    ensures SumOf(PricesFrom(price, y, step, n)) * BPS <= SumOf(PricesFrom(price, x, step, n)) * part
    ensures n > 0 ==> SumOf(PricesFrom(price, y, step, n)) * BPS < SumOf(PricesFrom(price, x, step, n)) * part
  {
    if n > 0 {
      PricesBelow(price, x, y, step, n - 1, part);
      SumOfPrices(price, x, step, n);
      SumOfPrices(price, y, step, n);
      hide SumOf, PricesFrom;
      Distribute(SumOf(PricesFrom(price, x, step, n - 1)), price(x + At(n - 1, step)), part);
      Distribute(SumOf(PricesFrom(price, y, step, n - 1)), price(y + At(n - 1, step)), BPS);
    }
  }

  lemma SteepFall(before: nat, after: nat, minimum: nat)
    requires minimum <= BPS && after * BPS < before * (BPS - minimum)
    ensures (before - after) * 10_000 > before * minimum
  {
    FallIs(before, after, minimum);
  }

  /** A fall of every later price below that part of every earlier one is always found. */
  lemma SteepFallIsFound(price: nat -> nat, d: Discovery, b: nat)
    requires ValidPriceConfig(d) && d.twapBlocks <= b
    requires forall x: nat, y: nat :: x < b < y ==> price(y) * 10_000 < price(x) * (10_000 - d.minimumDropBps)
    ensures Fell(price, d, b)
  {
    hide PricesFrom, SumOf, At, ValidPriceConfig, Drops;
    StepPositive(d);
    var n := d.twapBlocks / d.step;
    forall i, j | 0 <= i < n && 0 <= j < n
      ensures price(b + d.step + At(j, d.step)) * BPS
            < price(b - d.twapBlocks + At(i, d.step)) * (BPS - d.minimumDropBps)
    {
      SamplesAround(d, b, i);
      SamplesAround(d, b, j);
    }
    PricesBelow(price, b - d.twapBlocks, b + d.step, d.step, n, BPS - d.minimumDropBps);
    SteepFall(SumOf(PricesFrom(price, b - d.twapBlocks, d.step, n)), SumOf(PricesFrom(price, b + d.step, d.step, n)),
              d.minimumDropBps);
  }

  /** `discover_incident_open_twap` on a valid configuration: the errors are those of the window;
      otherwise a reference is selected exactly when some candidate qualifies, and then it is the
      first candidate of the last run of qualifying ones, with its true window sums. Over blocks and
      prices: a reference is the last edge of a fall, and there is none exactly when the price fell
      nowhere. */
  method Discover(price: nat -> nat, d: Discovery) returns (r: Outcome, ghost index: nat)
    requires ValidPriceConfig(d) && WithinU64(d)
    ensures r.Selected? ==> IsLastEdge(price, d, r.selection.referenceBlock)
    ensures r == InsufficientPriceDrop ==> forall b: nat :: !FellAt(price, d, b)
    ensures r.Selected? || r == InsufficientPriceDrop <==> Searchable(d)
    ensures r == NoFinalizedCandidateWindow ==> forall b: nat :: !MayRefer(d, b)
    ensures Window(d).Some? ==> r == Window(d).value
    ensures Window(d).None? ==> r == InsufficientPriceDrop || r.Selected?
    ensures Window(d).None? ==> (r.Selected? <==> AnyQualifies(price, d))
    ensures Window(d).None? && r.Selected? ==>
              var reference := r.selection.referenceBlock;
              && index < CandidateCount(d) && reference == Candidate(d, index) && LastRising(price, d, index)
              && d.twapBlocks <= reference && reference + d.twapBlocks <= d.finalizedBlock
                && d.latestBlock <= reference + d.maxAge
              && r.selection ==
                Selection(reference, Baseline(price, d, reference), Distress(price, d, reference), Samples(d))
  {
    index := 0;
    GridIs(d);
    WindowIsSearchable(d);
    var earliest := Max(Max(SatSub(d.latestBlock, d.maxAge), d.twapBlocks), 1);
    if d.finalizedBlock < d.twapBlocks {
      return NoFinalizedCandidateWindow, 0;
    }
    var latest := d.finalizedBlock - d.twapBlocks;
    var firstCandidate := At(CeilDiv(earliest, d.step), d.step);
    if firstCandidate > U64_MAX {
      return InvalidPriceConfig, 0;
    }
    var lastCandidate := At(latest / d.step, d.step);
    AtOrder(LastIndex(d), FirstIndex(d), d.step);
    if firstCandidate > lastCandidate || firstCandidate >= d.latestBlock {
      return NoFinalizedCandidateWindow, 0;
    }
    AtDivides(FirstIndex(d), LastIndex(d), d.step);
    var candidateCount := (lastCandidate - firstCandidate) / d.step + 1;
    var sampleCount := d.twapBlocks / d.step;
    var pointCount := candidateCount + 2 * sampleCount;
    if pointCount > U64_MAX {
      return InvalidPriceConfig, 0;
    }
    if pointCount > MAX_POINTS {
      return DiscoveryTooLarge(pointCount), 0;
    }
    assert Window(d).None? && candidateCount == CandidateCount(d);
    r, index := Select(price, d, firstCandidate, lastCandidate, candidateCount, sampleCount);
    AnyFell(price, d);
    if r.Selected? {
      RisingIsEdge(price, d, index);
    }
  }

  /** From the candidates to the selection. */
  method Select(price: nat -> nat, d: Discovery, firstCandidate: nat, lastCandidate: nat, candidateCount: nat,
                sampleCount: nat)
    returns (r: Outcome, ghost index: nat)
    requires ValidPriceConfig(d) && WithinU64(d) && Window(d).None?
    requires firstCandidate == At(FirstIndex(d), d.step) && lastCandidate == At(LastIndex(d), d.step)
    requires candidateCount == CandidateCount(d) && sampleCount == Samples(d)
    ensures r == InsufficientPriceDrop || r.Selected?
    ensures r.Selected? <==> AnyQualifies(price, d)
    ensures r.Selected? ==>
              var reference := r.selection.referenceBlock;
              && index < CandidateCount(d) && reference == Candidate(d, index) && LastRising(price, d, index)
              && d.twapBlocks <= reference && reference + d.twapBlocks <= d.finalizedBlock
                && d.latestBlock <= reference + d.maxAge
              && r.selection ==
                Selection(reference, Baseline(price, d, reference), Distress(price, d, reference), Samples(d))
  {
    FirstCandidateExists(d);
    hide ValidPriceConfig, Window, FirstIndex, LastIndex, Samples, Drops, SumOf, At;
    index := 0;
    var ratios := SampledRatios(price, d, firstCandidate, lastCandidate, candidateCount, sampleCount);
    SamplesPositive(d);
    var chosen, baseline, distress := Choose(ratios, candidateCount, sampleCount, d.minimumDropBps);
    forall i | 0 <= i < candidateCount
      ensures QualifiesAt(ratios, i, sampleCount, d.minimumDropBps) == CandidateQualifies(price, d, i)
    {
      WindowSums(price, d, ratios, i);
    }
    if chosen.None? {
      return InsufficientPriceDrop, 0;
    }
    index := chosen.value;
    WindowSums(price, d, ratios, index);
    CandidatesAreSound(d, index);
    CandidateIs(d, index);
    r := Selected(Selection(firstCandidate + At(chosen.value, d.step), baseline, distress, sampleCount));
  }

  lemma FirstCandidateExists(d: Discovery)
    requires ValidPriceConfig(d) && Window(d).None?
    ensures CandidateCount(d) > 0
  {
  }

  lemma SamplesPositive(d: Discovery)
    requires ValidPriceConfig(d)
    ensures Samples(d) > 0 && d.minimumDropBps <= BPS && d.step > 0
  {
  }

  lemma CandidateIs(d: Discovery, i: nat)
    requires ValidPriceConfig(d)
    ensures Candidate(d, i) == At(FirstIndex(d), d.step) + At(i, d.step)
  {
    AtAdds(FirstIndex(d), i, d.step);
  }

  method SampledRatios(price: nat -> nat, d: Discovery, firstCandidate: nat, lastCandidate: nat, candidateCount: nat,
                       sampleCount: nat)
    returns (ratios: seq<nat>)
    requires ValidPriceConfig(d) && WithinU64(d) && Window(d).None?
    requires firstCandidate == At(FirstIndex(d), d.step) && lastCandidate == At(LastIndex(d), d.step)
    requires candidateCount == CandidateCount(d) && sampleCount == Samples(d)
    ensures d.twapBlocks <= Candidate(d, 0)
    ensures ratios == PricesFrom(price, Candidate(d, 0) - d.twapBlocks, d.step, candidateCount + 2 * sampleCount)
    ensures |ratios| == candidateCount + 2 * sampleCount
  {
    GridIs(d);
    hide At;
    var firstPoint := firstCandidate - d.twapBlocks;
    var lastPoint := lastCandidate + d.twapBlocks;
    AtAdds(FirstIndex(d), candidateCount - 1, d.step);
    AtAdds(candidateCount - 1, sampleCount, d.step);
    AtAdds(candidateCount - 1 + sampleCount, sampleCount, d.step);
    var blocks := SamplePoints(firstPoint, lastPoint, d.step, candidateCount - 1 + 2 * sampleCount);
    ratios := RatiosAt(price, blocks, firstPoint, d.step);
    AtAdds(FirstIndex(d), 0, d.step);
  }
}
