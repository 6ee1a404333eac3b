/** The averaged conversion ratio before a reference block. */
module Twap {
  import opened Wrappers
  import opened FloorMath
  import opened IncidentOpen
  import opened U64

  function First(lookback: nat, reference: nat): nat {
    if reference > lookback then reference - lookback else 1
  }

  /** How many blocks are sampled. */
  function Count(step: nat, lookback: nat, reference: nat): nat
    requires step > 0
  {
    var first := First(lookback, reference);
    if reference < first then 0 else (reference - first) / step + 1
  }

  function Sampled(price: nat -> nat, step: nat, lookback: nat, reference: nat): seq<nat>
    requires step > 0
  {
    PricesFrom(price, First(lookback, reference), step, Count(step, lookback, reference))
  }

  function Mean(prices: seq<nat>): nat {
    if prices == [] then 0 else SumOf(prices) / |prices|
  }

  lemma CountIs(step: nat, lookback: nat, reference: nat, n: nat)
    requires step > 0
    ensures First(lookback, reference) + At(n, step) <= reference <==> n < Count(step, lookback, reference)
  {
    var first := First(lookback, reference);
    if first <= reference {
      var room := reference - first;
      DivisionIs(room, step);
      AtAdds(room / step, 1, step);
      AtOrder(n, room / step, step);
      AtOrder(room / step + 1, n, step);
    }
  }

  /** `twap_ratio_before`: every `step` blocks from the start of the lookback, the reference block
      included when it is on the grid. The count of samples cannot overflow. */
  method TwapRatioBefore(price: nat -> nat, step: nat, lookback: nat, reference: nat) returns (r: Option<nat>)
    requires reference <= U64_MAX
    ensures step == 0 <==> r.None?
    ensures step > 0 ==> r == Some(Mean(Sampled(price, step, lookback, reference)))
  {
    hide *;
    if step == 0 {
      return None;
    }
    NoSamples(price, step, lookback, reference);
    ghost var count := Count(step, lookback, reference);
    ghost var first := First(lookback, reference);
    var block := if reference > lookback then reference - lookback else 1;
    var sum: nat, samples: nat := 0, 0;
    assert block == first by {
      FirstIs(lookback, reference);
    }
    while block <= reference
      invariant samples <= count && block == first + At(samples, step)
      invariant sum == SumOf(PricesFrom(price, first, step, samples))
      invariant samples < count <==> block <= reference
      decreases count - samples
    {
      SumsGrow(price, first, step, samples);
      NextSample(step, lookback, reference, samples);
      sum := sum + price(block);
      assert samples + 1 <= U64_MAX;
      samples := samples + 1;
      if block + step > U64_MAX {
        break;
      }
      block := block + step;
    }
    MeanOfSamples(price, step, lookback, reference);
    r := Some(Quotient(sum, samples));
  }

  function Quotient(sum: nat, samples: nat): nat {
    if samples == 0 then 0 else sum / samples
  }

  lemma MeanOfSamples(price: nat -> nat, step: nat, lookback: nat, reference: nat)
    requires step > 0
    ensures var first, count := First(lookback, reference), Count(step, lookback, reference);
            Mean(Sampled(price, step, lookback, reference))
              == Quotient(SumOf(PricesFrom(price, first, step, count)), count)
  {
  }

  lemma FirstIs(lookback: nat, reference: nat)
    ensures First(lookback, reference) == if reference > lookback then reference - lookback else 1
  {
  }

  lemma NoSamples(price: nat -> nat, step: nat, lookback: nat, reference: nat)
    requires step > 0
    ensures At(0, step) == 0 && SumOf(PricesFrom(price, First(lookback, reference), step, 0)) == 0
    ensures 0 < Count(step, lookback, reference) <==> First(lookback, reference) <= reference
  {
  }

  lemma NextSample(step: nat, lookback: nat, reference: nat, n: nat)
    requires step > 0 && n < Count(step, lookback, reference)
    ensures var first := First(lookback, reference);
            && At(n + 1, step) == At(n, step) + step && n + 1 <= reference
            && (n + 1 < Count(step, lookback, reference) <==> first + At(n + 1, step) <= reference)
  {
    CountIs(step, lookback, reference, n);
    CountIs(step, lookback, reference, n + 1);
    AtLeast(n, step);
    AtAdds(n, 1, step);
  }

  lemma SumsGrow(price: nat -> nat, first: nat, step: nat, n: nat)
    ensures SumOf(PricesFrom(price, first, step, n + 1)) ==
              SumOf(PricesFrom(price, first, step, n)) + price(first + At(n, step))
  {
    var s := PricesFrom(price, first, step, n + 1);
    assert s[..n] == PricesFrom(price, first, step, n);
  }

  lemma AtLeast(n: nat, step: nat)
    requires step > 0
    ensures At(n, step) >= n
  {
    Scale(1, step, n);
  }

  /** The mean lies between any bounds on the sampled prices. */
  lemma MeanWithin(prices: seq<nat>, low: nat, high: nat)
    requires prices != [] && forall k :: 0 <= k < |prices| ==> low <= prices[k] <= high
    ensures low <= Mean(prices) <= high
  {
    SumWithin(prices, low, high);
    MeanBetween(SumOf(prices), |prices|, low, high);
  }

  lemma MeanBetween(sum: nat, n: nat, low: nat, high: nat)
    requires n > 0 && At(n, low) <= sum <= At(n, high)
    ensures low <= sum / n <= high
  {
    Commute(n, low);
    Commute(n, high);
    FloorAtMost(low, sum, n);
    DivisionIs(sum, n);
    Cancel(sum / n, high, n);
  }

  lemma {:induction false} SumWithin(prices: seq<nat>, low: nat, high: nat)
    requires forall k :: 0 <= k < |prices| ==> low <= prices[k] <= high
    ensures At(|prices|, low) <= SumOf(prices) <= At(|prices|, high)
  {
    if prices == [] {
      assert At(0, low) == 0 && At(0, high) == 0;
    } else {
      var n := |prices| - 1;
      AtAdds(n, 1, low);
      AtAdds(n, 1, high);
      hide At;
      SumWithin(prices[..n], low, high);
    }
  }

  /** Over one window of a discovered incident, the settlement's samples are the discovery's
      baseline samples and the reference block. */
  lemma TwapIsBaseline(price: nat -> nat, d: Discovery, reference: nat)
    requires ValidPriceConfig(d) && d.twapBlocks < reference
    ensures Count(d.step, d.twapBlocks, reference) == Samples(d) + 1
    ensures SumOf(Sampled(price, d.step, d.twapBlocks, reference)) == Baseline(price, d, reference) + price(reference)
  {
    GridIs(d);
    CountIs(d.step, d.twapBlocks, reference, Samples(d));
    CountIs(d.step, d.twapBlocks, reference, Samples(d) + 1);
    AtAdds(Samples(d), 1, d.step);
    SumsGrow(price, reference - d.twapBlocks, d.step, Samples(d));
  }
}
