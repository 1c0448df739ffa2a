/**
 * The earlier fair-price benchmark (src/analytics/fair_price.py): the lines of
 * an ENSTRU code, optionally of one region, summarised by the median and
 * Tukey's fences over their prices, with a rule-of-thumb band around the
 * median when there are fewer than three lines. Lines without a price stay in
 * the sample as NaN: they count toward the sample size, and pandas skips them
 * in the statistics.
 */
module FairPrice {
  import opened Wrappers
  import opened Text
  import opened Stats
  import Engine

  const MinSample := 3
  const LowConfidence := "Low - Insufficient sample size"
  const BandLow := 0.9
  const BandHigh := 1.1

  /** A float that may be NaN: what pandas gives for a statistic of no values. */
  datatype Num = Num(value: real) | NaN

  /** `x * c`: NaN stays NaN. */
  function Times(x: Num, c: real): (r: Num)
    ensures r.NaN? <==> x.NaN?
    ensures x.Num? && x.value >= 0.0 && c >= 1.0 ==> r.value >= x.value
    ensures x.Num? && x.value >= 0.0 && 0.0 <= c <= 1.0 ==> 0.0 <= r.value <= x.value
  {
    match x
    case NaN => NaN
    case Num(v) => ScaleBounds(v, c); Num(v * c)
  }

  lemma ScaleBounds(v: real, c: real)
    ensures v >= 0.0 && c >= 1.0 ==> v * c >= v
    ensures v >= 0.0 && 0.0 <= c <= 1.0 ==> 0.0 <= v * c <= v
  {
    if v >= 0.0 && c >= 1.0 {
      MulNonNeg(v, c - 1.0);
      assert v * c - v == v * (c - 1.0);
    }
    if v >= 0.0 && 0.0 <= c <= 1.0 {
      MulNonNeg(v, c);
      MulNonNeg(v, 1.0 - c);
      assert v - v * c == v * (1.0 - c);
    }
  }

  /** Python's `max(0, x)`: `nan > 0` is false, so a NaN gives 0. */
  function MaxZero(x: Num): (r: Num)
    ensures r.Num? && r.value >= 0.0
    ensures x.Num? && x.value >= 0.0 ==> r == x
  {
    match x
    case NaN => Num(0.0)
    case Num(v) => Num(Max(0.0, v))
  }

  /** The benchmark query: lines of a plan with the ENSTRU code, of the region when one is given. */
  predicate SelectsBenchmark(j: Engine.UnitJoin, code: string, kato: Option<string>) {
    j.plan.enstruCode == Some(code) && (Truthy(kato) ==> j.plan.katoCode == kato)
  }

  /** The prices the query returns, in join order; a line without a price gives None. */
  function BenchmarkPrices(joined: seq<Engine.UnitJoin>, code: string, kato: Option<string>): (r: seq<Option<real>>)
    ensures |r| <= |joined|
    ensures forall x :: x in r <==> exists j :: (j in joined && SelectsBenchmark(j, code, kato) && x == j.unit.itemPrice)
    decreases |joined|
  {
    if joined == [] then []
    else
      var p, j := joined[..|joined| - 1], joined[|joined| - 1];
      assert joined == p + [j];
      BenchmarkPrices(p, code, kato) + if SelectsBenchmark(j, code, kato) then [j.unit.itemPrice] else []
  }

  /** A falsy region adds no filter. */
  lemma RegionFilterOptional(j: Engine.UnitJoin, code: string, kato: Option<string>)
    ensures !Truthy(kato) ==> (SelectsBenchmark(j, code, kato) <==> j.plan.enstruCode == Some(code))
    ensures Truthy(kato) && SelectsBenchmark(j, code, kato) ==> j.plan.katoCode == kato
  {
  }

  /** The prices that are present, in order: what the statistics see once NaN is skipped. */
  function Present(s: seq<Option<real>>): (r: seq<real>)
    ensures |r| <= |s|
    ensures forall x :: x in r <==> Some(x) in s
    decreases |s|
  {
    if s == [] then []
    else
      var p, x := s[..|s| - 1], s[|s| - 1];
      assert s == p + [x];
      Present(p) + if x.Some? then [x.value] else []
  }

  /** With every price present nothing is skipped. */
  lemma {:induction false} PresentAll(s: seq<Option<real>>)
    requires forall i :: 0 <= i < |s| ==> s[i].Some?
    ensures |Present(s)| == |s| && forall i :: 0 <= i < |s| ==> Present(s)[i] == s[i].value
    decreases |s|
  {
    if s != [] {
      var p := s[..|s| - 1];
      assert forall i :: 0 <= i < |p| ==> p[i] == s[i];
      PresentAll(p);
    }
  }

  /** `Series.median()` skipping NaN: NaN when no price is present. */
  function MedianOf(s: seq<Option<real>>): (m: Num)
    ensures m.NaN? <==> Present(s) == []
    ensures m.Num? ==> m.value == Quantile(Present(s), 0.5)
  {
    var v := Present(s);
    if v == [] then NaN else MedianIsQuantile(v); Num(Median(v))
  }

  datatype PriceBenchmark = PriceBenchmark(
    enstruCode: string, katoCode: Option<string>, sampleSize: nat,
    medianPrice: Num, fairMin: Num, fairMax: Num, confidence: string)

  /**
   * `get_fair_price_bounds` of the benchmark: nothing for no lines; a band of
   * 90%..110% of the median and low confidence below three lines; otherwise
   * Tukey's fences over the present prices and the confidence by sample size.
   */
  function GetFairPriceBenchmark(joined: seq<Engine.UnitJoin>, code: string, kato: Option<string>): (r: Option<PriceBenchmark>)
    ensures r.None? <==> BenchmarkPrices(joined, code, kato) == []
    ensures r.Some? ==> var prices := BenchmarkPrices(joined, code, kato); var v := r.value;
      && v.enstruCode == code && v.katoCode == kato && v.sampleSize == |prices|
      && v.medianPrice == MedianOf(prices)
      && (|prices| < MinSample ==>
            v.fairMin == Times(v.medianPrice, BandLow) && v.fairMax == Times(v.medianPrice, BandHigh)
            && v.confidence == LowConfidence)
      && (|prices| >= MinSample ==> v.confidence == Engine.Confidence(|prices|))
      && (|prices| >= MinSample && Present(prices) == [] ==> v.fairMin == Num(0.0) && v.fairMax == NaN)
      && (|prices| >= MinSample && Present(prices) != [] ==>
            v.fairMin.Num? && v.fairMax.Num? && Fences(v.fairMin.value, v.fairMax.value) == TukeyFences(Present(prices)))
  {
    var prices := BenchmarkPrices(joined, code, kato);
    if prices == [] then None
    else
      var median := MedianOf(prices);
      if |prices| < MinSample then
        Some(PriceBenchmark(code, kato, |prices|, median, Times(median, BandLow), Times(median, BandHigh), LowConfidence))
      else
        var v := Present(prices);
        var lower, upper :=
          if v == [] then MaxZero(NaN) else Num(TukeyFences(v).lower),
          if v == [] then NaN else Num(TukeyFences(v).upper);
        Some(PriceBenchmark(code, kato, |prices|, median, lower, upper, Engine.Confidence(|prices|)))
  }

  /** For non-negative prices the band brackets the median in both regimes. */
  lemma BenchmarkBracketsMedian(joined: seq<Engine.UnitJoin>, code: string, kato: Option<string>)
    requires GetFairPriceBenchmark(joined, code, kato).Some?
    requires NonNegative(Present(BenchmarkPrices(joined, code, kato)))
    requires Present(BenchmarkPrices(joined, code, kato)) != []
    ensures var v := GetFairPriceBenchmark(joined, code, kato).value;
      && v.medianPrice.Num? && v.fairMin.Num? && v.fairMax.Num?
      && 0.0 <= v.fairMin.value <= v.medianPrice.value <= v.fairMax.value
  {
    var prices := BenchmarkPrices(joined, code, kato);
    var p := Present(prices);
    QuantileWithin(p, 0.5);
    assert p[0] >= 0.0;
    if |prices| >= MinSample {
      FencesOrdered(p);
      MedianIsQuantile(p);
    }
  }
}
