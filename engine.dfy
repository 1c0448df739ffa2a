/**
 * The analytics engine (src/analytics/engine.py): the price-deviation check
 * against the quantity-weighted average, the yearly volume spike detector,
 * and the fair-price bounds from Tukey's fences. Each works on the rows its
 * query returns; the query's filters are modelled over the joined rows, the
 * joins and the per-year grouping are given.
 */
module Engine {
  import opened Wrappers
  import opened Text
  import opened Models
  import opened Stats

  const LinkPrefix := "https://goszakup.gov.kz/ru/contract/show/"
  const TopK := 3
  const AnomalyPercent := 30.0
  const SpikeFactor := 2.0
  const HighConfidenceSample := 30
  const AllTime := "All Time"
  const High := "High"
  const Medium := "Medium"

  function MinNat(a: nat, b: nat): nat {
    if a < b then a else b
  }

  function Abs(x: real): real {
    if x < 0.0 then -x else x
  }

  // ------------------------------------------------------------- links

  /** The public page of a contract. */
  function ContractLink(id: int): (r: string)
    ensures |r| > |LinkPrefix| && r[..|LinkPrefix|] == LinkPrefix
  {
    LinkPrefix + IntToDecimal(id)
  }

  /** Different contracts have different pages. */
  lemma ContractLinkInjective(a: int, b: int)
    requires ContractLink(a) == ContractLink(b)
    ensures a == b
  {
    assert ContractLink(a)[|LinkPrefix|..] == IntToDecimal(a);
    assert ContractLink(b)[|LinkPrefix|..] == IntToDecimal(b);
    IntToDecimalInjective(a, b);
  }

  function Links(ids: seq<int>): (r: seq<string>)
    ensures |r| == |ids| && forall k :: 0 <= k < |ids| ==> r[k] == ContractLink(ids[k])
  {
    seq(|ids|, k requires 0 <= k < |ids| => ContractLink(ids[k]))
  }

  predicate NoRepeats<T(==)>(s: seq<T>) {
    forall a, b :: 0 <= a < b < |s| ==> s[a] != s[b]
  }

  /** The links of a list without repeated ids repeat no page. */
  lemma LinksDistinct(ids: seq<int>)
    requires NoRepeats(ids)
    ensures NoRepeats(Links(ids))
  {
    var r := Links(ids);
    forall a, b | 0 <= a < b < |r| ensures r[a] != r[b] {
      if r[a] == r[b] {
        ContractLinkInjective(ids[a], ids[b]);
      }
    }
  }

  /**
   * The distinct contracts of the picked rows, in pick order
   * (`picked['contract_id'].unique()`); their pages are the links.
   */
  function PickedContracts(contracts: seq<int>, idx: seq<nat>): (ids: seq<int>)
    requires Picks(idx, contracts)
    ensures |ids| <= |idx| && NoRepeats(ids)
    ensures forall k :: 0 <= k < |ids| ==> exists a :: 0 <= a < |idx| && ids[k] == contracts[idx[a]]
    ensures forall a :: 0 <= a < |idx| ==> contracts[idx[a]] in ids
    ensures forall k, l :: 0 <= k < l < |ids| ==>
      ids[k] in PickedColumn(contracts, idx) && ids[l] in PickedColumn(contracts, idx) &&
      FirstIndex(PickedColumn(contracts, idx), ids[k]) < FirstIndex(PickedColumn(contracts, idx), ids[l])
  {
    var picked := PickedColumn(contracts, idx);
    var ids := Distinct(picked);
    assert forall k :: 0 <= k < |ids| ==> ids[k] in picked;
    assert forall a :: 0 <= a < |idx| ==> picked[a] == contracts[idx[a]] && picked[a] in picked;
    ids
  }

  /** The contract ids of the picked rows, in pick order (`picked['contract_id']`). */
  function PickedColumn(contracts: seq<int>, idx: seq<nat>): (col: seq<int>)
    requires Picks(idx, contracts)
    ensures |col| == |idx| && forall k :: 0 <= k < |idx| ==> col[k] == contracts[idx[k]]
  {
    seq(|idx|, k requires 0 <= k < |idx| => contracts[idx[k]])
  }

  /** A contract line with the plan position it is attached to and, if it exists, its contract. */
  datatype UnitJoin = UnitJoin(unit: ContractUnit, plan: PlanPoint, contract: Option<Contract>)

  /** The indices `idx` pick rows from `rows`. */
  predicate Picks<T>(idx: seq<nat>, rows: seq<T>) {
    forall k :: 0 <= k < |idx| ==> idx[k] < |rows|
  }

  // ------------------------------------------------------------- price deviation

  datatype PriceRow = PriceRow(price: real, quantity: real, contractId: int)

  /** The price query: lines of a plan with the ENSTRU code, with a price and a quantity. */
  predicate SelectsPrice(j: UnitJoin, code: string) {
    j.plan.enstruCode == Some(code) && j.unit.itemPrice.Some? && j.unit.quantity.Some?
  }

  function PriceRowOf(j: UnitJoin): PriceRow
    requires j.unit.itemPrice.Some? && j.unit.quantity.Some?
  {
    PriceRow(j.unit.itemPrice.value, j.unit.quantity.value, j.unit.contractId)
  }

  /** The rows the price query returns, in join order. */
  function PriceRows(joined: seq<UnitJoin>, code: string): (r: seq<PriceRow>)
    ensures |r| <= |joined|
    ensures forall x :: x in r <==> exists j :: j in joined && SelectsPrice(j, code) && x == PriceRowOf(j)
    decreases |joined|
  {
    if joined == [] then []
    else
      var p, j := joined[..|joined| - 1], joined[|joined| - 1];
      assert joined == p + [j];
      PriceRows(p, code) + if SelectsPrice(j, code) then [PriceRowOf(j)] else []
  }

  function TotalValue(rows: seq<PriceRow>): real
    decreases |rows|
  {
    if rows == [] then 0.0
    else TotalValue(rows[..|rows| - 1]) + rows[|rows| - 1].price * rows[|rows| - 1].quantity
  }

  function TotalQuantity(rows: seq<PriceRow>): real
    decreases |rows|
  {
    if rows == [] then 0.0 else TotalQuantity(rows[..|rows| - 1]) + rows[|rows| - 1].quantity
  }

  /** A quotient under IEEE division: finite, or infinite or NaN for a zero divisor. */
  datatype Ratio = Finite(value: real) | PosInf | NegInf | NaN

  /** The deviation in percent, `(target − avg) / avg · 100`. */
  function Deviation(target: real, avg: real): (d: Ratio)
    ensures d.Finite? <==> avg != 0.0
    ensures d.Finite? ==> d.value * avg == (target - avg) * 100.0
    ensures d == NaN <==> avg == 0.0 && target == 0.0
    ensures d == PosInf <==> avg == 0.0 && target > 0.0
  {
    if avg != 0.0 then Finite((target - avg) / avg * 100.0)
    else if target > 0.0 then PosInf
    else if target < 0.0 then NegInf
    else NaN
  }

  lemma DivMul(a: real, b: real)
    requires b != 0.0
    ensures (a / b) * b == a
  {
  }

  /** `Σ price·quantity / Σ quantity`. */
  function WeightedAverage(rows: seq<PriceRow>): (w: real)
    requires TotalQuantity(rows) != 0.0
    ensures w * TotalQuantity(rows) == TotalValue(rows)
  {
    DivMul(TotalValue(rows), TotalQuantity(rows));
    TotalValue(rows) / TotalQuantity(rows)
  }

  /** `abs(deviation) > 30`: an infinite deviation exceeds it, NaN does not. */
  predicate Exceeds(d: Ratio) {
    match d
    case Finite(v) => Abs(v) > AnomalyPercent
    case PosInf => true
    case NegInf => true
    case NaN => false
  }

  /**
   * The rows with the three highest prices, highest first; among equal prices
   * the earlier row first (`nlargest(3, 'price')`).
   */
  function TopPriced(rows: seq<PriceRow>): (idx: seq<nat>)
    ensures |idx| == MinNat(TopK, |rows|) && Picks(idx, rows) && NoRepeats(idx)
    ensures forall a, b :: 0 <= a < b < |idx| ==> rows[idx[a]].price >= rows[idx[b]].price
  {
    var keys := seq(|rows|, i requires 0 <= i < |rows| => -rows[i].price);
    var r := ArgSort(keys, |rows|);
    assert forall k :: 0 <= k < |r| ==> r[k] < |rows|;
    r[..MinNat(TopK, |rows|)]
  }

  function PriceContracts(rows: seq<PriceRow>): (ids: seq<int>)
    ensures |ids| == |rows| && forall i :: 0 <= i < |rows| ==> ids[i] == rows[i].contractId
  {
    seq(|rows|, i requires 0 <= i < |rows| => rows[i].contractId)
  }

  datatype PriceDeviationResult = PriceDeviationResult(
    enstruCode: string, weightedAveragePrice: real, targetPrice: real,
    deviationPercentage: Ratio, isAnomalous: bool, sampleSizeUnits: nat, topKLinks: seq<string>)

  /**
   * `check_price_deviation`: nothing for no rows or a zero total quantity;
   * otherwise the weighted average, the deviation of the target from it, and
   * the pages of the distinct contracts among the three priciest lines.
   */
  function CheckPriceDeviation(joined: seq<UnitJoin>, code: string, target: real): (r: Option<PriceDeviationResult>)
    ensures var rows := PriceRows(joined, code);
      r.None? <==> rows == [] || TotalQuantity(rows) == 0.0
    ensures r.Some? ==> var rows := PriceRows(joined, code); var v := r.value;
      && v.enstruCode == code && v.targetPrice == target && v.sampleSizeUnits == |rows|
      && v.weightedAveragePrice == WeightedAverage(rows)
      && v.deviationPercentage == Deviation(target, v.weightedAveragePrice)
      && (v.isAnomalous <==> Exceeds(v.deviationPercentage))
      && v.topKLinks == Links(PickedContracts(PriceContracts(rows), TopPriced(rows)))
  {
    var rows := PriceRows(joined, code);
    if rows == [] then None
    else
      var totalQuantity := TotalQuantity(rows);
      if totalQuantity == 0.0 then None
      else
        var wAvg := WeightedAverage(rows);
        var deviation := Deviation(target, wAvg);
        var links := Links(PickedContracts(PriceContracts(rows), TopPriced(rows)));
        Some(PriceDeviationResult(code, wAvg, target, deviation, Exceeds(deviation), |rows|, links))
  }

  /** `a·c > b·c` exactly when `a > b`, for a positive `c`. */
  lemma ScaleStrict(a: real, b: real, c: real)
    requires c > 0.0
    ensures a > b <==> a * c > b * c
  {
    assert a * c - b * c == (a - b) * c;
    if a > b {
      MulNonNeg(a - b, c);
      assert (a - b) * c != 0.0;
    } else {
      MulNonNeg(b - a, c);
    }
  }

  lemma AbsMul(x: real, y: real)
    ensures Abs(x * y) == Abs(x) * Abs(y)
  {
    if x < 0.0 {
      assert x * y == -((-x) * y);
    }
    if y < 0.0 {
      assert x * y == -(x * (-y));
    }
  }

  /**
   * The anomaly flag without division: the target is more than 30% of the
   * average away from it, or, for a zero average, the target is not zero.
   */
  lemma AnomalousIff(target: real, avg: real)
    ensures Exceeds(Deviation(target, avg)) <==>
      if avg != 0.0 then Abs(target - avg) > 0.3 * Abs(avg) else target != 0.0
  {
    if avg != 0.0 {
      PercentIff(Deviation(target, avg).value, target - avg, avg);
    }
  }

  lemma PercentIff(v: real, d: real, a: real)
    requires a != 0.0 && v * a == d * 100.0
    ensures Abs(v) > 30.0 <==> Abs(d) > 0.3 * Abs(a)
  {
    AbsMul(v, a);
    AbsMul(d, 100.0);
    assert Abs(v) * Abs(a) == Abs(d) * 100.0;
    PercentCore(Abs(v), Abs(d), Abs(a));
  }

  /** `x·z = 100·y` with `z > 0`: `x` exceeds 30 exactly when `y` exceeds 30% of `z`. */
  lemma PercentCore(x: real, y: real, z: real)
    requires z > 0.0 && x * z == y * 100.0
    ensures x > 30.0 <==> y > 0.3 * z
  {
    ScaleStrict(x, 30.0, z);
  }

  /** For a positive average: anomalous exactly when the target is above 130% or below 70% of it. */
  lemma AnomalousBand(target: real, avg: real)
    requires avg > 0.0
    ensures Exceeds(Deviation(target, avg)) <==> target > 1.3 * avg || target < 0.7 * avg
  {
    AnomalousIff(target, avg);
  }

  /** Prices bounded by `lo` and `hi` and non-negative quantities bound the total value by the total quantity. */
  lemma {:induction false} TotalValueWithin(rows: seq<PriceRow>, lo: real, hi: real)
    requires forall i :: 0 <= i < |rows| ==> lo <= rows[i].price <= hi && rows[i].quantity >= 0.0
    ensures lo * TotalQuantity(rows) <= TotalValue(rows) <= hi * TotalQuantity(rows)
    decreases |rows|
  {
    if rows != [] {
      var p, x := rows[..|rows| - 1], rows[|rows| - 1];
      TotalValueWithin(p, lo, hi);
      MulNonNeg(x.price - lo, x.quantity);
      MulNonNeg(hi - x.price, x.quantity);
      assert (x.price - lo) * x.quantity == x.price * x.quantity - lo * x.quantity;
      assert (hi - x.price) * x.quantity == hi * x.quantity - x.price * x.quantity;
      assert lo * TotalQuantity(rows) == lo * TotalQuantity(p) + lo * x.quantity;
      assert hi * TotalQuantity(rows) == hi * TotalQuantity(p) + hi * x.quantity;
    }
  }

  /** With non-negative quantities the weighted average lies within the range of the prices. */
  lemma WeightedAverageWithin(rows: seq<PriceRow>, lo: real, hi: real)
    requires forall i :: 0 <= i < |rows| ==> lo <= rows[i].price <= hi && rows[i].quantity >= 0.0
    requires TotalQuantity(rows) != 0.0
    ensures lo <= WeightedAverage(rows) <= hi
  {
    TotalValueWithin(rows, lo, hi);
    QuantityNonNegative(rows);
    BetweenByScale(lo, WeightedAverage(rows), hi, TotalQuantity(rows), TotalValue(rows));
  }

  lemma BetweenByScale(lo: real, w: real, hi: real, q: real, v: real)
    requires q > 0.0 && lo * q <= v <= hi * q && w * q == v
    ensures lo <= w <= hi
  {
    ScaleStrict(lo, w, q);
    ScaleStrict(w, hi, q);
  }


  lemma {:induction false} QuantityNonNegative(rows: seq<PriceRow>)
    requires forall i :: 0 <= i < |rows| ==> rows[i].quantity >= 0.0
    ensures TotalQuantity(rows) >= 0.0
    decreases |rows|
  {
    if rows != [] {
      QuantityNonNegative(rows[..|rows| - 1]);
    }
  }

  /** No row left out of the top three is priced above one that was picked. */
  lemma TopPricedHighest(rows: seq<PriceRow>, a: nat, j: nat)
    requires a < |TopPriced(rows)| && j < |rows| && j !in TopPriced(rows)
    ensures rows[TopPriced(rows)[a]].price >= rows[j].price
  {
    var keys := seq(|rows|, i requires 0 <= i < |rows| => -rows[i].price);
    ArgSortPrefix(keys, MinNat(TopK, |rows|), a, j);
  }

  // ------------------------------------------------------------- volume anomaly

  /** A row of the per-year query: the year of signing, the summed quantity, the largest contract id. */
  datatype YearRow = YearRow(year: Option<int>, totalQty: Option<real>, latestContractId: Option<int>)

  /** What `GROUP BY year ORDER BY year` returns: distinct ascending years, a group without a year last. */
  predicate GroupedByYear(rows: seq<YearRow>) {
    forall i, j :: 0 <= i < j < |rows| ==>
      rows[i].year.Some? && (rows[j].year.Some? ==> rows[i].year.value < rows[j].year.value)
  }

  /** Every row has a year and a total; otherwise `int(None)` or `float(None)` raises. */
  predicate Complete(rows: seq<YearRow>) {
    forall i :: 0 <= i < |rows| ==> rows[i].year.Some? && rows[i].totalQty.Some?
  }

  /** `{int(row.year): float(row.total_qty) for row in results}`. */
  function YearlyVolumes(rows: seq<YearRow>): (m: map<int, real>)
    requires Complete(rows)
    ensures forall y :: y in m <==> exists i :: 0 <= i < |rows| && rows[i].year.value == y
    decreases |rows|
  {
    if rows == [] then map[]
    else
      var p, x := rows[..|rows| - 1], rows[|rows| - 1];
      assert forall i :: 0 <= i < |p| ==> p[i] == rows[i];
      YearlyVolumes(p)[x.year.value := x.totalQty.value]
  }

  /** Each year's entry is that row's total, since no later row repeats the year. */
  lemma {:induction false} YearlyVolumeAt(rows: seq<YearRow>, i: nat)
    requires Complete(rows) && GroupedByYear(rows) && i < |rows|
    ensures rows[i].year.value in YearlyVolumes(rows)
    ensures YearlyVolumes(rows)[rows[i].year.value] == rows[i].totalQty.value
    decreases |rows|
  {
    var p := rows[..|rows| - 1];
    if i < |p| {
      assert forall k :: 0 <= k < |p| ==> p[k] == rows[k];
      YearlyVolumeAt(p, i);
      assert rows[i].year.value < rows[|rows| - 1].year.value;
    }
  }

  /** One entry per row: the years are distinct. */
  lemma {:induction false} YearlyVolumesSize(rows: seq<YearRow>)
    requires Complete(rows) && GroupedByYear(rows)
    ensures |YearlyVolumes(rows)| == |rows|
    decreases |rows|
  {
    if rows != [] {
      var p, x := rows[..|rows| - 1], rows[|rows| - 1];
      assert forall k :: 0 <= k < |p| ==> p[k] == rows[k];
      YearlyVolumesSize(p);
      assert forall k :: 0 <= k < |p| ==> p[k].year.value < x.year.value;
    }
  }

  /** The last row holds the latest year: the largest key, as `sorted(keys)[-1]` picks. */
  lemma LatestYearIsLargest(rows: seq<YearRow>, y: int)
    requires Complete(rows) && GroupedByYear(rows) && y in YearlyVolumes(rows)
    ensures y <= rows[|rows| - 1].year.value
  {
    var i :| 0 <= i < |rows| && rows[i].year.value == y;
    if i < |rows| - 1 {
      assert rows[i].year.value < rows[|rows| - 1].year.value;
    }
  }

  function Volumes(rows: seq<YearRow>): (v: seq<real>)
    requires Complete(rows)
    ensures |v| == |rows| && forall i :: 0 <= i < |rows| ==> v[i] == rows[i].totalQty.value
  {
    seq(|rows|, i requires 0 <= i < |rows| => rows[i].totalQty.value)
  }

  /** The mean of every year's total but the latest. */
  function HistoricalAverage(rows: seq<YearRow>): (avg: real)
    requires Complete(rows) && |rows| > 1
    ensures avg * (|rows| - 1) as real == Sum(Volumes(rows)[..|rows| - 1])
  {
    var h := Volumes(rows)[..|rows| - 1];
    DivMul(Sum(h), |h| as real);
    Sum(h) / |h| as real
  }

  /** `[row.latest_contract_id for row in results if row.latest_contract_id]`. */
  function SampleIds(rows: seq<YearRow>): (ids: seq<int>)
    ensures |ids| <= |rows|
    ensures forall x :: x in ids <==> exists i :: 0 <= i < |rows| && rows[i].latestContractId == Some(x) && x != 0
    decreases |rows|
  {
    if rows == [] then []
    else
      var p, x := rows[..|rows| - 1], rows[|rows| - 1];
      assert forall i :: 0 <= i < |p| ==> p[i] == rows[i];
      SampleIds(p) + if TruthyInt(x.latestContractId) then [x.latestContractId.value] else []
  }

  /** `s[-k:]`: the last `k` elements, or all of them. */
  function Last(s: seq<int>, k: nat): (r: seq<int>)
    ensures |r| == MinNat(k, |s|) && r == s[|s| - |r|..]
  {
    s[|s| - MinNat(k, |s|)..]
  }

  datatype Trend = Normal | Spike(year: int, volume: real, historicalAverage: real)

  datatype VolumeAnomalyResult = VolumeAnomalyResult(
    customerBin: string, enstruCode: string, yearlyVolumes: map<int, real>,
    isAnomalous: bool, description: Trend, topKLinks: seq<string>)

  /** No rows, the `TypeError` a row without a year or a total raises, or the report. */
  datatype VolumeOutcome = NoRows | TypeError | Report(result: VolumeAnomalyResult)

  /**
   * `detect_volume_anomaly`: the latest year is a spike when the earlier
   * years' mean is positive and the latest total exceeds twice that mean.
   */
  function DetectVolumeAnomaly(rows: seq<YearRow>, bin: string, code: string): (r: VolumeOutcome)
    requires GroupedByYear(rows)
    ensures r.NoRows? <==> rows == []
    ensures r.TypeError? <==> rows != [] && !Complete(rows)
    ensures r.Report? ==> var v := r.result; var last := rows[|rows| - 1];
      && v.customerBin == bin && v.enstruCode == code
      && v.yearlyVolumes == YearlyVolumes(rows)
      && (v.isAnomalous <==> v.description.Spike?)
      && (v.isAnomalous ==> |rows| > 1 && v.description == Spike(last.year.value, last.totalQty.value, HistoricalAverage(rows)))
      && (v.isAnomalous ==> v.description.volume > SpikeFactor * v.description.historicalAverage > 0.0)
      && v.topKLinks == Links(Last(SampleIds(rows), TopK))
  {
    if rows == [] then NoRows
    else if !Complete(rows) then TypeError
    else
      var last := rows[|rows| - 1];
      var trend :=
        if |rows| > 1 && HistoricalAverage(rows) > 0.0 && last.totalQty.value > HistoricalAverage(rows) * SpikeFactor
        then Spike(last.year.value, last.totalQty.value, HistoricalAverage(rows))
        else Normal;
      Report(VolumeAnomalyResult(bin, code, YearlyVolumes(rows), trend.Spike?, trend, Links(Last(SampleIds(rows), TopK))))
  }

  lemma SpikeByScale(latest: real, avg: real, s: real, m: real)
    requires m > 0.0 && avg * m == s
    ensures (avg > 0.0 && latest > avg * 2.0) <==> (s > 0.0 && latest * m > 2.0 * s)
  {
    ScaleStrict(avg, 0.0, m);
    ScaleStrict(latest, avg * 2.0, m);
    assert (avg * 2.0) * m == 2.0 * s;
  }

  /** The spike test as the source writes it, on the mean of the earlier years. */
  lemma VolumeSpikeOnMean(rows: seq<YearRow>, bin: string, code: string)
    requires GroupedByYear(rows) && Complete(rows) && rows != []
    ensures DetectVolumeAnomaly(rows, bin, code).result.isAnomalous <==>
      |rows| > 1 && HistoricalAverage(rows) > 0.0 && rows[|rows| - 1].totalQty.value > HistoricalAverage(rows) * SpikeFactor
  {
  }

  /**
   * The same test without division: at least two years, a positive sum of
   * the earlier totals, and the latest total times the number of earlier
   * years above twice that sum.
   */
  lemma VolumeSpikeIff(rows: seq<YearRow>, bin: string, code: string)
    requires GroupedByYear(rows) && Complete(rows) && rows != []
    ensures var n, h := |rows|, Sum(Volumes(rows)[..|rows| - 1]);
      DetectVolumeAnomaly(rows, bin, code).result.isAnomalous <==>
        n > 1 && h > 0.0 && rows[n - 1].totalQty.value * (n - 1) as real > 2.0 * h
  {
    VolumeSpikeOnMean(rows, bin, code);
    if |rows| > 1 {
      SpikeWithoutDivision(rows);
    }
  }

  lemma SpikeWithoutDivision(rows: seq<YearRow>)
    requires Complete(rows) && |rows| > 1
    ensures var n, h, avg := |rows|, Sum(Volumes(rows)[..|rows| - 1]), HistoricalAverage(rows);
      (avg > 0.0 && rows[n - 1].totalQty.value > avg * SpikeFactor) <==>
        (h > 0.0 && rows[n - 1].totalQty.value * (n - 1) as real > 2.0 * h)
  {
    SpikeByScale(rows[|rows| - 1].totalQty.value, HistoricalAverage(rows),
                 Sum(Volumes(rows)[..|rows| - 1]), (|rows| - 1) as real);
  }

  /** A single year is never a spike. */
  lemma SingleYearNormal(rows: seq<YearRow>, bin: string, code: string)
    requires GroupedByYear(rows) && Complete(rows) && |rows| == 1
    ensures DetectVolumeAnomaly(rows, bin, code).result.description == Normal
  {
  }

  // ------------------------------------------------------------- fair price bounds

  datatype PricedUnit = PricedUnit(price: real, contractId: int)

  /**
   * The bounds query: lines with a price, of a plan with the ENSTRU code and
   * an existing contract; the region and the signing year only when given
   * (truthy).
   */
  predicate SelectsFair(j: UnitJoin, code: string, kato: Option<string>, yearFilter: Option<int>) {
    && j.contract.Some? && j.plan.enstruCode == Some(code) && j.unit.itemPrice.Some?
    && (Truthy(kato) ==> j.plan.katoCode == kato)
    && (TruthyInt(yearFilter) ==> j.contract.value.crdate.Some? && j.contract.value.crdate.value.year == yearFilter.value)
  }

  function FairRows(joined: seq<UnitJoin>, code: string, kato: Option<string>, yearFilter: Option<int>): (r: seq<PricedUnit>)
    ensures |r| <= |joined|
    ensures forall x :: x in r <==> exists j :: (j in joined && SelectsFair(j, code, kato, yearFilter)
      && x == PricedUnit(j.unit.itemPrice.value, j.unit.contractId))
    decreases |joined|
  {
    if joined == [] then []
    else
      var p, j := joined[..|joined| - 1], joined[|joined| - 1];
      assert joined == p + [j];
      FairRows(p, code, kato, yearFilter)
        + if SelectsFair(j, code, kato, yearFilter) then [PricedUnit(j.unit.itemPrice.value, j.unit.contractId)] else []
  }

  /** A falsy region or year adds no filter. */
  lemma FairFiltersOptional(j: UnitJoin, code: string, kato: Option<string>, yearFilter: Option<int>)
    requires !Truthy(kato) && !TruthyInt(yearFilter)
    ensures SelectsFair(j, code, kato, yearFilter) == SelectsFair(j, code, None, None)
  {
  }

  function Prices(rows: seq<PricedUnit>): (p: seq<real>)
    ensures |p| == |rows| && forall i :: 0 <= i < |rows| ==> p[i] == rows[i].price
  {
    seq(|rows|, i requires 0 <= i < |rows| => rows[i].price)
  }

  function UnitContracts(rows: seq<PricedUnit>): (ids: seq<int>)
    ensures |ids| == |rows| && forall i :: 0 <= i < |rows| ==> ids[i] == rows[i].contractId
  {
    seq(|rows|, i requires 0 <= i < |rows| => rows[i].contractId)
  }

  /**
   * The three rows whose price is closest to the median, closest first, ties
   * by row order (`(price - median).abs().argsort()[:3]`).
   */
  function MedianClosest(prices: seq<real>, median: real): (idx: seq<nat>)
    ensures |idx| == MinNat(TopK, |prices|) && Picks(idx, prices) && NoRepeats(idx)
    ensures forall a, b :: 0 <= a < b < |idx| ==> Abs(prices[idx[a]] - median) <= Abs(prices[idx[b]] - median)
  {
    var keys := seq(|prices|, i requires 0 <= i < |prices| => Abs(prices[i] - median));
    var r := ArgSort(keys, |prices|);
    assert forall k :: 0 <= k < |r| ==> r[k] < |prices|;
    r[..MinNat(TopK, |prices|)]
  }

  /** No row left out is closer to the median than a picked one. */
  lemma MedianClosestNearest(prices: seq<real>, median: real, a: nat, j: nat)
    requires a < |MedianClosest(prices, median)| && j < |prices| && j !in MedianClosest(prices, median)
    ensures Abs(prices[MedianClosest(prices, median)[a]] - median) <= Abs(prices[j] - median)
  {
    var keys := seq(|prices|, i requires 0 <= i < |prices| => Abs(prices[i] - median));
    ArgSortPrefix(keys, MinNat(TopK, |prices|), a, j);
  }

  /** `str(year_filter) if year_filter else "All Time"`. */
  function TimePeriod(yearFilter: Option<int>): string {
    if TruthyInt(yearFilter) then IntToDecimal(yearFilter.value) else AllTime
  }

  /** The period names the filter: equal periods mean the same year, or no year filter. */
  lemma TimePeriodInjective(a: Option<int>, b: Option<int>)
    requires TimePeriod(a) == TimePeriod(b)
    ensures TruthyInt(a) <==> TruthyInt(b)
    ensures TruthyInt(a) ==> a.value == b.value
  {
    PrintedYearNotAllTime(a);
    PrintedYearNotAllTime(b);
    if TruthyInt(a) && TruthyInt(b) {
      IntToDecimalInjective(a.value, b.value);
    }
  }

  lemma PrintedYearNotAllTime(y: Option<int>)
    ensures TruthyInt(y) ==> TimePeriod(y)[0] != 'A'
  {
    if TruthyInt(y) && y.value >= 0 {
      assert IsDigit(NatToDecimal(y.value)[0]);
    }
  }

  function Confidence(n: nat): (c: string)
    ensures c == High <==> n >= HighConfidenceSample
    ensures c != High ==> c == Medium
  {
    if n >= HighConfidenceSample then High else Medium
  }

  datatype FairPriceResult = FairPriceResult(
    enstruCode: string, katoCode: Option<string>, timePeriod: string, medianPrice: real,
    fairMin: real, fairMax: real, confidence: string, topKLinks: seq<string>)

  /**
   * `get_fair_price_bounds`: nothing below three rows; otherwise the median,
   * Tukey's fences, the confidence by sample size, and the pages of the
   * contracts of the three lines priced closest to the median.
   */
  function GetFairPriceBounds(joined: seq<UnitJoin>, code: string, kato: Option<string>, yearFilter: Option<int>)
    : (r: Option<FairPriceResult>)
    ensures r.None? <==> |FairRows(joined, code, kato, yearFilter)| < 3
    ensures r.Some? ==> var rows := FairRows(joined, code, kato, yearFilter); var prices := Prices(rows); var v := r.value;
      && v.enstruCode == code && v.katoCode == kato && v.timePeriod == TimePeriod(yearFilter)
      && v.medianPrice == Quantile(prices, 0.5)
      && Fences(v.fairMin, v.fairMax) == TukeyFences(prices)
      && v.confidence == Confidence(|rows|)
      && v.topKLinks == Links(PickedContracts(UnitContracts(rows), MedianClosest(prices, v.medianPrice)))
  {
    var rows := FairRows(joined, code, kato, yearFilter);
    if |rows| < 3 then None
    else
      var prices := Prices(rows);
      var median := Median(prices);
      MedianIsQuantile(prices);
      var fences := TukeyFences(prices);
      var links := Links(PickedContracts(UnitContracts(rows), MedianClosest(prices, median)));
      Some(FairPriceResult(code, kato, TimePeriod(yearFilter), median, fences.lower, fences.upper,
                           Confidence(|rows|), links))
  }

  /** For non-negative prices the bounds bracket the median: 0 <= fair_min <= median <= fair_max. */
  lemma FairBoundsBracketMedian(joined: seq<UnitJoin>, code: string, kato: Option<string>, yearFilter: Option<int>)
    requires GetFairPriceBounds(joined, code, kato, yearFilter).Some?
    requires NonNegative(Prices(FairRows(joined, code, kato, yearFilter)))
    ensures var v := GetFairPriceBounds(joined, code, kato, yearFilter).value;
      0.0 <= v.fairMin <= v.medianPrice <= v.fairMax
  {
    var prices := Prices(FairRows(joined, code, kato, yearFilter));
    FencesOrdered(prices);
    MedianIsQuantile(prices);
  }
}
