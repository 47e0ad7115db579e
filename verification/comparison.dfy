/** The comparison-analysis view: which monthly series a comparison type and region select, with
    their fallbacks, and the summary of totals and growth percentage beside the chart. */
module Comparison {
  import opened Common

  /** A month of a year-on-year or month-on-month series. */
  datatype PairPoint = PairPoint(name: string, current: int, previous: int)

  /** A month of the benchmark series. */
  datatype BenchPoint = BenchPoint(name: string, value: int, benchmark: int)

  /** The radio group offers three types; anything else takes the `default` branch. */
  datatype ComparisonType = Yoy | Mom | Benchmark | OtherType

  datatype Series = Pairs(pairs: seq<PairPoint>) | Bench(bench: seq<BenchPoint>)

  const DefaultRegion: string := "惠安城区"

  function Months(): seq<string>
  {
    ["一月", "二月", "三月", "四月", "五月", "六月", "七月", "八月", "九月", "十月", "十一月", "十二月"]
  }

  function MomMonths(): seq<string>
  {
    ["2023年1月", "2023年2月", "2023年3月", "2023年4月", "2023年5月", "2023年6月",
     "2023年7月", "2023年8月", "2023年9月", "2023年10月", "2023年11月", "2023年12月"]
  }

  /** Twelve pair points from parallel lists of month names, current and previous values. */
  function Zip(names: seq<string>, cur: seq<int>, prev: seq<int>): (r: seq<PairPoint>)
    requires |names| == |cur| == |prev|
    ensures |r| == |names|
    ensures forall i :: 0 <= i < |r| ==> r[i] == PairPoint(names[i], cur[i], prev[i])
  {
    seq(|names|, i requires 0 <= i < |names| => PairPoint(names[i], cur[i], prev[i]))
  }

  function ZipBench(names: seq<string>, vals: seq<int>, bench: int): (r: seq<BenchPoint>)
    requires |names| == |vals|
    ensures |r| == |names|
    ensures forall i :: 0 <= i < |r| ==> r[i] == BenchPoint(names[i], vals[i], bench)
  {
    seq(|names|, i requires 0 <= i < |names| => BenchPoint(names[i], vals[i], bench))
  }

  function YoyData(): map<string, seq<PairPoint>>
  {
    map[
      "惠安城区" := Zip(Months(), [380, 320, 350, 410, 390, 420, 450, 480, 460, 400, 380, 390],
                                 [350, 300, 320, 380, 370, 390, 410, 430, 420, 380, 360, 370]),
      "东桥镇" := Zip(Months(), [320, 290, 300, 330, 340, 350, 370, 380, 350, 330, 310, 330],
                               [280, 260, 270, 290, 300, 310, 330, 340, 320, 300, 290, 310])]
  }

  function MomData(): map<string, seq<PairPoint>>
  {
    map[
      "惠安城区" := Zip(MomMonths(), [380, 320, 350, 410, 390, 420, 450, 480, 460, 400, 380, 390],
                                    [370, 380, 320, 350, 410, 390, 420, 450, 480, 460, 400, 380]),
      "东桥镇" := Zip(MomMonths(), [320, 290, 300, 330, 340, 350, 370, 380, 350, 330, 310, 330],
                                  [310, 320, 290, 300, 330, 340, 350, 370, 380, 350, 330, 310])]
  }

  function BenchmarkData(): map<string, seq<BenchPoint>>
  {
    map[
      "惠安城区" := ZipBench(Months(), [380, 320, 350, 410, 390, 420, 450, 480, 460, 400, 380, 390], 300),
      "东桥镇" := ZipBench(Months(), [320, 290, 300, 330, 340, 350, 370, 380, 350, 330, 310, 330], 250)]
  }

  /** `table[region] || table['惠安城区']`: a region without an entry reads the default region's. */
  function Lookup<T>(table: map<string, T>, region: string): (r: T)
    requires DefaultRegion in table
    ensures region in table ==> r == table[region]
    ensures region !in table ==> r == table[DefaultRegion]
  {
    if region in table then table[region] else table[DefaultRegion]
  }

  /** `getData`. */
  function GetData(t: ComparisonType, region: string): (r: Series)
    ensures t == Yoy ==> r == Pairs(Lookup(YoyData(), region))
    ensures t == Mom ==> r == Pairs(Lookup(MomData(), region))
    ensures t == Benchmark ==> r == Bench(Lookup(BenchmarkData(), region))
    ensures t == OtherType ==> r == Pairs(YoyData()[DefaultRegion])
    ensures r.Pairs? <==> t != Benchmark
  {
    match t
    case Yoy => Pairs(Lookup(YoyData(), region))
    case Mom => Pairs(Lookup(MomData(), region))
    case Benchmark => Bench(Lookup(BenchmarkData(), region))
    case OtherType => Pairs(YoyData()[DefaultRegion])
  }

  /** The region box offers four regions, but only two have series: 崇武镇 and 黄塘镇 show the
      figures of 惠安城区 whatever the comparison type. */
  lemma TownsWithoutSeriesShowDefault(t: ComparisonType)
    ensures GetData(t, "崇武镇") == GetData(t, DefaultRegion)
    ensures GetData(t, "黄塘镇") == GetData(t, DefaultRegion)
  {
  }

  /** Every region of the box gets a twelve-month series. */
  lemma EverySeriesHasTwelveMonths(t: ComparisonType, region: string)
    ensures GetData(t, region).Pairs? ==> |GetData(t, region).pairs| == 12
    ensures GetData(t, region).Bench? ==> |GetData(t, region).bench| == 12
  {
  }

  // ---------------------------------------------------------------------------------------------
  // Totals and growth
  // ---------------------------------------------------------------------------------------------

  function SumCurrent(s: seq<PairPoint>): int
  {
    if s == [] then 0 else SumCurrent(s[..|s| - 1]) + s[|s| - 1].current
  }

  function SumPrevious(s: seq<PairPoint>): int
  {
    if s == [] then 0 else SumPrevious(s[..|s| - 1]) + s[|s| - 1].previous
  }

  function SumValue(s: seq<BenchPoint>): int
  {
    if s == [] then 0 else SumValue(s[..|s| - 1]) + s[|s| - 1].value
  }

  function SumBenchmark(s: seq<BenchPoint>): int
  {
    if s == [] then 0 else SumBenchmark(s[..|s| - 1]) + s[|s| - 1].benchmark
  }

  /** `((a - b) / b * 100)` before `toFixed(1)`; `None` when `b` is 0, where JavaScript yields
      `Infinity` or `NaN`. */
  function Percentage(a: int, b: int): (r: Option<real>)
    ensures r.Some? <==> b != 0
    ensures b > 0 && r.Some? ==> (r.value > 0.0 <==> a > b)
    ensures b > 0 && r.Some? ==> (r.value == 0.0 <==> a == b)
  {
    if b == 0 then None else Some((a - b) as real / b as real * 100.0)
  }

  /** The summary beside the chart: the two totals and the percentage between them. */
  datatype Summary = Summary(total: int, reference: int, percentage: Option<real>)

  /** `calculateGrowthRates`: for benchmark comparison the actual and benchmark totals, otherwise
      the current and previous totals, with the difference as a percentage of the second. */
  function GrowthSummary(t: ComparisonType, region: string): (r: Summary)
    ensures GetData(t, region).Pairs? ==>
      r.total == SumCurrent(GetData(t, region).pairs) && r.reference == SumPrevious(GetData(t, region).pairs)
    ensures GetData(t, region).Bench? ==>
      r.total == SumValue(GetData(t, region).bench) && r.reference == SumBenchmark(GetData(t, region).bench)
    ensures r.percentage == Percentage(r.total, r.reference)
  {
    match GetData(t, region)
    case Bench(b) => Summary(SumValue(b), SumBenchmark(b), Percentage(SumValue(b), SumBenchmark(b)))
    case Pairs(p) => Summary(SumCurrent(p), SumPrevious(p), Percentage(SumCurrent(p), SumPrevious(p)))
  }

  /** The percentage is shown in red with a `+` exactly when it is above zero. */
  predicate ShownAsRise(s: Summary)
  {
    s.percentage.Some? && s.percentage.value > 0.0
  }

  /** When every month is above its reference, the current total is above the previous one. */
  lemma {:induction false} PairSumsDominate(s: seq<PairPoint>)
    requires forall i :: 0 <= i < |s| ==> s[i].current > s[i].previous
    ensures SumCurrent(s) >= SumPrevious(s)
    ensures s != [] ==> SumCurrent(s) > SumPrevious(s)
  {
    if s != [] {
      PairSumsDominate(s[..|s| - 1]);
    }
  }

  /** The sum of the previous values is positive when every value is. */
  lemma {:induction false} PreviousSumPositive(s: seq<PairPoint>)
    requires forall i :: 0 <= i < |s| ==> s[i].previous > 0
    ensures s != [] ==> SumPrevious(s) > 0
  {
    if s != [] {
      PreviousSumPositive(s[..|s| - 1]);
    }
  }

  lemma {:induction false} BenchSumsDominate(s: seq<BenchPoint>)
    requires forall i :: 0 <= i < |s| ==> s[i].value > s[i].benchmark > 0
    ensures s != [] ==> SumValue(s) > SumBenchmark(s) > 0
  {
    if s != [] {
      BenchSumsDominate(s[..|s| - 1]);
    }
  }

  /** Year on year, the dataset's months all lie above last year, and every benchmark month above
      its benchmark, so both show a rise for every region. */
  lemma SampleShowsRise(region: string)
    ensures ShownAsRise(GrowthSummary(Yoy, region))
    ensures ShownAsRise(GrowthSummary(Benchmark, region))
  {
    YoyRise(region);
    BenchmarkRise(region);
  }

  lemma YoyRise(region: string)
    ensures ShownAsRise(GrowthSummary(Yoy, region))
  {
    var y := Lookup(YoyData(), region);
    YoySeriesRise();
    assert Rising(y);
    PairSumsDominate(y);
    PreviousSumPositive(y);
  }

  /** Every month lies above its previous value, and that is positive. */
  predicate Rising(s: seq<PairPoint>)
  {
    forall i :: 0 <= i < |s| ==> s[i].current > s[i].previous > 0
  }

  lemma YoySeriesRise()
    ensures forall r :: r in YoyData() ==> Rising(YoyData()[r])
  {
    ZipRising(Months(), [380, 320, 350, 410, 390, 420, 450, 480, 460, 400, 380, 390],
                        [350, 300, 320, 380, 370, 390, 410, 430, 420, 380, 360, 370]);
    ZipRising(Months(), [320, 290, 300, 330, 340, 350, 370, 380, 350, 330, 310, 330],
                        [280, 260, 270, 290, 300, 310, 330, 340, 320, 300, 290, 310]);
  }

  lemma ZipRising(names: seq<string>, cur: seq<int>, prev: seq<int>)
    requires |names| == |cur| == |prev|
    requires forall i :: 0 <= i < |cur| ==> cur[i] > prev[i] > 0
    ensures Rising(Zip(names, cur, prev))
  {
  }

  /** Every month lies above its benchmark, and that is positive. */
  predicate AboveBenchmark(s: seq<BenchPoint>)
  {
    forall i :: 0 <= i < |s| ==> s[i].value > s[i].benchmark > 0
  }

  lemma BenchmarkSeriesAbove()
    ensures forall r :: r in BenchmarkData() ==> AboveBenchmark(BenchmarkData()[r])
  {
    ZipBenchAbove(Months(), [380, 320, 350, 410, 390, 420, 450, 480, 460, 400, 380, 390], 300);
    ZipBenchAbove(Months(), [320, 290, 300, 330, 340, 350, 370, 380, 350, 330, 310, 330], 250);
  }

  lemma ZipBenchAbove(names: seq<string>, vals: seq<int>, bench: int)
    requires |names| == |vals| && bench > 0
    requires forall i :: 0 <= i < |vals| ==> vals[i] > bench
    ensures AboveBenchmark(ZipBench(names, vals, bench))
  {
  }

  lemma BenchmarkRise(region: string)
    ensures ShownAsRise(GrowthSummary(Benchmark, region))
  {
    var b := Lookup(BenchmarkData(), region);
    BenchmarkSeriesAbove();
    assert AboveBenchmark(b);
    BenchSumsDominate(b);
  }
}
