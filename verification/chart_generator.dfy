/** The chart generator: the dataset a data source selects, the colour palette of a scheme, and
    how the palette colours the series or the pie slices. */
module ChartGenerator {
  import Seqs

  datatype DataPoint = DataPoint(name: string, value: int)

  function MonthlyData(): seq<DataPoint>
  {
    [ DataPoint("一月", 3800), DataPoint("二月", 3200), DataPoint("三月", 3500), DataPoint("四月", 4100),
      DataPoint("五月", 3900), DataPoint("六月", 4200), DataPoint("七月", 4500), DataPoint("八月", 4800),
      DataPoint("九月", 4600), DataPoint("十月", 4000), DataPoint("十一月", 3800), DataPoint("十二月", 3900) ]
  }

  function RegionData(): seq<DataPoint>
  {
    [ DataPoint("惠安城区", 4200), DataPoint("东桥镇", 3600), DataPoint("崇武镇", 2800),
      DataPoint("黄塘镇", 2300), DataPoint("山霞镇", 1900), DataPoint("净峰镇", 1700) ]
  }

  function BuildingData(): seq<DataPoint>
  {
    [ DataPoint("政府办公楼", 3800), DataPoint("商业建筑", 3200), DataPoint("工业厂房", 2900),
      DataPoint("住宅小区", 2400), DataPoint("医院", 1800), DataPoint("学校", 1500) ]
  }

  function EnergyData(): seq<DataPoint>
  {
    [ DataPoint("电力", 5200), DataPoint("天然气", 3800), DataPoint("煤炭", 2600), DataPoint("汽油", 2100),
      DataPoint("柴油", 1900) ]
  }

  /** `getActiveData`: the dataset of the source, the region data for any unknown source. */
  function ActiveData(source: string): (r: seq<DataPoint>)
    ensures source == "building" ==> r == BuildingData()
    ensures source == "energy" ==> r == EnergyData()
    ensures source == "time" ==> r == MonthlyData()
    ensures source != "building" && source != "energy" && source != "time" ==> r == RegionData()
  {
    match source
    case "region" => RegionData()
    case "building" => BuildingData()
    case "energy" => EnergyData()
    case "time" => MonthlyData()
    case _ => RegionData()
  }

  /** Every source gives a non-empty dataset, so the first point and first colour always exist. */
  lemma ActiveDataNonEmpty(source: string)
    ensures 5 <= |ActiveData(source)| <= 12
  {
  }

  function GreenPalette(): seq<string>
  {
    ["#22c55e", "#16a34a", "#15803d", "#166534", "#14532d"]
  }

  /** `getColors`: the five shades of a scheme, green for any unknown scheme. */
  function Palette(scheme: string): (r: seq<string>)
    ensures |r| == 5
    ensures Seqs.Distinct(r)
    ensures scheme != "blue" && scheme != "purple" && scheme != "orange" ==> r == GreenPalette()
  {
    match scheme
    case "green" => GreenPalette()
    case "blue" => ["#3b82f6", "#2563eb", "#1d4ed8", "#1e40af", "#1e3a8a"]
    case "purple" => ["#a855f7", "#9333ea", "#7e22ce", "#6b21a8", "#581c87"]
    case "orange" => ["#f97316", "#ea580c", "#c2410c", "#9a3412", "#7c2d12"]
    case _ => GreenPalette()
  }

  /** Each named scheme has its own palette, and an unknown one is drawn exactly like green. */
  lemma PalettesDiffer(scheme: string)
    ensures Palette(scheme) == GreenPalette() <==> scheme != "blue" && scheme != "purple" && scheme != "orange"
  {
  }

  /** The line, bar and area charts draw the whole series in the palette's first colour. */
  function SeriesColor(scheme: string): (c: string)
    ensures c in Palette(scheme)
    ensures c == GreenPalette()[0] <==> scheme != "blue" && scheme != "purple" && scheme != "orange"
  {
    Palette(scheme)[0]
  }

  /** `data.map((entry, index) => colors[index % colors.length])`: slice `i` of the pie takes the
      palette colours in turn, starting over after the last one. */
  function PieColors(data: seq<DataPoint>, colors: seq<string>): (r: seq<string>)
    requires colors != []
    ensures |r| == |data|
    ensures forall i :: 0 <= i < |r| ==> r[i] in colors
    ensures forall i :: 0 <= i < |r| ==> r[i] == colors[i % |colors|]
  {
    seq(|data|, i requires 0 <= i < |data| => colors[i % |colors|])
  }

  /** Once the palette is used up the colours start over: slices `i` and `i + |colors|` share a
      colour. */
  lemma PieColorsRepeat(data: seq<DataPoint>, colors: seq<string>, i: nat)
    requires i < |colors| && i + |colors| < |data|
    ensures PieColors(data, colors)[i] == PieColors(data, colors)[i + |colors|]
  {
    ModShift(i, |colors|);
  }

  lemma ModShift(i: nat, n: nat)
    requires i < n
    ensures i % n == i && (i + n) % n == i
  {
  }

  /** With no more slices than colours, and a palette without repeats, every slice has its own
      colour. */
  lemma PieColorsDistinct(data: seq<DataPoint>, colors: seq<string>)
    requires colors != [] && |data| <= |colors| && Seqs.Distinct(colors)
    ensures Seqs.Distinct(PieColors(data, colors))
  {
    var r := PieColors(data, colors);
    forall i, j | 0 <= i < j < |r| ensures r[i] != r[j] {
      ModShift(i, |colors|);
      ModShift(j, |colors|);
      assert r[i] == colors[i] && r[j] == colors[j];
    }
  }

  /** The region pie has six slices and the palettes five colours, so its last slice, 净峰镇, is
      drawn in the same colour as the first, 惠安城区. */
  lemma RegionPieReusesFirstColor(scheme: string)
    ensures PieColors(ActiveData("region"), Palette(scheme))[5] == PieColors(ActiveData("region"), Palette(scheme))[0]
  {
    PieColorsRepeat(ActiveData("region"), Palette(scheme), 0);
  }
}
