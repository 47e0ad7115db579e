/** The emission ranking bar chart: the dataset a filter selects, its descending order by value,
    the title and caption, and the drill-down click that only the region ranking offers. */
module RegionalRanking {
  import opened Common
  import Sorting

  datatype RankItem = RankItem(name: string, value: int)

  function RegionData(): seq<RankItem>
  {
    [ RankItem("惠安城区", 4200), RankItem("东桥镇", 3600), RankItem("崇武镇", 2800), RankItem("黄塘镇", 2300),
      RankItem("山霞镇", 1900), RankItem("净峰镇", 1700), RankItem("螺阳镇", 1400), RankItem("张坂镇", 1100) ]
  }

  function BuildingData(): seq<RankItem>
  {
    [ RankItem("政府办公楼", 3800), RankItem("商业建筑", 3200), RankItem("工业厂房", 2900), RankItem("住宅小区", 2400),
      RankItem("医院", 1800), RankItem("学校", 1500), RankItem("文化场馆", 900), RankItem("其他", 600) ]
  }

  function EnergyData(): seq<RankItem>
  {
    [ RankItem("电力", 5200), RankItem("天然气", 3800), RankItem("煤炭", 2600), RankItem("汽油", 2100),
      RankItem("柴油", 1900), RankItem("其他", 800) ]
  }

  /** `getData`: the dataset of the filter, the region data for any other filter. */
  function GetData(filter: string): (r: seq<RankItem>)
    ensures filter == "building" ==> r == BuildingData()
    ensures filter == "energy" ==> r == EnergyData()
    ensures filter != "building" && filter != "energy" ==> r == RegionData()
  {
    if filter == "region" then RegionData()
    else if filter == "building" then BuildingData()
    else if filter == "energy" then EnergyData()
    else RegionData()
  }

  function ValueOf(): RankItem -> real
  {
    (x: RankItem) => x.value as real
  }

  /** `(a, b) => b.value - a.value`: the larger value first. */
  function ByValueDescending(): (RankItem, RankItem) -> bool
  {
    Sorting.Column(ValueOf(), false)
  }

  /** No value is above the one before it. */
  predicate Descending(s: seq<RankItem>)
  {
    forall i, j :: 0 <= i < j < |s| ==> s[i].value >= s[j].value
  }

  /** Sorting any dataset by the comparator leaves it largest first. */
  lemma SortDescending(data: seq<RankItem>)
    ensures multiset(Sorting.SortBy(data, ByValueDescending())) == multiset(data)
    ensures Descending(Sorting.SortBy(data, ByValueDescending()))
  {
    Sorting.ColumnIsStrictWeakOrder(ValueOf(), false);
    Sorting.SortBySorted(data, ByValueDescending());
  }

  /** The bars, in the order `sort` leaves them: the selected dataset, largest value first. */
  function Ranked(filter: string): (r: seq<RankItem>)
    ensures multiset(r) == multiset(GetData(filter))
    ensures Descending(r)
  {
    var data := GetData(filter);
    SortDescending(data);
    Sorting.SortBy(data, ByValueDescending())
  }

  lemma DatasetsDescending()
    ensures Descending(RegionData()) && Descending(BuildingData()) && Descending(EnergyData())
  {
    StepwiseDescending(RegionData());
    StepwiseDescending(BuildingData());
    StepwiseDescending(EnergyData());
  }

  /** A list whose every value is at most the one before it is descending. */
  lemma {:induction false} StepwiseDescending(s: seq<RankItem>)
    requires forall i :: 0 < i < |s| ==> s[i - 1].value >= s[i].value
    ensures Descending(s)
  {
    if s != [] {
      var t := s[1..];
      StepwiseDescending(t);
      forall i, j | 0 <= i < j < |s| ensures s[i].value >= s[j].value {
        assert s[j] == t[j - 1];
        if i > 0 {
          assert s[i] == t[i - 1];
        } else if j > 1 {
          assert s[1] == t[0];
        }
      }
    }
  }

  /** A dataset listed largest first is left as it is by the sort. */
  lemma SortKeepsDescending(data: seq<RankItem>)
    requires Descending(data)
    ensures Sorting.SortBy(data, ByValueDescending()) == data
  {
    Sorting.SortBySortedIsIdentity(data, ByValueDescending());
  }

  /** Each dataset is already listed largest first, so the sort, which rearranges the shared array in
      place on every render, leaves it as it is. */
  lemma RankingKeepsDatasetOrder(filter: string)
    ensures Ranked(filter) == GetData(filter)
  {
    DatasetsDescending();
    SortKeepsDescending(GetData(filter));
  }

  /** `getTitle`: the name of what is ranked, `区域` for any unknown filter. */
  function Title(filter: string): (r: string)
    ensures filter == "building" ==> r == "建筑类型"
    ensures filter == "energy" ==> r == "能源类型"
    ensures filter != "building" && filter != "energy" ==> r == "区域"
  {
    if filter == "region" then "区域"
    else if filter == "building" then "建筑类型"
    else if filter == "energy" then "能源类型"
    else "区域"
  }

  /** The title always names the dataset that is shown. */
  lemma TitleMatchesData(filter: string)
    ensures Title(filter) == "区域" <==> GetData(filter) == RegionData()
  {
    assert RegionData()[0] != BuildingData()[0];
    assert RegionData()[0] != EnergyData()[0];
  }

  /** The caption under the chart: a hint to click in region mode, the ranking's title otherwise. */
  function Caption(filter: string): (r: string)
    ensures filter == "region" ==> r == "点击区域查看详情"
    ensures filter != "region" ==> r == "按" + Title(filter) + "排序的碳排放量"
  {
    if filter == "region" then "点击区域查看详情" else "按" + Title(filter) + "排序的碳排放量"
  }

  /** `handleClick`: the callback receives the clicked bar's name, only when the filter is
      exactly `region`; with any other filter, even one that shows the region data, nothing happens. */
  function HandleClick(filter: string, bar: RankItem): (r: Option<string>)
    ensures r.Some? <==> filter == "region"
    ensures r.Some? ==> r.value == bar.name
  {
    if filter == "region" then Some(bar.name) else None
  }

  /** An unknown filter shows the region bars but does not drill down. */
  lemma UnknownFilterShowsRegionsWithoutClick(bar: RankItem)
    ensures GetData("") == RegionData() && HandleClick("", bar).None?
  {
  }
}
