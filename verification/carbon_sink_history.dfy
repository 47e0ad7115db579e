/** The carbon-sink history table: the year and region options derived from the records, the
    four-stage filter, the optional sort by a numeric column, and the record count of the footer. */
module CarbonSinkHistory {
  import opened Common
  import Text
  import Seqs
  import Sorting

  datatype SinkType = Forest | Green

  datatype HistoryItem = HistoryItem(
    id: string,
    year: string,
    kind: SinkType,
    region: string,
    area: real,
    unit: string,
    growthRate: real,
    carbonSink: real,
    lastUpdated: string)

  function SampleHistory(): seq<HistoryItem>
  {
    [ HistoryItem("1", "2023", Forest, "福州市", 16742.5, "km²", 1.0, 4200.0, "2023-11-15"),
      HistoryItem("2", "2023", Green, "福州市", 2850.8, "公顷", 4.0, 1200.0, "2023-11-15"),
      HistoryItem("3", "2023", Forest, "厦门市", 10480.3, "km²", 0.8, 2800.0, "2023-11-10"),
      HistoryItem("4", "2023", Green, "厦门市", 3250.5, "公顷", 5.2, 1400.0, "2023-11-10"),
      HistoryItem("5", "2022", Forest, "福州市", 16570.2, "km²", 1.2, 4050.0, "2022-12-05"),
      HistoryItem("6", "2022", Green, "福州市", 2740.6, "公顷", 4.2, 1150.0, "2022-12-05"),
      HistoryItem("7", "2022", Forest, "厦门市", 10400.1, "km²", 0.7, 2700.0, "2022-12-01"),
      HistoryItem("8", "2021", Forest, "福州市", 16379.8, "km²", 1.4, 3900.0, "2021-12-12"),
      HistoryItem("9", "2021", Green, "福州市", 2630.9, "公顷", 4.6, 1050.0, "2021-12-12"),
      HistoryItem("10", "2021", Forest, "泉州市", 14250.5, "km²", 1.3, 3800.0, "2021-12-10") ]
  }

  // ---------------------------------------------------------------------------------------------
  // Filter options
  // ---------------------------------------------------------------------------------------------

  function YearOf(): HistoryItem -> string
  {
    (it: HistoryItem) => it.year
  }

  function RegionOf(): HistoryItem -> string
  {
    (it: HistoryItem) => it.region
  }

  /** `b.localeCompare(a)` as a comparator: the later string first. */
  function Descending(): (string, string) -> bool
  {
    Sorting.Flip(Sorting.StringLess())
  }

  /** `uniqueYears`: each year of the records once, the latest first. */
  function UniqueYears(items: seq<HistoryItem>): (r: seq<string>)
    ensures forall y :: y in r <==> exists it :: it in items && it.year == y
    ensures Seqs.Distinct(r)
    ensures forall i, j :: 0 <= i < j < |r| ==> Text.StrLess(r[j], r[i])
  {
    var years := Seqs.Dedup(Seqs.Map(items, YearOf()));
    YearsOfItems(items);
    SortedDescendingDistinct(years);
    Sorting.SortBy(years, Descending())
  }

  lemma YearsOfItems(items: seq<HistoryItem>)
    ensures forall y :: y in Seqs.Map(items, YearOf()) <==> exists it :: it in items && it.year == y
  {
    var ys := Seqs.Map(items, YearOf());
    forall y | y in ys ensures exists it :: it in items && it.year == y {
      var k :| 0 <= k < |items| && ys[k] == y;
      assert items[k] in items;
    }
    forall it | it in items ensures it.year in ys {
      var k :| 0 <= k < |items| && items[k] == it;
      assert ys[k] == it.year;
    }
  }

  /** Sorting a list without repetitions newest first orders it strictly. */
  lemma SortedDescendingDistinct(years: seq<string>)
    requires Seqs.Distinct(years)
    ensures var r := Sorting.SortBy(years, Descending());
      && (forall y :: y in r <==> y in years)
      && Seqs.Distinct(r)
      && (forall i, j :: 0 <= i < j < |r| ==> Text.StrLess(r[j], r[i]))
  {
    var r := Sorting.SortBy(years, Descending());
    Sorting.StringLessIsStrictWeakOrder();
    Sorting.FlipIsStrictWeakOrder(Sorting.StringLess());
    Sorting.SortBySorted(years, Descending());
    Seqs.PermutationKeepsDistinct(years, r);
    assert forall y :: y in r <==> y in multiset(years);
    forall i, j | 0 <= i < j < |r| ensures Text.StrLess(r[j], r[i]) {
      assert !Descending()(r[j], r[i]);
      Text.StrLessTotal(r[i], r[j]);
    }
  }

  /** `uniqueRegions`: each region once, in the order of first appearance. */
  function UniqueRegions(items: seq<HistoryItem>): (r: seq<string>)
    ensures forall x :: x in r <==> x in Seqs.Map(items, RegionOf())
    ensures Seqs.Distinct(r)
    ensures Seqs.FirstAppearanceOrder(r, Seqs.Map(items, RegionOf()))
  {
    Seqs.Dedup(Seqs.Map(items, RegionOf()))
  }

  // ---------------------------------------------------------------------------------------------
  // The filter pipeline
  // ---------------------------------------------------------------------------------------------

  datatype HistoryQuery = HistoryQuery(search: string, year: Choice<string>, region: Choice<string>, kind: Choice<SinkType>)

  function SearchTest(term: string): HistoryItem -> bool
  {
    (it: HistoryItem) => term == [] || Text.Matches(it.region, term)
  }

  function YearTest(c: Choice<string>): HistoryItem -> bool
  {
    (it: HistoryItem) => Admits(c, it.year)
  }

  function RegionTest(c: Choice<string>): HistoryItem -> bool
  {
    (it: HistoryItem) => Admits(c, it.region)
  }

  function KindTest(c: Choice<SinkType>): HistoryItem -> bool
  {
    (it: HistoryItem) => Admits(c, it.kind)
  }

  /** A record survives when the search is empty or its region contains it, and the year, region
      and type are each 'all' or equal to the record's. */
  predicate Visible(it: HistoryItem, q: HistoryQuery)
  {
    SearchTest(q.search)(it) && YearTest(q.year)(it) && RegionTest(q.region)(it) && KindTest(q.kind)(it)
  }

  function VisibleUnder(q: HistoryQuery): HistoryItem -> bool
  {
    (it: HistoryItem) => Visible(it, q)
  }

  function SearchAndYear(q: HistoryQuery): HistoryItem -> bool
  {
    (it: HistoryItem) => SearchTest(q.search)(it) && YearTest(q.year)(it)
  }

  function SearchYearRegion(q: HistoryQuery): HistoryItem -> bool
  {
    (it: HistoryItem) => SearchAndYear(q)(it) && RegionTest(q.region)(it)
  }

  /** One stage of the pipeline: a filter applied only when its control is set. */
  function Stage<T(!new)>(items: seq<T>, active: bool, p: T -> bool): (r: seq<T>)
    ensures Seqs.SubseqOf(r, items)
    ensures !active ==> r == items
  {
    Seqs.FilterIsSubseq(items, p);
    Seqs.SubseqOfItself(items);
    if active then Seqs.Filter(items, p) else items
  }

  /** `filteredData` before sorting: search, then year, then region, then type. */
  function FilteredHistory(items: seq<HistoryItem>, q: HistoryQuery): seq<HistoryItem>
  {
    var searched := Stage(items, q.search != [], SearchTest(q.search));
    var byYear := Stage(searched, q.year != All, YearTest(q.year));
    var byRegion := Stage(byYear, q.region != All, RegionTest(q.region));
    Stage(byRegion, q.kind != All, KindTest(q.kind))
  }

  /** A stage that is off is the same as filtering by its test, which then admits everything. */
  lemma {:induction false} StageIsFilter<T(!new)>(items: seq<T>, active: bool, p: T -> bool)
    requires !active ==> forall x :: p(x)
    ensures Stage(items, active, p) == Seqs.Filter(items, p)
  {
    if !active {
      Seqs.FilterAll(items, p);
    }
  }

  /** The four stages together keep exactly the visible records, in their original order. */
  lemma PipelineIsOneFilter(items: seq<HistoryItem>, q: HistoryQuery)
    ensures FilteredHistory(items, q) == Seqs.Filter(items, VisibleUnder(q))
  {
    Text.MatchesEmptyTerm("");
    StageIsFilter(items, q.search != [], SearchTest(q.search));
    var searched := Seqs.Filter(items, SearchTest(q.search));
    StageIsFilter(searched, q.year != All, YearTest(q.year));
    Seqs.FilterFilter(items, SearchTest(q.search), YearTest(q.year), SearchAndYear(q));
    var byYear := Seqs.Filter(items, SearchAndYear(q));
    StageIsFilter(byYear, q.region != All, RegionTest(q.region));
    Seqs.FilterFilter(items, SearchAndYear(q), RegionTest(q.region), SearchYearRegion(q));
    var byRegion := Seqs.Filter(items, SearchYearRegion(q));
    StageIsFilter(byRegion, q.kind != All, KindTest(q.kind));
    Seqs.FilterFilter(items, SearchYearRegion(q), KindTest(q.kind), VisibleUnder(q));
  }

  // ---------------------------------------------------------------------------------------------
  // Sorting and the table
  // ---------------------------------------------------------------------------------------------

  /** The sortable headers: area, growth rate and carbon sink. */
  datatype SortKey = Area | GrowthRate | CarbonSink

  function KeyValue(key: SortKey): HistoryItem -> real
  {
    (it: HistoryItem) => match key case Area => it.area case GrowthRate => it.growthRate case CarbonSink => it.carbonSink
  }

  /** `a[key] < b[key] ? (asc ? -1 : 1) : a[key] > b[key] ? (asc ? 1 : -1) : 0` */
  function Order(c: SortConfig<SortKey>): (HistoryItem, HistoryItem) -> bool
  {
    Sorting.Column(KeyValue(c.key), c.direction == Asc)
  }

  /** `filteredData`: the surviving records, sorted stably when a sort is configured. */
  function HistoryView(items: seq<HistoryItem>, q: HistoryQuery, config: Option<SortConfig<SortKey>>): (r: seq<HistoryItem>)
    ensures multiset(r) == multiset(FilteredHistory(items, q))
    ensures config.None? ==> r == FilteredHistory(items, q)
  {
    match config
    case None => FilteredHistory(items, q)
    case Some(c) => Sorting.SortBy(FilteredHistory(items, q), Order(c))
  }

  /** With a sort configured, the table is a permutation of the survivors ordered by the column in
      the chosen direction; records with equal values keep their order. */
  lemma HistoryViewSorted(items: seq<HistoryItem>, q: HistoryQuery, c: SortConfig<SortKey>, i: nat, j: nat)
    requires i < j < |HistoryView(items, q, Some(c))|
    ensures var r := HistoryView(items, q, Some(c));
      c.direction == Asc ==> KeyValue(c.key)(r[i]) <= KeyValue(c.key)(r[j])
    ensures var r := HistoryView(items, q, Some(c));
      c.direction == Desc ==> KeyValue(c.key)(r[i]) >= KeyValue(c.key)(r[j])
  {
    Sorting.ColumnIsStrictWeakOrder(KeyValue(c.key), c.direction == Asc);
    Sorting.SortBySorted(FilteredHistory(items, q), Order(c));
  }

  lemma HistoryViewStable(items: seq<HistoryItem>, q: HistoryQuery, c: SortConfig<SortKey>, z: HistoryItem)
    ensures Seqs.Filter(HistoryView(items, q, Some(c)), y => Sorting.Equivalent(Order(c), y, z))
         == Seqs.Filter(FilteredHistory(items, q), y => Sorting.Equivalent(Order(c), y, z))
  {
    Sorting.ColumnIsStrictWeakOrder(KeyValue(c.key), c.direction == Asc);
    Sorting.SortByStable(FilteredHistory(items, q), Order(c), z);
  }

  /** The footer's `共 n 条记录`: the number of visible records, whatever the sort. */
  function FooterCount(items: seq<HistoryItem>, q: HistoryQuery, config: Option<SortConfig<SortKey>>): (n: nat)
    ensures n == |Seqs.Filter(items, VisibleUnder(q))|
  {
    PipelineIsOneFilter(items, q);
    |HistoryView(items, q, config)|
  }

  datatype HistoryScreen = HistoryScreen(
    query: HistoryQuery,
    sort: Option<SortConfig<SortKey>>,
    selected: Option<HistoryItem>,
    showDetails: bool)

  /** `handleSort`: descending only when the same column is currently ascending. */
  function ClickHeader(s: HistoryScreen, key: SortKey): (r: HistoryScreen)
    ensures r.sort.Some? && r.sort.value.key == key
    ensures r.sort.value.direction == Desc <==> s.sort == Some(SortConfig(key, Asc))
    ensures r.query == s.query && r.selected == s.selected && r.showDetails == s.showDetails
  {
    s.(sort := Some(RequestSort(s.sort, key)))
  }

  /** `handleViewDetails`: the record is selected and its dialog opened. */
  function ViewDetails(s: HistoryScreen, it: HistoryItem): (r: HistoryScreen)
    ensures r.selected == Some(it) && r.showDetails
    ensures r.query == s.query && r.sort == s.sort
  {
    s.(selected := Some(it), showDetails := true)
  }
}
