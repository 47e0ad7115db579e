/** The building register page: the fixed building list, the search box and type cards that narrow
    it, the status labels, and the add dialog whose save button only closes the dialog. */
module Buildings {
  import opened Common
  import Text
  import Seqs

  datatype BuildingStatus = Active | Inactive | Maintenance

  datatype Building = Building(
    id: string,
    name: string,
    code: string,
    kind: string,
    area: int,
    location: string,
    organization: string,
    latitude: real,
    longitude: real,
    status: BuildingStatus,
    lastUpdate: string)

  datatype BuildingType = BuildingType(id: string, name: string, count: nat)

  function SampleBuildingTypes(): seq<BuildingType>
  {
    [ BuildingType("1", "办公楼", 42), BuildingType("2", "住宅楼", 28), BuildingType("3", "商业建筑", 15),
      BuildingType("4", "工业厂房", 9), BuildingType("5", "医疗机构", 6), BuildingType("6", "教育建筑", 12),
      BuildingType("7", "文化建筑", 8), BuildingType("8", "交通建筑", 4), BuildingType("9", "其他", 4) ]
  }

  function SampleBuildings(): seq<Building>
  {
    [ Building("1", "福建省行政中心主楼", "FJ-XZ-01", "办公楼", 12500, "福建省福州市鼓楼区东水路76号",
               "福建省政府办公厅", 26.0745, 119.3059, Active, "2023-05-15"),
      Building("2", "环保大厦", "FJ-HB-01", "办公楼", 8200, "福建省福州市鼓楼区八一七北路",
               "福建省环保厅", 26.0812, 119.2943, Active, "2023-06-21"),
      Building("3", "福州市民服务中心", "FZ-FW-01", "办公楼", 5600, "福建省福州市鼓楼区五四路",
               "福州市政务服务中心", 26.0891, 119.3023, Maintenance, "2023-04-30"),
      Building("4", "海峡国际会展中心", "FZ-HZ-01", "商业建筑", 22000, "福建省福州市仓山区城门镇",
               "福州市文旅局", 26.0216, 119.3181, Active, "2023-06-05"),
      Building("5", "福建师范大学旗山校区图书馆", "FZ-JY-01", "教育建筑", 15800, "福建省福州市闽侯县上街镇",
               "福建师范大学", 26.0789, 119.1922, Active, "2023-05-28") ]
  }

  // ---------------------------------------------------------------------------------------------
  // Search and type cards
  // ---------------------------------------------------------------------------------------------

  predicate SearchHits(b: Building, term: string)
  {
    term == [] || Text.Matches(b.name, term) || Text.Matches(b.code, term) || Text.Matches(b.location, term)
  }

  /** `selectedType` is `None` when no card is selected. */
  predicate Visible(b: Building, term: string, selectedType: Option<string>)
  {
    SearchHits(b, term) && (selectedType.None? || b.kind == selectedType.value)
  }

  /** `filteredBuildings`: the buildings passing the search and the type card, in list order. */
  function FilteredBuildings(buildings: seq<Building>, term: string, selectedType: Option<string>): (r: seq<Building>)
    ensures forall b :: b in r <==> b in buildings && Visible(b, term, selectedType)
    ensures Seqs.SubseqOf(r, buildings)
    ensures forall b: Building :: multiset(r)[b] == if Visible(b, term, selectedType) then multiset(buildings)[b] else 0
  {
    var keep := (b: Building) => Visible(b, term, selectedType);
    Seqs.FilterIsSubseq(buildings, keep);
    Seqs.FilterMultiset(buildings, keep);
    Seqs.Filter(buildings, keep)
  }

  /** With no search and no card selected, every building is shown, in order. */
  lemma {:induction false} NoFilterShowsAll(buildings: seq<Building>)
    ensures FilteredBuildings(buildings, "", None) == buildings
  {
    Seqs.FilterAll(buildings, (b: Building) => Visible(b, "", None));
  }

  /** A click on a type card: it selects that type, or clears the selection when it was the
      selected one. */
  function ClickTypeCard(selected: Option<string>, name: string): (r: Option<string>)
    ensures r == None <==> selected == Some(name)
    ensures r == Some(name) <==> selected != Some(name)
  {
    if selected == Some(name) then None else Some(name)
  }

  /** Clicking the same card twice from no selection returns to no selection; clicking a second card
      moves the selection to it. */
  lemma ClickTypeCardTwice(name: string, other: string)
    ensures ClickTypeCard(ClickTypeCard(None, name), name) == None
    ensures other != name ==> ClickTypeCard(ClickTypeCard(None, name), other) == Some(other)
  {
  }

  // ---------------------------------------------------------------------------------------------
  // Status labels
  // ---------------------------------------------------------------------------------------------

  /** `getStatusText`. */
  function StatusText(s: BuildingStatus): string
  {
    match s
    case Active => "使用中"
    case Inactive => "未使用"
    case Maintenance => "维护中"
  }

  datatype Hue = GreenHue | RoseHue | AmberHue

  /** `getStatusColor`, by the hue of its badge classes. */
  function StatusHue(s: BuildingStatus): Hue
  {
    match s
    case Active => GreenHue
    case Inactive => RoseHue
    case Maintenance => AmberHue
  }

  /** Badge colour and label agree: two statuses share a hue exactly when they share a label. */
  lemma StatusHueMatchesText(a: BuildingStatus, b: BuildingStatus)
    ensures StatusHue(a) == StatusHue(b) <==> StatusText(a) == StatusText(b)
    ensures StatusHue(a) == StatusHue(b) <==> a == b
  {
  }

  /** Reading a label back: the inverse of `StatusText`. */
  function StatusOfText(t: string): (r: Option<BuildingStatus>)
    ensures forall s :: r == Some(s) <==> t == StatusText(s)
  {
    if t == "使用中" then Some(Active) else if t == "未使用" then Some(Inactive)
    else if t == "维护中" then Some(Maintenance) else None
  }

  /** Each status has its own label, so the label tells the status. */
  lemma StatusTextRoundTrip(s: BuildingStatus)
    ensures StatusOfText(StatusText(s)) == Some(s)
  {
  }

  // ---------------------------------------------------------------------------------------------
  // The page and its add dialog
  // ---------------------------------------------------------------------------------------------

  /** The add dialog's fields as typed: numbers are kept as the text in their inputs. */
  datatype BuildingDraft = BuildingDraft(
    name: string, code: string, kind: string, area: string, location: string,
    organization: string, latitude: string, longitude: string, status: BuildingStatus)

  datatype Page = Page(
    search: string,
    selectedType: Option<string>,
    addDialogOpen: bool,
    detailsOpen: bool,
    selected: Option<Building>,
    draft: BuildingDraft)

  function InitialPage(): Page
  {
    Page("", None, false, false, None, BuildingDraft("", "", "办公楼", "", "", "", "", "", Active))
  }

  /** `handleViewDetails`: the building is selected and its dialog opened; the list is untouched. */
  function ViewDetails(p: Page, b: Building): (r: Page)
    ensures r.selected == Some(b) && r.detailsOpen
    ensures Shown(r) == Shown(p) && r.draft == p.draft && r.addDialogOpen == p.addDialogOpen
  {
    p.(selected := Some(b), detailsOpen := true)
  }

  /** The shown buildings: the page filters the fixed sample list. */
  function Shown(p: Page): seq<Building>
  {
    FilteredBuildings(SampleBuildings(), p.search, p.selectedType)
  }

  /** The save button of the add dialog closes the dialog and does nothing else: the draft is kept
      and the shown list does not change. */
  function SaveNewBuilding(p: Page): (r: Page)
    ensures !r.addDialogOpen
    ensures r.draft == p.draft && r.search == p.search && r.selectedType == p.selectedType
    ensures r.selected == p.selected && r.detailsOpen == p.detailsOpen
  {
    p.(addDialogOpen := false)
  }

  lemma SaveAddsNothing(p: Page)
    ensures Shown(SaveNewBuilding(p)) == Shown(p)
    ensures |Shown(SaveNewBuilding(p))| <= |SampleBuildings()|
  {
  }
}
