/** The organisation tree widget: the recursive node type, which nodes start expanded, which rows a
    tree shows for a given expansion state, and what clicks on a row or on its chevron do. */
module OrgTree {
  import opened Common
  import Seqs

  datatype NodeType = Province | City | County | Organization | BuildingNode

  /** `children` is optional in the source: `NoList` is an absent list, distinct from an empty one. */
  datatype ChildList = NoList | ListOf(nodes: seq<Node>)

  datatype Node = Node(
    id: string,
    name: string,
    code: string,
    kind: NodeType,
    responsible: string,
    location: string,
    children: ChildList)

  /** `hasChildren`: a list is present and not empty. */
  predicate HasChildren(n: Node)
  {
    n.children.ListOf? && |n.children.nodes| > 0
  }

  /** The children as a list, an absent list read as empty. */
  function Kids(n: Node): (r: seq<Node>)
    ensures |r| > 0 <==> HasChildren(n)
    ensures forall c :: c in r ==> c < n
  {
    match n.children
    case NoList => []
    case ListOf(cs) =>
      assert n.children < n;
      assert forall c :: c in cs ==> c < n.children;
      cs
  }

  datatype Icon = BuildingIcon | UsersIcon | PinIcon

  /** `getTypeIcon`: buildings and organisations have their own icon, every region level a pin. */
  function TypeIcon(t: NodeType): (r: Icon)
    ensures r == BuildingIcon <==> t == BuildingNode
    ensures r == UsersIcon <==> t == Organization
    ensures r == PinIcon <==> t in {Province, City, County}
  {
    match t
    case BuildingNode => BuildingIcon
    case Organization => UsersIcon
    case _ => PinIcon
  }

  // ---------------------------------------------------------------------------------------------
  // Expansion and the rendered rows
  // ---------------------------------------------------------------------------------------------

  /** A node instance is addressed by its path of child positions from the root; its depth (`level`)
      is the path's length. */
  type Path = seq<nat>

  /** `useState(level < 1)`: only the root starts expanded. */
  predicate InitiallyExpanded(level: nat)
  {
    level < 1
  }

  /** The expansion state: the set of node instances whose chevron has been clicked an odd number of
      times, each differing from its initial state. */
  predicate Expanded(flipped: set<Path>, path: Path)
  {
    InitiallyExpanded(|path|) != (path in flipped)
  }

  datatype Row = Row(id: string, level: nat)

  /** The rows shown for `n` at `path`: its own row, then (only when it is expanded and has children)
      the rows of each child, in order, one level deeper. */
  function Rows(n: Node, path: Path, flipped: set<Path>): (r: seq<Row>)
    ensures |r| >= 1 && r[0] == Row(n.id, |path|)
    ensures forall k :: 0 <= k < |r| ==> r[k].level >= |path|
    ensures forall k :: 1 <= k < |r| ==> r[k].level > |path|
    ensures |r| > 1 ==> Expanded(flipped, path) && HasChildren(n)
    ensures |r| <= Size(n)
    decreases n, 1
  {
    var shown := if Expanded(flipped, path) && HasChildren(n) then ChildRows(n, Kids(n), path, flipped) else [];
    [Row(n.id, |path|)] + shown
  }

  /** The rows of `cs`, the children of `parent` at `path`, each rendered at `path + [position]`. */
  function ChildRows(parent: Node, cs: seq<Node>, path: Path, flipped: set<Path>): (r: seq<Row>)
    requires forall c :: c in cs ==> c < parent
    ensures forall k :: 0 <= k < |r| ==> r[k].level > |path|
    ensures |r| <= SizeOf(parent, cs)
    ensures |r| >= |cs|
    decreases parent, 0, |cs|
  {
    if cs == [] then []
    else
      var init := cs[..|cs| - 1];
      assert forall c :: c in init ==> c in cs;
      assert cs[|cs| - 1] in cs;
      ChildRows(parent, init, path, flipped) + Rows(cs[|cs| - 1], path + [|cs| - 1], flipped)
  }

  /** The number of nodes of a tree. */
  function Size(n: Node): (r: nat)
    ensures r >= 1
    decreases n, 1
  {
    1 + SizeOf(n, Kids(n))
  }

  /** The number of nodes of the trees `cs`, children of `parent`. */
  function SizeOf(parent: Node, cs: seq<Node>): nat
    requires forall c :: c in cs ==> c < parent
    decreases parent, 0, |cs|
  {
    if cs == [] then 0
    else
      var init := cs[..|cs| - 1];
      assert forall c :: c in init ==> c in cs;
      assert cs[|cs| - 1] in cs;
      SizeOf(parent, init) + Size(cs[|cs| - 1])
  }

  /** The initial tree: the root row, then one row per child of the root at level 1, since no
      child starts expanded. */
  lemma InitialRows(n: Node)
    ensures Rows(n, [], {}) == [Row(n.id, 0)] + Seqs.Map(Kids(n), RowAt(1))
  {
    var empty: set<Path> := {};
    if HasChildren(n) {
      assert Expanded(empty, []);
      CollapsedChildRows(n, Kids(n), [], empty);
      ExpandedRows(n, [], empty);
    }
  }

  /** An expanded node with children shows its own row, then its children's rows. */
  lemma ExpandedRows(n: Node, path: Path, flipped: set<Path>)
    requires Expanded(flipped, path) && HasChildren(n)
    ensures Rows(n, path, flipped) == [Row(n.id, |path|)] + ChildRows(n, Kids(n), path, flipped)
  {
  }

  /** Children none of whose subtrees carries a flip show their own rows only, one level below the
      parent. */
  lemma {:induction false} CollapsedChildRows(parent: Node, cs: seq<Node>, path: Path, flipped: set<Path>)
    requires forall c :: c in cs ==> c < parent
    requires forall q :: q in flipped ==> !(path < q)
    ensures ChildRows(parent, cs, path, flipped) == Seqs.Map(cs, RowAt(|path| + 1))
    decreases |cs|
  {
    if cs != [] {
      var init := cs[..|cs| - 1];
      assert forall c :: c in init ==> c in cs;
      CollapsedChildRows(parent, init, path, flipped);
      CollapsedChild(cs[|cs| - 1], path, |cs| - 1, flipped);
      assert ChildRows(parent, cs, path, flipped)
          == ChildRows(parent, init, path, flipped) + Rows(cs[|cs| - 1], path + [|cs| - 1], flipped);
      Seqs.MapSnoc(cs, RowAt(|path| + 1));
    }
  }

  /** A child of a node none of whose descendants is flipped shows its own row only. */
  lemma CollapsedChild(c: Node, path: Path, k: nat, flipped: set<Path>)
    requires forall q :: q in flipped ==> !(path < q)
    ensures Rows(c, path + [k], flipped) == [RowAt(|path| + 1)(c)]
  {
    var child := path + [k];
    assert path < child;
    CollapsedShowsOneRow(c, child, flipped);
  }

  /** The row of a node at the given level. */
  function RowAt(level: nat): Node -> Row
  {
    (c: Node) => Row(c.id, level)
  }

  /** A collapsed node, or one without children, shows its own row only. */
  lemma CollapsedShowsOneRow(n: Node, path: Path, flipped: set<Path>)
    requires !Expanded(flipped, path) || !HasChildren(n)
    ensures Rows(n, path, flipped) == [Row(n.id, |path|)]
  {
  }

  // ---------------------------------------------------------------------------------------------
  // Clicks
  // ---------------------------------------------------------------------------------------------

  datatype TreeState = TreeState(flipped: set<Path>, selectedId: Option<string>)

  /** A click on the chevron: it flips that node's expansion and does not select the node. The
      node's subtree is unmounted when it collapses and mounted afresh when it expands, so every node
      below it is back in its initial state; every other node keeps its expansion. */
  function ClickChevron(s: TreeState, path: Path): (r: TreeState)
    ensures Expanded(r.flipped, path) == !Expanded(s.flipped, path)
    ensures forall q :: path < q ==> Expanded(r.flipped, q) == InitiallyExpanded(|q|)
    ensures forall q :: q != path && !(path < q) ==> Expanded(r.flipped, q) == Expanded(s.flipped, q)
    ensures r.selectedId == s.selectedId
  {
    var kept := set q | q in s.flipped && !(path < q);
    if path in s.flipped then s.(flipped := kept - {path}) else s.(flipped := kept + {path})
  }

  /** Two clicks on the same chevron give back the node's own expansion but reset everything below
      it; they restore the whole tree exactly when nothing below the node had been flipped. */
  lemma ClickChevronTwice(s: TreeState, path: Path)
    ensures ClickChevron(ClickChevron(s, path), path) == s.(flipped := set q | q in s.flipped && !(path < q))
    ensures ClickChevron(ClickChevron(s, path), path) == s <==> forall q :: q in s.flipped ==> !(path < q)
  {
    var kept := set q | q in s.flipped && !(path < q);
    var twice := ClickChevron(ClickChevron(s, path), path);
    assert twice.flipped == kept;
    if twice == s {
      forall q | q in s.flipped ensures !(path < q) {
        assert q in kept;
      }
    }
  }

  /** Collapsing an expanded node and opening it again shows each child's own row only, however
      deep the tree was open before. */
  lemma ReopenShowsChildrenCollapsed(n: Node, s: TreeState, path: Path)
    requires Expanded(s.flipped, path) && HasChildren(n)
    ensures var r := ClickChevron(ClickChevron(s, path), path);
            Rows(n, path, r.flipped) == [Row(n.id, |path|)] + Seqs.Map(Kids(n), RowAt(|path| + 1))
  {
    var r := ClickChevron(ClickChevron(s, path), path);
    ClickChevronTwice(s, path);
    CollapsedChildRows(n, Kids(n), path, r.flipped);
  }

  /** A click on the row: it selects the node and changes no expansion. The page hands the tree
      `selectedNode?.id || null`, so a node whose id is empty selects no id at all. */
  function ClickRow(s: TreeState, n: Node): (r: TreeState)
    ensures r.selectedId.Some? <==> n.id != ""
    ensures r.selectedId.Some? ==> r.selectedId.value == n.id
    ensures r.flipped == s.flipped
  {
    s.(selectedId := if n.id == "" then None else Some(n.id))
  }

  /** The row is highlighted exactly when its node is the selected one. */
  predicate Highlighted(s: TreeState, n: Node)
  {
    s.selectedId == Some(n.id)
  }

  lemma ClickRowHighlightsOnlyIt(s: TreeState, n: Node, m: Node)
    ensures Highlighted(ClickRow(s, n), m) <==> n.id != "" && m.id == n.id
  {
  }
}

/** The organisation page: the type labels, the subordinate-count table of the selected node, and
    the add dialog whose save button only closes it. */
module OrgSummary {
  import opened Common
  import opened OrgTree

  /** `getTypeText`. */
  function TypeText(t: NodeType): string
  {
    match t
    case Province => "省级"
    case City => "市级"
    case County => "县区级"
    case Organization => "单位"
    case BuildingNode => "楼栋"
  }

  /** Reading a label back: the inverse of `TypeText`. */
  function TypeOfText(s: string): (r: Option<NodeType>)
    ensures forall t :: r == Some(t) <==> s == TypeText(t)
  {
    if s == "省级" then Some(Province) else if s == "市级" then Some(City)
    else if s == "县区级" then Some(County) else if s == "单位" then Some(Organization)
    else if s == "楼栋" then Some(BuildingNode) else None
  }

  lemma TypeTextRoundTrip(t: NodeType)
    ensures TypeOfText(TypeText(t)) == Some(t)
  {
  }

  /** `children?.length || 0`. */
  function ChildCount(n: Node): (r: nat)
    ensures r == |Kids(n)|
    ensures r == 0 <==> !HasChildren(n)
  {
    if n.children.NoList? then 0 else |n.children.nodes|
  }

  /** Sum of the children counts of `cs`, as the `reduce` over the cities of a province. */
  function GrandchildCount(cs: seq<Node>): (r: nat)
    ensures (forall k :: 0 <= k < |cs| ==> !HasChildren(cs[k])) ==> r == 0
    ensures r == 0 ==> forall k :: 0 <= k < |cs| ==> !HasChildren(cs[k])
  {
    if cs == [] then 0 else GrandchildCount(cs[..|cs| - 1]) + ChildCount(cs[|cs| - 1])
  }

  /** The city row: the number of children of a province, 0 for every other level. */
  function CityCount(n: Node): (r: nat)
    ensures r != 0 ==> n.kind == Province && HasChildren(n)
    ensures n.kind == Province ==> r == ChildCount(n)
  {
    if n.kind == Province then ChildCount(n) else 0
  }

  /** The county row as written: for a province it is the sum of the grandchildren counts, but when
      the province has no `children` list at all the optional-chained `reduce` yields `undefined`,
      rendered as an empty cell (`None` here) instead of 0. */
  function CountyCountAsWritten(n: Node): (r: Option<nat>)
    ensures r.None? <==> n.kind == Province && n.children.NoList?
    ensures n.kind == Province && n.children.ListOf? ==> r == Some(GrandchildCount(n.children.nodes))
    ensures n.kind == City ==> r == Some(ChildCount(n))
  {
    if n.kind == Province then
      (if n.children.NoList? then None else Some(GrandchildCount(n.children.nodes)))
    else if n.kind == City then Some(ChildCount(n))
    else Some(0)
  }

  /** A province without a children list shows no county count at all. */
  lemma CountyCountBlankForBareProvince()
    ensures CountyCountAsWritten(Node("p", "省", "P", Province, "", "", NoList)).None?
  {
  }

  /** The county row as the other rows are written, with `|| 0`: an absent list counts as 0. */
  function CountyCount(n: Node): (r: nat)
    ensures n.kind == Province ==> r == GrandchildCount(Kids(n))
    ensures n.kind == City ==> r == ChildCount(n)
    ensures n.kind != Province && n.kind != City ==> r == 0
    ensures CountyCountAsWritten(n).Some? ==> r == CountyCountAsWritten(n).value
  {
    if n.kind == Province then GrandchildCount(Kids(n))
    else if n.kind == City then ChildCount(n)
    else 0
  }

  /** The direct-unit row: the children of a county. */
  function DirectUnitCount(n: Node): (r: nat)
    ensures r != 0 ==> n.kind == County && HasChildren(n)
    ensures n.kind == County ==> r == ChildCount(n)
  {
    if n.kind == County then ChildCount(n) else 0
  }

  /** The building row: the children of an organisation. */
  function BuildingCount(n: Node): (r: nat)
    ensures r != 0 ==> n.kind == Organization && HasChildren(n)
    ensures n.kind == Organization ==> r == ChildCount(n)
  {
    if n.kind == Organization then ChildCount(n) else 0
  }

  /** A node without children shows 0 in every row. */
  lemma NoChildrenAllZero(n: Node)
    requires !HasChildren(n)
    ensures CityCount(n) == 0 && CountyCount(n) == 0 && DirectUnitCount(n) == 0 && BuildingCount(n) == 0
  {
  }

  /** Each of the city, direct-unit and building rows belongs to one level, so at most one of them
      is non-zero for any node. */
  lemma AtMostOneLevelRow(n: Node)
    ensures CityCount(n) == 0 || DirectUnitCount(n) == 0
    ensures CityCount(n) == 0 || BuildingCount(n) == 0
    ensures DirectUnitCount(n) == 0 || BuildingCount(n) == 0
  {
  }

  /** The page: the selected node, the add dialog and its draft. The tree itself is fixed data. */
  datatype OrgDraft = OrgDraft(name: string, code: string, kind: NodeType, responsible: string, location: string)
  datatype OrgPage = OrgPage(tree: seq<Node>, selected: Option<Node>, addDialogOpen: bool, draft: OrgDraft)

  function BlankOrgDraft(): OrgDraft
  {
    OrgDraft("", "", Organization, "", "")
  }

  /** The save button of the add dialog: it closes the dialog; the tree, the selection and the draft
      stay as they were. */
  function SaveNewOrganization(p: OrgPage): (r: OrgPage)
    ensures !r.addDialogOpen
    ensures r.tree == p.tree && r.selected == p.selected && r.draft == p.draft
  {
    p.(addDialogOpen := false)
  }
}
