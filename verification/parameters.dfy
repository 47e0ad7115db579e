/** The monitoring parameter catalogue: the parameter form's schema, the subcategory choices of a
    category, search and filters, the sortable category and name columns, and adding, editing and
    deleting parameters. Parameter ids are numbers, a new one being the largest id plus one. */
module Parameters {
  import opened Common
  import Text
  import Seqs
  import Sorting

  datatype UploadRequirement = Realtime | Reported

  datatype Parameter = Parameter(
    id: int,
    category: string,
    subcategory: Option<string>,
    name: string,
    unit: string,
    uploadRequirement: UploadRequirement,
    emissionFormula: Option<string>,
    description: Option<string>)

  function SampleParameters(): seq<Parameter>
  {
    [
      Parameter(1, "建筑运行", Some("批发、零售业和住宿、餐饮业"), "电力", "万kWh", Realtime, Some("E = 活动量 × 排放因子"), Some("电力消耗产生的间接碳排放")),
      Parameter(2, "建筑运行", Some("批发、零售业和住宿、餐饮业"), "液化石油气", "t", Reported, Some("E = 活动量 × 排放因子 × 低位发热值"), Some("液化石油气燃烧产生的直接碳排放")),
      Parameter(3, "建筑运行", Some("批发、零售业和住宿、餐饮业"), "天然气", "m³", Realtime, Some("E = 活动量 × 排放因子 × 低位发热值"), Some("天然气燃烧产生的直接碳排放")),
      Parameter(4, "建筑运行", Some("批发、零售业和住宿、餐饮业"), "其他能源", "/", Reported, None, None),
      Parameter(5, "建筑运行", Some("其他行业"), "电力", "万kWh", Realtime, None, None),
      Parameter(6, "建筑运行", Some("其他行业"), "液化石油气", "t", Reported, None, None),
      Parameter(7, "建筑运行", Some("其他行业"), "天然气", "m³", Realtime, None, None),
      Parameter(8, "建筑运行", Some("其他行业"), "其他能源", "/", Reported, None, None),
      Parameter(9, "建筑运行", Some("居民生活消费"), "电力", "万kWh", Realtime, None, None),
      Parameter(10, "建筑运行", Some("居民生活消费"), "天然气", "m³", Realtime, None, None),
      Parameter(11, "建筑运行", Some("居民生活消费"), "液化石油气", "t", Reported, None, None),
      Parameter(12, "建筑运行", Some("居民生活消费"), "其他能源", "/", Reported, None, None),
      Parameter(13, "建筑业", None, "电力", "万kWh", Realtime, None, None),
      Parameter(14, "建筑业", None, "液化石油气", "t", Reported, None, None),
      Parameter(15, "建筑业", None, "汽油", "t", Reported, None, None),
      Parameter(16, "建筑业", None, "柴油", "t", Reported, None, None),
      Parameter(17, "建筑业", None, "天然气", "m³", Realtime, None, None),
      Parameter(18, "建筑业", None, "其他能源", "/", Reported, None, None),
      Parameter(19, "基础设施", Some("污水厂"), "进口BOD", "mg/L", Realtime, None, None),
      Parameter(20, "基础设施", Some("污水厂"), "出口BOD", "mg/L", Realtime, None, None),
      Parameter(21, "基础设施", Some("污水厂"), "进水TN浓度", "mg/L", Realtime, None, None),
      Parameter(22, "基础设施", Some("污水厂"), "出水TN浓度", "mg/L", Realtime, None, None),
      Parameter(23, "基础设施", Some("污水厂"), "电力", "万kWh", Realtime, None, None),
      Parameter(24, "基础设施", Some("污水厂"), "柴油", "t", Reported, None, None),
      Parameter(25, "基础设施", Some("污水厂"), "药剂1", "kg", Reported, None, None),
      Parameter(26, "基础设施", Some("污水厂"), "药剂2", "kg", Reported, None, None),
      Parameter(27, "基础设施", Some("污水厂"), "...", "", Reported, None, None),
      Parameter(28, "基础设施", Some("污水厂"), "药剂n", "kg", Reported, None, None),
      Parameter(29, "基础设施", Some("自来水厂"), "电力", "万kWh", Realtime, None, None),
      Parameter(30, "基础设施", Some("自来水厂"), "柴油", "t", Reported, None, None),
      Parameter(31, "基础设施", Some("自来水厂"), "药剂1", "kg", Reported, None, None),
      Parameter(32, "基础设施", Some("自来水厂"), "药剂2", "kg", Reported, None, None),
      Parameter(33, "基础设施", Some("自来水厂"), "...", "", Reported, None, None),
      Parameter(34, "基础设施", Some("自来水厂"), "药剂n", "kg", Reported, None, None),
      Parameter(35, "基础设施", Some("路灯"), "电力", "万kWh", Realtime, None, None),
      Parameter(36, "基础设施", Some("景观灯"), "电力", "万kWh", Realtime, None, None),
      Parameter(37, "可再生能源", Some("分布式光伏项目"), "发电量", "万kWh", Realtime, None, None),
      Parameter(38, "建筑和国土信息", Some("居住建筑"), "城镇居住建筑面积", "m³", Reported, None, None),
      Parameter(39, "建筑和国土信息", Some("居住建筑"), "农村居住建筑面积", "m³", Reported, None, None),
      Parameter(40, "建筑和国土信息", Some("公共建筑"), "教育建筑面积", "m³", Reported, None, None),
      Parameter(41, "建筑和国土信息", Some("公共建筑"), "医院建筑面积", "m³", Reported, None, None),
      Parameter(42, "建筑和国土信息", Some("公共建筑"), "行政办公建筑面积", "m³", Reported, None, None),
      Parameter(43, "建筑和国土信息", Some("公共建筑"), "商业建筑面积", "m³", Reported, None, None),
      Parameter(44, "建筑和国土信息", Some("公共建筑"), "宾馆建筑面积", "m³", Reported, None, None) ]
  }

  // ---------------------------------------------------------------------------------------------
  // The form schema
  // ---------------------------------------------------------------------------------------------

  /** The two accepted spellings of the upload requirement. */
  function RequirementName(u: UploadRequirement): string
  {
    match u
    case Realtime => "实时监测"
    case Reported => "数据上报"
  }

  function ParseRequirement(s: string): (r: Option<UploadRequirement>)
    ensures forall u :: r == Some(u) <==> s == RequirementName(u)
  {
    if s == "实时监测" then Some(Realtime) else if s == "数据上报" then Some(Reported) else None
  }

  /** The form fields as typed; the three optional fields may be missing. */
  datatype ParameterForm = ParameterForm(
    category: string,
    subcategory: Option<string>,
    name: string,
    unit: string,
    uploadRequirement: string,
    emissionFormula: Option<string>,
    description: Option<string>)

  /** A form the schema accepted, with the requirement decoded. */
  datatype ParameterValues = ParameterValues(
    category: string,
    subcategory: Option<string>,
    name: string,
    unit: string,
    uploadRequirement: UploadRequirement,
    emissionFormula: Option<string>,
    description: Option<string>)

  /** `parameterFormSchema`: non-empty category, name and unit and one of the two requirements;
      the other fields pass as they are. */
  function ValidateForm(f: ParameterForm): (r: Option<ParameterValues>)
    ensures r.Some? <==>
      f.category != [] && f.name != [] && f.unit != [] && ParseRequirement(f.uploadRequirement).Some?
    ensures r.Some? ==>
      && r.value.category == f.category && r.value.subcategory == f.subcategory
      && r.value.name == f.name && r.value.unit == f.unit
      && RequirementName(r.value.uploadRequirement) == f.uploadRequirement
      && r.value.emissionFormula == f.emissionFormula && r.value.description == f.description
  {
    match ParseRequirement(f.uploadRequirement)
    case None => None
    case Some(u) =>
      if |f.category| >= 1 && |f.name| >= 1 && |f.unit| >= 1 then
        Some(ParameterValues(f.category, f.subcategory, f.name, f.unit, u, f.emissionFormula, f.description))
      else None
  }

  /** The form of the add dialog: everything empty and "reported". */
  function BlankForm(): ParameterForm
  {
    ParameterForm("", Some(""), "", "", "数据上报", Some(""), Some(""))
  }

  /** The form of the edit dialog: the parameter's fields, a missing optional field shown empty. */
  function EditForm(p: Parameter): (f: ParameterForm)
    ensures ValidateForm(f).Some? <==> p.category != [] && p.name != [] && p.unit != []
  {
    ParameterForm(p.category, Some(OrEmpty(p.subcategory)), p.name, p.unit, RequirementName(p.uploadRequirement),
                  Some(OrEmpty(p.emissionFormula)), Some(OrEmpty(p.description)))
  }

  /** `x || ''`. */
  function OrEmpty(x: Option<string>): string
  {
    match x
    case Some(s) => s
    case None => ""
  }

  // ---------------------------------------------------------------------------------------------
  // Subcategories of a category
  // ---------------------------------------------------------------------------------------------

  predicate HasSubcategory(p: Parameter, category: string)
  {
    p.category == category && p.subcategory.Some? && p.subcategory.value != []
  }

  /** `getCategorySubcategories` over a parameter list: the non-empty subcategories of the
      category's parameters, each once, in order of first appearance. */
  function CategorySubcategories(params: seq<Parameter>, category: string): (r: seq<string>)
    ensures forall s :: s in r <==> exists p :: p in params && HasSubcategory(p, category) && p.subcategory.value == s
    ensures Seqs.Distinct(r)
    ensures Seqs.FirstAppearanceOrder(r, SubcategoryNames(params, category))
  {
    Seqs.Dedup(SubcategoryNames(params, category))
  }

  /** The subcategory of each of the category's parameters that has one, in list order, repeats
      included: the `filter` and `map` before the `Set`. */
  function SubcategoryNames(params: seq<Parameter>, category: string): (names: seq<string>)
    ensures forall s :: s in names <==> exists p :: p in params && HasSubcategory(p, category) && p.subcategory.value == s
  {
    SubNamesOfCategory(params, category);
    Seqs.Map(Seqs.Filter(params, InCategoryWithSub(category)), SubName())
  }

  function InCategoryWithSub(category: string): Parameter -> bool
  {
    (p: Parameter) => HasSubcategory(p, category)
  }

  function SubName(): Parameter -> string
  {
    (p: Parameter) => if p.subcategory.Some? then p.subcategory.value else ""
  }

  /** The names taken from the category's parameters are exactly their subcategories. */
  lemma SubNamesOfCategory(params: seq<Parameter>, category: string)
    ensures var names := Seqs.Map(Seqs.Filter(params, InCategoryWithSub(category)), SubName());
      forall s :: s in names <==> exists p :: p in params && HasSubcategory(p, category) && p.subcategory.value == s
  {
    var withSub := Seqs.Filter(params, InCategoryWithSub(category));
    var names := Seqs.Map(withSub, SubName());
    forall s | s in names ensures exists p :: p in params && HasSubcategory(p, category) && p.subcategory.value == s {
      var i :| 0 <= i < |names| && names[i] == s;
      assert withSub[i] in withSub;
    }
    forall s | exists p :: p in params && HasSubcategory(p, category) && p.subcategory.value == s ensures s in names {
      var p :| p in params && HasSubcategory(p, category) && p.subcategory.value == s;
      assert p in withSub;
      var i :| 0 <= i < |withSub| && withSub[i] == p;
      assert names[i] == s;
    }
  }

  // ---------------------------------------------------------------------------------------------
  // Search and filters
  // ---------------------------------------------------------------------------------------------

  datatype ParameterQuery = ParameterQuery(
    search: string,
    category: Choice<string>,
    subcategory: Choice<string>,
    requirement: Choice<UploadRequirement>)

  predicate SearchHits(p: Parameter, term: string)
  {
    term == [] || Text.Matches(p.name, term) || Text.Matches(p.unit, term)
  }

  /** A chosen subcategory matches only parameters that have that subcategory. */
  predicate SubcategoryAdmits(c: Choice<string>, sub: Option<string>)
  {
    c.All? || (sub.Some? && sub.value == c.choice)
  }

  predicate Visible(p: Parameter, q: ParameterQuery)
  {
    && SearchHits(p, q.search)
    && Admits(q.category, p.category)
    && SubcategoryAdmits(q.subcategory, p.subcategory)
    && Admits(q.requirement, p.uploadRequirement)
  }

  /** `filteredParameters`: the visible parameters, in list order. */
  function FilteredParameters(params: seq<Parameter>, q: ParameterQuery): (r: seq<Parameter>)
    ensures forall p :: p in r <==> p in params && Visible(p, q)
    ensures Seqs.SubseqOf(r, params)
    ensures forall p: Parameter :: multiset(r)[p] == if Visible(p, q) then multiset(params)[p] else 0
  {
    var keep := (p: Parameter) => Visible(p, q);
    Seqs.FilterIsSubseq(params, keep);
    Seqs.FilterMultiset(params, keep);
    Seqs.Filter(params, keep)
  }

  /** With an empty search and every filter on "all", every parameter is listed, in order. */
  lemma {:induction false} EmptyQueryShowsAll(params: seq<Parameter>)
    ensures FilteredParameters(params, ParameterQuery("", All, All, All)) == params
  {
    Seqs.FilterAll(params, (p: Parameter) => Visible(p, ParameterQuery("", All, All, All)));
  }

  // ---------------------------------------------------------------------------------------------
  // Sorting
  // ---------------------------------------------------------------------------------------------

  /** The two sortable columns. */
  datatype SortKey = Category | Name

  function KeyText(key: SortKey): Parameter -> string
  {
    (p: Parameter) => match key case Category => p.category case Name => p.name
  }

  /** The comparator of `sortedParameters`: `-1`, `1` or `0` from `<` and `>` on the column's text,
      the signs swapped for a descending sort. */
  function Order(c: SortConfig<SortKey>): (Parameter, Parameter) -> bool
  {
    Sorting.TextColumn(KeyText(c.key), c.direction == Asc)
  }

  /** `sortedParameters`: the filtered list as it is without a sort, otherwise sorted stably. */
  function SortedParameters(shown: seq<Parameter>, config: Option<SortConfig<SortKey>>): (r: seq<Parameter>)
    ensures multiset(r) == multiset(shown)
    ensures config.None? ==> r == shown
  {
    match config
    case None => shown
    case Some(c) => Sorting.SortBy(shown, Order(c))
  }

  /** The sorted list is a permutation of the shown one, ordered by the column, and parameters with
      equal column text keep their relative order. */
  lemma SortedParametersOrdered(shown: seq<Parameter>, c: SortConfig<SortKey>, z: Parameter)
    ensures Sorting.Sorted(SortedParameters(shown, Some(c)), Order(c))
    ensures multiset(SortedParameters(shown, Some(c))) == multiset(shown)
    ensures Seqs.Filter(SortedParameters(shown, Some(c)), y => Sorting.Equivalent(Order(c), y, z))
         == Seqs.Filter(shown, y => Sorting.Equivalent(Order(c), y, z))
  {
    Sorting.TextColumnIsStrictWeakOrder(KeyText(c.key), c.direction == Asc);
    Sorting.SortBySorted(shown, Order(c));
    Sorting.SortByStable(shown, Order(c), z);
  }

  /** In ascending order no parameter's column text is below that of an earlier one; in descending
      order none is above. */
  lemma SortedByColumnText(shown: seq<Parameter>, c: SortConfig<SortKey>, i: nat, j: nat)
    requires i < j < |shown|
    ensures var r := SortedParameters(shown, Some(c));
      c.direction == Asc ==> !Text.StrLess(KeyText(c.key)(r[j]), KeyText(c.key)(r[i]))
    ensures var r := SortedParameters(shown, Some(c));
      c.direction == Desc ==> !Text.StrLess(KeyText(c.key)(r[i]), KeyText(c.key)(r[j]))
  {
    SortedParametersOrdered(shown, c, shown[0]);
  }

  // ---------------------------------------------------------------------------------------------
  // Adding, editing and deleting
  // ---------------------------------------------------------------------------------------------

  function MaxId(params: seq<Parameter>): (m: int)
    requires params != []
    ensures forall i :: 0 <= i < |params| ==> params[i].id <= m
    ensures exists i :: 0 <= i < |params| && params[i].id == m
  {
    if |params| == 1 then params[0].id
    else
      var rest := MaxId(params[1..]);
      assert forall i :: 1 <= i < |params| ==> params[i] == params[1..][i - 1];
      if params[0].id >= rest then params[0].id else rest
  }

  /** The id of an added parameter: one more than the largest id, or 1 for an empty list. */
  function NewParameterId(params: seq<Parameter>): (id: int)
    ensures forall i :: 0 <= i < |params| ==> params[i].id < id
    ensures params == [] ==> id == 1
  {
    if |params| > 0 then MaxId(params) + 1 else 1
  }

  function FromValues(id: int, v: ParameterValues): Parameter
  {
    Parameter(id, v.category, v.subcategory, v.name, v.unit, v.uploadRequirement, v.emissionFormula, v.description)
  }

  /** `onSubmit` in add mode: one parameter appended after the unchanged list, with a fresh id. */
  function AddParameter(params: seq<Parameter>, v: ParameterValues): (r: seq<Parameter>)
    ensures |r| == |params| + 1 && r[..|params|] == params
    ensures r[|params|] == FromValues(NewParameterId(params), v)
    ensures forall i :: 0 <= i < |params| ==> params[i].id != r[|params|].id
  {
    params + [FromValues(NewParameterId(params), v)]
  }

  /** `onSubmit` in edit mode: every parameter with the edited id takes the form's content and keeps
      its id; all others stay as they are. */
  function EditParameter(params: seq<Parameter>, id: int, v: ParameterValues): (r: seq<Parameter>)
    ensures |r| == |params|
    ensures forall i :: 0 <= i < |params| && params[i].id == id ==> r[i] == FromValues(id, v)
    ensures forall i :: 0 <= i < |params| && params[i].id != id ==> r[i] == params[i]
  {
    Seqs.Map(params, (p: Parameter) => if p.id == id then FromValues(p.id, v) else p)
  }

  /** `handleDelete`: the parameters without the id, in their order. */
  function DeleteParameter(params: seq<Parameter>, id: int): (r: seq<Parameter>)
    ensures forall p :: p in r <==> p in params && p.id != id
    ensures Seqs.SubseqOf(r, params)
    ensures forall p: Parameter :: multiset(r)[p] == if p.id != id then multiset(params)[p] else 0
  {
    Seqs.FilterIsSubseq(params, OtherId(id));
    Seqs.FilterMultiset(params, OtherId(id));
    Seqs.Filter(params, OtherId(id))
  }

  function OtherId(id: int): Parameter -> bool
  {
    (p: Parameter) => p.id != id
  }

  function IdOf(): Parameter -> int
  {
    (p: Parameter) => p.id
  }

  function Ids(params: seq<Parameter>): (r: seq<int>)
    ensures |r| == |params| && forall i :: 0 <= i < |params| ==> r[i] == params[i].id
  {
    Seqs.Map(params, IdOf())
  }

  /** Unlike count-based ids, max-plus-one ids stay distinct whatever was deleted before. */
  lemma DeleteThenAddKeepsIdsDistinct(params: seq<Parameter>, id: int, v: ParameterValues)
    requires Seqs.Distinct(Ids(params))
    ensures Seqs.Distinct(Ids(AddParameter(DeleteParameter(params, id), v)))
  {
    DeleteKeepsIdsDistinct(params, id);
    AddKeepsIdsDistinct(DeleteParameter(params, id), v);
  }

  lemma DeleteKeepsIdsDistinct(params: seq<Parameter>, id: int)
    requires Seqs.Distinct(Ids(params))
    ensures Seqs.Distinct(Ids(DeleteParameter(params, id)))
  {
    var notId := (n: int) => n != id;
    Seqs.MapFilter(params, IdOf(), OtherId(id), notId);
    Seqs.FilterDistinct(Ids(params), notId);
  }

  lemma AddKeepsIdsDistinct(params: seq<Parameter>, v: ParameterValues)
    requires Seqs.Distinct(Ids(params))
    ensures Seqs.Distinct(Ids(AddParameter(params, v)))
  {
    var added := AddParameter(params, v);
    assert Ids(added) == Ids(params) + [added[|params|].id];
  }

  /** Saving the edit dialog unchanged gives back the parameter, except that a missing optional
      field comes back as an empty one. */
  lemma EditRoundTrip(params: seq<Parameter>, p: Parameter)
    requires p.category != [] && p.name != [] && p.unit != []
    ensures ValidateForm(EditForm(p)).Some?
    ensures FromValues(p.id, ValidateForm(EditForm(p)).value)
         == p.(subcategory := Some(OrEmpty(p.subcategory)),
               emissionFormula := Some(OrEmpty(p.emissionFormula)),
               description := Some(OrEmpty(p.description)))
  {
  }

  // ---------------------------------------------------------------------------------------------
  // The dialog
  // ---------------------------------------------------------------------------------------------

  datatype DialogMode = AddMode | EditMode

  datatype Catalogue = Catalogue(
    params: seq<Parameter>,
    mode: DialogMode,
    editing: Option<Parameter>,
    showDialog: bool)

  /** Submitting the dialog: a form the schema refuses changes nothing and keeps the dialog open;
      an accepted one is added or applied to the edited parameter, and the dialog closes. */
  function Submit(c: Catalogue, f: ParameterForm): (r: Catalogue)
    ensures ValidateForm(f).None? ==> r == c
    ensures ValidateForm(f).Some? && c.mode == AddMode ==>
      r == c.(params := AddParameter(c.params, ValidateForm(f).value), showDialog := false)
    ensures ValidateForm(f).Some? && c.mode == EditMode && c.editing.Some? ==>
      r == c.(params := EditParameter(c.params, c.editing.value.id, ValidateForm(f).value), showDialog := false)
    ensures ValidateForm(f).Some? && c.mode == EditMode && c.editing.None? ==> r == c.(showDialog := false)
  {
    match ValidateForm(f)
    case None => c
    case Some(v) =>
      if c.mode == AddMode then c.(params := AddParameter(c.params, v), showDialog := false)
      else if c.editing.Some? then c.(params := EditParameter(c.params, c.editing.value.id, v), showDialog := false)
      else c.(showDialog := false)
  }
}
