/** The alert threshold rules: the rule list with its search and filters, switching a rule on or
    off, deleting it, and the dialog that adds a rule or edits one. */
module AlertThresholds {
  import opened Common
  import Text
  import Seqs

  datatype Category = Electricity | Water | Gas | Other
  datatype Condition = Gt | Ge | Lt | Le | Eq
  datatype Level = High | Medium | Low

  datatype Notifications = Notifications(sms: bool, email: bool, system: bool)

  datatype Rule = Rule(
    id: string,
    category: Category,
    location: string,
    building: Option<string>,
    metric: string,
    condition: Condition,
    value: real,
    unit: string,
    level: Level,
    isActive: bool,
    notifications: Notifications)

  function MockRules(): seq<Rule>
  {
    [ Rule("TH-001", Electricity, "惠安县政府大楼", Some("主楼"), "用电量", Gt, 5000.0, "kWh/天", High, true,
           Notifications(true, true, true)),
      Rule("TH-002", Water, "惠安县第一中学", Some("教学楼"), "用水量", Gt, 2000.0, "m³/周", Medium, true,
           Notifications(false, true, true)),
      Rule("TH-003", Gas, "惠安县人民医院", Some("住院部"), "天然气使用", Gt, 500.0, "m³/天", High, true,
           Notifications(true, true, true)),
      Rule("TH-004", Electricity, "惠安县文化馆", None, "峰值负荷", Gt, 80.0, "%", Medium, true,
           Notifications(false, true, true)),
      Rule("TH-005", Other, "惠安县公安局", Some("指挥中心"), "设备温度", Gt, 40.0, "°C", High, false,
           Notifications(true, true, true)),
      Rule("TH-006", Water, "惠安县体育馆", Some("游泳馆"), "水质pH值", Lt, 6.5, "pH", High, true,
           Notifications(true, true, true)),
      Rule("TH-007", Electricity, "惠安县图书馆", None, "照明用电", Gt, 1000.0, "kWh/周", Low, true,
           Notifications(false, false, true)),
      Rule("TH-008", Gas, "惠安县实验小学", Some("食堂"), "燃气浓度", Gt, 0.5, "%LEL", High, true,
           Notifications(true, true, true)) ]
  }

  // ---------------------------------------------------------------------------------------------
  // The list: search and filters
  // ---------------------------------------------------------------------------------------------

  datatype RuleQuery = RuleQuery(search: string, category: Choice<Category>, level: Choice<Level>)

  /** The search has no empty-term shortcut: it always looks at location, building (when present and
      non-empty), metric and id. */
  predicate SearchHits(r: Rule, term: string)
  {
    || Text.Matches(r.location, term)
    || (r.building.Some? && r.building.value != [] && Text.Matches(r.building.value, term))
    || Text.Matches(r.metric, term)
    || Text.Matches(r.id, term)
  }

  predicate Visible(r: Rule, q: RuleQuery)
  {
    SearchHits(r, q.search) && Admits(q.category, r.category) && Admits(q.level, r.level)
  }

  /** `filteredRules`: the visible rules, in list order. */
  function FilteredRules(rules: seq<Rule>, q: RuleQuery): (r: seq<Rule>)
    ensures forall x :: x in r <==> x in rules && Visible(x, q)
    ensures Seqs.SubseqOf(r, rules)
    ensures forall x: Rule :: multiset(r)[x] == if Visible(x, q) then multiset(rules)[x] else 0
  {
    var keep := (x: Rule) => Visible(x, q);
    Seqs.FilterIsSubseq(rules, keep);
    Seqs.FilterMultiset(rules, keep);
    Seqs.Filter(rules, keep)
  }

  /** An empty term still matches every rule, because every location contains the empty string. */
  lemma {:induction false} EmptySearchShowsAll(rules: seq<Rule>)
    ensures FilteredRules(rules, RuleQuery("", All, All)) == rules
  {
    forall x: Rule ensures Visible(x, RuleQuery("", All, All)) {
      Text.MatchesEmptyTerm(x.location);
    }
    Seqs.FilterAll(rules, (x: Rule) => Visible(x, RuleQuery("", All, All)));
  }

  // ---------------------------------------------------------------------------------------------
  // Switch and delete
  // ---------------------------------------------------------------------------------------------

  /** `handleToggleActive(id, isActive)`: the rules with that id get the switch's value; nothing else changes. */
  function SetActive(rules: seq<Rule>, id: string, active: bool): (r: seq<Rule>)
    ensures |r| == |rules|
    ensures forall i :: 0 <= i < |rules| && rules[i].id == id ==> r[i] == rules[i].(isActive := active)
    ensures forall i :: 0 <= i < |rules| && rules[i].id != id ==> r[i] == rules[i]
  {
    Seqs.Map(rules, (x: Rule) => if x.id == id then x.(isActive := active) else x)
  }

  /** Setting the switch to the value it already shows changes nothing more. */
  lemma SetActiveIdempotent(rules: seq<Rule>, id: string, active: bool)
    ensures SetActive(SetActive(rules, id, active), id, active) == SetActive(rules, id, active)
  {
    var once := SetActive(rules, id, active);
    assert forall i :: 0 <= i < |once| ==> SetActive(once, id, active)[i] == once[i];
  }

  /** `handleDeleteRule`: exactly the rules with another id remain, in their order. */
  function DeleteRule(rules: seq<Rule>, id: string): (r: seq<Rule>)
    ensures forall x :: x in r <==> x in rules && x.id != id
    ensures Seqs.SubseqOf(r, rules)
    ensures forall x: Rule :: multiset(r)[x] == if x.id != id then multiset(rules)[x] else 0
    ensures |r| <= |rules|
  {
    var keep := (x: Rule) => x.id != id;
    Seqs.FilterIsSubseq(rules, keep);
    Seqs.FilterMultiset(rules, keep);
    Seqs.Filter(rules, keep)
  }

  // ---------------------------------------------------------------------------------------------
  // The add / edit dialog
  // ---------------------------------------------------------------------------------------------

  /** The dialog's partial rule. Location and building are absent until typed; the switch and the
      notification flags may be absent, and then take their defaults when a rule is added. */
  datatype Draft = Draft(
    category: Category,
    location: Option<string>,
    building: Option<string>,
    metric: string,
    condition: Condition,
    value: real,
    unit: string,
    level: Level,
    isActive: Option<bool>,
    notifications: Option<Notifications>)

  datatype Editor = Editor(
    rules: seq<Rule>,
    isAdding: bool,
    isEditing: bool,
    current: Option<Rule>,
    draft: Draft)

  /** The draft the dialog starts from and returns to after every save. */
  function BlankDraft(): Draft
  {
    Draft(Electricity, None, None, "", Gt, 0.0, "", Medium, Some(true), Some(Notifications(false, true, true)))
  }

  function InitialEditor(): Editor
  {
    Editor(MockRules(), false, false, None, BlankDraft())
  }

  /** The number typed into the value box: `parseFloat(text) || 0`, given the parse result. */
  function DraftValue(parsed: Option<real>): (v: real)
    ensures parsed.Some? ==> v == parsed.value
    ensures parsed.None? ==> v == 0.0
  {
    match parsed
    case None => 0.0
    case Some(x) => x
  }

  /** `!newRule.location || !newRule.metric || !newRule.unit` refuses the save. */
  predicate Complete(d: Draft)
  {
    d.location.Some? && d.location.value != [] && d.metric != [] && d.unit != []
  }

  /** The identifier of the rule added to a list of `n` rules. */
  function NewRuleId(n: nat): string
  {
    Text.SeqId("TH-", n + 1)
  }

  /** The rule added from a complete draft: absent switch means active, absent flags mean SMS off,
      e-mail and system messages on. */
  function RuleFromDraft(id: string, d: Draft): (r: Rule)
    requires Complete(d)
    ensures r.id == id && r.location == d.location.value && r.building == d.building
    ensures r.category == d.category && r.metric == d.metric && r.condition == d.condition
    ensures r.value == d.value && r.unit == d.unit && r.level == d.level
    ensures r.isActive == (d.isActive.None? || d.isActive.value)
    ensures d.notifications.None? ==> r.notifications == Notifications(false, true, true)
    ensures d.notifications.Some? ==> r.notifications == d.notifications.value
  {
    Rule(id, d.category, d.location.value, d.building, d.metric, d.condition, d.value, d.unit, d.level,
         if d.isActive.None? then true else d.isActive.value,
         if d.notifications.None? then Notifications(false, true, true) else d.notifications.value)
  }

  /** `{ ...rule, ...newRule }`: the draft's fields over the rule's; the id is the rule's, and an
      absent switch or flag set keeps the rule's own. */
  function Merge(r: Rule, d: Draft): (m: Rule)
    requires Complete(d)
    ensures m.id == r.id && m.location == d.location.value && m.building == d.building
    ensures m.category == d.category && m.metric == d.metric && m.condition == d.condition
    ensures m.value == d.value && m.unit == d.unit && m.level == d.level
    ensures m.isActive == (if d.isActive.Some? then d.isActive.value else r.isActive)
    ensures m.notifications == (if d.notifications.Some? then d.notifications.value else r.notifications)
  {
    r.(category := d.category, location := d.location.value, building := d.building, metric := d.metric,
       condition := d.condition, value := d.value, unit := d.unit, level := d.level,
       isActive := if d.isActive.Some? then d.isActive.value else r.isActive,
       notifications := if d.notifications.Some? then d.notifications.value else r.notifications)
  }

  /** `handleEditRule`: the dialog opens on a copy of the rule's fields. */
  function StartEdit(e: Editor, r: Rule): (x: Editor)
    ensures x.isEditing && x.current == Some(r) && x.rules == e.rules
    ensures Complete(x.draft) <==> r.location != [] && r.metric != [] && r.unit != []
  {
    e.(current := Some(r), isEditing := true,
       draft := Draft(r.category, Some(r.location), r.building, r.metric, r.condition, r.value, r.unit,
                      r.level, Some(r.isActive), Some(r.notifications)))
  }

  /** `handleSaveRule`. An incomplete draft changes nothing. An edit overwrites, in place, the rules
      with the edited rule's id and leaves every other rule as it was. An add appends one rule with
      the next `TH-` number. Either way the dialog closes and the draft is reset. */
  function SaveRule(e: Editor): (x: Editor)
    ensures !Complete(e.draft) ==> x == e
    ensures Complete(e.draft) ==>
      && !x.isAdding && !x.isEditing && x.current.None? && x.draft == BlankDraft()
    ensures Complete(e.draft) && e.isEditing && e.current.Some? ==>
      && |x.rules| == |e.rules|
      && (forall i :: 0 <= i < |e.rules| && e.rules[i].id == e.current.value.id ==>
            x.rules[i] == Merge(e.rules[i], e.draft))
      && (forall i :: 0 <= i < |e.rules| && e.rules[i].id != e.current.value.id ==>
            x.rules[i] == e.rules[i])
    ensures Complete(e.draft) && !(e.isEditing && e.current.Some?) ==>
      x.rules == e.rules + [RuleFromDraft(NewRuleId(|e.rules|), e.draft)]
  {
    if !Complete(e.draft) then e
    else
      var rules :=
        if e.isEditing && e.current.Some? then
          var cid := e.current.value.id;
          Seqs.Map(e.rules, (r: Rule) requires Complete(e.draft) => if r.id == cid then Merge(r, e.draft) else r)
        else e.rules + [RuleFromDraft(NewRuleId(|e.rules|), e.draft)];
      Editor(rules, false, false, None, BlankDraft())
  }

  /** Opening a rule for editing and saving without touching anything leaves the list as it was,
      provided no other rule shares its id. */
  lemma EditRoundTrip(e: Editor, r: Rule)
    requires forall i :: 0 <= i < |e.rules| && e.rules[i].id == r.id ==> e.rules[i] == r
    ensures SaveRule(StartEdit(e, r)).rules == e.rules
  {
    var s := StartEdit(e, r);
    if Complete(s.draft) {
      var x := SaveRule(s);
      forall i | 0 <= i < |e.rules| ensures x.rules[i] == e.rules[i] {
        if e.rules[i].id == r.id {
          assert x.rules[i] == Merge(r, s.draft);
        }
      }
    }
  }

  // ---------------------------------------------------------------------------------------------
  // Identifiers of added rules
  // ---------------------------------------------------------------------------------------------

  /** The ids are `TH-001`, `TH-002`, ... in list order, as in the initial list. */
  predicate Numbered(rules: seq<Rule>)
  {
    forall i :: 0 <= i < |rules| ==> rules[i].id == Text.SeqId("TH-", i + 1)
  }

  lemma MockRulesNumbered()
    ensures Numbered(MockRules())
  {
    forall i | 0 <= i < |MockRules()| ensures MockRules()[i].id == Text.SeqId("TH-", i + 1) {
      Text.SeqIdOneDigit("TH-", i + 1);
    }
  }

  /** While the ids are numbered, an added rule gets an id no rule has, and the numbering goes on. */
  lemma AddKeepsNumbering(e: Editor)
    requires Numbered(e.rules) && Complete(e.draft) && !e.isEditing
    ensures forall i :: 0 <= i < |e.rules| ==> e.rules[i].id != NewRuleId(|e.rules|)
    ensures Numbered(SaveRule(e).rules)
  {
    NumberedIdFresh(e.rules);
    NumberedSnoc(e.rules, RuleFromDraft(NewRuleId(|e.rules|), e.draft));
  }

  /** The count-based id is not yet taken in a numbered list. */
  lemma NumberedIdFresh(rules: seq<Rule>)
    requires Numbered(rules)
    ensures forall i :: 0 <= i < |rules| ==> rules[i].id != NewRuleId(|rules|)
  {
    forall i | 0 <= i < |rules| ensures rules[i].id != NewRuleId(|rules|) {
      if rules[i].id == NewRuleId(|rules|) {
        Text.SeqIdInjective("TH-", i + 1, |rules| + 1);
      }
    }
  }

  /** Appending a rule with the count-based id keeps a list numbered. */
  lemma NumberedSnoc(rules: seq<Rule>, x: Rule)
    requires Numbered(rules) && x.id == NewRuleId(|rules|)
    ensures Numbered(rules + [x])
  {
    var t := rules + [x];
    assert t[|rules|] == x;
    forall i | 0 <= i < |rules| ensures t[i].id == Text.SeqId("TH-", i + 1) {
      assert t[i] == rules[i];
    }
  }

  /** Deleting the id of the first rule only, when no later rule shares it. */
  lemma {:induction false} DeleteFirstOnly(rules: seq<Rule>, id: string)
    requires rules != [] && rules[0].id == id
    requires forall i :: 1 <= i < |rules| ==> rules[i].id != id
    ensures DeleteRule(rules, id) == rules[1..]
  {
    var keep := (x: Rule) => x.id != id;
    Seqs.FilterAll(rules[1..], keep);
    assert rules == [rules[0]] + rules[1..];
  }

  /** In a numbered list no rule after the first carries the first rule's id. */
  lemma NumberedFirstIdUnique(m: seq<Rule>)
    requires Numbered(m) && m != []
    ensures forall i :: 1 <= i < |m| ==> m[i].id != m[0].id
  {
    forall i | 1 <= i < |m| ensures m[i].id != m[0].id {
      if m[i].id == m[0].id {
        Text.SeqIdInjective("TH-", 1, i + 1);
      }
    }
  }

  lemma FirstAndEighthRuleIds()
    ensures NewRuleId(0) == "TH-001" && NewRuleId(7) == "TH-008"
  {
    Text.SeqIdOneDigit("TH-", 1);
    Text.SeqIdOneDigit("TH-", 8);
    assert Text.DigitChar(1) == '1' && Text.DigitChar(8) == '8';
    assert "TH-" + "00" + ['1'] == "TH-001";
    assert "TH-" + "00" + ['8'] == "TH-008";
  }

  /** Deleting the first of `n` rules and adding one gives the new rule the id `TH-<n>`, which the
      last surviving rule may already carry. */
  lemma DeleteFirstThenAdd(m: seq<Rule>, d: Draft)
    requires Complete(d) && m != []
    requires forall i :: 1 <= i < |m| ==> m[i].id != m[0].id
    ensures var added := SaveRule(Editor(DeleteRule(m, m[0].id), false, false, None, d)).rules;
            added == m[1..] + [RuleFromDraft(NewRuleId(|m| - 1), d)]
  {
    DeleteFirstOnly(m, m[0].id);
  }

  /** After a deletion the count-based id can repeat a surviving one: delete TH-001 from the initial
      list and the next added rule is a second TH-008. */
  lemma DeleteThenAddRepeatsId(d: Draft)
    requires Complete(d)
    ensures TwoLastIds(SaveRule(Editor(DeleteRule(MockRules(), "TH-001"), false, false, None, d)).rules)
  {
    MockRulesNumbered();
    NumberedDeleteFirstThenAdd(MockRules(), d);
  }

  /** Eight rules whose last two both carry the id TH-008. */
  predicate TwoLastIds(rules: seq<Rule>)
  {
    |rules| == 8 && rules[6].id == "TH-008" && rules[7].id == "TH-008"
  }

  /** The same for any numbered list of eight rules. */
  lemma NumberedDeleteFirstThenAdd(m: seq<Rule>, d: Draft)
    requires Numbered(m) && |m| == 8 && Complete(d)
    ensures var added := SaveRule(Editor(DeleteRule(m, "TH-001"), false, false, None, d)).rules;
            |added| == 8 && added[6].id == "TH-008" && added[7].id == "TH-008"
  {
    FirstAndEighthRuleIds();
    assert m[0].id == NewRuleId(0) && m[7].id == NewRuleId(7);
    NumberedFirstIdUnique(m);
    DeleteFirstThenAdd(m, d);
  }
}
