/** Task feedback tracking: the feedback list, its search and filters, the grouping of the shown
    feedback by task with the latest entry of each group on top, the progress bar colours, task
    titles, and the dialog that appends a new `FB-` feedback. */
module TasksTracking {
  import opened Common
  import Text
  import Seqs
  import Sorting
  import TasksList

  datatype FeedbackStatus = Pending | InProgress | Completed | Overdue

  datatype Feedback = Feedback(
    id: string,
    taskId: string,
    timestamp: string,
    status: FeedbackStatus,
    content: string,
    progress: int,
    author: string)

  function MockFeedbacks(): seq<Feedback>
  {
    [ Feedback("FB-001", "TASK-001", "2023-06-16T09:30:00", InProgress,
               "已开始检查政府大楼空调系统，发现部分系统运行效率低下，正在进行维修", 30, "张工程师"),
      Feedback("FB-002", "TASK-001", "2023-06-18T14:20:00", InProgress,
               "更换了空调系统的部分配件，系统性能有所提升，继续观察", 70, "张工程师"),
      Feedback("FB-003", "TASK-001", "2023-06-19T16:45:00", Completed,
               "空调系统已全面修复，能耗已恢复正常水平，任务完成", 100, "张工程师"),
      Feedback("FB-004", "TASK-002", "2023-06-19T10:15:00", InProgress,
               "已排查到教学楼三楼的主水管有漏水情况，正在准备维修材料", 40, "李维修"),
      Feedback("FB-005", "TASK-003", "2023-06-18T08:30:00", InProgress,
               "初步检查医院天然气管道，发现2处可能存在风险的连接点，待进一步确认", 25, "王安全"),
      Feedback("FB-006", "TASK-005", "2023-06-20T11:40:00", InProgress,
               "已对指挥中心设备冷却系统进行初步调整，设备温度有所下降，但仍需优化", 60, "刘技术"),
      Feedback("FB-007", "TASK-006", "2023-06-19T09:00:00", InProgress,
               "已添加pH调节剂，水质正在逐步改善中", 50, "林水务"),
      Feedback("FB-008", "TASK-006", "2023-06-20T15:30:00", Completed,
               "游泳池水质pH值已调整至标准范围内，水质检测正常，任务完成", 100, "林水务") ]
  }

  // ---------------------------------------------------------------------------------------------
  // Task titles
  // ---------------------------------------------------------------------------------------------

  datatype TaskRef = TaskRef(id: string, title: string)

  function TaskRefs(): seq<TaskRef>
  {
    [ TaskRef("TASK-001", "政府大楼空调系统检查"),
      TaskRef("TASK-002", "第一中学水管漏水排查"),
      TaskRef("TASK-003", "医院天然气管道安全检查"),
      TaskRef("TASK-004", "文化馆照明系统优化"),
      TaskRef("TASK-005", "公安局设备冷却系统维护"),
      TaskRef("TASK-006", "体育馆游泳池水质调节") ]
  }

  /** `getTaskTitle`: the title of the first reference with the id, or the id itself when no
      reference has it. */
  function TaskTitle(refs: seq<TaskRef>, taskId: string): (r: string)
    ensures (forall i :: 0 <= i < |refs| ==> refs[i].id != taskId) ==> r == taskId
    ensures forall i :: 0 <= i < |refs| && refs[i].id == taskId && NoneBefore(refs, taskId, i) ==> r == refs[i].title
  {
    if refs == [] then taskId
    else if refs[0].id == taskId then refs[0].title
    else
      var r := TaskTitle(refs[1..], taskId);
      NoneBeforeTail(refs, taskId);
      r
  }

  /** No reference before position `i` carries the id. */
  predicate NoneBefore(refs: seq<TaskRef>, taskId: string, i: int)
  {
    forall j :: 0 <= j < i && j < |refs| ==> refs[j].id != taskId
  }

  lemma NoneBeforeTail(refs: seq<TaskRef>, taskId: string)
    requires refs != [] && refs[0].id != taskId
    ensures forall i :: 1 <= i < |refs| ==> refs[i] == refs[1..][i - 1]
    ensures forall i :: 1 <= i < |refs| && NoneBefore(refs, taskId, i) ==> NoneBefore(refs[1..], taskId, i - 1)
    ensures (forall i :: 0 <= i < |refs| ==> refs[i].id != taskId) ==>
            (forall i :: 0 <= i < |refs[1..]| ==> refs[1..][i].id != taskId)
  {
    forall i | 1 <= i < |refs| && NoneBefore(refs, taskId, i) ensures NoneBefore(refs[1..], taskId, i - 1) {
      forall j | 0 <= j < i - 1 && j < |refs[1..]| ensures refs[1..][j].id != taskId {
        assert refs[1..][j] == refs[j + 1];
      }
    }
  }

  /** The reference list is the task list's seed, id for id and title for title, so every seeded
      task shows its own title. */
  lemma TaskRefsMatchTasks()
    ensures |TaskRefs()| == |TasksList.MockTasks()|
    ensures forall i :: 0 <= i < |TaskRefs()| ==>
      TaskRefs()[i].id == TasksList.MockTasks()[i].id && TaskRefs()[i].title == TasksList.MockTasks()[i].title
    ensures forall i :: 0 <= i < |TaskRefs()| ==>
      TaskTitle(TaskRefs(), TasksList.MockTasks()[i].id) == TasksList.MockTasks()[i].title
  {
    var refs, tasks := TaskRefs(), TasksList.MockTasks();
    TaskRefsAgree();
    TasksList.MockTasksNumbered();
    TasksList.NumberedIdsDistinct(tasks);
    forall i | 0 <= i < |refs| ensures TaskTitle(refs, tasks[i].id) == tasks[i].title {
      TitleOfUniqueId(refs, i);
    }
  }

  lemma TaskRefsAgree()
    ensures |TaskRefs()| == |TasksList.MockTasks()|
    ensures forall i :: 0 <= i < |TaskRefs()| ==>
      TaskRefs()[i].id == TasksList.MockTasks()[i].id && TaskRefs()[i].title == TasksList.MockTasks()[i].title
  {
  }

  /** A reference whose id no other reference shares is found by its id. */
  lemma TitleOfUniqueId(refs: seq<TaskRef>, i: nat)
    requires i < |refs| && forall j :: 0 <= j < |refs| && j != i ==> refs[j].id != refs[i].id
    ensures TaskTitle(refs, refs[i].id) == refs[i].title
  {
  }

  // ---------------------------------------------------------------------------------------------
  // Search and filters
  // ---------------------------------------------------------------------------------------------

  datatype FeedbackQuery = FeedbackQuery(search: string, task: Choice<string>, status: Choice<FeedbackStatus>)

  predicate SearchHits(f: Feedback, term: string)
  {
    Text.Matches(f.content, term) || Text.Matches(f.author, term) || Text.Matches(f.taskId, term)
  }

  predicate Visible(f: Feedback, q: FeedbackQuery)
  {
    SearchHits(f, q.search) && Admits(q.task, f.taskId) && Admits(q.status, f.status)
  }

  /** `filteredFeedbacks`: the visible feedback, in list order. */
  function FilteredFeedbacks(fs: seq<Feedback>, q: FeedbackQuery): (r: seq<Feedback>)
    ensures forall f :: f in r <==> f in fs && Visible(f, q)
    ensures Seqs.SubseqOf(r, fs)
    ensures forall f: Feedback :: multiset(r)[f] == if Visible(f, q) then multiset(fs)[f] else 0
  {
    var keep := (f: Feedback) => Visible(f, q);
    Seqs.FilterIsSubseq(fs, keep);
    Seqs.FilterMultiset(fs, keep);
    Seqs.Filter(fs, keep)
  }

  // ---------------------------------------------------------------------------------------------
  // Grouping by task
  // ---------------------------------------------------------------------------------------------

  /** One entry of the grouping object: a task id and its feedback in arrival order. */
  datatype Group = Group(taskId: string, items: seq<Feedback>)

  /** The keys of the grouping object, in insertion order. */
  function Keys(gs: seq<Group>): (r: seq<string>)
    ensures |r| == |gs|
    ensures forall i :: 0 <= i < |gs| ==> r[i] == gs[i].taskId
  {
    if gs == [] then [] else [gs[0].taskId] + Keys(gs[1..])
  }

  /** The task ids of a feedback list, in list order. */
  function TaskIds(fs: seq<Feedback>): (r: seq<string>)
    ensures |r| == |fs|
    ensures forall i :: 0 <= i < |fs| ==> r[i] == fs[i].taskId
  {
    Seqs.Map(fs, TaskIdOf())
  }

  function TaskIdOf(): Feedback -> string
  {
    (f: Feedback) => f.taskId
  }

  predicate NoEmptyGroup(gs: seq<Group>)
  {
    forall i :: 0 <= i < |gs| ==> gs[i].items != []
  }

  function TotalSize(gs: seq<Group>): nat
  {
    if gs == [] then 0 else |gs[0].items| + TotalSize(gs[1..])
  }

  function TaskIs(k: string): Feedback -> bool
  {
    (f: Feedback) => f.taskId == k
  }

  /** One step of the `reduce`: the feedback joins the group of its task, or opens a new group
      after the existing ones. Groups keep their order and their keys. */
  function AddToGroups(gs: seq<Group>, f: Feedback): (r: seq<Group>)
    ensures |r| == if f.taskId in Keys(gs) then |gs| else |gs| + 1
    ensures forall i :: 0 <= i < |gs| ==> r[i].taskId == gs[i].taskId
    ensures f.taskId !in Keys(gs) ==> r[|gs|] == Group(f.taskId, [f])
    ensures |r| <= |gs| + 1 && (|r| > |gs| ==> r[|gs|] == Group(f.taskId, [f]))
    ensures TotalSize(r) == TotalSize(gs) + 1
  {
    if gs == [] then [Group(f.taskId, [f])]
    else if gs[0].taskId == f.taskId then [gs[0].(items := gs[0].items + [f])] + gs[1..]
    else
      assert Keys(gs) == [gs[0].taskId] + Keys(gs[1..]);
      [gs[0]] + AddToGroups(gs[1..], f)
  }

  /** The keys after a step: unchanged, or the new task id appended. */
  lemma AddToGroupsKeys(gs: seq<Group>, f: Feedback)
    ensures Keys(AddToGroups(gs, f)) == if f.taskId in Keys(gs) then Keys(gs) else Keys(gs) + [f.taskId]
  {
  }

  /** With distinct keys, the feedback is added to its own group only. */
  lemma {:induction false} AddToGroupsItems(gs: seq<Group>, f: Feedback)
    requires Seqs.Distinct(Keys(gs))
    ensures var r := AddToGroups(gs, f);
      forall i :: 0 <= i < |gs| ==> r[i].items == gs[i].items + (if gs[i].taskId == f.taskId then [f] else [])
  {
    if gs != [] && gs[0].taskId != f.taskId {
      AddToGroupsItems(gs[1..], f);
      var r := AddToGroups(gs, f);
      assert r == [gs[0]] + AddToGroups(gs[1..], f);
      forall i | 0 <= i < |gs| ensures r[i].items == gs[i].items + (if gs[i].taskId == f.taskId then [f] else []) {
        if i > 0 {
          assert gs[1..][i - 1] == gs[i];
        }
      }
    } else if gs != [] {
      forall i | 0 < i < |gs| ensures gs[i].taskId != f.taskId {
        assert Keys(gs)[0] != Keys(gs)[i];
      }
    }
  }

  /** `groupedFeedbacks`: the feedback folded into groups from the left, as `reduce` does. */
  function GroupByTask(fs: seq<Feedback>): seq<Group>
  {
    if fs == [] then [] else AddToGroups(GroupByTask(fs[..|fs| - 1]), fs[|fs| - 1])
  }

  /** The task ids of a list with one more entry. */
  lemma TaskIdsSnoc(init: seq<Feedback>, x: Feedback)
    ensures TaskIds(init + [x]) == TaskIds(init) + [x.taskId]
  {
    assert forall i :: 0 <= i < |init| ==> TaskIds(init + [x])[i] == init[i].taskId;
  }

  /** There is one group per task id present and no other, no two groups share an id, and the
      groups come in the order in which their task ids first appear, as `Object.entries` lists
      the keys of the object the `reduce` builds. */
  lemma {:induction false} GroupKeys(fs: seq<Feedback>)
    ensures Seqs.Distinct(Keys(GroupByTask(fs)))
    ensures forall k :: k in Keys(GroupByTask(fs)) <==> k in TaskIds(fs)
    ensures Seqs.FirstAppearanceOrder(Keys(GroupByTask(fs)), TaskIds(fs))
  {
    if fs != [] {
      var init, x := fs[..|fs| - 1], fs[|fs| - 1];
      assert fs == init + [x];
      var gs := GroupByTask(init);
      GroupKeys(init);
      TaskIdsSnoc(init, x);
      AddToGroupsKeys(gs, x);
      if x.taskId in Keys(gs) {
        Seqs.FirstAppearanceSnoc(Keys(gs), TaskIds(init), x.taskId);
      } else {
        Seqs.DistinctSnoc(Keys(gs), x.taskId);
        Seqs.FirstAppearanceAppend(Keys(gs), TaskIds(init), x.taskId);
      }
    }
  }

  /** A step never leaves a group empty. */
  lemma {:induction false} AddToGroupsNonEmpty(gs: seq<Group>, f: Feedback)
    requires NoEmptyGroup(gs)
    ensures NoEmptyGroup(AddToGroups(gs, f))
  {
    if gs != [] && gs[0].taskId != f.taskId {
      AddToGroupsNonEmpty(gs[1..], f);
    }
  }

  lemma {:induction false} GroupNonEmpty(fs: seq<Feedback>)
    ensures NoEmptyGroup(GroupByTask(fs))
  {
    if fs != [] {
      GroupNonEmpty(fs[..|fs| - 1]);
      AddToGroupsNonEmpty(GroupByTask(fs[..|fs| - 1]), fs[|fs| - 1]);
    }
  }

  /** Feedback of a task that does not occur filters to nothing. */
  lemma FilterAbsentTask(fs: seq<Feedback>, k: string)
    requires k !in TaskIds(fs)
    ensures Seqs.Filter(fs, TaskIs(k)) == []
  {
  }

  /** A feedback that opens a new group is the first of its task. */
  lemma NewGroupStartsEmpty(fs: seq<Feedback>, x: Feedback)
    ensures |AddToGroups(GroupByTask(fs), x)| > |GroupByTask(fs)| ==> Seqs.Filter(fs, TaskIs(x.taskId)) == []
  {
    if |AddToGroups(GroupByTask(fs), x)| > |GroupByTask(fs)| {
      GroupKeys(fs);
      FilterAbsentTask(fs, x.taskId);
    }
  }

  /** One step of the fold adds the new feedback to its own group only. */
  lemma GroupStep(init: seq<Feedback>, x: Feedback)
    ensures var old_gs := GroupByTask(init);
      var gs := AddToGroups(old_gs, x);
      forall i :: 0 <= i < |old_gs| ==> gs[i].items == old_gs[i].items + (if old_gs[i].taskId == x.taskId then [x] else [])
  {
    GroupKeys(init);
    AddToGroupsItems(GroupByTask(init), x);
  }

  /** Each group holds exactly the feedback of its task, in list order. */
  lemma GroupItems(fs: seq<Feedback>)
    ensures var gs := GroupByTask(fs);
      forall i :: 0 <= i < |gs| ==> gs[i].items == Seqs.Filter(fs, TaskIs(gs[i].taskId))
  {
    forall i | 0 <= i < |GroupByTask(fs)|
      ensures GroupByTask(fs)[i].items == Seqs.Filter(fs, TaskIs(GroupByTask(fs)[i].taskId))
    {
      GroupItemsAt(fs, i);
    }
  }

  lemma {:induction false} GroupItemsAt(fs: seq<Feedback>, i: nat)
    requires i < |GroupByTask(fs)|
    ensures GroupByTask(fs)[i].items == Seqs.Filter(fs, TaskIs(GroupByTask(fs)[i].taskId))
    decreases |fs|
  {
    var init, x := fs[..|fs| - 1], fs[|fs| - 1];
    var old_gs := GroupByTask(init);
    var gs := AddToGroups(old_gs, x);
    assert gs == GroupByTask(fs);
    var k := gs[i].taskId;
    Seqs.FilterLast(fs, TaskIs(k));
    var tail := if x.taskId == k then [x] else [];
    assert Seqs.Filter(fs, TaskIs(k)) == Seqs.Filter(init, TaskIs(k)) + tail;
    if i < |old_gs| {
      GroupItemsAt(init, i);
      GroupStep(init, x);
      assert k == old_gs[i].taskId;
      assert old_gs[i].items == Seqs.Filter(init, TaskIs(k));
      assert gs[i].items == old_gs[i].items + tail;
    } else {
      NewGroupStartsEmpty(init, x);
      assert gs[|old_gs|] == Group(x.taskId, [x]) && i == |old_gs|;
    }
  }

  /** The group sizes add up to the number of feedback entries grouped. */
  lemma {:induction false} GroupSizes(fs: seq<Feedback>)
    ensures TotalSize(GroupByTask(fs)) == |fs|
  {
    if fs != [] {
      GroupSizes(fs[..|fs| - 1]);
    }
  }

  /** Every feedback lands in the one group of its task id, in arrival order: there is a group per
      task id present and no other, the groups' ids differ, each group holds exactly the feedback of
      its task in list order, no group is empty, and the group sizes add up to the list's length. */
  lemma GroupByTaskCorrect(fs: seq<Feedback>)
    ensures var gs := GroupByTask(fs);
      && Seqs.Distinct(Keys(gs))
      && NoEmptyGroup(gs)
      && (forall k :: k in Keys(gs) <==> k in TaskIds(fs))
      && Seqs.FirstAppearanceOrder(Keys(gs), TaskIds(fs))
      && (forall i :: 0 <= i < |gs| ==> gs[i].items == Seqs.Filter(fs, TaskIs(gs[i].taskId)))
      && TotalSize(gs) == |fs|
  {
    GroupKeys(fs);
    GroupNonEmpty(fs);
    GroupItems(fs);
    GroupSizes(fs);
  }

  /** With one task chosen in the task filter, at most one group is shown. */
  lemma OneTaskOneGroup(fs: seq<Feedback>, q: FeedbackQuery)
    requires q.task.Only?
    ensures |GroupByTask(FilteredFeedbacks(fs, q))| <= 1
  {
    var shown := FilteredFeedbacks(fs, q);
    assert forall f :: f in shown ==> f.taskId == q.task.choice;
    OneTaskKeys(shown, q.task.choice);
  }

  /** Feedback of a single task forms at most one group. */
  lemma OneTaskKeys(fs: seq<Feedback>, k: string)
    requires forall f :: f in fs ==> f.taskId == k
    ensures |GroupByTask(fs)| <= 1
  {
    var keys := Keys(GroupByTask(fs));
    GroupKeys(fs);
    TaskIdsAllEqual(fs, k);
    assert forall i :: 0 <= i < |keys| ==> keys[i] in keys;
    Seqs.DistinctConstant(keys, k);
  }

  /** A list whose entries all belong to task `k` has no other task id. */
  lemma TaskIdsAllEqual(fs: seq<Feedback>, k: string)
    requires forall f :: f in fs ==> f.taskId == k
    ensures forall x :: x in TaskIds(fs) ==> x == k
  {
    forall x | x in TaskIds(fs) ensures x == k {
      var j :| 0 <= j < |fs| && TaskIds(fs)[j] == x;
      assert fs[j] in fs;
    }
  }

  // ---------------------------------------------------------------------------------------------
  // The latest entry of a group
  // ---------------------------------------------------------------------------------------------

  /** The time of an entry, `new Date(timestamp).getTime()` as given by `clock`. */
  function TimeOf(clock: string -> int): Feedback -> real
  {
    (f: Feedback) => clock(f.timestamp) as real
  }

  /** The entries whose time is that of `z`. */
  function SameTimeAs(clock: string -> int, z: Feedback): Feedback -> bool
  {
    (y: Feedback) => clock(y.timestamp) == clock(z.timestamp)
  }

  /** A group sorted newest first by `b - a` on the times: a permutation of the group in which no
      entry is later than one before it, and entries of equal time keep their order in the group,
      since `Array.prototype.sort` is stable. */
  function NewestFirst(items: seq<Feedback>, clock: string -> int): (r: seq<Feedback>)
    ensures multiset(r) == multiset(items)
    ensures forall i, j :: 0 <= i < j < |r| ==> clock(r[i].timestamp) >= clock(r[j].timestamp)
    ensures forall z :: Seqs.Filter(r, SameTimeAs(clock, z)) == Seqs.Filter(items, SameTimeAs(clock, z))
  {
    var lt := Sorting.Column(TimeOf(clock), false);
    Sorting.ColumnIsStrictWeakOrder(TimeOf(clock), false);
    Sorting.SortBySorted(items, lt);
    forall z ensures Seqs.Filter(Sorting.SortBy(items, lt), SameTimeAs(clock, z))
                  == Seqs.Filter(items, SameTimeAs(clock, z)) {
      NewestFirstKeepsTies(items, clock, z);
    }
    Sorting.SortBy(items, lt)
  }

  /** Stability of the sort, read on times: equivalence under the newest-first comparator is
      having the same time. */
  lemma NewestFirstKeepsTies(items: seq<Feedback>, clock: string -> int, z: Feedback)
    ensures var lt := Sorting.Column(TimeOf(clock), false);
      Seqs.Filter(Sorting.SortBy(items, lt), SameTimeAs(clock, z)) == Seqs.Filter(items, SameTimeAs(clock, z))
  {
    var lt := Sorting.Column(TimeOf(clock), false);
    var tie := y => Sorting.Equivalent(lt, y, z);
    Sorting.ColumnIsStrictWeakOrder(TimeOf(clock), false);
    Sorting.SortByStable(items, lt, z);
    Seqs.FilterSameTest(Sorting.SortBy(items, lt), tie, SameTimeAs(clock, z));
    Seqs.FilterSameTest(items, tie, SameTimeAs(clock, z));
  }

  /** The header entry of a group: the first of the newest-first list. It is one of the group's
      entries, no entry of the group is later, and among the entries of that latest time it is the
      one listed first in the group. */
  function Latest(items: seq<Feedback>, clock: string -> int): (r: Feedback)
    requires items != []
    ensures r in items
    ensures forall f :: f in items ==> clock(f.timestamp) <= clock(r.timestamp)
    ensures forall i :: 0 <= i < |items| && clock(items[i].timestamp) == clock(r.timestamp) ==>
      Seqs.IndexOf(items, r) <= i
  {
    var r := NewestFirst(items, clock);
    assert r[0] in multiset(items);
    forall f | f in items ensures clock(f.timestamp) <= clock(r[0].timestamp) {
      assert f in multiset(r);
      var j :| 0 <= j < |r| && r[j] == f;
    }
    LatestFirstAmongTies(items, clock, r);
    r[0]
  }

  /** The head of the newest-first list is the first of its time in the group, by stability. */
  lemma LatestFirstAmongTies(items: seq<Feedback>, clock: string -> int, r: seq<Feedback>)
    requires r == NewestFirst(items, clock) && r != [] && r[0] in items
    ensures forall i :: 0 <= i < |items| && clock(items[i].timestamp) == clock(r[0].timestamp) ==>
      Seqs.IndexOf(items, r[0]) <= i
  {
    var same := SameTimeAs(clock, r[0]);
    Seqs.FilterHead(r, same, 0);
    assert Seqs.Filter(items, same)[0] == r[0];
    forall i | 0 <= i < |items| && clock(items[i].timestamp) == clock(r[0].timestamp)
      ensures Seqs.IndexOf(items, r[0]) <= i
    {
      Seqs.FilterHead(items, same, i);
    }
  }

  // ---------------------------------------------------------------------------------------------
  // Progress
  // ---------------------------------------------------------------------------------------------

  datatype Band = Rose | Amber | Blue | Emerald

  /** `getProgressColor`: every progress gets exactly one band. */
  function ProgressColor(progress: int): (b: Band)
    ensures b == Emerald <==> progress >= 100
    ensures b == Blue <==> 70 <= progress < 100
    ensures b == Amber <==> 30 <= progress < 70
    ensures b == Rose <==> progress < 30
  {
    if progress >= 100 then Emerald else if progress >= 70 then Blue else if progress >= 30 then Amber else Rose
  }

  function BandRank(b: Band): nat
  {
    match b
    case Rose => 0
    case Amber => 1
    case Blue => 2
    case Emerald => 3
  }

  /** More progress never shows a lower band. */
  lemma ProgressColorMonotone(a: int, b: int)
    ensures a <= b ==> BandRank(ProgressColor(a)) <= BandRank(ProgressColor(b))
  {
  }

  /** The range input: the browser keeps its value within 0 to 100 and on a multiple of 5, taking
      the nearest step (the upper one on a tie). */
  function RangeValue(raw: int): (r: int)
    ensures 0 <= r <= 100 && r % 5 == 0
    ensures 0 <= raw <= 100 ==> -2 <= r - raw <= 2
    ensures raw < 0 ==> r == 0
    ensures raw > 100 ==> r == 100
  {
    var clamped := if raw < 0 then 0 else if raw > 100 then 100 else raw;
    (clamped + 2) / 5 * 5
  }

  /** A value the range already offers is kept as it is. */
  lemma RangeValueKeepsSteps(v: int)
    ensures RangeValue(v) == v <==> 0 <= v <= 100 && v % 5 == 0
  {
  }

  // ---------------------------------------------------------------------------------------------
  // Adding feedback
  // ---------------------------------------------------------------------------------------------

  /** The dialog's draft; `progress` is `None` when the field holds no number. */
  datatype FeedbackDraft = FeedbackDraft(
    taskId: string, status: FeedbackStatus, content: string, progress: Option<int>, author: string)

  datatype Tracker = Tracker(feedbacks: seq<Feedback>, isAdding: bool, draft: FeedbackDraft)

  function BlankFeedbackDraft(): FeedbackDraft
  {
    FeedbackDraft("", InProgress, "", Some(0), "")
  }

  /** `Number(progress) || 0`: a missing number counts as no progress. */
  function SavedProgress(p: Option<int>): (r: int)
    ensures p.Some? ==> r == p.value
    ensures p.None? ==> r == 0
  {
    match p
    case Some(v) => v
    case None => 0
  }

  predicate Complete(d: FeedbackDraft)
  {
    d.taskId != [] && d.content != [] && d.author != []
  }

  function NewFeedbackId(n: nat): string
  {
    Text.SeqId("FB-", n + 1)
  }

  /** `handleSaveFeedback`, `now` being the ISO time of the moment: an incomplete draft changes
      nothing; a complete one appends exactly one feedback with the draft's content after the
      unchanged list, closes the dialog and resets the draft. */
  function SaveFeedback(t: Tracker, now: string): (r: Tracker)
    ensures !Complete(t.draft) ==> r == t
    ensures Complete(t.draft) ==>
      && |r.feedbacks| == |t.feedbacks| + 1
      && r.feedbacks[..|t.feedbacks|] == t.feedbacks
      && r.feedbacks[|t.feedbacks|] == Feedback(NewFeedbackId(|t.feedbacks|), t.draft.taskId, now, t.draft.status,
                                                t.draft.content, SavedProgress(t.draft.progress), t.draft.author)
      && !r.isAdding && r.draft == BlankFeedbackDraft()
  {
    var d := t.draft;
    if d.taskId == [] || d.content == [] || d.author == [] then t
    else
      var f := Feedback(NewFeedbackId(|t.feedbacks|), d.taskId, now, d.status, d.content,
                        SavedProgress(d.progress), d.author);
      Tracker(t.feedbacks + [f], false, BlankFeedbackDraft())
  }

  /** The ids are `FB-001`, `FB-002`, ... in list order. */
  predicate Numbered(fs: seq<Feedback>)
  {
    forall i :: 0 <= i < |fs| ==> fs[i].id == Text.SeqId("FB-", i + 1)
  }

  lemma MockFeedbacksNumbered()
    ensures Numbered(MockFeedbacks())
  {
    forall i | 0 <= i < |MockFeedbacks()| ensures MockFeedbacks()[i].id == Text.SeqId("FB-", i + 1) {
      Text.SeqIdOneDigit("FB-", i + 1);
    }
  }

  /** Feedback is never deleted, so a save keeps the numbering and the new id is not yet taken. */
  lemma SaveKeepsNumbering(t: Tracker, now: string)
    requires Numbered(t.feedbacks)
    ensures Numbered(SaveFeedback(t, now).feedbacks)
    ensures forall i :: 0 <= i < |t.feedbacks| ==> t.feedbacks[i].id != NewFeedbackId(|t.feedbacks|)
  {
    var ids := Seqs.Map(t.feedbacks, (f: Feedback) => f.id);
    Text.SeqIdFresh("FB-", ids);
    forall i | 0 <= i < |t.feedbacks| ensures t.feedbacks[i].id != NewFeedbackId(|t.feedbacks|) {
      assert t.feedbacks[i].id == ids[i];
    }
    var r := SaveFeedback(t, now).feedbacks;
    if Complete(t.draft) {
      forall i | 0 <= i < |r| ensures r[i].id == Text.SeqId("FB-", i + 1) {
        if i < |t.feedbacks| {
          assert r[i] == r[..|t.feedbacks|][i];
        }
      }
    }
  }
}
