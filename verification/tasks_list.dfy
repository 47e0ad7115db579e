/** The inspection task list: search and filters, and the dialog that appends a new task with a
    count-based `TASK-` identifier. The screen has no way to delete a task. */
module TasksList {
  import opened Common
  import Text
  import Seqs

  datatype Priority = High | Medium | Low
  datatype TaskStatus = Pending | InProgress | Completed | Overdue

  datatype Task = Task(
    id: string,
    title: string,
    description: string,
    location: string,
    building: Option<string>,
    assignee: string,
    dueDate: string,
    priority: Priority,
    status: TaskStatus,
    relatedAlert: Option<string>,
    createdAt: string)

  function MockTasks(): seq<Task>
  {
    [ Task("TASK-001", "政府大楼空调系统检查", "检查政府大楼空调系统异常耗电问题，并进行必要维修", "惠安县政府大楼",
           Some("主楼"), "张工程师", "2023-06-20", High, Completed, Some("TH-001"), "2023-06-15"),
      Task("TASK-002", "第一中学水管漏水排查", "排查第一中学教学楼水管漏水情况，并进行维修", "惠安县第一中学",
           Some("教学楼"), "李维修", "2023-06-25", Medium, InProgress, Some("TH-002"), "2023-06-18"),
      Task("TASK-003", "医院天然气管道安全检查", "对人民医院天然气管道进行安全检查，确保无泄漏风险", "惠安县人民医院",
           Some("住院部"), "王安全", "2023-06-19", High, Overdue, Some("TH-003"), "2023-06-17"),
      Task("TASK-004", "文化馆照明系统优化", "对文化馆照明系统进行调整，降低峰值负荷", "惠安县文化馆",
           None, "陈电工", "2023-06-30", Low, Pending, Some("TH-004"), "2023-06-20"),
      Task("TASK-005", "公安局设备冷却系统维护", "检查并维护公安局指挥中心设备冷却系统，降低设备温度", "惠安县公安局",
           Some("指挥中心"), "刘技术", "2023-06-22", High, InProgress, Some("TH-005"), "2023-06-19"),
      Task("TASK-006", "体育馆游泳池水质调节", "调节游泳池水质pH值至标准范围", "惠安县体育馆",
           Some("游泳馆"), "林水务", "2023-06-21", Medium, Completed, Some("TH-006"), "2023-06-18") ]
  }

  // ---------------------------------------------------------------------------------------------
  // Search and filters
  // ---------------------------------------------------------------------------------------------

  datatype TaskQuery = TaskQuery(search: string, status: Choice<TaskStatus>, priority: Choice<Priority>)

  predicate SearchHits(t: Task, term: string)
  {
    Text.Matches(t.title, term) || Text.Matches(t.location, term) || Text.Matches(t.assignee, term)
    || Text.Matches(t.id, term)
  }

  predicate Visible(t: Task, q: TaskQuery)
  {
    SearchHits(t, q.search) && Admits(q.status, t.status) && Admits(q.priority, t.priority)
  }

  /** `filteredTasks`: the visible tasks, in list order. */
  function FilteredTasks(tasks: seq<Task>, q: TaskQuery): (r: seq<Task>)
    ensures forall t :: t in r <==> t in tasks && Visible(t, q)
    ensures Seqs.SubseqOf(r, tasks)
    ensures forall t: Task :: multiset(r)[t] == if Visible(t, q) then multiset(tasks)[t] else 0
  {
    var keep := (t: Task) => Visible(t, q);
    Seqs.FilterIsSubseq(tasks, keep);
    Seqs.FilterMultiset(tasks, keep);
    Seqs.Filter(tasks, keep)
  }

  // ---------------------------------------------------------------------------------------------
  // Adding a task
  // ---------------------------------------------------------------------------------------------

  /** The dialog's draft. Every text field starts empty; the related alert is absent until typed. */
  datatype TaskDraft = TaskDraft(
    title: string,
    description: string,
    location: string,
    building: string,
    assignee: string,
    dueDate: string,
    priority: Priority,
    status: TaskStatus,
    relatedAlert: Option<string>)

  datatype Board = Board(tasks: seq<Task>, isAdding: bool, draft: TaskDraft)

  function BlankTaskDraft(): TaskDraft
  {
    TaskDraft("", "", "", "", "", "", Medium, Pending, None)
  }

  /** Title, location, assignee and due date must be filled in; description and building need not. */
  predicate Complete(d: TaskDraft)
  {
    d.title != [] && d.location != [] && d.assignee != [] && d.dueDate != []
  }

  function NewTaskId(n: nat): string
  {
    Text.SeqId("TASK-", n + 1)
  }

  /** The task made from a draft: the draft's fields, the given id and the creation date. */
  function TaskFromDraft(id: string, d: TaskDraft, today: string): (t: Task)
    ensures t.id == id && t.createdAt == today
    ensures t.title == d.title && t.description == d.description && t.location == d.location
    ensures t.building == Some(d.building) && t.assignee == d.assignee && t.dueDate == d.dueDate
    ensures t.priority == d.priority && t.status == d.status && t.relatedAlert == d.relatedAlert
  {
    Task(id, d.title, d.description, d.location, Some(d.building), d.assignee, d.dueDate, d.priority,
         d.status, d.relatedAlert, today)
  }

  /** `handleSaveTask`, `today` being the ISO date of the moment: an incomplete draft changes nothing;
      a complete one appends exactly one task after the unchanged list, closes the dialog and resets
      the draft. */
  function SaveTask(b: Board, today: string): (r: Board)
    ensures !Complete(b.draft) ==> r == b
    ensures Complete(b.draft) ==>
      && r.tasks == b.tasks + [TaskFromDraft(NewTaskId(|b.tasks|), b.draft, today)]
      && !r.isAdding && r.draft == BlankTaskDraft()
  {
    if b.draft.title == [] || b.draft.location == [] || b.draft.assignee == [] || b.draft.dueDate == [] then b
    else Board(b.tasks + [TaskFromDraft(NewTaskId(|b.tasks|), b.draft, today)], false, BlankTaskDraft())
  }

  // ---------------------------------------------------------------------------------------------
  // Identifiers
  // ---------------------------------------------------------------------------------------------

  /** The ids are `TASK-001`, `TASK-002`, ... in list order. */
  predicate Numbered(tasks: seq<Task>)
  {
    forall i :: 0 <= i < |tasks| ==> tasks[i].id == Text.SeqId("TASK-", i + 1)
  }

  lemma MockTasksNumbered()
    ensures Numbered(MockTasks())
  {
    forall i | 0 <= i < |MockTasks()| ensures MockTasks()[i].id == Text.SeqId("TASK-", i + 1) {
      Text.SeqIdOneDigit("TASK-", i + 1);
    }
  }

  /** Since tasks are only ever appended, the numbering is kept by every save and each new id is
      different from every existing one. */
  lemma SaveKeepsNumbering(b: Board, today: string)
    requires Numbered(b.tasks)
    ensures Numbered(SaveTask(b, today).tasks)
    ensures forall i :: 0 <= i < |b.tasks| ==> b.tasks[i].id != NewTaskId(|b.tasks|)
  {
    var ids := Seqs.Map(b.tasks, (t: Task) => t.id);
    Text.SeqIdFresh("TASK-", ids);
    forall i | 0 <= i < |b.tasks| ensures b.tasks[i].id != NewTaskId(|b.tasks|) {
      assert b.tasks[i].id == ids[i];
    }
    var r := SaveTask(b, today).tasks;
    if Complete(b.draft) {
      forall i | 0 <= i < |r| ensures r[i].id == Text.SeqId("TASK-", i + 1) {
        if i < |b.tasks| {
          assert r[i] == b.tasks[i];
        }
      }
    }
  }

  /** Numbered ids are pairwise distinct. */
  lemma NumberedIdsDistinct(tasks: seq<Task>)
    requires Numbered(tasks)
    ensures forall i, j :: 0 <= i < j < |tasks| ==> tasks[i].id != tasks[j].id
  {
    var ids := Seqs.Map(tasks, (t: Task) => t.id);
    Text.SeqIdsDistinct("TASK-", ids);
    assert forall i :: 0 <= i < |tasks| ==> tasks[i].id == ids[i];
  }

  /** Any number of saves, starting from a numbered list, keeps the list numbered, so every task
      id stays distinct. */
  lemma {:induction false} SavesKeepIdsDistinct(b: Board, days: seq<string>, drafts: seq<TaskDraft>)
    requires Numbered(b.tasks) && |drafts| == |days|
    ensures Numbered(SaveAll(b, days, drafts).tasks)
    ensures forall i, j :: 0 <= i < j < |SaveAll(b, days, drafts).tasks| ==>
      SaveAll(b, days, drafts).tasks[i].id != SaveAll(b, days, drafts).tasks[j].id
    decreases |days|
  {
    if days != [] {
      SaveKeepsNumbering(b.(draft := drafts[0]), days[0]);
      SavesKeepIdsDistinct(SaveTask(b.(draft := drafts[0]), days[0]), days[1..], drafts[1..]);
    } else {
      NumberedIdsDistinct(b.tasks);
    }
  }

  /** Filling in `drafts[k]` and saving on `days[k]`, one after the other. */
  function SaveAll(b: Board, days: seq<string>, drafts: seq<TaskDraft>): Board
    requires |drafts| == |days|
    decreases |days|
  {
    if days == [] then b else SaveAll(SaveTask(b.(draft := drafts[0]), days[0]), days[1..], drafts[1..])
  }
}
