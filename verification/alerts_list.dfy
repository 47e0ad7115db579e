/** The alert list: search and filters over the alerts, the status selector of the detail dialog,
    and creating an inspection task for the selected alert. */
module AlertsList {
  import opened Common
  import Text
  import Seqs

  datatype AlertType = Electricity | Water | Gas | Other
  datatype Level = High | Medium | Low
  datatype AlertStatus = Open | InProgress | Resolved | Dismissed

  datatype Sent = Sent(sms: bool, email: bool, system: bool)

  datatype Alert = Alert(
    id: string,
    kind: AlertType,
    level: Level,
    location: string,
    building: string,
    message: string,
    timestamp: string,
    status: AlertStatus,
    notificationSent: Sent)

  function MockAlerts(): seq<Alert>
  {
    [ Alert("ALT-001", Electricity, High, "惠安县政府大楼", "主楼", "用电量突增，超过设定阈值40%",
            "2023-06-15 08:32", Open, Sent(true, true, true)),
      Alert("ALT-002", Water, Medium, "惠安县第一中学", "教学楼", "非上课时间用水异常",
            "2023-06-14 22:15", InProgress, Sent(true, true, true)),
      Alert("ALT-003", Gas, High, "惠安县人民医院", "住院部", "天然气使用量异常波动",
            "2023-06-14 16:45", Resolved, Sent(true, false, true)),
      Alert("ALT-004", Electricity, Low, "惠安县文化馆", "多功能厅", "闭馆后仍有用电记录",
            "2023-06-13 23:10", Dismissed, Sent(false, true, true)),
      Alert("ALT-005", Electricity, High, "惠安县公安局", "指挥中心", "用电负荷超过安全阈值",
            "2023-06-13 14:22", Open, Sent(true, true, true)),
      Alert("ALT-006", Water, Medium, "惠安县体育馆", "游泳馆", "水循环系统效率下降",
            "2023-06-12 09:47", InProgress, Sent(false, true, true)),
      Alert("ALT-007", Other, Low, "惠安县图书馆", "阅览室", "空调能效下降",
            "2023-06-11 13:30", Resolved, Sent(false, false, true)),
      Alert("ALT-008", Gas, High, "惠安县实验小学", "食堂", "燃气泄漏传感器告警",
            "2023-06-10 11:55", Resolved, Sent(true, true, true)),
      Alert("ALT-009", Electricity, Medium, "惠安县行政服务中心", "一号大厅", "用电量突增超过30%",
            "2023-06-09 15:20", Dismissed, Sent(true, true, true)),
      Alert("ALT-010", Water, High, "惠安县第二医院", "门诊部", "水管破裂漏水",
            "2023-06-08 07:15", Resolved, Sent(true, true, true)) ]
  }

  // ---------------------------------------------------------------------------------------------
  // Search and filters
  // ---------------------------------------------------------------------------------------------

  datatype AlertQuery = AlertQuery(
    search: string,
    status: Choice<AlertStatus>,
    level: Choice<Level>,
    kind: Choice<AlertType>)

  predicate SearchHits(a: Alert, term: string)
  {
    Text.Matches(a.message, term) || Text.Matches(a.location, term) || Text.Matches(a.building, term)
    || Text.Matches(a.id, term)
  }

  predicate Visible(a: Alert, q: AlertQuery)
  {
    SearchHits(a, q.search) && Admits(q.status, a.status) && Admits(q.level, a.level) && Admits(q.kind, a.kind)
  }

  function VisibleUnder(q: AlertQuery): Alert -> bool
  {
    (a: Alert) => Visible(a, q)
  }

  function StatusIs(st: AlertStatus): Alert -> bool
  {
    (a: Alert) => a.status == st
  }

  /** `filteredAlerts`: the visible alerts, in list order. */
  function FilteredAlerts(alerts: seq<Alert>, q: AlertQuery): (r: seq<Alert>)
    ensures forall a :: a in r <==> a in alerts && Visible(a, q)
    ensures Seqs.SubseqOf(r, alerts)
    ensures forall a: Alert :: multiset(r)[a] == if Visible(a, q) then multiset(alerts)[a] else 0
  {
    Seqs.FilterIsSubseq(alerts, VisibleUnder(q));
    Seqs.FilterMultiset(alerts, VisibleUnder(q));
    Seqs.Filter(alerts, VisibleUnder(q))
  }

  /** Choosing a status in the status box narrows the list shown under "all" statuses to the
      alerts of that status, in the same order. */
  lemma {:induction false} FiltersCompose(alerts: seq<Alert>, q: AlertQuery, st: AlertStatus)
    requires q.status == All
    ensures FilteredAlerts(alerts, q.(status := Only(st)))
         == Seqs.Filter(FilteredAlerts(alerts, q), StatusIs(st))
  {
    Seqs.FilterFilter(alerts, VisibleUnder(q), StatusIs(st), VisibleUnder(q.(status := Only(st))));
  }

  // ---------------------------------------------------------------------------------------------
  // Status changes and task creation
  // ---------------------------------------------------------------------------------------------

  /** `handleStatusChange`: the alerts with the id get the new status; nothing else changes. */
  function SetStatus(alerts: seq<Alert>, id: string, st: AlertStatus): (r: seq<Alert>)
    ensures |r| == |alerts|
    ensures forall i :: 0 <= i < |alerts| && alerts[i].id == id ==> r[i] == alerts[i].(status := st)
    ensures forall i :: 0 <= i < |alerts| && alerts[i].id != id ==> r[i] == alerts[i]
  {
    Seqs.Map(alerts, (a: Alert) => if a.id == id then a.(status := st) else a)
  }

  /** The detail dialog: the alert list, the alert opened in the dialog (as it was when opened) and
      the draft of the task description. */
  datatype Screen = Screen(
    alerts: seq<Alert>,
    selected: Option<Alert>,
    creatingTask: bool,
    taskDescription: string)

  /** The status selector and the task button are disabled when no alert is open or the opened
      alert is resolved or dismissed. */
  predicate Locked(s: Screen)
  {
    s.selected.None? || s.selected.value.status == Resolved || s.selected.value.status == Dismissed
  }

  /** Picking a status in the dialog. */
  function DialogStatusChange(s: Screen, st: AlertStatus): (r: Screen)
    ensures Locked(s) ==> r == s
    ensures !Locked(s) ==> r.alerts == SetStatus(s.alerts, s.selected.value.id, st)
  {
    if Locked(s) then s else s.(alerts := SetStatus(s.alerts, s.selected.value.id, st))
  }

  /** `handleCreateTask`, its timer run to completion: with an alert open and a description that is
      not blank, the alert moves to in progress and the task dialog closes; otherwise nothing happens. */
  function CreateTask(s: Screen): (r: Screen)
    ensures s.selected.None? || Text.IsBlank(s.taskDescription) ==> r == s
    ensures s.selected.Some? && !Text.IsBlank(s.taskDescription) ==>
      && r.alerts == SetStatus(s.alerts, s.selected.value.id, InProgress)
      && !r.creatingTask && r.selected == s.selected && r.taskDescription == s.taskDescription
  {
    Text.TrimEmptyIffBlank(s.taskDescription);
    if s.selected.None? || Text.Trim(s.taskDescription) == [] then s
    else s.(creatingTask := false, alerts := SetStatus(s.alerts, s.selected.value.id, InProgress))
  }

  /** The task button of the dialog: usable only when the dialog is not locked. */
  function DialogCreateTask(s: Screen): (r: Screen)
    ensures Locked(s) ==> r == s
    ensures !Locked(s) ==> r == CreateTask(s)
  {
    if Locked(s) then s else CreateTask(s)
  }

  /** An alert opened while resolved or dismissed cannot be changed from its dialog, whatever is
      clicked and in whatever order. */
  lemma {:induction false} LockedDialogChangesNothing(s: Screen, clicks: seq<Option<AlertStatus>>)
    requires s.selected.Some? && (s.selected.value.status == Resolved || s.selected.value.status == Dismissed)
    ensures Replay(s, clicks) == s
    decreases |clicks|
  {
    if clicks != [] {
      LockedDialogChangesNothing(s, clicks[1..]);
    }
  }

  /** A sequence of dialog actions: `Some(st)` picks a status, `None` presses the task button. */
  function Replay(s: Screen, clicks: seq<Option<AlertStatus>>): Screen
    decreases |clicks|
  {
    if clicks == [] then s
    else
      var next := match clicks[0] case Some(st) => DialogStatusChange(s, st) case None => DialogCreateTask(s);
      Replay(next, clicks[1..])
  }

  /** Only the opened alert can change status from the dialog: any other alert stays as it is. */
  lemma {:induction false} DialogTouchesOnlySelected(s: Screen, clicks: seq<Option<AlertStatus>>, i: nat)
    requires s.selected.Some? && i < |s.alerts| && s.alerts[i].id != s.selected.value.id
    ensures |Replay(s, clicks).alerts| == |s.alerts|
    ensures Replay(s, clicks).alerts[i] == s.alerts[i]
    ensures Replay(s, clicks).selected == s.selected
    decreases |clicks|
  {
    if clicks != [] {
      var next := match clicks[0] case Some(st) => DialogStatusChange(s, st) case None => DialogCreateTask(s);
      DialogTouchesOnlySelected(next, clicks[1..], i);
    }
  }
}
