/** The integration log viewer: the log list, its search and filters, clearing and reloading the
    list, and the colour class of a response time. */
module IntegrationLogs {
  import opened Common
  import Text
  import Seqs

  datatype LogStatus = Success | Error | Warning

  datatype LogEntry = LogEntry(
    id: string,
    timestamp: string,
    source: string,
    requestType: string,
    endpoint: string,
    status: LogStatus,
    statusCode: nat,
    responseTime: nat,
    message: string,
    details: Option<string>)

  function SampleLogs(): seq<LogEntry>
  {
    [ LogEntry("1", "2023-06-22 14:30:05", "福建省级平台", "POST", "/data/sync", Success, 200, 245,
               "数据同步成功", Some("成功同步45条记录")),
      LogEntry("2", "2023-06-22 14:25:00", "福建省级平台", "GET", "/heartbeat", Success, 200, 120,
               "心跳检测成功", None),
      LogEntry("3", "2023-06-22 13:30:10", "福州市数据中心", "POST", "/data/batch", Warning, 207, 780,
               "部分数据处理失败", Some("成功: 18条, 失败: 3条 (格式错误)")),
      LogEntry("4", "2023-06-22 12:15:32", "福建省级平台", "POST", "/data/sync", Error, 500, 1200,
               "服务器内部错误", Some("数据库连接超时，请重试")),
      LogEntry("5", "2023-06-22 11:42:18", "测试环境", "GET", "/buildings/list", Success, 200, 315,
               "获取楼栋列表成功", None),
      LogEntry("6", "2023-06-22 10:30:45", "福建省级平台", "GET", "/heartbeat", Success, 200, 118,
               "心跳检测成功", None),
      LogEntry("7", "2023-06-22 09:15:20", "福州市数据中心", "POST", "/data", Error, 400, 142,
               "参数验证失败", Some("buildingId不存在")) ]
  }

  /** The search box and the two select boxes. */
  datatype LogQuery = LogQuery(search: string, status: Choice<LogStatus>, source: Choice<string>)

  /** The search part: an empty term, or a case-insensitive hit in the endpoint, the message or the
      (present, non-empty) details. */
  predicate SearchHits(log: LogEntry, term: string)
  {
    || term == []
    || Text.Matches(log.endpoint, term)
    || Text.Matches(log.message, term)
    || (log.details.Some? && log.details.value != [] && Text.Matches(log.details.value, term))
  }

  predicate Visible(log: LogEntry, q: LogQuery)
  {
    SearchHits(log, q.search) && Admits(q.status, log.status) && Admits(q.source, log.source)
  }

  /** `filteredLogs`: the visible logs, in list order. */
  function FilteredLogs(logs: seq<LogEntry>, q: LogQuery): (r: seq<LogEntry>)
    ensures forall l :: l in r <==> l in logs && Visible(l, q)
    ensures Seqs.SubseqOf(r, logs)
    ensures forall l: LogEntry :: multiset(r)[l] == if Visible(l, q) then multiset(logs)[l] else 0
    ensures |r| <= |logs|
  {
    var keep := (l: LogEntry) => Visible(l, q);
    Seqs.FilterIsSubseq(logs, keep);
    Seqs.FilterMultiset(logs, keep);
    Seqs.Filter(logs, keep)
  }

  /** With an empty search and both filters on "all", every log is listed, in order. */
  lemma {:induction false} EmptyQueryShowsAll(logs: seq<LogEntry>)
    ensures FilteredLogs(logs, LogQuery("", All, All)) == logs
  {
    Seqs.FilterAll(logs, (l: LogEntry) => Visible(l, LogQuery("", All, All)));
  }

  /** A log without details is found by a non-empty term only through its endpoint or message. */
  lemma NoDetailsSearch(log: LogEntry, term: string)
    requires log.details.None? && term != []
    ensures SearchHits(log, term) <==> Text.Matches(log.endpoint, term) || Text.Matches(log.message, term)
  {
  }

  /** `clearLogs` empties the list; `refreshLogs` reloads the seven samples whatever the list held. */
  function ClearLogs(logs: seq<LogEntry>): seq<LogEntry>
  {
    []
  }

  function RefreshLogs(logs: seq<LogEntry>): seq<LogEntry>
  {
    SampleLogs()
  }

  lemma ClearShowsNothing(logs: seq<LogEntry>, q: LogQuery)
    ensures ClearLogs(logs) == [] && FilteredLogs(ClearLogs(logs), q) == []
  {
  }

  lemma RefreshIgnoresList(logs: seq<LogEntry>)
    ensures RefreshLogs(ClearLogs(logs)) == RefreshLogs(logs) && |RefreshLogs(logs)| == 7
  {
  }

  lemma RefreshShowsSamples(logs: seq<LogEntry>)
    ensures FilteredLogs(RefreshLogs(logs), LogQuery("", All, All)) == SampleLogs()
  {
    EmptyQueryShowsAll(RefreshLogs(logs));
  }

  // ---------------------------------------------------------------------------------------------
  // Response-time colours
  // ---------------------------------------------------------------------------------------------

  datatype Speed = Slow | Moderate | Fast

  /** Red above one second, amber above half a second, grey otherwise: the three conditions of the
      cell never overlap and one of them always applies. */
  function ResponseClass(ms: nat): (r: Speed)
    ensures r == Slow <==> ms > 1000
    ensures r == Moderate <==> 500 < ms <= 1000
    ensures r == Fast <==> ms <= 500
  {
    if ms > 1000 then Slow else if ms > 500 then Moderate else Fast
  }

  function SpeedRank(s: Speed): nat
  {
    match s
    case Fast => 0
    case Moderate => 1
    case Slow => 2
  }

  /** A slower response never gets a faster class. */
  lemma ResponseClassMonotone(a: nat, b: nat)
    ensures a <= b ==> SpeedRank(ResponseClass(a)) <= SpeedRank(ResponseClass(b))
  {
  }
}
