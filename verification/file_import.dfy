/** The file import screen: the extension gate of a chosen file, the simulated upload, and the
    import history it prepends to. */
module FileImport {
  import opened Common
  import Text

  datatype FileKind = Excel | Csv
  datatype ImportStatus = Success | Partial | Failed

  datatype HistoryItem = HistoryItem(
    id: string,
    filename: string,
    fileType: FileKind,
    uploadDate: string,
    status: ImportStatus,
    size: string,
    recordCount: nat,
    successCount: nat,
    failedCount: nat)

  /** A file the browser handed over: its name and its size in bytes. */
  datatype ChosenFile = ChosenFile(name: string, size: nat)

  datatype Importer = Importer(
    selected: Option<ChosenFile>,
    fileType: FileKind,
    uploading: bool,
    progress: nat,
    history: seq<HistoryItem>)

  function SampleHistory(): seq<HistoryItem>
  {
    [ HistoryItem("1", "福州市行政中心用电量.xlsx", Excel, "2023-06-15 14:30", Success, "256KB", 120, 120, 0),
      HistoryItem("2", "厦门市政务大厦能耗数据.csv", Csv, "2023-06-10 09:15", Partial, "128KB", 95, 87, 8),
      HistoryItem("3", "福建省医院系统能耗.xlsx", Excel, "2023-06-05 16:45", Failed, "512KB", 210, 0, 210) ]
  }

  function InitialImporter(): Importer
  {
    Importer(None, Excel, false, 0, SampleHistory())
  }

  // ---------------------------------------------------------------------------------------------
  // The extension gate
  // ---------------------------------------------------------------------------------------------

  /** `name.split('.').pop()?.toLowerCase()`. */
  function Extension(name: string): (r: string)
    ensures '.' !in r
  {
    Text.ToLower(Text.LastSegment(name))
  }

  predicate ImportableExtension(ext: string)
  {
    ext == "xlsx" || ext == "xls" || ext == "csv"
  }

  /** `handleFile`: an Excel or CSV file becomes the selection and sets the file type; any other
      file is refused and nothing changes. */
  function HandleFile(s: Importer, f: ChosenFile): (r: Importer)
    ensures ImportableExtension(Extension(f.name)) ==>
      && r.selected == Some(f)
      && (r.fileType == Csv <==> Extension(f.name) == "csv")
      && r.history == s.history && r.progress == s.progress && r.uploading == s.uploading
    ensures !ImportableExtension(Extension(f.name)) ==> r == s
  {
    var ext := Extension(f.name);
    if ext == "xlsx" || ext == "xls" || ext == "csv" then
      s.(selected := Some(f), fileType := if ext == "csv" then Csv else Excel)
    else s
  }

  /** For a name `base.ext` the gate looks only at `ext`, whatever dots `base` contains. */
  lemma HandleFileDotted(s: Importer, base: string, ext: string, size: nat)
    requires '.' !in ext
    ensures Extension(base + "." + ext) == Text.ToLower(ext)
    ensures ImportableExtension(Text.ToLower(ext)) ==>
            HandleFile(s, ChosenFile(base + "." + ext, size)).selected == Some(ChosenFile(base + "." + ext, size))
    ensures !ImportableExtension(Text.ToLower(ext)) ==> HandleFile(s, ChosenFile(base + "." + ext, size)) == s
  {
    Text.LastSegmentOfDotted(base, ext);
  }

  /** A name without any dot is its own extension: a file called just `CSV` is taken as a CSV file. */
  lemma BareNameAccepted(s: Importer)
    ensures HandleFile(s, ChosenFile("CSV", 0)).selected == Some(ChosenFile("CSV", 0))
    ensures HandleFile(s, ChosenFile("CSV", 0)).fileType == Csv
  {
    Text.LastSegmentNoDot("CSV");
    assert Text.ToLower("CSV") == "csv";
  }

  // ---------------------------------------------------------------------------------------------
  // The upload
  // ---------------------------------------------------------------------------------------------

  /** One step of the progress timer: ten points more, held at 100 once it got there. */
  function ProgressTick(p: nat): nat
  {
    if p >= 100 then 100 else p + 10
  }

  /** From 0 the bar moves in steps of ten and never shows more than 100. */
  lemma {:induction false} ProgressTicksBounded(p: nat, n: nat)
    requires p % 10 == 0 && p <= 100
    ensures Ticks(p, n) % 10 == 0 && Ticks(p, n) <= 100
    ensures n >= 10 ==> Ticks(0, n) == 100
    decreases n
  {
    if n > 0 {
      ProgressTicksBounded(ProgressTick(p), n - 1);
    }
    if n >= 10 {
      TicksFromZero(n);
    }
  }

  /** The bar after `n` timer steps from `p`. */
  function Ticks(p: nat, n: nat): nat
    decreases n
  {
    if n == 0 then p else Ticks(ProgressTick(p), n - 1)
  }

  lemma {:induction false} TicksFromZero(n: nat)
    ensures Ticks(0, n) == if n >= 10 then 100 else 10 * n
  {
    TicksFrom(0, n);
  }

  lemma {:induction false} TicksFrom(k: nat, n: nat)
    requires k <= 10
    ensures Ticks(10 * k, n) == if k + n >= 10 then 100 else 10 * (k + n)
    decreases n
  {
    if n > 0 {
      if k == 10 {
        TicksFrom(10, n - 1);
      } else {
        TicksFrom(k + 1, n - 1);
      }
    }
  }

  /** The random record and success counts: `Math.floor(Math.random() * 100) + 50`, from a draw below 100. */
  function RandomCount(draw: nat): (c: nat)
    requires draw < 100
    ensures 50 <= c < 150
  {
    draw + 50
  }

  /** `handleUpload`, with the timer run to completion in one step: without a selection nothing
      happens; otherwise one successful history item for the selected file is put in front of the
      unchanged history, the bar shows 100 and the selection is cleared. `now` is `Date.now()`,
      `date` the local date text, `sizeText` the formatted size and the draws the two random numbers. */
  function Upload(s: Importer, now: nat, date: string, sizeText: string, recordDraw: nat, successDraw: nat): (r: Importer)
    requires recordDraw < 100 && successDraw < 100
    ensures s.selected.None? ==> r == s
    ensures s.selected.Some? ==>
      && |r.history| == |s.history| + 1
      && r.history[1..] == s.history
      && r.history[0].id == Text.NatToString(now)
      && r.history[0].filename == s.selected.value.name
      && r.history[0].fileType == s.fileType
      && r.history[0].uploadDate == date
      && r.history[0].size == sizeText
      && r.history[0].status == Success
      && r.history[0].failedCount == 0
      && r.history[0].recordCount == RandomCount(recordDraw)
      && r.history[0].successCount == RandomCount(successDraw)
      && 50 <= r.history[0].recordCount < 150
      && 50 <= r.history[0].successCount < 150
      && r.selected.None? && !r.uploading && r.progress == 100 && r.fileType == s.fileType
  {
    match s.selected
    case None => s
    case Some(f) =>
      var item := HistoryItem(Text.NatToString(now), f.name, s.fileType, date, Success, sizeText,
                              RandomCount(recordDraw), RandomCount(successDraw), 0);
      s.(selected := None, uploading := false, progress := 100, history := [item] + s.history)
  }

  /** An item's counts add up: every record was either imported or failed. */
  predicate Balanced(h: HistoryItem)
  {
    h.successCount + h.failedCount == h.recordCount
  }

  lemma SampleHistoryBalanced()
    ensures forall i :: 0 <= i < |SampleHistory()| ==> Balanced(SampleHistory()[i])
  {
  }

  /** The record and success counts are drawn independently, so a "successful" import can report
      more imported records than it read, with no failures. */
  lemma UploadCanUnbalance()
    ensures var s := Importer(Some(ChosenFile("a.csv", 1)), Csv, false, 0, SampleHistory());
            !Balanced(Upload(s, 0, "", "", 0, 99).history[0])
  {
    var s := Importer(Some(ChosenFile("a.csv", 1)), Csv, false, 0, SampleHistory());
    var h := Upload(s, 0, "", "", 0, 99).history[0];
    assert h.recordCount == 50 && h.successCount == 149;
  }

  /** The upload as evidently intended: a successful import imports every record it read. */
  function UploadBalanced(s: Importer, now: nat, date: string, sizeText: string, recordDraw: nat): (r: Importer)
    requires recordDraw < 100
    ensures s.selected.None? ==> r == s
    ensures s.selected.Some? ==>
      && |r.history| == |s.history| + 1
      && r.history[1..] == s.history
      && r.history[0].id == Text.NatToString(now)
      && r.history[0].filename == s.selected.value.name
      && r.history[0].fileType == s.fileType
      && r.history[0].uploadDate == date
      && r.history[0].size == sizeText
      && r.history[0].status == Success
      && r.history[0].failedCount == 0
      && r.history[0].successCount == r.history[0].recordCount == RandomCount(recordDraw)
      && r.selected.None? && !r.uploading && r.progress == 100 && r.fileType == s.fileType
  {
    var r := Upload(s, now, date, sizeText, recordDraw, recordDraw);
    assert s.selected.Some? ==> r.history[0].successCount == r.history[0].recordCount;
    r
  }

  /** With the corrected upload every history item stays balanced. */
  lemma UploadBalancedKeepsHistoryBalanced(s: Importer, now: nat, date: string, sizeText: string, recordDraw: nat)
    requires recordDraw < 100
    requires forall i :: 0 <= i < |s.history| ==> Balanced(s.history[i])
    ensures var r := UploadBalanced(s, now, date, sizeText, recordDraw);
            forall i :: 0 <= i < |r.history| ==> Balanced(r.history[i])
  {
    var r := UploadBalanced(s, now, date, sizeText, recordDraw);
    if s.selected.Some? {
      forall i | 0 <= i < |r.history| ensures Balanced(r.history[i]) {
        if i > 0 {
          assert r.history[i] == s.history[i - 1];
        }
      }
    }
  }
}
