/** The carbon-sink file upload card: drag highlighting, the Excel-only gate of a chosen file, and
    the simulated upload that clears the selection when it completes. */
module CarbonSinkUpload {
  import opened Common
  import Text
  import FileImport

  datatype Uploader = Uploader(
    dragActive: bool,
    selected: Option<FileImport.ChosenFile>,
    uploading: bool,
    progress: nat)

  function InitialUploader(): Uploader
  {
    Uploader(false, None, false, 0)
  }

  /** Only Excel workbooks are taken here; unlike the data-import screen, CSV is refused. */
  predicate ExcelExtension(ext: string)
  {
    ext == "xlsx" || ext == "xls"
  }

  /** `handleFile`: a file whose lower-cased last extension is `xlsx` or `xls` becomes the
      selection; any other file is refused and the card stays as it was. */
  function HandleFile(s: Uploader, f: FileImport.ChosenFile): (r: Uploader)
    ensures ExcelExtension(FileImport.Extension(f.name)) ==> r == s.(selected := Some(f))
    ensures !ExcelExtension(FileImport.Extension(f.name)) ==> r == s
  {
    var ext := FileImport.Extension(f.name);
    if ext == "xlsx" || ext == "xls" then s.(selected := Some(f)) else s
  }

  /** The same CSV file that the data-import screen accepts is refused by this card. */
  lemma CsvRefusedHere(s: Uploader, imp: FileImport.Importer)
    ensures HandleFile(s, FileImport.ChosenFile("data.csv", 1)) == s
    ensures FileImport.HandleFile(imp, FileImport.ChosenFile("data.csv", 1)).selected
         == Some(FileImport.ChosenFile("data.csv", 1))
  {
    FileImport.HandleFileDotted(imp, "data", "csv", 1);
    assert "data.csv" == "data" + "." + "csv";
    assert Text.ToLower("csv") == "csv";
  }

  /** Upper-case extensions pass too, since the gate lower-cases the extension. */
  lemma UpperCaseExcelAccepted(s: Uploader, base: string)
    ensures HandleFile(s, FileImport.ChosenFile(base + "." + "XLSX", 1)).selected
         == Some(FileImport.ChosenFile(base + "." + "XLSX", 1))
  {
    Text.LastSegmentOfDotted(base, "XLSX");
    assert Text.ToLower("XLSX") == "xlsx";
  }

  // ---------------------------------------------------------------------------------------------
  // Dragging
  // ---------------------------------------------------------------------------------------------

  datatype DragEvent = DragEnter | DragOver | DragLeave | Drop(files: seq<FileImport.ChosenFile>)

  /** `handleDrag` and `handleDrop`: entering or hovering highlights the drop zone, leaving or
      dropping clears it, and a drop hands its first file to the gate. */
  function OnDrag(s: Uploader, e: DragEvent): (r: Uploader)
    ensures (e == DragEnter || e == DragOver) ==> r == s.(dragActive := true)
    ensures e == DragLeave ==> r == s.(dragActive := false)
    ensures e.Drop? && e.files == [] ==> r == s.(dragActive := false)
    ensures e.Drop? && e.files != [] ==> r == HandleFile(s.(dragActive := false), e.files[0])
  {
    match e
    case DragEnter => s.(dragActive := true)
    case DragOver => s.(dragActive := true)
    case DragLeave => s.(dragActive := false)
    case Drop(files) =>
      var t := s.(dragActive := false);
      if files == [] then t else HandleFile(t, files[0])
  }

  // ---------------------------------------------------------------------------------------------
  // The upload
  // ---------------------------------------------------------------------------------------------

  /** One step of the progress timer: five points more, held at 100 once it got there. */
  function ProgressTick(p: nat): nat
  {
    if p >= 100 then 100 else p + 5
  }

  /** The bar after `n` timer steps from `p`. */
  function Ticks(p: nat, n: nat): nat
    decreases n
  {
    if n == 0 then p else Ticks(ProgressTick(p), n - 1)
  }

  /** From 0 the bar moves in steps of five and reaches 100 after twenty steps, never passing it. */
  lemma {:induction false} TicksFromZero(n: nat)
    ensures Ticks(0, n) == if n >= 20 then 100 else 5 * n
  {
    TicksFrom(0, n);
  }

  lemma {:induction false} TicksFrom(k: nat, n: nat)
    requires k <= 20
    ensures Ticks(5 * k, n) == if k + n >= 20 then 100 else 5 * (k + n)
    decreases n
  {
    if n > 0 {
      if k == 20 {
        TicksFrom(20, n - 1);
      } else {
        TicksFrom(k + 1, n - 1);
      }
    }
  }

  /** `handleUpload`: without a selection nothing happens. */
  function StartUpload(s: Uploader): (r: Uploader)
    ensures s.selected.None? ==> r == s
    ensures s.selected.Some? ==> r.uploading && r.progress == 0 && r.selected == s.selected
  {
    if s.selected.None? then s else s.(uploading := true, progress := 0)
  }

  /** The upload's completion timer: the bar shows 100, the upload ends and the selection is
      cleared. */
  function CompleteUpload(s: Uploader): (r: Uploader)
    ensures r.progress == 100 && !r.uploading && r.selected.None?
    ensures r.dragActive == s.dragActive
  {
    s.(uploading := false, progress := 100, selected := None)
  }

  /** The upload button, its timers run to completion in one step. */
  function Upload(s: Uploader): (r: Uploader)
    ensures s.selected.None? ==> r == s
    ensures s.selected.Some? ==> r.progress == 100 && !r.uploading && r.selected.None?
  {
    if s.selected.None? then s else CompleteUpload(StartUpload(s))
  }

  /** A second press after a completed upload does nothing: the selection is gone. */
  lemma UploadTwiceIsUploadOnce(s: Uploader)
    ensures Upload(Upload(s)) == Upload(s)
  {
  }
}
