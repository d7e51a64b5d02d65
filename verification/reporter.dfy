/** What the Excel and PDF reports contain: the summary sheet's figures, one
    detail row per history entry (its confidence metrics, file type, file name
    and status), the empty report for an empty history, and the PDF's totals
    and table of the most recent entries. Styling, column widths and the
    rendering itself belong to the spreadsheet and PDF libraries. */
module Reporter {
  import opened Numeric
  import opened Records
  import opened Text
  import opened Statistics

  const VideoLabel: string := "Видео"
  const ImageLabel: string := "Изображение"
  const FoundLabel: string := "Успешно"
  const NotFoundLabel: string := "Не обнаружено"

  /** The extensions that mark a video upload. */
  const VideoExtensions: seq<string> := [".mp4", ".avi", ".mov"]

  /** `item.get('original_image', '')` */
  function FileName(e: Entry): string
  {
    match e.originalImage
    case None => ""
    case Some(path) => path
  }

  /** The file-type column: a video exactly when the lower-cased name ends with
      one of the video extensions, an image otherwise. */
  function FileType(name: string): (t: string)
    ensures t == VideoLabel <==> exists ext :: ext in VideoExtensions && EndsWith(Lower(name), ext)
    ensures t == VideoLabel || t == ImageLabel
  {
    var lowered := Lower(name);
    if EndsWith(lowered, ".mp4") || EndsWith(lowered, ".avi") || EndsWith(lowered, ".mov") then VideoLabel
    else ImageLabel
  }

  /** The status column: a success exactly when something was detected. */
  function Status(e: Entry): (s: string)
    ensures s == FoundLabel <==> |e.detections| > 0
    ensures s == NotFoundLabel <==> |e.detections| == 0
  {
    if |e.detections| > 0 then FoundLabel else NotFoundLabel
  }

  /** One row of the details sheet. */
  datatype DetailRow = DetailRow(
    number: int,
    timestamp: string,
    fileType: string,
    bearCount: int,
    avgConfidence: real,
    maxConfidence: real,
    minConfidence: real,
    fileName: string,
    eventId: string,
    status: string)

  function DetailRowOf(number: int, e: Entry): DetailRow
  {
    var confidences := Confidences(e.detections);
    DetailRow(
      number,
      e.timestamp,
      FileType(FileName(e)),
      e.bearCount,
      Mean(confidences),
      MaxOrZero(confidences),
      MinOrZero(confidences),
      Basename(FileName(e)),
      e.id,
      Status(e))
  }

  /** The details sheet, rows numbered from 1 in history order. */
  function DetailRows(h: seq<Entry>): seq<DetailRow>
  {
    seq(|h|, i requires 0 <= i < |h| => DetailRowOf(i + 1, h[i]))
  }

  /** The Excel workbook: the empty report when there is no history, and
      otherwise the summary sheet (the summary statistics) and the details
      sheet. */
  datatype Workbook =
    | EmptyReport
    | Report(summary: Summary, details: seq<DetailRow>)

  function ExcelReport(h: seq<Entry>): (w: Workbook)
    ensures w.EmptyReport? <==> |h| == 0
  {
    if |h| == 0 then EmptyReport else Report(Summarize(h), DetailRows(h))
  }

  /** A row of the PDF table; the processing time is printed with two decimals. */
  datatype PdfRow = PdfRow(timestamp: string, bearCount: int, processingTime: real)

  datatype PdfReport = PdfReport(totalRequests: int, totalBears: int, rows: seq<PdfRow>)

  /** How many entries the PDF table lists. */
  const PdfRowLimit: nat := 15

  /** Python's `xs[-n:]`. */
  function Last<T>(xs: seq<T>, n: nat): seq<T>
  {
    if |xs| <= n then xs else xs[|xs| - n..]
  }

  function PdfReportOf(h: seq<Entry>): PdfReport
  {
    var recent := Last(h, PdfRowLimit);
    PdfReport(
      |h|,
      TotalBears(h),
      seq(|recent|, i requires 0 <= i < |recent| => PdfRow(recent[i].timestamp, recent[i].bearCount, recent[i].processingTime)))
  }

  /** The detail rows: one per entry, numbered 1..n in history order, each
      carrying its entry's timestamp, bear count, id and the base name of its
      original image. */
  lemma DetailRowsFollowHistory(h: seq<Entry>)
    ensures |DetailRows(h)| == |h|
    ensures forall i :: 0 <= i < |h| ==>
      var r := DetailRows(h)[i];
      && r.number == i + 1
      && r.timestamp == h[i].timestamp
      && r.bearCount == h[i].bearCount
      && r.eventId == h[i].id
      && r.fileName == Basename(FileName(h[i]))
      && EndsWith(FileName(h[i]), r.fileName) && '/' !in r.fileName
  {
  }

  /** A row's confidence metrics come from its own entry's detections only:
      all 0 without detections; otherwise the maximum and minimum are
      confidences of that entry and the average is their mean, lying between
      them. A row says
      "success" exactly when those metrics come from at least one detection. */
  lemma RowMetrics(number: int, e: Entry)
    ensures var r, cs := DetailRowOf(number, e), Confidences(e.detections);
      && (|e.detections| == 0 ==> r.avgConfidence == 0.0 && r.maxConfidence == 0.0 && r.minConfidence == 0.0)
      && (|e.detections| > 0 ==>
        && r.maxConfidence in cs && r.minConfidence in cs
        && (forall i :: 0 <= i < |cs| ==> r.minConfidence <= cs[i] <= r.maxConfidence)
        && r.avgConfidence == Mean(cs)
        && r.minConfidence <= r.avgConfidence <= r.maxConfidence)
      && (r.status == FoundLabel <==> |cs| > 0)
  {
    var cs := Confidences(e.detections);
    if |cs| > 0 {
      MeanWithinExtrema(cs);
    }
  }

  /** The file type does not depend on the case of the name. */
  lemma FileTypeIgnoresCase(name: string)
    ensures FileType(Lower(name)) == FileType(name)
  {
    LowerIdempotent(name);
  }

  /** An upper-case video extension is still a video, an extension only
      counts at the very end of the name, and an entry without an original
      image (the name defaults to "") is listed as an image. */
  lemma FileTypeExamples()
    ensures FileType("static/uploads/ab_CLIP.MOV") == VideoLabel
    ensures FileType("static/uploads/ab_clip.mp4.jpg") == ImageLabel
    ensures forall e: Entry :: e.originalImage == None ==> FileType(FileName(e)) == ImageLabel
  {
    var lowered := Lower("static/uploads/ab_CLIP.MOV");
    assert lowered[|lowered| - 4..] == ".mov";
    var other := Lower("static/uploads/ab_clip.mp4.jpg");
    assert other[|other| - 4..] == ".jpg";
    assert ".jpg" != ".mp4" && ".jpg" != ".avi" && ".jpg" != ".mov";
  }

  /** The workbook of a non-empty history carries exactly the summary
      statistics and one detail row per entry. */
  lemma WorkbookContents(h: seq<Entry>)
    requires |h| > 0
    ensures ExcelReport(h).summary == Summarize(h)
    ensures ExcelReport(h).summary.totalRequests == |ExcelReport(h).details| == |h|
  {
    SummaryCounts(h);
    DetailRowsFollowHistory(h);
  }

  /** The PDF states the same totals as the summary statistics. */
  lemma PdfContents(h: seq<Entry>)
    ensures PdfReportOf(h).totalRequests == Summarize(h).totalRequests
    ensures PdfReportOf(h).totalBears == Summarize(h).totalBears
  {
    SummaryCounts(h);
  }

  /** The PDF table lists the last min(15, n) entries in their original order,
      ending with the newest one. */
  lemma PdfRowsAreLatest(h: seq<Entry>)
    ensures var rows := PdfReportOf(h).rows;
      && |rows| == (if |h| <= PdfRowLimit then |h| else PdfRowLimit)
      && (forall i :: 0 <= i < |rows| ==>
            var e := h[|h| - |rows| + i];
            rows[i] == PdfRow(e.timestamp, e.bearCount, e.processingTime))
      && (|h| > 0 ==> rows[|rows| - 1].timestamp == h[|h| - 1].timestamp)
  {
  }
}
