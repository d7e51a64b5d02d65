/** The request-level logic of the web service: upload validation, the history
    entry and the response an upload produces, the report-format dispatch, and
    the two statistics endpoints. HTTP plumbing is reduced to a status code and
    a payload; the clock, the id generator, the model and the file system are
    inputs. */
module Handlers {
  import opened Numeric
  import opened Records
  import opened Text
  import opened Detector
  import opened HistoryStore
  import opened Statistics
  import opened Reporter

  // ---------------------------------------------------------------- upload

  /** A part of a multipart upload; only its file name matters here. */
  datatype FilePart = FilePart(filename: string)

  /** What the upload handler takes from outside: the random prefix of the
      stored file name, the new entry's id and timestamp, the measured
      processing time, what the model returns for the stored file, whether the
      image processing raises (a file that is not an image, a failing model,
      drawing or writing the annotated copy), and whether saving the history
      fails. */
  datatype UploadEnv = UploadEnv(
    fileToken: string,
    historyId: string,
    timestamp: string,
    processingTime: real,
    modelResults: seq<RawResult>,
    processingRaises: bool,
    saveFault: SaveFault)

  /** A detection as the upload response lists it: without the derived
      geometry. */
  datatype BriefDetection = BriefDetection(bbox: BBox, confidence: real, className: string, classId: int)

  datatype UploadResponse =
    | UploadRejected(status: int, message: string)
    | UploadFailed(status: int)
    | UploadAccepted(bearCount: int, detections: seq<BriefDetection>, resultImage: string, historyId: string, processingTime: real)

  datatype UploadOutcome = UploadOutcome(response: UploadResponse, store: Store)

  /** The name the upload is stored under: the random prefix, an underscore,
      the client's file name. */
  function StoredName(env: UploadEnv, part: FilePart): string
  {
    env.fileToken + "_" + part.filename
  }

  function Brief(d: Detection): BriefDetection
  {
    BriefDetection(d.bbox, d.confidence, d.className, d.classId)
  }

  /** The history entry of one upload. Every detection is stored with all its
      fields, in detector order. */
  function UploadEntry(env: UploadEnv, stored: string, detections: seq<Detection>): Entry
  {
    Entry(
      env.historyId,
      env.timestamp,
      Some("static/uploads/" + stored),
      "static/results/result_" + stored,
      detections,
      |detections|,
      env.processingTime)
  }

  /** The status of a request whose handler raises an uncaught exception. */
  const InternalServerError: int := 500

  /** `upload_image`. An exception raised while processing the image is not
      caught, so the request ends with the server's generic error before the
      history is loaded. */
  function Upload(files: map<string, FilePart>, env: UploadEnv, store: Store): UploadOutcome
  {
    if "image" !in files then UploadOutcome(UploadRejected(400, "No image uploaded"), store)
    else if files["image"].filename == "" then UploadOutcome(UploadRejected(400, "No selected file"), store)
    else if env.processingRaises then UploadOutcome(UploadFailed(InternalServerError), store)
    else
      var stored := StoredName(env, files["image"]);
      var detections := BearsIn(env.modelResults);
      var entry := UploadEntry(env, stored, detections);
      var after := AppendEntry(store, entry, env.saveFault);
      var brief := seq(|detections|, i requires 0 <= i < |detections| => Brief(detections[i]));
      UploadOutcome(
        UploadAccepted(|detections|, brief, entry.resultImage, entry.id, env.processingTime),
        after)
  }

  /** An upload without an image part, or with an empty file name, is refused
      with 400 before anything is detected or stored. */
  lemma UploadRejections(files: map<string, FilePart>, env: UploadEnv, store: Store)
    ensures "image" !in files ==>
      Upload(files, env, store) == UploadOutcome(UploadRejected(400, "No image uploaded"), store)
    ensures "image" in files && files["image"].filename == "" ==>
      Upload(files, env, store) == UploadOutcome(UploadRejected(400, "No selected file"), store)
    ensures Upload(files, env, store).response.UploadRejected? <==>
      "image" !in files || files["image"].filename == ""
  {
  }

  /** An upload that passes validation but whose image processing raises ends
      with a 500 and leaves the history store as it was. */
  lemma UploadFailureKeepsHistory(files: map<string, FilePart>, env: UploadEnv, store: Store)
    ensures Upload(files, env, store).response.UploadFailed? <==>
      "image" in files && files["image"].filename != "" && env.processingRaises
    ensures Upload(files, env, store).response.UploadFailed? ==>
      Upload(files, env, store) == UploadOutcome(UploadFailed(InternalServerError), store)
    ensures Upload(files, env, store).response.UploadAccepted? <==>
      "image" in files && files["image"].filename != "" && !env.processingRaises
  {
  }

  /** An accepted upload records one consistent entry: its detections are the
      detector's output in order with every field, its bear count is their
      number, and it refers to the stored upload and its annotated copy. When
      the processing succeeds and so does the save, the entry is appended after
      every previously stored entry; when either fails the history reads as
      before. */
  lemma UploadRecordsEntry(files: map<string, FilePart>, env: UploadEnv, store: Store)
    requires "image" in files && files["image"].filename != ""
    ensures var e := UploadEntry(env, StoredName(env, files["image"]), BearsIn(env.modelResults));
      && e.detections == BearsIn(env.modelResults)
      && Consistent(e)
      && e.originalImage == Some("static/uploads/" + env.fileToken + "_" + files["image"].filename)
      && EndsWith(e.resultImage, "result_" + env.fileToken + "_" + files["image"].filename)
      && (!env.processingRaises && env.saveFault == NoFault ==>
            Load(Upload(files, env, store).store).entries == Load(store).entries + [e])
      && (env.processingRaises || env.saveFault != NoFault ==>
            Load(Upload(files, env, store).store).entries == Load(store).entries)
  {
    var stored := StoredName(env, files["image"]);
    var e := UploadEntry(env, stored, BearsIn(env.modelResults));
    assert "static/uploads/" + stored == "static/uploads/" + env.fileToken + "_" + files["image"].filename;
    AppendEntryEffect(store, e, env.saveFault);
    var r := e.resultImage;
    var tail := "result_" + stored;
    assert r == "static/results/" + tail;
    assert r[|r| - |tail|..] == tail;
  }

  /** The response lists the same detections as the entry, in the same order,
      trimmed to box, confidence and class; its bear count is their number; it
      names the entry and its annotated image. It does not depend on whether
      the save succeeded, since `save_history` catches the write and replace
      errors and only prints them. */
  lemma UploadResponseMatches(files: map<string, FilePart>, env: UploadEnv, store: Store)
    requires "image" in files && files["image"].filename != ""
    ensures var r, ds := Upload(files, env, store).response, BearsIn(env.modelResults);
      !env.processingRaises ==> (
        && r.UploadAccepted?
        && r.bearCount == |r.detections| == |ds|
        && (forall i :: 0 <= i < |ds| ==>
              r.detections[i].bbox == ds[i].bbox && r.detections[i].confidence == ds[i].confidence
              && r.detections[i].className == ds[i].className && r.detections[i].classId == ds[i].classId)
        && r.historyId == env.historyId
        && r.resultImage == UploadEntry(env, StoredName(env, files["image"]), ds).resultImage)
    ensures forall fault: SaveFault ::
      Upload(files, env.(saveFault := fault), store).response == Upload(files, env, store).response
  {
  }

  /** Every detection an upload records is a well-formed bear record. */
  lemma UploadRecordsBearsOnly(files: map<string, FilePart>, env: UploadEnv, store: Store, d: Detection)
    requires "image" in files && files["image"].filename != ""
    requires d in UploadEntry(env, StoredName(env, files["image"]), BearsIn(env.modelResults)).detections
    ensures WellFormed(d) && d.classId == BearClassId && d.className == "bear"
  {
    OutputWellFormed(env.modelResults, |env.modelResults|, d);
  }

  // ---------------------------------------------------------------- reports

  datatype ReportDocument =
    | ExcelDocument(workbook: Workbook)
    | PdfDocument(pdf: PdfReport)
    | JsonDocument(entries: seq<Entry>)

  datatype ReportResponse =
    | ReportError(status: int, message: string)
    | ReportFile(document: ReportDocument, downloadName: string, mimetype: string)

  const ExcelMimetype: string := "application/vnd.openxmlformats-officedocument.spreadsheetml.sheet"

  /** `generate_report`, given the loaded history, the `format` query argument
      (None when absent) and the message of the exception the chosen generator
      raises, if it raises one. */
  function GenerateReport(h: seq<Entry>, format: Option<string>, failure: Option<string>): ReportResponse
  {
    if |h| == 0 then ReportError(400, "History is empty")
    else
      var requested := Lower(match format case None => "excel" case Some(f) => f);
      if requested != "excel" && requested != "pdf" && requested != "json" then
        ReportError(400, "Unsupported format")
      else if failure.Some? then
        ReportError(500, "Failed to generate report: " + failure.value)
      else if requested == "excel" then
        ReportFile(ExcelDocument(ExcelReport(h)), "bear_report.xlsx", ExcelMimetype)
      else if requested == "pdf" then
        ReportFile(PdfDocument(PdfReportOf(h)), "bear_report.pdf", "application/pdf")
      else
        ReportFile(JsonDocument(h), "bear_report.json", "application/json")
  }

  /** The dispatch: an empty history is refused whatever the format; otherwise
      a file is sent exactly when the lower-cased format is excel, pdf or json
      and the generator succeeds; an unknown format is a 400 and a generator
      failure a 500 carrying its message. */
  lemma ReportDispatch(h: seq<Entry>, format: string, failure: Option<string>)
    ensures |h| == 0 ==> GenerateReport(h, Some(format), failure) == ReportError(400, "History is empty")
    ensures |h| > 0 ==>
      (GenerateReport(h, Some(format), failure).ReportFile? <==>
        Lower(format) in ["excel", "pdf", "json"] && failure.None?)
    ensures |h| > 0 && Lower(format) !in ["excel", "pdf", "json"] ==>
      GenerateReport(h, Some(format), failure) == ReportError(400, "Unsupported format")
    ensures |h| > 0 && Lower(format) in ["excel", "pdf", "json"] && failure.Some? ==>
      GenerateReport(h, Some(format), failure) == ReportError(500, "Failed to generate report: " + failure.value)
  {
  }

  /** The format is matched without regard to case, and a missing format means
      excel. */
  lemma ReportFormatNormalised(h: seq<Entry>, format: string, failure: Option<string>)
    ensures GenerateReport(h, Some(format), failure) == GenerateReport(h, Some(Lower(format)), failure)
    ensures GenerateReport(h, None, failure) == GenerateReport(h, Some("excel"), failure)
  {
    LowerIdempotent(format);
    assert Lower("excel") == "excel";
  }

  /** What each format sends: the workbook of the history (never the empty
      report, since the history is not empty), the PDF of the history, or the
      history itself as JSON. */
  lemma ReportDocuments(h: seq<Entry>)
    requires |h| > 0
    ensures GenerateReport(h, Some("excel"), None) ==
      ReportFile(ExcelDocument(ExcelReport(h)), "bear_report.xlsx", ExcelMimetype)
    ensures ExcelReport(h).Report?
    ensures GenerateReport(h, Some("pdf"), None) ==
      ReportFile(PdfDocument(PdfReportOf(h)), "bear_report.pdf", "application/pdf")
    ensures PdfReportOf(h).totalRequests == |h|
    ensures GenerateReport(h, Some("json"), None) ==
      ReportFile(JsonDocument(h), "bear_report.json", "application/json")
  {
    assert Lower("excel") == "excel";
    assert Lower("pdf") == "pdf";
    assert Lower("json") == "json";
  }

  // ---------------------------------------------------------------- statistics endpoints

  /** The body of `/stats`: a fixed zero shape without max/min confidence and
      bears-per-request for an empty history, the full summary otherwise. */
  datatype StatsBody =
    | EmptyStats(totalRequests: int, totalBears: int, avgConfidence: real, dailyStats: seq<DayStat>)
    | FullStats(summary: Summary)

  function GetStatistics(h: seq<Entry>): (b: StatsBody)
    ensures b.EmptyStats? <==> |h| == 0
  {
    if |h| == 0 then EmptyStats(0, 0, 0.0, []) else FullStats(Summarize(h))
  }

  /** Whatever the shape, the fields `/stats` reports are those of the summary
      statistics. */
  lemma StatsAgreeWithSummary(h: seq<Entry>)
    ensures var b, s := GetStatistics(h), Summarize(h);
      && (b.EmptyStats? ==>
            b.totalRequests == s.totalRequests && b.totalBears == s.totalBears
            && b.avgConfidence == s.avgConfidence && b.dailyStats == s.dailyStats)
      && (b.FullStats? ==> b.summary == s)
  {
    SummaryCounts(h);
  }

  /** The body of `/quick-stats`: a fixed zero shape without `today_bears` for
      an empty history. */
  datatype QuickStats =
    | EmptyQuick(total: int, bearsTotal: int, today: int, avgConfidence: real)
    | Quick(total: int, bearsTotal: int, today: int, todayBears: int, avgConfidence: real)

  /** The entries whose timestamp starts with the given `YYYY-MM-DD` string. */
  function TodayEntries(h: seq<Entry>, today: string): seq<Entry>
    decreases |h|
  {
    if |h| == 0 then []
    else
      var last := h[|h| - 1];
      TodayEntries(h[..|h| - 1], today) + (if StartsWith(last.timestamp, today) then [last] else [])
  }

  function QuickStatsOf(h: seq<Entry>, today: string): QuickStats
  {
    if |h| == 0 then EmptyQuick(0, 0, 0, 0.0)
    else
      var mine := TodayEntries(h, today);
      Quick(|h|, TotalBears(h), |mine|, TotalBears(mine), Mean(Pool(h)))
  }

  /** `get_quick_stats`, with today's date passed in: the counting loop, the
      totals and the confidence pool. */
  method GetQuickStats(h: seq<Entry>, today: string) returns (q: QuickStats)
    ensures q == QuickStatsOf(h, today)
  {
    if |h| == 0 {
      return EmptyQuick(0, 0, 0, 0.0);
    }
    var todayRequests, todayBears := 0, 0;
    var i := 0;
    while i < |h|
      invariant 0 <= i <= |h|
      invariant todayRequests == |TodayEntries(h[..i], today)|
      invariant todayBears == TotalBears(TodayEntries(h[..i], today))
    {
      assert h[..i + 1][..i] == h[..i];
      ghost var before := TodayEntries(h[..i], today);
      if StartsWith(h[i].timestamp, today) {
        ghost var after := before + [h[i]];
        assert TodayEntries(h[..i + 1], today) == after;
        assert after[..|after| - 1] == before;
        todayRequests := todayRequests + 1;
        todayBears := todayBears + h[i].bearCount;
      } else {
        assert TodayEntries(h[..i + 1], today) == before + [];
        assert before + [] == before;
      }
      i := i + 1;
    }
    assert h[..i] == h;
    var totalBears, pool := CollectTotals(h);
    q := Quick(|h|, totalBears, todayRequests, todayBears, Mean(pool));
  }

  lemma {:induction false} TodayEntriesMembers(h: seq<Entry>, today: string, e: Entry)
    ensures e in TodayEntries(h, today) <==> e in h && StartsWith(e.timestamp, today)
    decreases |h|
  {
    if |h| > 0 {
      var init, last := h[..|h| - 1], h[|h| - 1];
      TodayEntriesMembers(init, today, e);
      assert h == init + [last];
    }
  }

  /** Filtering keeps at most every entry and, with non-negative counts, at most
      every bear. */
  lemma {:induction false} TodayEntriesBounded(h: seq<Entry>, today: string)
    ensures |TodayEntries(h, today)| <= |h|
    ensures (forall i :: 0 <= i < |h| ==> h[i].bearCount >= 0) ==>
      0 <= TotalBears(TodayEntries(h, today)) <= TotalBears(h)
    decreases |h|
  {
    if |h| > 0 {
      var init, last := h[..|h| - 1], h[|h| - 1];
      TodayEntriesBounded(init, today);
      var before := TodayEntries(init, today);
      if StartsWith(last.timestamp, today) {
        var after := before + [last];
        assert TodayEntries(h, today) == after;
        assert after[..|after| - 1] == before;
      } else {
        assert TodayEntries(h, today) == before + [];
        assert before + [] == before;
      }
      if forall i :: 0 <= i < |h| ==> h[i].bearCount >= 0 {
        assert forall i :: 0 <= i < |init| ==> init[i] == h[i];
      }
    }
  }

  /** Quick stats: today's requests are at most all requests and, with
      non-negative counts, today's bears at most all bears; the totals and the
      average confidence are those of the summary statistics, so the average
      is 0 exactly when no detection was stored and otherwise lies between the
      lowest and the highest confidence. */
  lemma QuickStatsBounds(h: seq<Entry>, today: string)
    requires |h| > 0
    ensures var q, s := QuickStatsOf(h, today), Summarize(h);
      && q.today <= q.total
      && ((forall i :: 0 <= i < |h| ==> h[i].bearCount >= 0) ==> 0 <= q.todayBears <= q.bearsTotal)
      && q.total == s.totalRequests && q.bearsTotal == s.totalBears && q.avgConfidence == s.avgConfidence
      && (|Pool(h)| == 0 ==> q.avgConfidence == 0.0)
      && (|Pool(h)| > 0 ==> s.minConfidence <= q.avgConfidence <= s.maxConfidence)
  {
    TodayEntriesBounded(h, today);
    SummaryCounts(h);
    SummaryConfidence(h);
  }

  /** With today's full `YYYY-MM-DD` key, "starts with today" and "has today's
      date key" select the same entries, so the quick count of today's requests
      and bears is today's bucket of the daily statistics. */
  lemma {:induction false} TodayIsDayBucket(h: seq<Entry>, today: string)
    requires |today| == 10
    ensures TodayEntries(h, today) == DayEntries(h, today)
    decreases |h|
  {
    if |h| > 0 {
      var init, ts := h[..|h| - 1], h[|h| - 1].timestamp;
      TodayIsDayBucket(init, today);
      if |ts| >= 10 {
        assert StartsWith(ts, today) <==> ts[..10] == today;
      } else {
        assert !StartsWith(ts, today);
        assert DayKey(ts) != today;
      }
    }
  }

  /** The quick-stats figures for today agree with today's row of the daily
      statistics. */
  lemma QuickTodayMatchesDaily(h: seq<Entry>, today: string)
    requires |h| > 0 && |today| == 10
    ensures QuickStatsOf(h, today).today == DayStatOf(h, today).count
    ensures QuickStatsOf(h, today).todayBears == DayStatOf(h, today).bears
  {
    TodayIsDayBucket(h, today);
  }
}
