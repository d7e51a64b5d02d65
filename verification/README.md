# Bear detector: a Dafny model of its decision and aggregation logic

The bear detector is a small web service. It runs an object-detection model
over an uploaded image and keeps the class-21 ("bear") boxes. It draws the boxes
in confidence-tier colours and appends a record of the request to a JSON history
file. From that history it derives statistics and Excel, PDF and JSON reports.

This project models the deterministic core of that service as pure Dafny
functions over immutable datatypes, and proves what the code promises about it:

- **`Detector`** turns the model's raw results into detection records. It keeps
  class 21 only, derives the area and centres, and picks the fallback image.
- **`Visualization`** covers the annotation arithmetic: confidence tiers and
  their colours, the box line thickness, font sizes, label clamping, and the
  content of the info panel.
- **`HistoryStore`** models loading and saving the history file over an
  abstract file state: a canonical file plus a `.tmp` file beside it.
- **`Statistics`** is `calculate_summary_statistics`. It is written twice: as a
  declarative `Summarize`, and as the imperative passes of the source, with a
  proof that the two agree.
- **`Reporter`** covers the report contents: detail rows, the empty workbook,
  and the PDF's totals and last-15 table.
- **`Handlers`** covers the request logic of the four endpoints: upload,
  report, `/stats` and `/quick-stats`.
- **Shared modules:**
  - `Numeric` holds sum, mean and extrema of real pools.
  - `Records` holds the persisted datatypes and the history aggregates.
  - `Text` holds lower-casing, prefix and suffix tests, and the base name of a path.
  - `StringOrder` holds Python's string order and the descending sort.

Inputs the service takes from its surroundings are parameters of the model:

- the current time and "today";
- the entry id and the random file-name prefix;
- the processing time;
- the model's raw output;
- the state of the files and whether a save fails;
- whether processing the uploaded image raises;
- the exception raised by a report generator.

Confidences and times are `real`.

Three behaviours of the code are worth stating explicitly, since a reader
might expect otherwise:

- **Stale plot in `detect_bears`.** The comment at `models/detector.py:57`
  says the model's standard output is used when there are no bears. The code
  switches to that rendering after any result with boxes while the detection
  list is still empty, and a later result that finds a bear does not switch
  back. `Detector.StalePlotWithBears` exhibits such a two-result input. With
  the single result the model returns per image, both readings coincide
  (`Detector.SingleResultFallback`).
- **No error of its own in `detect_bears`.** It defines no error result. An
  image that cannot be opened, or a failing model call, raises an exception
  that `upload_image` does not catch, so the request ends with a 500 and no
  history entry (`Handlers.UploadFailureKeepsHistory`).
- **`save_history` catches and prints its exceptions.** A failed write or
  replace leaves the history file as it was and does not change the upload
  response (`Handlers.UploadResponseMatches`).

## Model

| member | source | states |
|---|---|---|
| Numeric.Greatest | utils/history_manager.py:86 | the maximum of a non-empty pool is one of its elements and bounds every element from above |
| Numeric.Least | utils/history_manager.py:87 | the minimum of a non-empty pool is one of its elements and bounds every element from below |
| Numeric.MeanWithinExtrema | utils/history_manager.py:85-87 | the mean of a non-empty pool lies between its minimum and maximum |
| Numeric.OrZeroOrdered | utils/history_manager.py:85-87 | with the "0 when empty" defaults, mean, max and min are all 0 for an empty pool, and min <= mean <= max otherwise |
| Numeric.MeanOfUnitPool | utils/history_manager.py:85 | the mean of confidences in [0, 1] is in [0, 1] |
| Records.PoolMembers | utils/history_manager.py:80-83 | a value is in the flattened pool exactly when some detection of some entry has that confidence |
| Records.PoolAppend | utils/history_manager.py:80-83 | the pool of concatenated histories is the concatenation of their pools, so entry order is kept |
| Records.PoolSize | utils/history_manager.py:80-83 | the pool has one confidence per stored detection |
| Records.ConsistentBearsArePoolSize | app.py:85 | when every entry's bear_count is its number of detections, the bear total equals the pool size |
| Records.SumOfBearCounts | utils/history_manager.py:78 | the bear total is the sum of the per-entry bear counts |
| Text.Basename | utils/excel_reporter.py:252 | the base name is a suffix of the path without '/', preceded by '/' whenever it is not the whole path |
| StringOrder.LessTotal | utils/history_manager.py:105 | Python's string order compares any two distinct strings |
| StringOrder.LessTransitive | utils/history_manager.py:105 | Python's string order is transitive |
| StringOrder.InsertSorted | utils/history_manager.py:105 | inserting a new key keeps a sequence strictly descending and adds exactly that key |
| StringOrder.InsertPermutes | utils/history_manager.py:105 | insertion adds exactly the new key and drops none, as multisets |
| StringOrder.InsertBelowHead | utils/history_manager.py:105 | a key inserted into the tail of a descending sequence below its head leaves every element below that head |
| StringOrder.SortDescendingSorted | utils/history_manager.py:105 | sorting distinct date keys in reverse gives a strictly descending permutation of them |
| StringOrder.SortedKeysSame | utils/history_manager.py:105 | sorting neither adds nor drops a date key |
| StringOrder.OutsidePrefixIsSmaller | utils/history_manager.py:124 | a key cut off a strictly descending sequence is smaller than every key kept |
| Detector.DetectBears | models/detector.py:26-62 | the adapter's nested loops produce exactly the class-21 records in result-then-box order, and the image choice of the declarative model |
| Detector.ScanBoxes | models/detector.py:34-55 | the loop over one result's boxes appends exactly that result's class-21 records, in box order, after the records already found |
| Detector.BearsUpToBounded | models/detector.py:34-39 | only bear records are produced, and no more of them than raw boxes |
| Detector.KeptIffBear | models/detector.py:35-39 | a box contributes its record exactly when its class id is 21 |
| Detector.RecordFromBearBox | models/detector.py:34-55 | every record comes from a class-21 box of the input |
| Detector.OutputWellFormed | models/detector.py:41-55 | every record is labelled "bear" with class 21, and its area and centre are computed from its box |
| Detector.BearsAmongAppend | models/detector.py:34-55 | within a result, records follow box order |
| Detector.BearsUpToAppend | models/detector.py:30-55 | across results, records follow result order |
| Detector.BearsUpToGrows | models/detector.py:30-55 | the records found after fewer results are a prefix of those found after more, so processing more results never removes or reorders a record |
| Detector.BearFoundStaysFound | models/detector.py:30-55 | once a result has contributed a bear, the list stays non-empty for the rest of the results |
| Detector.NoBoxesNoEffect | models/detector.py:31-32 | a result without boxes adds no record and does not change the image |
| Detector.PlotOnlyWithoutBears | models/detector.py:57-60 | a rendering is only taken from a result with boxes, at a point where no bear had been found |
| Detector.BearlessPrefixPrecedesBear | models/detector.py:57-60 | a result up to which the list was still empty comes before every result that contributes a bear |
| Detector.PlotPrecedesFirstBear | models/detector.py:57-60 | the rendered result comes before the first result that found a bear |
| Detector.SingleResultFallback | models/detector.py:27-60 | with one result, the rendering is returned exactly when that result has boxes and none is a bear; otherwise it is the input copy |
| Detector.StalePlotWithBears | models/detector.py:57-60 | with two results, the image can be a rendering although a bear was found |
| Detector.AreaNonNegative | models/detector.py:45 | the derived area of a box with ordered corners is non-negative |
| Visualization.TierOf | utils/visualization.py:12-19 | the four tiers by strict comparison: exactly 0.8, 0.65 and 0.5 fall to the lower tier, and the tiers are exhaustive and exclusive |
| Visualization.TierMonotone | utils/visualization.py:12-19 | a higher confidence never gets a lower tier |
| Visualization.TierColorsDistinct | utils/visualization.py:12-19 | different tiers get different box colours |
| Visualization.Thickness | utils/visualization.py:21-22 | the line thickness is at least 2, is exactly 2 when the shorter side is under 900 pixels, and otherwise is the number of whole 300-pixel steps in the shorter side |
| Visualization.ThicknessExamples | utils/visualization.py:22 | 640x480 gives 2, 1920x1080 gives 3, 1200x1200 gives 4 and 4000x3000 gives 10 |
| Visualization.ThicknessMonotone | utils/visualization.py:22 | a larger image never gets a thinner line |
| Visualization.FontScale | utils/visualization.py:28 | the label font scale is 0.5 up to a shorter side of 600 pixels and the shorter side divided by 1200 above it |
| Visualization.FontThickness | utils/visualization.py:29 | the label stroke width is the whole part of twice the font scale, which is never below 1 |
| Visualization.Trunc | utils/visualization.py:9 | Python's int() on a coordinate truncates toward zero |
| Visualization.LabelClamped | utils/visualization.py:35-46 | the label background's top and the text baseline equal the unclamped value when that is not negative and 0 when it is, and keep the top at or above the baseline |
| Visualization.LegendMatchesTiers | utils/visualization.py:110-115 | the legend's four swatches are the four box colours in tier order, covering every tier |
| Visualization.PanelContents | utils/visualization.py:101-133 | the statistics line and legend appear exactly when there are detections; the average is the mean confidence, between the lowest and highest; the time is shown unless missing or zero |
| HistoryStore.Load | utils/history_manager.py:7-31 | a missing file becomes [] and reads as empty; a blank file reads as empty untouched; an undecodable one is reset to []; any other failure reads as empty untouched; only a valid document yields entries |
| HistoryStore.Save | utils/history_manager.py:33-63 | the temporary file is gone afterwards; a successful save leaves the canonical file holding the entries, and a failed one leaves it unchanged |
| HistoryStore.SaveLoadRoundTrip | utils/history_manager.py:33-56 | a successfully saved history loads back exactly |
| HistoryStore.FailedSaveKeepsHistory | utils/history_manager.py:58-63 | after a failed save the canonical file, and what loads from it, are unchanged |
| HistoryStore.CrashBeforeReplaceKeepsHistory | utils/history_manager.py:50-56 | until the temporary file is moved, a load reads the old history |
| HistoryStore.LoadIdempotent | utils/history_manager.py:7-31 | a second load reads the same entries and changes nothing |
| HistoryStore.AppendEntryEffect | app.py:89-91 | with a successful save the new entry is appended after all previously loaded entries, in order; with a failed save the history reads as before |
| Statistics.DayKeyIsDatePrefix | utils/history_manager.py:91 | the date key is the first ten characters of the timestamp, or all of it when shorter |
| Statistics.DayKeysDistinct | utils/history_manager.py:89-97 | the bucket keys are distinct |
| Statistics.DayKeysMembers | utils/history_manager.py:89-97 | the bucket keys are exactly the date keys of the entries |
| Statistics.DayEntriesMembers | utils/history_manager.py:89-102 | an entry is in a day's bucket exactly when its date key is that day |
| Statistics.NewKeyEmptyBucket | utils/history_manager.py:92-97 | a date not seen yet starts from an empty bucket |
| Statistics.SameDaySameBucket | utils/history_manager.py:91-100 | entries with the same date prefix share a bucket, and an entry is in no other bucket |
| Statistics.BucketStep | utils/history_manager.py:99-102 | one more entry adds one request, its bears and its confidences to its own day's bucket and changes no other |
| Statistics.BucketTotalsStep | utils/history_manager.py:99-100 | one more entry adds one request and its bears to the bucket totals exactly when its day is listed |
| Statistics.BucketCountsStep | utils/history_manager.py:99-100 | one more entry adds one request and its bears to its own day's bucket and leaves the counts of every other day alone |
| Statistics.NewDayBucket | utils/history_manager.py:92-100 | an entry whose date is not yet a key opens a bucket holding one request and that entry's bears |
| Statistics.DailyPartition | utils/history_manager.py:89-102 | before the cut, the bucket counts sum to total_requests and the bucket bears to total_bears |
| Statistics.AppendConfidences | utils/history_manager.py:81-83 | the detection loop appends that entry's confidences in order |
| Statistics.CollectTotals | utils/history_manager.py:77-83 | the first pass computes the bear total and the flattened pool |
| Statistics.FillBuckets | utils/history_manager.py:89-102 | the bucket loop builds each day's count, bears and pool, with keys in first-appearance order |
| Statistics.FormatDays | utils/history_manager.py:104-115 | the formatting loop makes one row per date in descending date order |
| Statistics.FormattedIsDailyView | utils/history_manager.py:104-115 | the rows formatted from the buckets are the declarative daily view |
| Statistics.CalculateSummaryStatistics | utils/history_manager.py:65-125 | the imperative passes compute exactly the declarative summary, including the empty case |
| Statistics.SummaryCounts | utils/history_manager.py:65-123 | an empty history gives the all-zero summary; otherwise total_requests is the entry count, total_bears the sum of bear_count, and bears_per_request the mean bear count, between the fewest and most per request |
| Statistics.SummaryConfidence | utils/history_manager.py:80-87 | avg/max/min are the mean and extrema of the flattened pool, all 0 for an empty pool, and min <= avg <= max otherwise |
| Statistics.DailyStatsShape | utils/history_manager.py:104-124 | the daily view is the rows of the first min(10, days) dates of the descending sort |
| Statistics.DailyStatsOrdered | utils/history_manager.py:104-124 | daily_stats has at most 10 rows, strictly descending by date, each a date of the history with that day's figures |
| Statistics.DailyStatsComplete | utils/history_manager.py:105-124 | with ten dates or fewer, every date has a row |
| Statistics.DailyStatsNewest | utils/history_manager.py:105-124 | a date without a row is older than every date shown, so the ten newest dates are kept |
| Statistics.DayFigures | utils/history_manager.py:105-115 | a day's average and maximum are the mean and the largest confidence of that day's pool only, 0 without detections, with average <= maximum |
| Reporter.FileType | utils/excel_reporter.py:232-236 | "Видео" exactly when the lower-cased name ends with .mp4, .avi or .mov, "Изображение" otherwise |
| Reporter.Status | utils/excel_reporter.py:239 | "Успешно" exactly when the entry has a detection, "Не обнаружено" exactly when it has none |
| Reporter.FileTypeIgnoresCase | utils/excel_reporter.py:233 | the file type does not depend on the case of the name |
| Reporter.FileTypeExamples | utils/excel_reporter.py:232-236 | an upper-case video extension is a video, an extension only counts at the end, and an entry without original_image (name defaulting to "") is an image |
| Reporter.ExcelReport | utils/excel_reporter.py:42-62 | the empty report is produced exactly for an empty history |
| Reporter.DetailRowsFollowHistory | utils/excel_reporter.py:219-254 | one detail row per entry, numbered 1..n in history order, carrying the entry's timestamp, bear count, id and the base name of its original image, a '/'-free suffix of that path |
| Reporter.RowMetrics | utils/excel_reporter.py:221-239 | a row's avg/max/min come from its own entry's confidences, all 0 without detections; otherwise avg is the mean of those confidences, max and min are among them and bound them, and min <= avg <= max; the status is success exactly when there are detections |
| Reporter.WorkbookContents | utils/excel_reporter.py:58-62 | a non-empty history's workbook holds the summary statistics and one detail row per entry |
| Reporter.PdfContents | utils/excel_reporter.py:329-338 | the PDF's request and bear totals are the summary statistics' totals |
| Reporter.PdfRowsAreLatest | utils/excel_reporter.py:342-351 | the PDF table lists the last min(15, n) entries in history order, ending with the newest |
| Handlers.UploadRejections | app.py:45-50 | a missing image part or an empty file name gives 400 with its message, and nothing is detected or stored |
| Handlers.UploadFailureKeepsHistory | app.py:52-91 | a valid upload whose image processing raises ends with 500 and leaves the history store untouched; otherwise a valid upload is accepted |
| Handlers.UploadRecordsEntry | app.py:54-91 | the entry holds the detector's records in order with bear_count their number, names the stored upload and its result image, and is appended last when processing and save succeed; otherwise the history reads as before |
| Handlers.UploadResponseMatches | app.py:93-109 | when processing succeeds the response lists the detections in order, trimmed to box, confidence and class, with bear_count their number; it does not depend on the save outcome |
| Handlers.UploadRecordsBearsOnly | app.py:56-87 | every stored detection is a well-formed bear record |
| Handlers.ReportDispatch | app.py:120-158 | an empty history gives 400 "History is empty" whatever the format; otherwise a file exactly for excel/pdf/json without failure, 400 "Unsupported format" for others, and 500 with the message on failure |
| Handlers.ReportFormatNormalised | app.py:124 | the format is matched case-insensitively and defaults to excel |
| Handlers.ReportDocuments | app.py:126-152 | excel sends the non-empty workbook, pdf the PDF of the history, and json the history itself |
| Handlers.GetStatistics | app.py:162-184 | the zero shape is returned exactly for an empty history |
| Handlers.StatsAgreeWithSummary | app.py:162-184 | every field /stats reports equals the summary statistics' field |
| Handlers.GetQuickStats | app.py:187-224 | the counting loop computes today's requests and bears, the totals and the pool mean |
| Handlers.TodayEntriesMembers | app.py:203-206 | an entry is counted for today exactly when its timestamp starts with today's date |
| Handlers.TodayEntriesBounded | app.py:199-209 | today's entries are at most all entries, and with non-negative counts today's bears are at most all bears |
| Handlers.QuickStatsBounds | app.py:199-216 | today <= total and today_bears <= bears_total; the totals and avg_confidence equal the summary's, 0 without detections and between min and max otherwise |
| Handlers.TodayIsDayBucket | app.py:199-206 | with a ten-character date, "starts with today" selects exactly today's bucket of the daily statistics |
| Handlers.QuickTodayMatchesDaily | app.py:199-206 | the quick today counts equal the count and bears of today's daily row |

## Left out

- File I/O and JSON (de)serialisation are not modelled. This covers `open`,
  `os.replace`, `os.remove`, `os.path.getsize`, the encoder classes and the
  numpy serialiser. The file system is an abstract state, and a file's content
  is what the loader can tell apart: missing, blank, a list of entries,
  undecodable, or unreadable.
- JSON content of another shape is left out. Valid JSON that is not a list is
  returned by `load_history` as is, and the model has no such case.
- The writes of `[]` when the file is missing or undecodable sit outside the
  `try` block. If they fail, the exception propagates. The model assumes they
  succeed.
- `os.remove` of the temporary file runs inside `save_history`'s exception
  handler, outside the `try`. If it raises, the exception escapes
  `save_history` and the upload ends with a 500. The model assumes the
  removal succeeds.
- A failed upload leaves its stored copy in the uploads directory, and
  possibly an annotated copy. Those image files are not part of the model's
  store, which is the history file alone.
- Model inference and `models/model_loader.py` are foreign code. The model's
  output for an image is an input sequence of results. The confidence and IoU
  thresholds appear only as constants, because they act inside the model.
- OpenCV and PIL drawing are left out. This includes the area label and the
  panel geometry, and `utils/file_handler.py`'s saving of images.
- From `utils/file_handler.py` only its naming rule is kept: random prefix,
  underscore, client file name, and `result_` for the annotated copy.
- The label's text size and baseline come from the font library, so they are
  parameters of the clamping lemma.
- `datetime.now()` and `uuid4()` are nondeterministic. The timestamp, "today",
  the id and the file-name prefix are parameters.
- openpyxl and reportlab styling and column widths are left out, as are the
  report titles and generation dates.
- The summary sheet's data period is left out. It is parsed with
  `datetime.fromisoformat`.
- Number formatting is left out: percentages, two decimals and `:.1%`.
- The content of the JSON report is the history itself and is not modelled
  further.
- Floating point is not modelled. Confidences and times are reals, and
  `np.mean` is the sum divided by the count.
- Concurrency is out of scope. Two uploads that both load before either saves
  can lose one entry; the model is sequential.
- The `/history` endpoint and `index` are left out. They only return the loaded
  history or a page.
- `Text.Lower`: lower-cases ASCII letters only, while Python's `str.lower` is
  Unicode-aware. Only two non-ASCII characters lower to a letter of "excel",
  "pdf", "json", "mp4", "avi" or "mov". The Kelvin sign lowers to "k", which
  none of those words contains. U+0130 lowers to "i" followed by a combining
  dot, so it can never finish the name or the ".avi" suffix. The dispatch and
  file-type decisions are therefore unaffected.
- Timestamps are sliced by character, as Python slices `str`. A timestamp
  that is not ISO-8601 gets no special meaning.
