/** The summary-statistics engine: request and bear totals, the global
    confidence aggregates over the flattened pool, and per-day buckets keyed by
    the date prefix of the timestamp, newest first and cut to ten days. */
module Statistics {
  import opened Numeric
  import opened Records
  import opened StringOrder

  /** How many days the daily view keeps. */
  const DailyLimit: nat := 10

  /** `timestamp[:10]`: the `YYYY-MM-DD` prefix of an ISO-8601 timestamp, or the
      whole string when it is shorter. */
  function DayKey(ts: string): string
  {
    if |ts| <= 10 then ts else ts[..10]
  }

  /** The date key is the first ten characters of the timestamp, or all of it
      when shorter. */
  lemma DayKeyIsDatePrefix(ts: string)
    ensures |DayKey(ts)| == if |ts| < 10 then |ts| else 10
    ensures DayKey(ts) == ts[..|DayKey(ts)|]
  {
  }

  /** The entries whose date key is `key`, in history order. */
  function DayEntries(h: seq<Entry>, key: string): seq<Entry>
    decreases |h|
  {
    if |h| == 0 then []
    else
      var last := h[|h| - 1];
      DayEntries(h[..|h| - 1], key) + (if DayKey(last.timestamp) == key then [last] else [])
  }

  /** The date keys of a history, each once, in order of first appearance (the
      insertion order of the bucket dictionary). */
  function DayKeys(h: seq<Entry>): seq<string>
    decreases |h|
  {
    if |h| == 0 then []
    else
      var ks := DayKeys(h[..|h| - 1]);
      var k := DayKey(h[|h| - 1].timestamp);
      if k in ks then ks else ks + [k]
  }

  /** One day's accumulator: request count, bear total and confidence pool. */
  datatype Bucket = Bucket(count: int, bears: int, confidences: seq<real>)

  function BucketOf(h: seq<Entry>, key: string): Bucket
  {
    var day := DayEntries(h, key);
    Bucket(|day|, TotalBears(day), Pool(day))
  }

  /** One row of the daily view. */
  datatype DayStat = DayStat(date: string, count: int, bears: int, avgConfidence: real, maxConfidence: real)

  /** The row formatted from one bucket: its day's mean and maximum
      confidence, 0 for a day without detections. */
  function RowOf(date: string, b: Bucket): DayStat
  {
    DayStat(date, b.count, b.bears, Mean(b.confidences), MaxOrZero(b.confidences))
  }

  function DayStatOf(h: seq<Entry>, key: string): DayStat
  {
    RowOf(key, BucketOf(h, key))
  }

  datatype Summary = Summary(
    totalRequests: int,
    totalBears: int,
    avgConfidence: real,
    maxConfidence: real,
    minConfidence: real,
    bearsPerRequest: real,
    dailyStats: seq<DayStat>)

  const ZeroSummary: Summary := Summary(0, 0, 0.0, 0.0, 0.0, 0.0, [])

  /** Python's `xs[:n]`. */
  function Take<T>(xs: seq<T>, n: nat): seq<T>
  {
    if |xs| <= n then xs else xs[..n]
  }

  /** Every day's row, newest date first, before the cut to ten. */
  function AllDays(h: seq<Entry>): seq<DayStat>
  {
    var sorted := SortDescending(DayKeys(h));
    seq(|sorted|, i requires 0 <= i < |sorted| => DayStatOf(h, sorted[i]))
  }

  /** `calculate_summary_statistics`, stated declaratively. */
  function Summarize(h: seq<Entry>): Summary
  {
    if |h| == 0 then ZeroSummary
    else
      var pool := Pool(h);
      Summary(
        |h|,
        TotalBears(h),
        Mean(pool),
        MaxOrZero(pool),
        MinOrZero(pool),
        TotalBears(h) as real / |h| as real,
        DailyStats(h))
  }

  /** The daily view: every day's row, newest first, cut to ten. */
  function DailyStats(h: seq<Entry>): seq<DayStat>
  {
    Take(AllDays(h), DailyLimit)
  }

  /** One more entry adds to its own day's bucket only. */
  lemma BucketStep(h: seq<Entry>, i: nat, key: string)
    requires i < |h|
    ensures BucketOf(h[..i + 1], key) ==
      if DayKey(h[i].timestamp) == key then
        var b := BucketOf(h[..i], key);
        Bucket(b.count + 1, b.bears + h[i].bearCount, b.confidences + Confidences(h[i].detections))
      else BucketOf(h[..i], key)
  {
    var pre := h[..i + 1];
    assert pre[..i] == h[..i];
    assert pre[i] == h[i];
    var day := DayEntries(h[..i], key);
    if DayKey(h[i].timestamp) == key {
      var day' := day + [h[i]];
      assert DayEntries(pre, key) == day';
      assert day'[..|day'| - 1] == day;
      assert TotalBears(day') == TotalBears(day) + h[i].bearCount;
      assert Pool(day') == Pool(day) + Confidences(h[i].detections);
    } else {
      assert DayEntries(pre, key) == day + [];
      assert day + [] == day;
    }
  }

  /** The inner loop over an entry's detections: each confidence appended in
      order. */
  method AppendConfidences(pool: seq<real>, dets: seq<Detection>) returns (r: seq<real>)
    ensures r == pool + Confidences(dets)
  {
    r := pool;
    var j := 0;
    while j < |dets|
      invariant 0 <= j <= |dets|
      invariant r == pool + Confidences(dets[..j])
    {
      assert Confidences(dets[..j + 1]) == Confidences(dets[..j]) + [dets[j].confidence];
      r := r + [dets[j].confidence];
      j := j + 1;
    }
    assert dets[..j] == dets;
  }

  /** The first pass: the bear total and the flattened confidence pool. */
  method CollectTotals(h: seq<Entry>) returns (totalBears: int, pool: seq<real>)
    ensures totalBears == TotalBears(h)
    ensures pool == Pool(h)
  {
    totalBears, pool := 0, [];
    var i := 0;
    while i < |h|
      invariant 0 <= i <= |h|
      invariant totalBears == TotalBears(h[..i])
      invariant pool == Pool(h[..i])
    {
      assert h[..i + 1][..i] == h[..i];
      pool := AppendConfidences(pool, h[i].detections);
      totalBears := totalBears + h[i].bearCount;
      i := i + 1;
    }
    assert h[..i] == h;
  }

  /** A date that is not yet a key has an empty bucket. */
  lemma NewKeyEmptyBucket(h: seq<Entry>, key: string)
    requires key !in DayKeys(h)
    ensures DayEntries(h, key) == []
  {
    DayKeysMembers(h, key);
    if DayEntries(h, key) != [] {
      var e := DayEntries(h, key)[0];
      DayEntriesMembers(h, key, e);
      assert false;
    }
  }

  /** The second pass: the dictionary of day buckets, with its keys in
      insertion order. */
  method FillBuckets(h: seq<Entry>) returns (buckets: map<string, Bucket>, keys: seq<string>)
    ensures keys == DayKeys(h)
    ensures forall k :: k in buckets <==> k in keys
    ensures forall k :: k in buckets ==> buckets[k] == BucketOf(h, k)
  {
    buckets, keys := map[], [];
    var i := 0;
    while i < |h|
      invariant 0 <= i <= |h|
      invariant keys == DayKeys(h[..i])
      invariant forall k :: k in buckets <==> k in keys
      invariant forall k :: k in buckets ==> buckets[k] == BucketOf(h[..i], k)
    {
      assert h[..i + 1][..i] == h[..i];
      var date := DayKey(h[i].timestamp);
      if date !in buckets {
        NewKeyEmptyBucket(h[..i], date);
        buckets := buckets[date := Bucket(0, 0, [])];
        keys := keys + [date];
      }
      var b := buckets[date];
      var confs := AppendConfidences(b.confidences, h[i].detections);
      buckets := buckets[date := Bucket(b.count + 1, b.bears + h[i].bearCount, confs)];
      forall k | k in buckets
        ensures buckets[k] == BucketOf(h[..i + 1], k)
      {
        BucketStep(h, i, k);
      }
      i := i + 1;
    }
    assert h[..i] == h;
  }

  /** The last pass: the dates sorted newest first, one row per date. */
  method FormatDays(buckets: map<string, Bucket>, keys: seq<string>) returns (formatted: seq<DayStat>)
    requires forall k :: k in keys ==> k in buckets
    ensures |formatted| == |SortDescending(keys)|
    ensures forall m :: 0 <= m < |formatted| ==>
      SortDescending(keys)[m] in buckets && formatted[m] == RowOf(SortDescending(keys)[m], buckets[SortDescending(keys)[m]])
  {
    var sorted := SortDescending(keys);
    SortedMembers(keys);
    formatted := [];
    var n := 0;
    while n < |sorted|
      invariant 0 <= n <= |sorted|
      invariant |formatted| == n
      invariant forall m :: 0 <= m < n ==> formatted[m] == RowOf(sorted[m], buckets[sorted[m]])
    {
      formatted := formatted + [RowOf(sorted[n], buckets[sorted[n]])];
      n := n + 1;
    }
  }

  /** Rows formatted from the buckets of a history are its daily view. */
  lemma FormattedIsDailyView(h: seq<Entry>, buckets: map<string, Bucket>, formatted: seq<DayStat>)
    requires forall k :: k in buckets ==> buckets[k] == BucketOf(h, k)
    requires |formatted| == |SortDescending(DayKeys(h))|
    requires forall m :: 0 <= m < |formatted| ==>
      SortDescending(DayKeys(h))[m] in buckets
      && formatted[m] == RowOf(SortDescending(DayKeys(h))[m], buckets[SortDescending(DayKeys(h))[m]])
    ensures formatted == AllDays(h)
  {
  }

  /** `calculate_summary_statistics`: the empty case, then the three passes. */
  method CalculateSummaryStatistics(h: seq<Entry>) returns (s: Summary)
    ensures s == Summarize(h)
  {
    if |h| == 0 {
      return ZeroSummary;
    }
    var totalBears, pool := CollectTotals(h);
    var buckets, keys := FillBuckets(h);
    var formatted := FormatDays(buckets, keys);
    FormattedIsDailyView(h, buckets, formatted);
    s := Summary(
      |h|,
      totalBears,
      Mean(pool),
      MaxOrZero(pool),
      MinOrZero(pool),
      totalBears as real / |h| as real,
      Take(formatted, DailyLimit));
  }

  /** An entry belongs to a day's bucket exactly when it is in the history and
      its date key is that day. */
  lemma {:induction false} DayEntriesMembers(h: seq<Entry>, key: string, e: Entry)
    ensures e in DayEntries(h, key) <==> e in h && DayKey(e.timestamp) == key
    decreases |h|
  {
    if |h| > 0 {
      var init, last := h[..|h| - 1], h[|h| - 1];
      DayEntriesMembers(init, key, e);
      assert h == init + [last];
      assert e in h <==> e in init || e == last;
    }
  }

  /** The date keys are exactly the keys of the entries. */
  lemma {:induction false} DayKeysMembers(h: seq<Entry>, k: string)
    ensures k in DayKeys(h) <==> exists i :: 0 <= i < |h| && DayKey(h[i].timestamp) == k
    decreases |h|
  {
    if |h| > 0 {
      var init := h[..|h| - 1];
      DayKeysMembers(init, k);
      if exists i :: 0 <= i < |init| && DayKey(init[i].timestamp) == k {
        var i :| 0 <= i < |init| && DayKey(init[i].timestamp) == k;
        assert h[i] == init[i];
      }
      if exists i :: 0 <= i < |h| && DayKey(h[i].timestamp) == k {
        var i :| 0 <= i < |h| && DayKey(h[i].timestamp) == k;
        if i < |init| {
          assert init[i] == h[i];
        }
      }
    }
  }

  /** No date key is listed twice. */
  lemma {:induction false} DayKeysDistinct(h: seq<Entry>)
    ensures Distinct(DayKeys(h))
    decreases |h|
  {
    if |h| > 0 {
      var init := h[..|h| - 1];
      DayKeysDistinct(init);
    }
  }

  /** Two entries whose timestamps share the date prefix land in the same
      bucket, and an entry lands in no other bucket. */
  lemma SameDaySameBucket(h: seq<Entry>, i: nat, j: nat, key: string)
    requires i < |h| && j < |h|
    requires DayKey(h[i].timestamp) == DayKey(h[j].timestamp)
    ensures h[i] in DayEntries(h, DayKey(h[i].timestamp)) && h[j] in DayEntries(h, DayKey(h[i].timestamp))
    ensures key != DayKey(h[i].timestamp) ==> h[i] !in DayEntries(h, key)
  {
    DayEntriesMembers(h, DayKey(h[i].timestamp), h[i]);
    DayEntriesMembers(h, DayKey(h[i].timestamp), h[j]);
    DayEntriesMembers(h, key, h[i]);
  }

  /** Request and bear totals summed over a list of day buckets. */
  datatype Totals = Totals(requests: int, bears: int)

  function BucketTotals(h: seq<Entry>, ks: seq<string>): Totals
    decreases |ks|
  {
    if |ks| == 0 then Totals(0, 0)
    else
      var t := BucketTotals(h, ks[..|ks| - 1]);
      var b := BucketOf(h, ks[|ks| - 1]);
      Totals(t.requests + b.count, t.bears + b.bears)
  }

  /** The request count and bear total of one bucket after one more entry. */
  lemma BucketCountsStep(h: seq<Entry>, key: string)
    requires |h| > 0
    ensures var before, last := BucketOf(h[..|h| - 1], key), h[|h| - 1];
      && BucketOf(h, key).count == before.count + (if DayKey(last.timestamp) == key then 1 else 0)
      && BucketOf(h, key).bears == before.bears + (if DayKey(last.timestamp) == key then last.bearCount else 0)
  {
    BucketStep(h, |h| - 1, key);
    assert h[..|h|] == h;
  }

  /** Adding an entry to the history adds one request and its bears to the
      bucket totals when its day is listed, and nothing otherwise. */
  lemma {:induction false} BucketTotalsStep(h: seq<Entry>, ks: seq<string>)
    requires |h| > 0
    requires Distinct(ks)
    ensures var before, last := BucketTotals(h[..|h| - 1], ks), h[|h| - 1];
      BucketTotals(h, ks) ==
        if DayKey(last.timestamp) in ks then Totals(before.requests + 1, before.bears + last.bearCount)
        else before
    decreases |ks|
  {
    if |ks| > 0 {
      var kinit, k := ks[..|ks| - 1], ks[|ks| - 1];
      assert Distinct(kinit);
      BucketTotalsStep(h, kinit);
      BucketCountsStep(h, k);
      assert DayKey(h[|h| - 1].timestamp) in ks <==> DayKey(h[|h| - 1].timestamp) in kinit || DayKey(h[|h| - 1].timestamp) == k;
      assert k !in kinit;
    }
  }

  /** The totals over a key list are those over all but its last key plus
      the last key's bucket. */
  lemma BucketTotalsLast(h: seq<Entry>, ks: seq<string>, k: string)
    ensures BucketTotals(h, ks + [k]) ==
      Totals(BucketTotals(h, ks).requests + BucketOf(h, k).count, BucketTotals(h, ks).bears + BucketOf(h, k).bears)
  {
    assert (ks + [k])[..|ks|] == ks;
  }

  /** An entry opening a new day is alone in that day's bucket. */
  lemma NewDayBucket(h: seq<Entry>)
    requires |h| > 0
    requires DayKey(h[|h| - 1].timestamp) !in DayKeys(h[..|h| - 1])
    ensures var b := BucketOf(h, DayKey(h[|h| - 1].timestamp));
      b.count == 1 && b.bears == h[|h| - 1].bearCount
  {
    var init, k := h[..|h| - 1], DayKey(h[|h| - 1].timestamp);
    NewKeyEmptyBucket(init, k);
    assert BucketOf(init, k) == Bucket(0, 0, []);
    BucketCountsStep(h, k);
  }

  /** Before the cut to ten, the day buckets partition the history: their
      request counts add up to the number of entries and their bear totals to
      the total bears. */
  lemma {:induction false} DailyPartition(h: seq<Entry>)
    ensures BucketTotals(h, DayKeys(h)) == Totals(|h|, TotalBears(h))
    decreases |h|
  {
    if |h| > 0 {
      var init, last := h[..|h| - 1], h[|h| - 1];
      DailyPartition(init);
      assert TotalBears(h) == TotalBears(init) + last.bearCount;
      DayKeysDistinct(init);
      BucketTotalsStep(h, DayKeys(init));
      if DayKey(last.timestamp) in DayKeys(init) {
        assert DayKeys(h) == DayKeys(init);
      } else {
        NewDayBucket(h);
        BucketTotalsLast(h, DayKeys(init), DayKey(last.timestamp));
      }
    }
  }

  /** The counts: the number of entries and the sum of `bear_count`; the bears
      per request is the mean of the per-entry bear counts, so it lies between
      the fewest and the most bears any one request found. All zero for an
      empty history. */
  lemma SummaryCounts(h: seq<Entry>)
    ensures Summarize(h).totalRequests == |h|
    ensures Summarize(h).totalBears == TotalBears(h)
    ensures |h| > 0 ==> Summarize(h).bearsPerRequest == Mean(BearCounts(h))
    ensures |h| > 0 ==> Least(BearCounts(h)) <= Summarize(h).bearsPerRequest <= Greatest(BearCounts(h))
    ensures |h| == 0 ==> Summarize(h) == ZeroSummary
  {
    if |h| > 0 {
      SumOfBearCounts(h);
      MeanWithinExtrema(BearCounts(h));
    }
  }

  /** The confidence aggregates are the mean and the extrema of the flattened
      pool: all 0 when the pool is empty, and ordered min <= avg <= max with min
      and max taken from the pool when it is not. */
  lemma SummaryConfidence(h: seq<Entry>)
    ensures |Pool(h)| == 0 ==>
      && Summarize(h).avgConfidence == 0.0
      && Summarize(h).maxConfidence == 0.0
      && Summarize(h).minConfidence == 0.0
    ensures |Pool(h)| > 0 ==>
      var s, pool := Summarize(h), Pool(h);
      && s.avgConfidence == Mean(pool)
      && s.maxConfidence in pool && s.minConfidence in pool
      && (forall i :: 0 <= i < |pool| ==> s.minConfidence <= pool[i] <= s.maxConfidence)
      && s.minConfidence <= s.avgConfidence <= s.maxConfidence
  {
    var pool := Pool(h);
    if |h| == 0 {
      assert pool == [];
    } else if |pool| > 0 {
      MeanWithinExtrema(pool);
    }
  }

  /** The rows of the daily view are the rows of the first dates of the
      descending sort, as many as the limit allows. */
  lemma DailyStatsShape(h: seq<Entry>)
    ensures var sorted, ds := SortDescending(DayKeys(h)), DailyStats(h);
      && |sorted| == |DayKeys(h)|
      && |ds| == (if |sorted| <= DailyLimit then |sorted| else DailyLimit)
      && forall i :: 0 <= i < |ds| ==> ds[i] == DayStatOf(h, sorted[i]) && ds[i].date == sorted[i]
  {
    DayKeysDistinct(h);
    SortedKeysSame(DayKeys(h), "");
  }

  /** The daily view has at most ten rows, strictly newest first, and each row
      is a date of the history with that day's figures. */
  lemma DailyStatsOrdered(h: seq<Entry>)
    ensures var ds := Summarize(h).dailyStats;
      && |ds| <= DailyLimit
      && (forall i, j :: 0 <= i < j < |ds| ==> Less(ds[j].date, ds[i].date))
      && (forall i :: 0 <= i < |ds| ==> ds[i] == DayStatOf(h, ds[i].date) && ds[i].date in DayKeys(h))
  {
    if |h| > 0 {
      DailyStatsShape(h);
      var keys := DayKeys(h);
      DayKeysDistinct(h);
      SortDescendingSorted(keys);
      var ds := DailyStats(h);
      forall i | 0 <= i < |ds|
        ensures ds[i].date in keys
      {
        SortedKeysSame(keys, ds[i].date);
      }
    }
  }

  /** When the history spans ten dates or fewer, every date has a row. */
  lemma DailyStatsComplete(h: seq<Entry>, k: string)
    requires |DayKeys(h)| <= DailyLimit
    requires k in DayKeys(h)
    ensures exists i :: 0 <= i < |Summarize(h).dailyStats| && Summarize(h).dailyStats[i].date == k
  {
    DailyStatsShape(h);
    var sorted := SortDescending(DayKeys(h));
    DayKeysDistinct(h);
    SortedKeysSame(DayKeys(h), k);
    var i :| 0 <= i < |sorted| && sorted[i] == k;
    assert Summarize(h).dailyStats[i].date == k;
  }

  /** The cut keeps the newest dates: a date of the history without a row is
      older than every date shown. */
  lemma DailyStatsNewest(h: seq<Entry>, k: string, i: nat)
    requires k in DayKeys(h)
    requires i < |Summarize(h).dailyStats|
    requires forall j :: 0 <= j < |Summarize(h).dailyStats| ==> Summarize(h).dailyStats[j].date != k
    ensures Less(k, Summarize(h).dailyStats[i].date)
  {
    var ds := Summarize(h).dailyStats;
    assert ds == DailyStats(h);
    DailyStatsShape(h);
    var sorted := SortDescending(DayKeys(h));
    DayKeysDistinct(h);
    SortDescendingSorted(DayKeys(h));
    DayKeysDistinct(h);
    SortedKeysSame(DayKeys(h), k);
    assert k !in sorted[..|ds|];
    OutsidePrefixIsSmaller(sorted, |ds|, k, i);
  }

  /** Each day's average and maximum are the mean and maximum of that day's
      confidences only: 0 for a day without detections, and otherwise the
      largest confidence of that day, with the average not above it. */
  lemma DayFigures(h: seq<Entry>, key: string)
    ensures var d, pool := DayStatOf(h, key), Pool(DayEntries(h, key));
      && d.count == |DayEntries(h, key)|
      && d.bears == TotalBears(DayEntries(h, key))
      && (|pool| == 0 ==> d.avgConfidence == 0.0 && d.maxConfidence == 0.0)
      && (|pool| > 0 ==>
            && d.avgConfidence == Mean(pool)
            && d.maxConfidence in pool
            && (forall i :: 0 <= i < |pool| ==> pool[i] <= d.maxConfidence)
            && d.avgConfidence <= d.maxConfidence)
  {
    var pool := Pool(DayEntries(h, key));
    if |pool| > 0 {
      MeanWithinExtrema(pool);
    }
  }
}
