/** The persisted records: a detection, and a history entry holding the
    detections of one upload. Aggregates over a history (bear totals and the
    flattened confidence pool) are defined here once and shared by the
    statistics engine, the handlers and the reports. */
module Records {
  import opened Numeric

  datatype Option<T> = None | Some(value: T)

  /** Pixel-space box corners (x1, y1, x2, y2). */
  datatype BBox = BBox(x1: real, y1: real, x2: real, y2: real)

  /** One located bear, with the geometry derived from its box. */
  datatype Detection = Detection(
    bbox: BBox,
    confidence: real,
    className: string,
    classId: int,
    area: real,
    centerX: real,
    centerY: real)

  /** One completed upload. `originalImage` is optional because reports read it
      with a default; entries written by the upload handler always carry it. */
  datatype Entry = Entry(
    id: string,
    timestamp: string,
    originalImage: Option<string>,
    resultImage: string,
    detections: seq<Detection>,
    bearCount: int,
    processingTime: real)

  function Area(b: BBox): real
  {
    (b.x2 - b.x1) * (b.y2 - b.y1)
  }

  /** The confidences of a list of detections, in order. */
  function Confidences(ds: seq<Detection>): (cs: seq<real>)
    ensures |cs| == |ds|
    ensures forall i :: 0 <= i < |ds| ==> cs[i] == ds[i].confidence
  {
    seq(|ds|, i requires 0 <= i < |ds| => ds[i].confidence)
  }

  /** The flattened pool of every detection confidence of every entry, entry by
      entry and detection by detection. */
  function Pool(h: seq<Entry>): seq<real>
    decreases |h|
  {
    if |h| == 0 then [] else Pool(h[..|h| - 1]) + Confidences(h[|h| - 1].detections)
  }

  /** Sum of `bear_count` over the entries. */
  function TotalBears(h: seq<Entry>): int
    decreases |h|
  {
    if |h| == 0 then 0 else TotalBears(h[..|h| - 1]) + h[|h| - 1].bearCount
  }

  /** Each entry's `bear_count`, as a real. */
  function BearCounts(h: seq<Entry>): (cs: seq<real>)
    ensures |cs| == |h|
    ensures forall i :: 0 <= i < |h| ==> cs[i] == h[i].bearCount as real
  {
    seq(|h|, i requires 0 <= i < |h| => h[i].bearCount as real)
  }

  /** Number of detection records stored across the entries. */
  function DetectionCount(h: seq<Entry>): nat
    decreases |h|
  {
    if |h| == 0 then 0 else DetectionCount(h[..|h| - 1]) + |h[|h| - 1].detections|
  }

  /** An entry is consistent when its `bear_count` is the number of its detections,
      as the upload handler writes it. */
  predicate Consistent(e: Entry)
  {
    e.bearCount == |e.detections|
  }

  lemma {:induction false} PoolAppend(a: seq<Entry>, b: seq<Entry>)
    ensures Pool(a + b) == Pool(a) + Pool(b)
    decreases |b|
  {
    if |b| == 0 {
      assert a + b == a;
    } else {
      var ab, init, e := a + b, b[..|b| - 1], b[|b| - 1];
      assert ab[..|ab| - 1] == a + init;
      assert ab[|ab| - 1] == e;
      PoolAppend(a, init);
      assert Pool(ab) == Pool(a + init) + Confidences(e.detections);
      assert Pool(b) == Pool(init) + Confidences(e.detections);
    }
  }



  /** The bear total is the sum of the per-entry counts. */
  lemma {:induction false} SumOfBearCounts(h: seq<Entry>)
    ensures Sum(BearCounts(h)) == TotalBears(h) as real
    decreases |h|
  {
    if |h| > 0 {
      var init := h[..|h| - 1];
      SumOfBearCounts(init);
      assert BearCounts(h)[..|h| - 1] == BearCounts(init);
    }
  }

  /** The pool holds exactly one confidence per stored detection. */
  lemma {:induction false} PoolSize(h: seq<Entry>)
    ensures |Pool(h)| == DetectionCount(h)
    decreases |h|
  {
    if |h| > 0 {
      PoolSize(h[..|h| - 1]);
    }
  }

  /** When every entry is consistent, the bear total is the pool size. */
  lemma {:induction false} ConsistentBearsArePoolSize(h: seq<Entry>)
    requires forall i :: 0 <= i < |h| ==> Consistent(h[i])
    ensures TotalBears(h) == |Pool(h)|
    decreases |h|
  {
    if |h| > 0 {
      ConsistentBearsArePoolSize(h[..|h| - 1]);
    }
  }

  /** The pool is the flattening: a value is in it exactly when some detection of
      some entry carries it. */
  lemma {:induction false} PoolMembers(h: seq<Entry>, c: real)
    ensures c in Pool(h) <==>
      exists i, j :: 0 <= i < |h| && 0 <= j < |h[i].detections| && h[i].detections[j].confidence == c
    decreases |h|
  {
    if |h| > 0 {
      var init, last := h[..|h| - 1], h[|h| - 1];
      PoolMembers(init, c);
      var cs := Confidences(last.detections);
      assert Pool(h) == Pool(init) + cs;
      if c in Pool(h) {
        if c in Pool(init) {
          var i, j :| 0 <= i < |init| && 0 <= j < |init[i].detections| && init[i].detections[j].confidence == c;
          assert h[i] == init[i];
        } else {
          var j :| 0 <= j < |cs| && cs[j] == c;
          assert h[|h| - 1].detections[j].confidence == c;
        }
      }
      if exists i, j :: 0 <= i < |h| && 0 <= j < |h[i].detections| && h[i].detections[j].confidence == c {
        var i, j :| 0 <= i < |h| && 0 <= j < |h[i].detections| && h[i].detections[j].confidence == c;
        if i < |init| {
          assert init[i] == h[i];
        } else {
          assert cs[j] == c;
        }
      }
    }
  }

}
