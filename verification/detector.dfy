/** The detector adapter: turns the object-detection model's raw results into
    bear detection records. The model itself is foreign; its output is taken
    as an abstract sequence of results, each with an optional list of boxes. */
module Detector {
  import opened Records

  /** Thresholds handed to the model; their effect happens inside the model. */
  const ConfidenceThreshold: real := 0.25
  const IouThreshold: real := 0.45

  /** The "bear" class of the COCO taxonomy. */
  const BearClassId: int := 21

  /** One raw box: class id, confidence and corner coordinates. */
  datatype RawBox = RawBox(classId: int, confidence: real, xyxy: BBox)

  /** One raw result; `boxes` is None when the model produced no box tensor. */
  datatype RawResult = RawResult(boxes: Option<seq<RawBox>>)

  /** The image handed back with the detections: the untouched copy of the
      input, or the model's own rendering of the result at the given index. */
  datatype ResultImage = InputCopy | Plot(result: nat)

  /** Labelled "bear" with class 21. */
  predicate IsBear(d: Detection)
  {
    d.classId == BearClassId && d.className == "bear"
  }

  /** A record as the adapter builds it: a bear whose area and centre are
      recomputable from its box. */
  predicate WellFormed(d: Detection)
  {
    && IsBear(d)
    && d.area == Area(d.bbox)
    && d.centerX == (d.bbox.x1 + d.bbox.x2) / 2.0
    && d.centerY == (d.bbox.y1 + d.bbox.y2) / 2.0
  }

  function ToDetection(b: RawBox): Detection
  {
    Detection(b.xyxy, b.confidence, "bear", b.classId, Area(b.xyxy),
              (b.xyxy.x1 + b.xyxy.x2) / 2.0, (b.xyxy.y1 + b.xyxy.y2) / 2.0)
  }

  /** The record a box contributes: one for a class-21 box, none otherwise. */
  function Kept(b: RawBox): seq<Detection>
  {
    if b.classId == BearClassId then [ToDetection(b)] else []
  }

  /** The bears among the first n boxes of a result, in box order. */
  function BearsAmong(boxes: seq<RawBox>, n: nat): seq<Detection>
    requires n <= |boxes|
  {
    if n == 0 then [] else BearsAmong(boxes, n - 1) + Kept(boxes[n - 1])
  }

  /** The bears of one result; a result without boxes has none. */
  function BearsOfResult(r: RawResult): seq<Detection>
  {
    match r.boxes
    case None => []
    case Some(bs) => BearsAmong(bs, |bs|)
  }

  /** The bears of the first n results, result by result and box by box. */
  function BearsUpTo(results: seq<RawResult>, n: nat): seq<Detection>
    requires n <= |results|
  {
    if n == 0 then [] else BearsUpTo(results, n - 1) + BearsOfResult(results[n - 1])
  }

  function BearsIn(results: seq<RawResult>): seq<Detection>
  {
    BearsUpTo(results, |results|)
  }

  /** Number of raw boxes in the first n results. */
  function BoxesUpTo(results: seq<RawResult>, n: nat): nat
    requires n <= |results|
  {
    if n == 0 then 0
    else BoxesUpTo(results, n - 1) + (match results[n - 1].boxes case None => 0 case Some(bs) => |bs|)
  }

  /** The image after the first n results: after each result that has boxes,
      if no bear has been found yet, the model's rendering of that result
      replaces the current image, so the last such replacement wins. */
  function ImageUpTo(results: seq<RawResult>, n: nat): ResultImage
    requires n <= |results|
  {
    if n == 0 then InputCopy
    else if results[n - 1].boxes.Some? && |BearsUpTo(results, n)| == 0 then Plot(n - 1)
    else ImageUpTo(results, n - 1)
  }

  function ReturnedImage(results: seq<RawResult>): ResultImage
  {
    ImageUpTo(results, |results|)
  }

  /** The inner loop of `detect_bears` over one result's boxes: each class-21
      box appended as a record, in box order. */
  method ScanBoxes(boxes: seq<RawBox>, detections: seq<Detection>) returns (r: seq<Detection>)
    ensures r == detections + BearsAmong(boxes, |boxes|)
  {
    r := detections;
    var j := 0;
    while j < |boxes|
      invariant 0 <= j <= |boxes|
      invariant r == detections + BearsAmong(boxes, j)
    {
      var box := boxes[j];
      if box.classId == BearClassId {
        r := r + [ToDetection(box)];
      }
      j := j + 1;
    }
  }

  /** `detect_bears`: walks the results and their boxes as the adapter does,
      keeping class-21 boxes and switching to the model's rendering while the
      list is still empty. */
  method DetectBears(results: seq<RawResult>) returns (detections: seq<Detection>, image: ResultImage)
    ensures detections == BearsIn(results)
    ensures image == ReturnedImage(results)
  {
    detections := [];
    image := InputCopy;
    var i := 0;
    while i < |results|
      invariant 0 <= i <= |results|
      invariant detections == BearsUpTo(results, i)
      invariant image == ImageUpTo(results, i)
    {
      var result := results[i];
      if result.boxes.Some? {
        detections := ScanBoxes(result.boxes.value, detections);
        if |detections| == 0 {
          image := Plot(i);
        }
      }
      assert detections == BearsUpTo(results, i + 1);
      i := i + 1;
    }
  }

  /** Only bears are kept, and at most one record per box. */
  lemma {:induction false} BearsAmongBounded(boxes: seq<RawBox>, n: nat)
    requires n <= |boxes|
    ensures |BearsAmong(boxes, n)| <= n
    ensures forall i :: 0 <= i < |BearsAmong(boxes, n)| ==> IsBear(BearsAmong(boxes, n)[i])
  {
    if n > 0 {
      BearsAmongBounded(boxes, n - 1);
    }
  }

  /** The output holds only bears and is no longer than the raw box count. */
  lemma {:induction false} BearsUpToBounded(results: seq<RawResult>, n: nat)
    requires n <= |results|
    ensures |BearsUpTo(results, n)| <= BoxesUpTo(results, n)
    ensures forall i :: 0 <= i < |BearsUpTo(results, n)| ==> IsBear(BearsUpTo(results, n)[i])
  {
    if n > 0 {
      BearsUpToBounded(results, n - 1);
      assert BearsUpTo(results, n) == BearsUpTo(results, n - 1) + BearsOfResult(results[n - 1]);
      match results[n - 1].boxes
      case None =>
      case Some(bs) =>
        BearsAmongBounded(bs, |bs|);
    }
  }

  /** A box is kept exactly when its class id is 21. */
  lemma {:induction false} KeptIffBear(boxes: seq<RawBox>, n: nat, k: nat)
    requires k < n <= |boxes|
    ensures ToDetection(boxes[k]) in BearsAmong(boxes, n) <==> boxes[k].classId == BearClassId
  {
    if k < n - 1 {
      KeptIffBear(boxes, n - 1, k);
    }
    if boxes[k].classId != BearClassId {
      BearsAmongBounded(boxes, n);
      assert !IsBear(ToDetection(boxes[k]));
    }
  }

  /** Every record comes from a class-21 box of the input. */
  lemma {:induction false} RecordFromBearBox(boxes: seq<RawBox>, n: nat, d: Detection)
    requires n <= |boxes|
    requires d in BearsAmong(boxes, n)
    ensures exists k :: 0 <= k < n && boxes[k].classId == BearClassId && d == ToDetection(boxes[k])
  {
    if d in BearsAmong(boxes, n - 1) {
      RecordFromBearBox(boxes, n - 1, d);
    } else {
      assert d == ToDetection(boxes[n - 1]);
    }
  }

  /** Every record of the output is a bear whose area and centre are derived
      from its box. */
  lemma {:induction false} OutputWellFormed(results: seq<RawResult>, n: nat, d: Detection)
    requires n <= |results|
    requires d in BearsUpTo(results, n)
    ensures WellFormed(d)
  {
    if d in BearsUpTo(results, n - 1) {
      OutputWellFormed(results, n - 1, d);
    } else {
      var bs := results[n - 1].boxes.value;
      RecordFromBearBox(bs, |bs|, d);
    }
  }

  /** Order is kept within a result: the bears of concatenated box lists are
      the concatenation of their bears. */
  lemma {:induction false} BearsAmongAppend(a: seq<RawBox>, b: seq<RawBox>, m: nat)
    requires m <= |b|
    ensures BearsAmong(a + b, |a| + m) == BearsAmong(a, |a|) + BearsAmong(b, m)
  {
    if m == 0 {
      BearsAmongPrefix(a, b, |a|);
    } else {
      BearsAmongAppend(a, b, m - 1);
      assert (a + b)[|a| + m - 1] == b[m - 1];
    }
  }

  /** The bears among the first n boxes depend only on those boxes. */
  lemma {:induction false} BearsAmongPrefix(a: seq<RawBox>, b: seq<RawBox>, n: nat)
    requires n <= |a|
    ensures BearsAmong(a + b, n) == BearsAmong(a, n)
  {
    if n > 0 {
      BearsAmongPrefix(a, b, n - 1);
      assert (a + b)[n - 1] == a[n - 1];
    }
  }

  /** Order is kept across results: detections of earlier results come first. */
  lemma {:induction false} BearsUpToAppend(a: seq<RawResult>, b: seq<RawResult>, m: nat)
    requires m <= |b|
    ensures BearsUpTo(a + b, |a| + m) == BearsIn(a) + BearsUpTo(b, m)
  {
    if m == 0 {
      ResultsPrefix(a, b, |a|);
    } else {
      BearsUpToAppend(a, b, m - 1);
      var earlier, before, last := BearsIn(a), BearsUpTo(b, m - 1), BearsOfResult(b[m - 1]);
      assert (a + b)[|a| + m - 1] == b[m - 1];
      assert BearsUpTo(a + b, |a| + m) == (earlier + before) + last;
      assert BearsUpTo(b, m) == before + last;
      assert (earlier + before) + last == earlier + (before + last);
    }
  }

  /** The detections and the image after n results depend only on those results. */
  lemma {:induction false} ResultsPrefix(a: seq<RawResult>, b: seq<RawResult>, n: nat)
    requires n <= |a|
    ensures BearsUpTo(a + b, n) == BearsUpTo(a, n)
    ensures ImageUpTo(a + b, n) == ImageUpTo(a, n)
  {
    if n > 0 {
      ResultsPrefix(a, b, n - 1);
      assert (a + b)[n - 1] == a[n - 1];
    }
  }

  /** Processing more results never removes a detection: the records found
      after m results are a prefix of those found after n. */
  lemma {:induction false} BearsUpToGrows(results: seq<RawResult>, m: nat, n: nat)
    requires m <= n <= |results|
    ensures BearsUpTo(results, m) <= BearsUpTo(results, n)
    ensures |BearsUpTo(results, m)| <= |BearsUpTo(results, n)|
    decreases n - m
  {
    if m < n {
      BearsUpToGrows(results, m, n - 1);
    }
  }

  /** A rendering is only ever taken from a result that has boxes, at a point
      where no bear had been found. */
  lemma {:induction false} PlotOnlyWithoutBears(results: seq<RawResult>, n: nat)
    requires n <= |results|
    ensures ImageUpTo(results, n).Plot? ==>
      && ImageUpTo(results, n).result < n
      && results[ImageUpTo(results, n).result].boxes.Some?
      && |BearsUpTo(results, ImageUpTo(results, n).result + 1)| == 0
  {
    if n > 0 {
      if results[n - 1].boxes.Some? && |BearsUpTo(results, n)| == 0 {
        assert ImageUpTo(results, n) == Plot(n - 1);
      } else {
        assert ImageUpTo(results, n) == ImageUpTo(results, n - 1);
        PlotOnlyWithoutBears(results, n - 1);
      }
    }
  }

  /** Once result i has contributed a bear, every longer prefix holds one. */
  lemma {:induction false} BearFoundStaysFound(results: seq<RawResult>, i: nat, n: nat)
    requires i < n <= |results|
    requires |BearsOfResult(results[i])| > 0
    ensures |BearsUpTo(results, n)| > 0
    decreases n
  {
    if n - 1 > i {
      BearFoundStaysFound(results, i, n - 1);
    }
    assert BearsUpTo(results, n) == BearsUpTo(results, n - 1) + BearsOfResult(results[n - 1]);
  }

  /** A result up to which no bear had been found comes before every result
      that contributes a bear. */
  lemma BearlessPrefixPrecedesBear(results: seq<RawResult>, p: nat, i: nat)
    requires p < |results| && |BearsUpTo(results, p + 1)| == 0
    requires i < |results| && |BearsOfResult(results[i])| > 0
    ensures p < i
  {
    forall n | i < n <= |results|
      ensures |BearsUpTo(results, n)| > 0
    {
      BearFoundStaysFound(results, i, n);
    }
  }

  /** The rendering is never chosen once a bear has been found: the plotted
      result comes before the first result that contributed a bear. */
  lemma PlotPrecedesFirstBear(results: seq<RawResult>, i: nat)
    requires i < |results|
    requires |BearsOfResult(results[i])| > 0
    requires ReturnedImage(results).Plot?
    ensures ReturnedImage(results).result < i
  {
    PlotOnlyWithoutBears(results, |results|);
    BearlessPrefixPrecedesBear(results, ReturnedImage(results).result, i);
  }

  /** A result whose `boxes` is None adds no detection and leaves the image alone. */
  lemma NoBoxesNoEffect(results: seq<RawResult>)
    ensures BearsIn(results + [RawResult(None)]) == BearsIn(results)
    ensures ReturnedImage(results + [RawResult(None)]) == ReturnedImage(results)
  {
    ResultsPrefix(results, [RawResult(None)], |results|);
  }

  /** With the single result the model returns for one image, the rendering is
      used exactly when that result has boxes and none of them is a bear. */
  lemma SingleResultFallback(r: RawResult)
    ensures ReturnedImage([r]).Plot? <==> r.boxes.Some? && |BearsOfResult(r)| == 0
    ensures ReturnedImage([r]).Plot? ==> ReturnedImage([r]).result == 0
  {
    assert BearsUpTo([r], 1) == BearsUpTo([r], 0) + BearsOfResult(r);
    assert ImageUpTo([r], 0) == InputCopy;
  }

  /** With several results the image can be a rendering although bears were
      found: an earlier result without bears set it, and a later one found a
      bear. */
  lemma StalePlotWithBears()
    ensures var results := [RawResult(Some([])), RawResult(Some([RawBox(BearClassId, 0.9, BBox(0.0, 0.0, 10.0, 10.0))]))];
      && |BearsIn(results)| == 1
      && ReturnedImage(results) == Plot(0)
  {
    var box := RawBox(BearClassId, 0.9, BBox(0.0, 0.0, 10.0, 10.0));
    var results := [RawResult(Some([])), RawResult(Some([box]))];
    assert BearsAmong([box], 1) == BearsAmong([box], 0) + Kept(box);
    assert |BearsUpTo(results, 1)| == 0;
    assert BearsUpTo(results, 2) == [ToDetection(box)];
    assert ImageUpTo(results, 1) == Plot(0);
    assert ImageUpTo(results, 2) == ImageUpTo(results, 1);
  }

  /** The derived area is non-negative for a box whose corners are ordered, as
      the model's boxes are. */
  lemma AreaNonNegative(d: Detection)
    requires WellFormed(d)
    requires d.bbox.x1 <= d.bbox.x2 && d.bbox.y1 <= d.bbox.y2
    ensures d.area >= 0.0
  {
  }
}
