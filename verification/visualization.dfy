/** The arithmetic of the annotation step: the confidence tier that picks a
    box colour, the line thickness and font sizes derived from the image size,
    the clamping of the label position, and the content of the info panel.
    Pixels and fonts themselves belong to the drawing library. */
module Visualization {
  import opened Numeric
  import opened Records

  /** Confidence tiers, from the most to the least confident. */
  datatype Tier = High | Medium | Low | VeryLow

  /** An OpenCV colour, in blue-green-red order. */
  datatype Color = Color(b: int, g: int, r: int)

  /** The tier of a confidence. Every boundary is a strict comparison, so a
      confidence of exactly 0.8, 0.65 or 0.5 falls to the tier below. */
  function TierOf(c: real): (t: Tier)
    ensures t == High <==> c > 0.8
    ensures t == Medium <==> 0.65 < c <= 0.8
    ensures t == Low <==> 0.5 < c <= 0.65
    ensures t == VeryLow <==> c <= 0.5
  {
    if c > 0.8 then High
    else if c > 0.65 then Medium
    else if c > 0.5 then Low
    else VeryLow
  }

  function TierColor(t: Tier): Color
  {
    match t
    case High => Color(0, 255, 0)
    case Medium => Color(0, 200, 255)
    case Low => Color(0, 100, 255)
    case VeryLow => Color(0, 0, 255)
  }

  /** Position of a tier in the order very-low < low < medium < high. */
  function Rank(t: Tier): nat
  {
    match t
    case VeryLow => 0
    case Low => 1
    case Medium => 2
    case High => 3
  }

  /** A higher confidence never gets a lower tier. */
  lemma TierMonotone(c: real, c': real)
    requires c <= c'
    ensures Rank(TierOf(c)) <= Rank(TierOf(c'))
  {
  }

  /** The four tiers have four different colours, so the colour identifies the tier. */
  lemma TierColorsDistinct(t: Tier, t': Tier)
    requires t != t'
    ensures TierColor(t) != TierColor(t')
  {
  }

  function MinSide(width: nat, height: nat): nat
  {
    if width < height then width else height
  }

  /** `max(2, int(min(width, height) / 300))`: the box line thickness. For a
      non-negative quotient Python's `int` truncation is the floor, which is
      Dafny's integer division here. */
  function Thickness(width: nat, height: nat): (t: int)
    ensures t >= 2
    ensures MinSide(width, height) < 300 * (t + 1)
    ensures t > 2 ==> 300 * t <= MinSide(width, height)
    ensures MinSide(width, height) < 900 <==> t == 2
  {
    var scaled := MinSide(width, height) / 300;
    if scaled > 2 then scaled else 2
  }

  /** The thickness for a few common image sizes: the floor of 2 holds up to
      a shorter side of 899 pixels, after which every further 300 pixels add
      one. */
  lemma ThicknessExamples()
    ensures Thickness(640, 480) == 2
    ensures Thickness(1920, 1080) == 3
    ensures Thickness(1200, 1200) == 4
    ensures Thickness(4000, 3000) == 10
  {
  }

  /** A larger image never gets a thinner box line. */
  lemma ThicknessMonotone(width: nat, height: nat, width': nat, height': nat)
    requires MinSide(width, height) <= MinSide(width', height')
    ensures Thickness(width, height) <= Thickness(width', height')
  {
  }

  /** `max(0.5, min(width, height) / 1200)`: the label font scale. */
  function FontScale(width: nat, height: nat): (s: real)
    ensures s >= 0.5
    ensures MinSide(width, height) <= 600 ==> s == 0.5
    ensures MinSide(width, height) > 600 ==> s * 1200.0 == MinSide(width, height) as real
  {
    var scaled := MinSide(width, height) as real / 1200.0;
    if scaled > 0.5 then scaled else 0.5
  }

  /** `max(1, int(font_scale * 2))`: the label stroke width. Since the scale is
      at least 0.5, the width is always the whole part of twice the scale. */
  function FontThickness(width: nat, height: nat): (t: int)
    ensures t >= 1
    ensures t as real <= 2.0 * FontScale(width, height) < t as real + 1.0
  {
    var scaled := (FontScale(width, height) * 2.0).Floor;
    if scaled > 1 then scaled else 1
  }

  /** Python's `int(x)` on a float: truncation toward zero. */
  function Trunc(x: real): (n: int)
    ensures x >= 0.0 ==> n as real <= x < n as real + 1.0
    ensures x < 0.0 ==> n as real - 1.0 < x <= n as real
  {
    if x >= 0.0 then x.Floor else -((-x).Floor)
  }

  /** Top edge of the filled label background, clamped to the image. */
  function LabelTop(y1: real, textHeight: int, baseline: int): int
  {
    var raw := Trunc(y1) - textHeight - baseline - 5;
    if raw > 0 then raw else 0
  }

  /** Baseline of the label text, clamped to the image. */
  function LabelTextY(y1: real, baseline: int): int
  {
    var raw := Trunc(y1) - baseline - 5;
    if raw > 0 then raw else 0
  }

  /** Both label coordinates stay inside the image, equal the unclamped value
      whenever that is inside, and the text baseline is never above the
      background's top edge. */
  lemma LabelClamped(y1: real, textHeight: nat, baseline: int)
    ensures LabelTop(y1, textHeight, baseline) >= 0
    ensures LabelTextY(y1, baseline) >= 0
    ensures Trunc(y1) - textHeight - baseline - 5 >= 0 ==>
      LabelTop(y1, textHeight, baseline) == Trunc(y1) - textHeight - baseline - 5
    ensures Trunc(y1) - baseline - 5 >= 0 ==> LabelTextY(y1, baseline) == Trunc(y1) - baseline - 5
    ensures Trunc(y1) - textHeight - baseline - 5 < 0 ==> LabelTop(y1, textHeight, baseline) == 0
    ensures Trunc(y1) - baseline - 5 < 0 ==> LabelTextY(y1, baseline) == 0
    ensures LabelTop(y1, textHeight, baseline) <= LabelTextY(y1, baseline)
  {
  }

  datatype LegendItem = LegendItem(text: string, color: Color)

  /** The legend, one swatch per tier. */
  const Legend: seq<LegendItem> := [
    LegendItem("High (>80%)", Color(0, 255, 0)),
    LegendItem("Medium (65-80%)", Color(0, 200, 255)),
    LegendItem("Low (50-65%)", Color(0, 100, 255)),
    LegendItem("Very Low (<50%)", Color(0, 0, 255))
  ]

  /** The tiers in the order the legend lists them. */
  const TierOrder: seq<Tier> := [High, Medium, Low, VeryLow]

  /** The legend's swatches are exactly the box colours, in tier order. */
  lemma LegendMatchesTiers()
    ensures |Legend| == |TierOrder| == 4
    ensures forall i :: 0 <= i < |Legend| ==> Legend[i].color == TierColor(TierOrder[i])
    ensures forall t: Tier :: t in TierOrder
  {
    forall t: Tier
      ensures t in TierOrder
    {
      assert TierOrder[3 - Rank(t)] == t;
    }
  }

  datatype PanelStats = PanelStats(count: nat, avgConfidence: real)

  /** What the info panel shows besides its title: the count-and-average line
      and the legend (both only when there are detections), and the processing
      time (only when one was given and it is non-zero). */
  datatype InfoPanel = InfoPanel(stats: Option<PanelStats>, legend: seq<LegendItem>, showsTime: bool)

  function InfoPanelOf(detections: seq<Detection>, processingTime: Option<real>): InfoPanel
  {
    var stats :=
      if |detections| > 0 then
        Some(PanelStats(|detections|, Sum(Confidences(detections)) / (|detections| as real)))
      else None;
    InfoPanel(
      stats,
      if |detections| > 0 then Legend else [],
      processingTime.Some? && processingTime.value != 0.0)
  }

  /** The panel's statistics line and legend appear exactly when there are
      detections; its average is the mean confidence and so lies between the
      lowest and the highest one. The time is shown unless it is missing or
      zero. */
  lemma PanelContents(detections: seq<Detection>, processingTime: Option<real>)
    ensures InfoPanelOf(detections, processingTime).stats.Some? <==> |detections| > 0
    ensures InfoPanelOf(detections, processingTime).legend != [] <==> |detections| > 0
    ensures |detections| > 0 ==>
      var s := InfoPanelOf(detections, processingTime).stats.value;
      && s.count == |detections|
      && s.avgConfidence == Mean(Confidences(detections))
      && Least(Confidences(detections)) <= s.avgConfidence <= Greatest(Confidences(detections))
    ensures InfoPanelOf(detections, processingTime).showsTime <==>
      processingTime != None && processingTime != Some(0.0)
  {
    if |detections| > 0 {
      MeanWithinExtrema(Confidences(detections));
    }
  }
}
