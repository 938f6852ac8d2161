// `generateImageWithBBoxes` of lib/imageUtils.ts: the annotated snapshot
// stretched to the display size. The image is drawn over the whole canvas,
// boxes and labels go through independent horizontal and vertical scales,
// and a legend panel lists each class with its count.
module ImageUtils {
  import opened Detections
  import opened Format
  import opened ClassTally
  import opened Canvas2D
  import opened Layout

  const BoxPadding: real := 10.0
  const LegendBoxWidth: real := 200.0
  const BoxLineWidth: real := 3.0

  /** `scaleX = displayWidth / naturalWidth`, `scaleY = displayHeight / naturalHeight`, no offset. */
  function StretchTransform(img: Image, displayWidth: real, displayHeight: real): (tr: Transform)
    requires img.naturalWidth > 0 && img.naturalHeight > 0
    ensures tr.offsetX == 0.0 && tr.offsetY == 0.0
    ensures img.naturalWidth as real * tr.scaleX == displayWidth && img.naturalHeight as real * tr.scaleY == displayHeight
  {
    Transform(displayWidth / img.naturalWidth as real, displayHeight / img.naturalHeight as real, 0.0, 0.0)
  }

  /** Font size of labels and legend: 2% of the larger display side. */
  function FontSize(displayWidth: real, displayHeight: real): real
  {
    Max(displayWidth, displayHeight) * 0.02
  }

  /** Legend line spacing: 2.5% of the larger display side. */
  function LineHeight(displayWidth: real, displayHeight: real): real
  {
    Max(displayWidth, displayHeight) * 0.025
  }

  function StretchStyle(displayWidth: real, displayHeight: real): BoxStyle
  {
    BoxStyle(BoxLineWidth, FontSize(displayWidth, displayHeight), 5.0)
  }

  /** Panel at (10, 10), 200 wide, padded by 10 above and below; lines at x = 15. */
  function StretchLegend(displayWidth: real, displayHeight: real): LegendLayout
  {
    var lh := LineHeight(displayWidth, displayHeight);
    LegendLayout(BoxPadding, BoxPadding, LegendBoxWidth, BoxPadding * 2.0, lh,
                 FontSize(displayWidth, displayHeight), BoxPadding + 5.0, BoxPadding + lh)
  }

  /** Every call the snapshot makes once the image has loaded, in order. */
  function StretchPlan(img: Image, ds: seq<Detection>, displayWidth: real, displayHeight: real): seq<Cmd>
    requires img.naturalWidth > 0 && img.naturalHeight > 0
  {
    [DrawImageScaled(img, Rect(0.0, 0.0, displayWidth, displayHeight))]
    + DetectionsCmds(ds, StretchTransform(img, displayWidth, displayHeight), StretchStyle(displayWidth, displayHeight))
    + LegendCmds(Tally(ds), StretchLegend(displayWidth, displayHeight))
  }

  /**
   * One pass of the box loop issues exactly the four calls the plan has for
   * that detection, given the corner and size it computes for the box.
   * It only links the loop's local expressions to the plan; it states no
   * property of its own.
   */
  lemma StretchStep(d: Detection, b: BBox, scaleX: real, scaleY: real, displayWidth: real, displayHeight: real,
                    x: real, y: real, w: real, h: real)
    requires b == d.bbox
    requires x == b.x1 * scaleX && y == b.y1 * scaleY
    requires w == (b.x2 - b.x1) * scaleX && h == (b.y2 - b.y1) * scaleY
    ensures DetectionCmds(d, Transform(scaleX, scaleY, 0.0, 0.0), StretchStyle(displayWidth, displayHeight))
      == [SetLineWidth(BoxLineWidth), StrokeRect(Rect(x, y, w, h)),
          SetFont(Max(displayWidth, displayHeight) * 0.02), FillText(LabelText(d), x + 5.0, y - 5.0)]
  {
    hide LabelText;
    MapBoxSpelled(b, scaleX, scaleY, 0.0, 0.0);
    var c := DetectionCmds(d, Transform(scaleX, scaleY, 0.0, 0.0), StretchStyle(displayWidth, displayHeight));
    var want := [SetLineWidth(BoxLineWidth), StrokeRect(Rect(x, y, w, h)),
                 SetFont(Max(displayWidth, displayHeight) * 0.02), FillText(LabelText(d), x + 5.0, y - 5.0)];
    assert c[0] == want[0] && c[1] == want[1] && c[2] == want[2] && c[3] == want[3];
    SameFour(c, want);
  }

  /** The legend as the snapshot draws it: the panel, the font, then one line per entry from `10 + lineHeight` on. */
  lemma StretchLegendCmds(t: seq<Entry>, displayWidth: real, displayHeight: real,
                          lineHeight: real, boxHeight: real, yOffset: real)
    requires lineHeight == Max(displayWidth, displayHeight) * 0.025
    requires boxHeight == |t| as real * lineHeight + BoxPadding * 2.0
    requires yOffset == BoxPadding + lineHeight
    ensures LegendCmds(t, StretchLegend(displayWidth, displayHeight))
      == [FillRect(Rect(BoxPadding, BoxPadding, LegendBoxWidth, boxHeight)),
          SetFont(Max(displayWidth, displayHeight) * 0.02)]
         + LegendLines(t, BoxPadding + 5.0, yOffset, lineHeight)
  {
    hide LegendLines;
    var l := StretchLegend(displayWidth, displayHeight);
    assert l.lineHeight == lineHeight && l.firstBaseline == yOffset && l.textX == BoxPadding + 5.0;
    var panel := LegendPanel(t, l);
    assert panel[0] == FillRect(Rect(BoxPadding, BoxPadding, LegendBoxWidth, boxHeight));
    assert panel[1] == SetFont(Max(displayWidth, displayHeight) * 0.02);
  }

  /**
   * The body of the promise. A decode failure never fires `onload`, and a
   * missing 2D context returns before resolving: both leave it pending.
   * The source creates its canvas inside `onload`; here the caller passes
   * one in. Nothing observable differs: on a decode failure the canvas is
   * left as it was, and otherwise both sizes are assigned, which clears
   * whatever it held, before anything is drawn.
   */
  method StretchSnapshot(decoded: Option<Image>, ds: seq<Detection>, displayWidth: real, displayHeight: real,
                         canvas: Canvas, ctx: Context2D?) returns (out: Outcome)
    requires ctx != null ==> ctx.canvas == canvas
    requires decoded.Some? ==> decoded.value.naturalWidth > 0 && decoded.value.naturalHeight > 0
    requires PlainLabels(ds)
    modifies canvas
    ensures decoded.None? ==> out == Pending && unchanged(canvas)
    ensures decoded.Some? ==>
      canvas.width == CanvasDimension(displayWidth, DefaultWidth)
      && canvas.height == CanvasDimension(displayHeight, DefaultHeight)
    ensures decoded.Some? && ctx == null ==> out == Pending && canvas.log == []
    ensures decoded.Some? && ctx != null ==>
      canvas.log == StretchPlan(decoded.value, ds, displayWidth, displayHeight)
      && out == Resolved(Snapshot(canvas.width, canvas.height, canvas.log))
  {
    hide CanvasDimension, StretchTransform, DetectionsCmds, DetectionCmds, LegendCmds, Tally, StretchStyle, StretchLegend,
         MapBox, LabelText;
    if decoded.None? {
      return Pending;
    }
    var img := decoded.value;
    canvas.SetWidth(displayWidth);
    canvas.SetHeight(displayHeight);
    if ctx == null {
      return Pending;
    }
    ctx.DrawImageScaled(img, 0.0, 0.0, displayWidth, displayHeight);

    var scaleX := displayWidth / img.naturalWidth as real;
    var scaleY := displayHeight / img.naturalHeight as real;
    var classCount := CountClasses(ds);
    StretchComputed(img, displayWidth, displayHeight, scaleX, scaleY);
    DrawBoxes(ctx, ds, scaleX, scaleY, displayWidth, displayHeight);
    DrawLegend(ctx, classCount, displayWidth, displayHeight);
    out := Resolved(Snapshot(canvas.width, canvas.height, canvas.log));
  }

  /** The scales the snapshot computes are the stretch's. */
  lemma StretchComputed(img: Image, displayWidth: real, displayHeight: real, scaleX: real, scaleY: real)
    requires img.naturalWidth > 0 && img.naturalHeight > 0
    requires scaleX == displayWidth / img.naturalWidth as real && scaleY == displayHeight / img.naturalHeight as real
    ensures Transform(scaleX, scaleY, 0.0, 0.0) == StretchTransform(img, displayWidth, displayHeight)
  {
  }

  /** The detection loop: four calls per detection, boxes and label anchors scaled per axis. */
  method DrawBoxes(ctx: Context2D, ds: seq<Detection>, scaleX: real, scaleY: real,
                   displayWidth: real, displayHeight: real)
    modifies ctx.canvas`log
    ensures ctx.canvas.log
      == old(ctx.canvas.log) + DetectionsCmds(ds, Transform(scaleX, scaleY, 0.0, 0.0), StretchStyle(displayWidth, displayHeight))
  {
    ghost var tr, st := Transform(scaleX, scaleY, 0.0, 0.0), StretchStyle(displayWidth, displayHeight);
    hide MapBox, LabelText, DetectionsCmds, DetectionCmds, StretchStyle, FontSize, Max;
    ghost var start := ctx.canvas.log;
    for i := 0 to |ds|
      invariant ctx.canvas.log == start + DetectionsCmds(ds[..i], tr, st)
    {
      var b := ds[i].bbox;
      var x, y := b.x1 * scaleX, b.y1 * scaleY;
      var w, h := (b.x2 - b.x1) * scaleX, (b.y2 - b.y1) * scaleY;
      ctx.SetLineWidth(BoxLineWidth);
      ctx.StrokeRect(x, y, w, h);
      ctx.SetFont(Max(displayWidth, displayHeight) * 0.02);
      ctx.FillText(LabelText(ds[i]), x + 5.0, y - 5.0);
      StretchStep(ds[i], b, scaleX, scaleY, displayWidth, displayHeight, x, y, w, h);
      DetectionsCmdsSnoc(ds, tr, st, i);
    }
    assert ds[..|ds|] == ds;
  }

  /** The legend: the panel sized to the entries, the font, then one line per entry, each `lineHeight` below the last. */
  method DrawLegend(ctx: Context2D, classCount: seq<Entry>, displayWidth: real, displayHeight: real)
    modifies ctx.canvas`log
    ensures ctx.canvas.log == old(ctx.canvas.log) + LegendCmds(classCount, StretchLegend(displayWidth, displayHeight))
  {
    hide EntryText, Decimal, LegendLines, LegendCmds, LegendPanel, StretchLegend, FontSize, LineHeight, Max;
    ghost var start := ctx.canvas.log;
    var lineHeight := Max(displayWidth, displayHeight) * 0.025;
    var boxHeight := |classCount| as real * lineHeight + BoxPadding * 2.0;
    ctx.FillRect(BoxPadding, BoxPadding, LegendBoxWidth, boxHeight);
    ctx.SetFont(Max(displayWidth, displayHeight) * 0.02);
    ghost var panel := [FillRect(Rect(BoxPadding, BoxPadding, LegendBoxWidth, boxHeight)),
                        SetFont(Max(displayWidth, displayHeight) * 0.02)];
    assert ctx.canvas.log == start + panel;

    var yOffset := BoxPadding + lineHeight;
    ghost var panelEnd := ctx.canvas.log;
    ghost var allLines := LegendLines(classCount, BoxPadding + 5.0, yOffset, lineHeight);
    StretchLegendCmds(classCount, displayWidth, displayHeight, lineHeight, boxHeight, yOffset);
    for j := 0 to |classCount|
      invariant ctx.canvas.log + LegendLines(classCount[j..], BoxPadding + 5.0, yOffset, lineHeight) == panelEnd + allLines
    {
      LegendLinesStep(classCount, BoxPadding + 5.0, yOffset, lineHeight, j);
      ctx.FillText(EntryText(classCount[j]), BoxPadding + 5.0, yOffset);
      yOffset := yOffset + lineHeight;
    }
    assert classCount[|classCount|..] == [];
    assert ctx.canvas.log == start + panel + allLines;
  }

  // ---- What the plan draws ----

  /** The image first, stretched over the whole display; after the boxes, the legend panel sized to the classes. */
  lemma StretchPlanShape(img: Image, ds: seq<Detection>, displayWidth: real, displayHeight: real)
    requires img.naturalWidth > 0 && img.naturalHeight > 0
    ensures var plan := StretchPlan(img, ds, displayWidth, displayHeight);
      |plan| == 3 + 4 * |ds| + |ClassSet(ds)|
      && plan[0] == DrawImageScaled(img, Rect(0.0, 0.0, displayWidth, displayHeight))
      && plan[1 + 4 * |ds|] == FillRect(Rect(10.0, 10.0, 200.0,
           |ClassSet(ds)| as real * (0.025 * Max(displayWidth, displayHeight)) + 20.0))
      && plan[2 + 4 * |ds|] == SetFont(0.02 * Max(displayWidth, displayHeight))
  {
    hide LabelText, MapBox, DetectionCmds, StretchTransform, LegendLines, Tally;
    TallySize(ds);
    var l := StretchLegend(displayWidth, displayHeight);
    assert l.lineHeight == 0.025 * Max(displayWidth, displayHeight) && l.fontSize == 0.02 * Max(displayWidth, displayHeight);
    hide StretchLegend, LineHeight, FontSize, Max;
  }

  /**
   * Under the stretch a detection sets line width 3, strokes its box with
   * both corners scaled, sets the font to 2% of the larger display side and
   * labels the box 5 right of and 5 above its top-left corner.
   */
  lemma StretchDetectionCmds(img: Image, d: Detection, displayWidth: real, displayHeight: real)
    requires img.naturalWidth > 0 && img.naturalHeight > 0
    ensures var c := DetectionCmds(d, StretchTransform(img, displayWidth, displayHeight), StretchStyle(displayWidth, displayHeight));
      |c| == 4 && c[0] == SetLineWidth(3.0) && c[2] == SetFont(0.02 * Max(displayWidth, displayHeight))
    ensures var tr := StretchTransform(img, displayWidth, displayHeight);
      var b := d.bbox;
      DetectionCmds(d, tr, StretchStyle(displayWidth, displayHeight))[1]
        == StrokeRect(Rect(b.x1 * tr.scaleX, b.y1 * tr.scaleY, (b.x2 - b.x1) * tr.scaleX, (b.y2 - b.y1) * tr.scaleY))
    ensures var tr := StretchTransform(img, displayWidth, displayHeight);
      var b := d.bbox;
      DetectionCmds(d, tr, StretchStyle(displayWidth, displayHeight))[3]
        == FillText(LabelText(d), b.x1 * tr.scaleX + 5.0, b.y1 * tr.scaleY - 5.0)
  {
    hide MapBox, LabelText;
    var tr, b := StretchTransform(img, displayWidth, displayHeight), d.bbox;
    assert tr == Transform(tr.scaleX, tr.scaleY, 0.0, 0.0);
    StretchStep(d, b, tr.scaleX, tr.scaleY, displayWidth, displayHeight,
                b.x1 * tr.scaleX, b.y1 * tr.scaleY, (b.x2 - b.x1) * tr.scaleX, (b.y2 - b.y1) * tr.scaleY);
  }

  /** Detection `i` owns calls `1 + 4i .. 4 + 4i` of the plan: its box, then its label. */
  lemma StretchBoxAt(img: Image, ds: seq<Detection>, displayWidth: real, displayHeight: real, i: nat)
    requires img.naturalWidth > 0 && img.naturalHeight > 0
    requires i < |ds|
    ensures StretchPlan(img, ds, displayWidth, displayHeight)[1 + 4 * i .. 5 + 4 * i]
      == DetectionCmds(ds[i], StretchTransform(img, displayWidth, displayHeight), StretchStyle(displayWidth, displayHeight))
  {
    hide StretchTransform, StretchLegend, LegendCmds, Tally, DetectionCmds, MapBox, LabelText;
    var tr, st := StretchTransform(img, displayWidth, displayHeight), StretchStyle(displayWidth, displayHeight);
    var head := [DrawImageScaled(img, Rect(0.0, 0.0, displayWidth, displayHeight))];
    var boxes := DetectionsCmds(ds, tr, st);
    var tail := LegendCmds(Tally(ds), StretchLegend(displayWidth, displayHeight));
    DetectionsCmdsAt(ds, tr, st, i);
    MiddleSlice(head, boxes, tail, 4 * i, 4);
  }

  /** Legend line `j` reads `<class>: <occurrences>` at `(15, 10 + (j + 1) * lineHeight)`. */
  lemma StretchLegendLineAt(img: Image, ds: seq<Detection>, displayWidth: real, displayHeight: real, j: nat)
    requires img.naturalWidth > 0 && img.naturalHeight > 0
    requires j < |Tally(ds)|
    ensures var plan := StretchPlan(img, ds, displayWidth, displayHeight);
      var c := Tally(ds)[j].className;
      var lineHeight := 0.025 * Max(displayWidth, displayHeight);
      plan[3 + 4 * |ds| + j] == FillText(c + ": " + Decimal(Occurrences(ds, c)), 15.0, 10.0 + (j + 1) as real * lineHeight)
  {
    hide StretchTransform, DetectionsCmds, DetectionCmds, LabelText, MapBox, Tally, Decimal, LegendLines, Occurrences;
    var l := StretchLegend(displayWidth, displayHeight);
    var t := Tally(ds);
    var lines := LegendLines(t, l.textX, l.firstBaseline, l.lineHeight);
    assert StretchPlan(img, ds, displayWidth, displayHeight)[3 + 4 * |ds| + j] == LegendCmds(t, l)[2 + j];
    assert LegendCmds(t, l)[2 + j] == lines[j];
    assert lines[j] == FillText(EntryText(t[j]), l.textX, l.firstBaseline + j as real * l.lineHeight) by {
      LegendLinesAt(t, l.textX, l.firstBaseline, l.lineHeight, j);
    }
    assert t[j].count == Occurrences(ds, t[j].className) by {
      TallyCounts(ds);
    }
    assert l.lineHeight == 0.025 * Max(displayWidth, displayHeight);
    assert l.firstBaseline + j as real * l.lineHeight == 10.0 + (j + 1) as real * l.lineHeight;
  }

  /**
   * Exactly one stroke per detection, in input order; the texts are the
   * labels in input order, then one legend line per class.
   */
  lemma StretchDraws(img: Image, ds: seq<Detection>, displayWidth: real, displayHeight: real)
    requires img.naturalWidth > 0 && img.naturalHeight > 0
    ensures StrokedRects(StretchPlan(img, ds, displayWidth, displayHeight))
      == BoxRects(ds, StretchTransform(img, displayWidth, displayHeight))
    ensures FilledTexts(StretchPlan(img, ds, displayWidth, displayHeight))
      == LabelTexts(ds) + EntryTexts(Tally(ds))
  {
    hide StretchTransform, DetectionsCmds, DetectionCmds, LabelText, MapBox, BoxRects, LabelTexts, Tally, EntryText, EntryTexts, LegendCmds, StrokedRects, FilledTexts;
    var tr, st, l := StretchTransform(img, displayWidth, displayHeight), StretchStyle(displayWidth, displayHeight),
                     StretchLegend(displayWidth, displayHeight);
    var head := [DrawImageScaled(img, Rect(0.0, 0.0, displayWidth, displayHeight))];
    var boxes, legend := DetectionsCmds(ds, tr, st), LegendCmds(Tally(ds), l);
    assert StretchPlan(img, ds, displayWidth, displayHeight) == head + boxes + legend;
    hide StretchPlan;
    SingleDraws(head[0]);
    LegendDraws(Tally(ds), l);
    assert StrokedRects(head + boxes + legend) == StrokedRects(boxes) by {
      StrokedRectsAppend(head, boxes);
      StrokedRectsAppend(head + boxes, legend);
    }
    assert FilledTexts(head + boxes + legend) == FilledTexts(boxes) + EntryTexts(Tally(ds)) by {
      FilledTextsAppend(head, boxes);
      FilledTextsAppend(head + boxes, legend);
    }
    DetectionsStrokes(ds, tr, st);
    DetectionsTexts(ds, tr, st);
  }

  /** With no detections: the image, an empty panel 20 high, the font, and nothing else. */
  lemma StretchEmpty(img: Image, displayWidth: real, displayHeight: real)
    requires img.naturalWidth > 0 && img.naturalHeight > 0
    ensures StretchPlan(img, [], displayWidth, displayHeight)
      == [DrawImageScaled(img, Rect(0.0, 0.0, displayWidth, displayHeight)),
          FillRect(Rect(10.0, 10.0, 200.0, 20.0)),
          SetFont(0.02 * Max(displayWidth, displayHeight))]
  {
  }

  /** A box covering the whole source is stroked over the whole display. */
  lemma StretchFullBox(img: Image, displayWidth: real, displayHeight: real)
    requires img.naturalWidth > 0 && img.naturalHeight > 0
    ensures MapBox(BBox(0.0, 0.0, img.naturalWidth as real, img.naturalHeight as real),
                   StretchTransform(img, displayWidth, displayHeight))
      == Rect(0.0, 0.0, displayWidth, displayHeight)
  {
  }

  /** A box inside the source is stroked inside the display. */
  lemma StretchBoxInside(img: Image, b: BBox, displayWidth: real, displayHeight: real)
    requires img.naturalWidth > 0 && img.naturalHeight > 0
    requires displayWidth >= 0.0 && displayHeight >= 0.0
    requires 0.0 <= b.x1 <= b.x2 <= img.naturalWidth as real && 0.0 <= b.y1 <= b.y2 <= img.naturalHeight as real
    ensures var r := MapBox(b, StretchTransform(img, displayWidth, displayHeight));
      0.0 <= r.x && r.x + r.w <= displayWidth && 0.0 <= r.y && r.y + r.h <= displayHeight
  {
    var tr := StretchTransform(img, displayWidth, displayHeight);
    MapBoxInside(b, tr, img.naturalWidth as real, img.naturalHeight as real);
  }

  /** A 1000 by 800 photo shown at 500 by 400: the box (100, 100)-(300, 300) lands at (50, 50)-(150, 150). */
  lemma StretchExample()
    ensures var plan := StretchPlan(Image(1000, 800), [Detection("defect", 0.87, BBox(100.0, 100.0, 300.0, 300.0))], 500.0, 400.0);
      plan[2] == StrokeRect(Rect(50.0, 50.0, 100.0, 100.0))
      && plan[4] == FillText("defect (87%)", 55.0, 45.0)
  {
    var img, ds := Image(1000, 800), [Detection("defect", 0.87, BBox(100.0, 100.0, 300.0, 300.0))];
    assert StretchTransform(img, 500.0, 400.0) == Transform(0.5, 0.5, 0.0, 0.0);
    assert LabelText(ds[0]) == "defect (87%)" by {
      assert NearestInt(87.0) == 87;
      assert Decimal(87) == "87";
    }
    hide LabelText, StretchTransform, StretchPlan, DetectionCmds, MapBox;
    StretchBoxAt(img, ds, 500.0, 400.0, 0);
    StretchStep(ds[0], ds[0].bbox, 0.5, 0.5, 500.0, 400.0, 50.0, 50.0, 100.0, 100.0);
  }
}
