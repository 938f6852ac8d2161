// `BoundingBoxOverlay` of components/BoundingBoxOverlay.tsx: the live
// overlay drawn over a video or photo element. The canvas takes its parent's
// on-screen size, the frame is fitted into it with one scale for both axes
// and centred, and a legend at fixed positions lists each class with its
// count, its panel growing by 20 pixels per class.
module BoundingBoxOverlay {
  import opened Detections
  import opened Format
  import opened ClassTally
  import opened Canvas2D
  import opened Layout

  /** The parent element's box as `getBoundingClientRect` reports it; only its size is used. */
  datatype Size = Size(width: real, height: real)

  /** `Math.min`. */
  function Min(a: real, b: real): real
  {
    if a <= b then a else b
  }

  /**
   * Fit a `width` by `height` frame into the canvas: the smaller of the two
   * ratios scales both axes, and the room left over is split evenly on both
   * sides.
   */
  function AspectFit(canvasWidth: real, canvasHeight: real, width: real, height: real): (tr: Transform)
    requires width > 0.0 && height > 0.0
    ensures tr.scaleX == tr.scaleY
    ensures 2.0 * tr.offsetX + width * tr.scaleX == canvasWidth
    ensures 2.0 * tr.offsetY + height * tr.scaleY == canvasHeight
  {
    var scale := Min(canvasWidth / width, canvasHeight / height);
    Transform(scale, scale, (canvasWidth - width * scale) / 2.0, (canvasHeight - height * scale) / 2.0)
  }

  /** Line width 3, a 16px font, labels 2 right of the box corner. */
  const OverlayStyle: BoxStyle := BoxStyle(3.0, 16.0, 2.0)

  /** Panel at (10, 10), 150 wide, 20 per class plus 10; lines at x = 20 from baseline 30 on. */
  const OverlayLegend: LegendLayout := LegendLayout(10.0, 10.0, 150.0, 10.0, 20.0, 16.0, 20.0, 30.0)

  /** Every call one run of the effect makes once canvas, context and parent exist, in order. */
  function OverlayPlan(ds: seq<Detection>, canvasWidth: nat, canvasHeight: nat, width: real, height: real): seq<Cmd>
    requires width > 0.0 && height > 0.0
  {
    [ClearRect(Rect(0.0, 0.0, canvasWidth as real, canvasHeight as real))]
    + DetectionsCmds(ds, AspectFit(canvasWidth as real, canvasHeight as real, width, height), OverlayStyle)
    + LegendCmds(Tally(ds), OverlayLegend)
  }

  /**
   * One pass of the box loop issues exactly the four calls the plan has for
   * that detection, given the corner and size it computes for the box.
   * It only links the loop's local expressions to the plan; it states no
   * property of its own.
   */
  lemma OverlayStep(d: Detection, b: BBox, scale: real, offsetX: real, offsetY: real, x: real, y: real, w: real, h: real)
    requires b == d.bbox
    requires x == offsetX + b.x1 * scale && y == offsetY + b.y1 * scale
    requires w == (b.x2 - b.x1) * scale && h == (b.y2 - b.y1) * scale
    ensures DetectionCmds(d, Transform(scale, scale, offsetX, offsetY), OverlayStyle)
      == [SetLineWidth(3.0), StrokeRect(Rect(x, y, w, h)), SetFont(16.0), FillText(LabelText(d), x + 2.0, y - 5.0)]
  {
    hide LabelText;
    MapBoxSpelled(b, scale, scale, offsetX, offsetY);
    var c := DetectionCmds(d, Transform(scale, scale, offsetX, offsetY), OverlayStyle);
    var want := [SetLineWidth(3.0), StrokeRect(Rect(x, y, w, h)), SetFont(16.0), FillText(LabelText(d), x + 2.0, y - 5.0)];
    assert c[0] == want[0] && c[1] == want[1] && c[2] == want[2] && c[3] == want[3];
    SameFour(c, want);
  }

  /** The legend as the effect draws it: the panel, the font, then one line per entry from baseline 30 on. */
  lemma OverlayLegendCmds(t: seq<Entry>, boxHeight: real)
    requires boxHeight == |t| as real * 20.0 + 10.0
    ensures LegendCmds(t, OverlayLegend)
      == [FillRect(Rect(10.0, 10.0, 150.0, boxHeight)), SetFont(16.0)] + LegendLines(t, 20.0, 30.0, 20.0)
  {
    hide LegendLines;
    var panel := LegendPanel(t, OverlayLegend);
    assert panel[0] == FillRect(Rect(10.0, 10.0, 150.0, boxHeight));
  }

  /**
   * The effect. It returns without touching anything when the canvas is not
   * mounted, has no 2D context or has no parent element; otherwise it sizes
   * the canvas to the parent, clears it and draws the plan. The tally is the
   * memoised `classCount`, computed during render.
   */
  method DrawOverlay(ds: seq<Detection>, width: real, height: real,
                     canvas: Canvas?, ctx: Context2D?, parent: Option<Size>)
    requires ctx != null ==> canvas != null && ctx.canvas == canvas
    requires width > 0.0 && height > 0.0
    requires PlainLabels(ds)
    modifies canvas
    ensures canvas != null && (ctx == null || parent.None?) ==> unchanged(canvas)
    ensures ctx != null && parent.Some? ==>
      canvas.width == CanvasDimension(parent.value.width, DefaultWidth)
      && canvas.height == CanvasDimension(parent.value.height, DefaultHeight)
      && canvas.log == OverlayPlan(ds, canvas.width, canvas.height, width, height)
  {
    hide CanvasDimension, Min, AspectFit, DetectionsCmds, DetectionCmds, LegendCmds, Tally, MapBox, LabelText;
    var classCount := CountClasses(ds);
    if canvas == null || ctx == null || parent.None? {
      return;
    }
    var rect := parent.value;
    canvas.SetWidth(rect.width);
    canvas.SetHeight(rect.height);
    ctx.ClearRect(0.0, 0.0, canvas.width as real, canvas.height as real);

    var scale := Min(canvas.width as real / width, canvas.height as real / height);
    var offsetX := (canvas.width as real - width * scale) / 2.0;
    var offsetY := (canvas.height as real - height * scale) / 2.0;
    DrawFittedBoxes(ctx, ds, scale, offsetX, offsetY);
    DrawCounts(ctx, classCount);
    FitComputed(canvas.width as real, canvas.height as real, width, height, scale, offsetX, offsetY);
  }

  /** The scale and margins the effect computes are the fit's. */
  lemma FitComputed(canvasWidth: real, canvasHeight: real, width: real, height: real,
                    scale: real, offsetX: real, offsetY: real)
    requires width > 0.0 && height > 0.0
    requires scale == Min(canvasWidth / width, canvasHeight / height)
    requires offsetX == (canvasWidth - width * scale) / 2.0 && offsetY == (canvasHeight - height * scale) / 2.0
    ensures Transform(scale, scale, offsetX, offsetY) == AspectFit(canvasWidth, canvasHeight, width, height)
  {
  }

  /** The `detections.forEach`: four calls per detection, through the fitted scale and offsets. */
  method DrawFittedBoxes(ctx: Context2D, ds: seq<Detection>, scale: real, offsetX: real, offsetY: real)
    modifies ctx.canvas`log
    ensures ctx.canvas.log == old(ctx.canvas.log) + DetectionsCmds(ds, Transform(scale, scale, offsetX, offsetY), OverlayStyle)
  {
    ghost var tr := Transform(scale, scale, offsetX, offsetY);
    hide MapBox, LabelText, DetectionsCmds, DetectionCmds;
    ghost var start := ctx.canvas.log;
    for i := 0 to |ds|
      invariant ctx.canvas.log == start + DetectionsCmds(ds[..i], tr, OverlayStyle)
    {
      var b := ds[i].bbox;
      var x, y := offsetX + b.x1 * scale, offsetY + b.y1 * scale;
      var w, h := (b.x2 - b.x1) * scale, (b.y2 - b.y1) * scale;
      ctx.SetLineWidth(3.0);
      ctx.StrokeRect(x, y, w, h);
      ctx.SetFont(16.0);
      ctx.FillText(LabelText(ds[i]), x + 2.0, y - 5.0);
      OverlayStep(ds[i], b, scale, offsetX, offsetY, x, y, w, h);
      DetectionsCmdsSnoc(ds, tr, OverlayStyle, i);
    }
    assert ds[..|ds|] == ds;
  }

  /** The class counts: the panel, the font, then one line per entry, 20 below the last. */
  method DrawCounts(ctx: Context2D, classCount: seq<Entry>)
    modifies ctx.canvas`log
    ensures ctx.canvas.log == old(ctx.canvas.log) + LegendCmds(classCount, OverlayLegend)
  {
    hide EntryText, Decimal, LegendLines, LegendCmds, LegendPanel;
    ghost var start := ctx.canvas.log;
    var boxHeight := |classCount| as real * 20.0 + 10.0;
    ctx.FillRect(10.0, 10.0, 150.0, boxHeight);
    ctx.SetFont(16.0);
    ghost var panel := [FillRect(Rect(10.0, 10.0, 150.0, boxHeight)), SetFont(16.0)];
    assert ctx.canvas.log == start + panel;

    var yOffset := 30.0;
    ghost var panelEnd := ctx.canvas.log;
    ghost var allLines := LegendLines(classCount, 20.0, 30.0, 20.0);
    OverlayLegendCmds(classCount, boxHeight);
    for j := 0 to |classCount|
      invariant ctx.canvas.log + LegendLines(classCount[j..], 20.0, yOffset, 20.0) == panelEnd + allLines
    {
      LegendLinesStep(classCount, 20.0, yOffset, 20.0, j);
      ctx.FillText(EntryText(classCount[j]), 20.0, yOffset);
      yOffset := yOffset + 20.0;
    }
    assert classCount[|classCount|..] == [];
    assert ctx.canvas.log == start + panel + allLines;
  }

  // ---- The fit ----

  /**
   * One scale for both axes; the frame fits inside the canvas and fills it
   * along at least one side; the margins are equal on both sides, never
   * negative, and zero along the side the frame fills.
   */
  lemma AspectFitFits(canvasWidth: real, canvasHeight: real, width: real, height: real)
    requires width > 0.0 && height > 0.0
    requires canvasWidth >= 0.0 && canvasHeight >= 0.0
    ensures var tr := AspectFit(canvasWidth, canvasHeight, width, height);
      tr.scaleX == tr.scaleY >= 0.0
      && width * tr.scaleX <= canvasWidth && height * tr.scaleY <= canvasHeight
      && (width * tr.scaleX == canvasWidth || height * tr.scaleY == canvasHeight)
    ensures var tr := AspectFit(canvasWidth, canvasHeight, width, height);
      0.0 <= tr.offsetX && 2.0 * tr.offsetX + width * tr.scaleX == canvasWidth
      && 0.0 <= tr.offsetY && 2.0 * tr.offsetY + height * tr.scaleY == canvasHeight
    ensures var tr := AspectFit(canvasWidth, canvasHeight, width, height);
      tr.offsetX == 0.0 || tr.offsetY == 0.0
  {
    var sx, sy := canvasWidth / width, canvasHeight / height;
    var s := Min(sx, sy);
    assert width * sx == canvasWidth && height * sy == canvasHeight;
    assert width * s <= canvasWidth by {
      MulMono(s, sx, width);
    }
    assert height * s <= canvasHeight by {
      MulMono(s, sy, height);
    }
    assert s >= 0.0;
  }

  /** A box inside the frame is stroked inside the canvas. */
  lemma OverlayBoxInside(b: BBox, canvasWidth: real, canvasHeight: real, width: real, height: real)
    requires width > 0.0 && height > 0.0
    requires canvasWidth >= 0.0 && canvasHeight >= 0.0
    requires 0.0 <= b.x1 <= b.x2 <= width && 0.0 <= b.y1 <= b.y2 <= height
    ensures var r := MapBox(b, AspectFit(canvasWidth, canvasHeight, width, height));
      0.0 <= r.x && r.x + r.w <= canvasWidth && 0.0 <= r.y && r.y + r.h <= canvasHeight
  {
    var tr := AspectFit(canvasWidth, canvasHeight, width, height);
    AspectFitFits(canvasWidth, canvasHeight, width, height);
    MapBoxInside(b, tr, width, height);
  }

  /** The stroked box keeps the detection's proportions: width over height is unchanged. */
  lemma OverlayKeepsAspect(b: BBox, canvasWidth: real, canvasHeight: real, width: real, height: real)
    requires width > 0.0 && height > 0.0
    ensures var r := MapBox(b, AspectFit(canvasWidth, canvasHeight, width, height));
      r.w * (b.y2 - b.y1) == r.h * (b.x2 - b.x1)
  {
    var s := AspectFit(canvasWidth, canvasHeight, width, height).scaleX;
    assert (b.x2 - b.x1) * s * (b.y2 - b.y1) == (b.y2 - b.y1) * s * (b.x2 - b.x1);
  }

  // ---- What the plan draws ----

  /** A clear of the whole canvas first; after the boxes, the panel sized to the classes and the 16px font. */
  lemma OverlayPlanShape(ds: seq<Detection>, canvasWidth: nat, canvasHeight: nat, width: real, height: real)
    requires width > 0.0 && height > 0.0
    ensures var plan := OverlayPlan(ds, canvasWidth, canvasHeight, width, height);
      |plan| == 3 + 4 * |ds| + |ClassSet(ds)|
      && plan[0] == ClearRect(Rect(0.0, 0.0, canvasWidth as real, canvasHeight as real))
      && plan[1 + 4 * |ds|] == FillRect(Rect(10.0, 10.0, 150.0, |ClassSet(ds)| as real * 20.0 + 10.0))
      && plan[2 + 4 * |ds|] == SetFont(16.0)
  {
    hide LabelText, MapBox, AspectFit;
    TallySize(ds);
  }

  /**
   * Under the fit a detection sets line width 3, strokes its box mapped by
   * the common scale and the margins, sets the 16px font and labels the box
   * 2 right of and 5 above its top-left corner.
   */
  lemma OverlayDetectionCmds(d: Detection, canvasWidth: real, canvasHeight: real, width: real, height: real)
    requires width > 0.0 && height > 0.0
    ensures var c := DetectionCmds(d, AspectFit(canvasWidth, canvasHeight, width, height), OverlayStyle);
      |c| == 4 && c[0] == SetLineWidth(3.0) && c[2] == SetFont(16.0)
    ensures var tr := AspectFit(canvasWidth, canvasHeight, width, height);
      var b := d.bbox;
      DetectionCmds(d, tr, OverlayStyle)[1]
        == StrokeRect(Rect(tr.offsetX + b.x1 * tr.scaleX, tr.offsetY + b.y1 * tr.scaleX,
                           (b.x2 - b.x1) * tr.scaleX, (b.y2 - b.y1) * tr.scaleX))
    ensures var tr := AspectFit(canvasWidth, canvasHeight, width, height);
      var b := d.bbox;
      DetectionCmds(d, tr, OverlayStyle)[3]
        == FillText(LabelText(d), tr.offsetX + b.x1 * tr.scaleX + 2.0, tr.offsetY + b.y1 * tr.scaleX - 5.0)
  {
    hide LabelText;
    var tr, b := AspectFit(canvasWidth, canvasHeight, width, height), d.bbox;
    assert tr == Transform(tr.scaleX, tr.scaleX, tr.offsetX, tr.offsetY);
    hide AspectFit;
    OverlayStep(d, b, tr.scaleX, tr.offsetX, tr.offsetY, tr.offsetX + b.x1 * tr.scaleX, tr.offsetY + b.y1 * tr.scaleX,
                (b.x2 - b.x1) * tr.scaleX, (b.y2 - b.y1) * tr.scaleX);
  }

  /** Detection `i` owns calls `1 + 4i .. 4 + 4i` of the plan: its box, then its label. */
  lemma OverlayBoxAt(ds: seq<Detection>, canvasWidth: nat, canvasHeight: nat, width: real, height: real, i: nat)
    requires width > 0.0 && height > 0.0
    requires i < |ds|
    ensures OverlayPlan(ds, canvasWidth, canvasHeight, width, height)[1 + 4 * i .. 5 + 4 * i]
      == DetectionCmds(ds[i], AspectFit(canvasWidth as real, canvasHeight as real, width, height), OverlayStyle)
  {
    hide AspectFit, LegendCmds, Tally, DetectionCmds, MapBox, LabelText;
    var tr := AspectFit(canvasWidth as real, canvasHeight as real, width, height);
    var head := [ClearRect(Rect(0.0, 0.0, canvasWidth as real, canvasHeight as real))];
    var boxes := DetectionsCmds(ds, tr, OverlayStyle);
    var tail := LegendCmds(Tally(ds), OverlayLegend);
    DetectionsCmdsAt(ds, tr, OverlayStyle, i);
    MiddleSlice(head, boxes, tail, 4 * i, 4);
  }

  /** Legend line `j` reads `<class>: <occurrences>` at `(20, 30 + 20j)`. */
  lemma OverlayLegendLineAt(ds: seq<Detection>, canvasWidth: nat, canvasHeight: nat, width: real, height: real, j: nat)
    requires width > 0.0 && height > 0.0
    requires j < |Tally(ds)|
    ensures var plan := OverlayPlan(ds, canvasWidth, canvasHeight, width, height);
      var c := Tally(ds)[j].className;
      plan[3 + 4 * |ds| + j] == FillText(c + ": " + Decimal(Occurrences(ds, c)), 20.0, 30.0 + j as real * 20.0)
  {
    hide AspectFit, DetectionsCmds, DetectionCmds, LabelText, MapBox, Tally, Decimal, LegendLines, Occurrences;
    var l := OverlayLegend;
    var t := Tally(ds);
    var lines := LegendLines(t, l.textX, l.firstBaseline, l.lineHeight);
    assert OverlayPlan(ds, canvasWidth, canvasHeight, width, height)[3 + 4 * |ds| + j] == LegendCmds(t, l)[2 + j];
    assert LegendCmds(t, l)[2 + j] == lines[j];
    assert lines[j] == FillText(EntryText(t[j]), 20.0, 30.0 + j as real * 20.0) by {
      LegendLinesAt(t, l.textX, l.firstBaseline, l.lineHeight, j);
    }
    assert t[j].count == Occurrences(ds, t[j].className) by {
      TallyCounts(ds);
    }
  }

  /**
   * Exactly one stroke per detection, in input order; the texts are the
   * labels in input order, then one legend line per class.
   */
  lemma OverlayDraws(ds: seq<Detection>, canvasWidth: nat, canvasHeight: nat, width: real, height: real)
    requires width > 0.0 && height > 0.0
    ensures StrokedRects(OverlayPlan(ds, canvasWidth, canvasHeight, width, height))
      == BoxRects(ds, AspectFit(canvasWidth as real, canvasHeight as real, width, height))
    ensures FilledTexts(OverlayPlan(ds, canvasWidth, canvasHeight, width, height))
      == LabelTexts(ds) + EntryTexts(Tally(ds))
  {
    hide AspectFit, DetectionsCmds, DetectionCmds, LabelText, MapBox, BoxRects, LabelTexts, Tally, EntryText, EntryTexts, LegendCmds, StrokedRects, FilledTexts;
    var tr := AspectFit(canvasWidth as real, canvasHeight as real, width, height);
    var head := [ClearRect(Rect(0.0, 0.0, canvasWidth as real, canvasHeight as real))];
    var boxes, legend := DetectionsCmds(ds, tr, OverlayStyle), LegendCmds(Tally(ds), OverlayLegend);
    var plan := OverlayPlan(ds, canvasWidth, canvasHeight, width, height);
    assert plan == head + boxes + legend;
    hide OverlayPlan;
    assert StrokedRects(plan) == BoxRects(ds, tr) by {
      SingleDraws(head[0]);
      StrokedRectsAppend(head, boxes);
      StrokedRectsAppend(head + boxes, legend);
      LegendDraws(Tally(ds), OverlayLegend);
      DetectionsStrokes(ds, tr, OverlayStyle);
    }
    assert FilledTexts(plan) == LabelTexts(ds) + EntryTexts(Tally(ds)) by {
      SingleDraws(head[0]);
      FilledTextsAppend(head, boxes);
      FilledTextsAppend(head + boxes, legend);
      LegendDraws(Tally(ds), OverlayLegend);
      DetectionsTexts(ds, tr, OverlayStyle);
    }
  }

  /** A 1000 by 500 frame on an 800 by 800 canvas: scale 0.8, a 200 margin above and below. */
  lemma OverlayExample()
    ensures AspectFit(800.0, 800.0, 1000.0, 500.0) == Transform(0.8, 0.8, 0.0, 200.0)
    ensures var plan := OverlayPlan([Detection("crack", 0.5, BBox(100.0, 100.0, 300.0, 300.0))], 800, 800, 1000.0, 500.0);
      plan[2] == StrokeRect(Rect(80.0, 280.0, 160.0, 160.0))
      && plan[4] == FillText("crack (50%)", 82.0, 275.0)
  {
    var ds := [Detection("crack", 0.5, BBox(100.0, 100.0, 300.0, 300.0))];
    assert AspectFit(800.0, 800.0, 1000.0, 500.0) == Transform(0.8, 0.8, 0.0, 200.0);
    assert LabelText(ds[0]) == "crack (50%)" by {
      assert NearestInt(50.0) == 50;
      assert Decimal(50) == "50";
    }
    hide LabelText;
    OverlayBoxAt(ds, 800, 800, 1000.0, 500.0, 0);
  }
}
