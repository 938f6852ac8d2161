// The `generateImageWithBBoxes` helper inside app/camera/page.tsx: the
// annotated snapshot at the photo's natural size. The canvas takes the
// image's own dimensions, boxes are stroked at their pixel coordinates, line
// width and font follow the larger canvas side, and there is no legend.
module CameraPage {
  import opened Detections
  import opened Format
  import opened Canvas2D
  import opened Layout

  /** Boxes need no mapping: the canvas is the image. */
  const Identity: Transform := Transform(1.0, 1.0, 0.0, 0.0)

  /** Line width 0.3% and font 2% of the larger canvas side; labels 5 right of the box corner. */
  function NaturalStyle(canvasWidth: nat, canvasHeight: nat): BoxStyle
  {
    var m := Max(canvasWidth as real, canvasHeight as real);
    BoxStyle(m * 0.003, m * 0.02, 5.0)
  }

  /** Every call the snapshot makes once the image has loaded, in order. */
  function NaturalPlan(img: Image, ds: seq<Detection>, canvasWidth: nat, canvasHeight: nat): seq<Cmd>
  {
    [DrawImage(img, 0.0, 0.0)] + DetectionsCmds(ds, Identity, NaturalStyle(canvasWidth, canvasHeight))
  }

  /** Under the identity a box is stroked from its own corner with its own size. */
  lemma IdentityMapBox(b: BBox)
    ensures MapBox(b, Identity) == Rect(b.x1, b.y1, b.x2 - b.x1, b.y2 - b.y1)
  {
    MapBoxSpelled(b, 1.0, 1.0, 0.0, 0.0);
  }

  /**
   * A detection at natural size: the line width, its box at its pixel
   * coordinates, the font, and its label 5 right of and 5 above the corner.
   */
  lemma NaturalStep(d: Detection, canvasWidth: nat, canvasHeight: nat)
    ensures DetectionCmds(d, Identity, NaturalStyle(canvasWidth, canvasHeight))
      == [SetLineWidth(Max(canvasWidth as real, canvasHeight as real) * 0.003),
          StrokeRect(Rect(d.bbox.x1, d.bbox.y1, d.bbox.x2 - d.bbox.x1, d.bbox.y2 - d.bbox.y1)),
          SetFont(Max(canvasWidth as real, canvasHeight as real) * 0.02),
          FillText(LabelText(d), d.bbox.x1 + 5.0, d.bbox.y1 - 5.0)]
  {
    hide LabelText;
    var r := Rect(d.bbox.x1, d.bbox.y1, d.bbox.x2 - d.bbox.x1, d.bbox.y2 - d.bbox.y1);
    IdentityMapBox(d.bbox);
    var m := Max(canvasWidth as real, canvasHeight as real);
    var c := DetectionCmds(d, Identity, NaturalStyle(canvasWidth, canvasHeight));
    var want := [SetLineWidth(m * 0.003), StrokeRect(r), SetFont(m * 0.02), FillText(LabelText(d), r.x + 5.0, r.y - 5.0)];
    assert c[0] == want[0] && c[1] == want[1] && c[2] == want[2] && c[3] == want[3];
    SameFour(c, want);
  }

  /**
   * The body of the promise. A decode failure never fires `onload`, and a
   * missing 2D context returns before resolving: both leave it pending.
   * The source creates its canvas inside `onload`; here the caller passes
   * one in. Nothing observable differs: on a decode failure the canvas is
   * left as it was, and otherwise both sizes are assigned, which clears
   * whatever it held, before anything is drawn.
   */
  method NaturalSnapshot(decoded: Option<Image>, ds: seq<Detection>, canvas: Canvas, ctx: Context2D?)
    returns (out: Outcome)
    requires ctx != null ==> ctx.canvas == canvas
    modifies canvas
    ensures decoded.None? ==> out == Pending && unchanged(canvas)
    ensures decoded.Some? ==>
      canvas.width == CanvasDimension(decoded.value.naturalWidth as real, DefaultWidth)
      && canvas.height == CanvasDimension(decoded.value.naturalHeight as real, DefaultHeight)
    ensures decoded.Some? && ctx == null ==> out == Pending && canvas.log == []
    ensures decoded.Some? && ctx != null ==>
      canvas.log == NaturalPlan(decoded.value, ds, canvas.width, canvas.height)
      && out == Resolved(Snapshot(canvas.width, canvas.height, canvas.log))
  {
    hide CanvasDimension, DetectionsCmds, DetectionCmds, NaturalStyle, MapBox, LabelText;
    if decoded.None? {
      return Pending;
    }
    var img := decoded.value;
    canvas.SetWidth(img.naturalWidth as real);
    canvas.SetHeight(img.naturalHeight as real);
    if ctx == null {
      return Pending;
    }
    ctx.DrawImage(img, 0.0, 0.0);
    DrawNaturalBoxes(ctx, ds, canvas.width, canvas.height);
    out := Resolved(Snapshot(canvas.width, canvas.height, canvas.log));
  }

  /**
   * The `detections.forEach`: four calls per detection, sized from the larger
   * side of the canvas, whose size the caller passes in (the loop only
   * appends to the log, so that size is the same on every pass).
   */
  method DrawNaturalBoxes(ctx: Context2D, ds: seq<Detection>, canvasWidth: nat, canvasHeight: nat)
    modifies ctx.canvas`log
    ensures ctx.canvas.log
      == old(ctx.canvas.log) + DetectionsCmds(ds, Identity, NaturalStyle(canvasWidth, canvasHeight))
  {
    ghost var st := NaturalStyle(canvasWidth, canvasHeight);
    hide MapBox, LabelText, DetectionsCmds, DetectionCmds, NaturalStyle;
    ghost var start := ctx.canvas.log;
    for i := 0 to |ds|
      invariant ctx.canvas.log == start + DetectionsCmds(ds[..i], Identity, st)
    {
      ghost var before := ctx.canvas.log;
      var b := ds[i].bbox;
      var side := Max(canvasWidth as real, canvasHeight as real);
      ctx.SetLineWidth(side * 0.003);
      ctx.StrokeRect(b.x1, b.y1, b.x2 - b.x1, b.y2 - b.y1);
      ctx.SetFont(side * 0.02);
      ctx.FillText(LabelText(ds[i]), b.x1 + 5.0, b.y1 - 5.0);
      ghost var four := [SetLineWidth(side * 0.003),
                         StrokeRect(Rect(b.x1, b.y1, b.x2 - b.x1, b.y2 - b.y1)),
                         SetFont(side * 0.02),
                         FillText(LabelText(ds[i]), b.x1 + 5.0, b.y1 - 5.0)];
      assert ctx.canvas.log == before + four;
      NaturalStep(ds[i], canvasWidth, canvasHeight);
      ghost var planned := DetectionCmds(ds[i], Identity, st);
      assert planned[0] == four[0] && planned[1] == four[1] && planned[2] == four[2] && planned[3] == four[3];
      SameFour(planned, four);
      DetectionsCmdsSnoc(ds, Identity, st, i);
    }
    assert ds[..|ds|] == ds;
  }

  // ---- What the plan draws ----

  /** A photo no larger than the canvas limit gets a canvas of exactly its own size. */
  lemma NaturalCanvasSize(img: Image)
    requires img.naturalWidth <= MaxDimension && img.naturalHeight <= MaxDimension
    ensures CanvasDimension(img.naturalWidth as real, DefaultWidth) == img.naturalWidth
    ensures CanvasDimension(img.naturalHeight as real, DefaultHeight) == img.naturalHeight
  {
    var w := CanvasDimension(img.naturalWidth as real, DefaultWidth);
    var h := CanvasDimension(img.naturalHeight as real, DefaultHeight);
    assert w as real <= img.naturalWidth as real < w as real + 1.0;
    assert h as real <= img.naturalHeight as real < h as real + 1.0;
  }

  /** The image at the origin, then four calls per detection and nothing else: no legend. */
  lemma NaturalPlanShape(img: Image, ds: seq<Detection>, canvasWidth: nat, canvasHeight: nat)
    ensures var plan := NaturalPlan(img, ds, canvasWidth, canvasHeight);
      |plan| == 1 + 4 * |ds| && plan[0] == DrawImage(img, 0.0, 0.0)
  {
  }

  /**
   * Detection `i` owns calls `1 + 4i .. 4 + 4i`: the line width, its box at
   * its pixel coordinates, the font, and its label.
   */
  lemma NaturalBoxAt(img: Image, ds: seq<Detection>, canvasWidth: nat, canvasHeight: nat, i: nat)
    requires i < |ds|
    ensures var b := ds[i].bbox;
      var m := Max(canvasWidth as real, canvasHeight as real);
      NaturalPlan(img, ds, canvasWidth, canvasHeight)[1 + 4 * i .. 5 + 4 * i]
      == [SetLineWidth(m * 0.003), StrokeRect(Rect(b.x1, b.y1, b.x2 - b.x1, b.y2 - b.y1)),
          SetFont(m * 0.02), FillText(LabelText(ds[i]), b.x1 + 5.0, b.y1 - 5.0)]
  {
    hide DetectionCmds, MapBox, LabelText, NaturalStyle, Max;
    var st := NaturalStyle(canvasWidth, canvasHeight);
    var head := [DrawImage(img, 0.0, 0.0)];
    var boxes := DetectionsCmds(ds, Identity, st);
    DetectionsCmdsAt(ds, Identity, st, i);
    MiddleSlice(head, boxes, [], 4 * i, 4);
    assert NaturalPlan(img, ds, canvasWidth, canvasHeight) == head + boxes + [];
    NaturalStep(ds[i], canvasWidth, canvasHeight);
  }

  /** One stroke per detection, its box as given, and one text per detection, its label, in input order. */
  lemma NaturalDraws(img: Image, ds: seq<Detection>, canvasWidth: nat, canvasHeight: nat)
    ensures StrokedRects(NaturalPlan(img, ds, canvasWidth, canvasHeight))
      == BoxRects(ds, Identity)
    ensures FilledTexts(NaturalPlan(img, ds, canvasWidth, canvasHeight))
      == LabelTexts(ds)
  {
    hide DetectionsCmds, DetectionCmds, LabelText, MapBox, BoxRects, LabelTexts, NaturalStyle, StrokedRects, FilledTexts;
    var st := NaturalStyle(canvasWidth, canvasHeight);
    var head := [DrawImage(img, 0.0, 0.0)];
    var boxes := DetectionsCmds(ds, Identity, st);
    SingleDraws(head[0]);
    StrokedRectsAppend(head, boxes);
    FilledTextsAppend(head, boxes);
    DetectionsStrokes(ds, Identity, st);
    DetectionsTexts(ds, Identity, st);
  }

  /** A box inside the photo is stroked inside the canvas, when the canvas has the photo's size. */
  lemma NaturalBoxInside(img: Image, b: BBox)
    requires img.naturalWidth <= MaxDimension && img.naturalHeight <= MaxDimension
    requires 0.0 <= b.x1 <= b.x2 <= img.naturalWidth as real && 0.0 <= b.y1 <= b.y2 <= img.naturalHeight as real
    ensures var r := MapBox(b, Identity);
      0.0 <= r.x && r.x + r.w <= CanvasDimension(img.naturalWidth as real, DefaultWidth) as real
      && 0.0 <= r.y && r.y + r.h <= CanvasDimension(img.naturalHeight as real, DefaultHeight) as real
  {
    NaturalCanvasSize(img);
    IdentityMapBox(b);
  }

  /** A 640 by 480 photo: the box (10, 20)-(110, 220) is stroked as is, line width 1.92, label at (15, 15). */
  lemma NaturalExample()
    ensures var plan := NaturalPlan(Image(640, 480), [Detection("scratch", 0.456, BBox(10.0, 20.0, 110.0, 220.0))], 640, 480);
      plan[1] == SetLineWidth(1.92)
      && plan[2] == StrokeRect(Rect(10.0, 20.0, 100.0, 200.0))
      && plan[3] == SetFont(12.8)
      && plan[4] == FillText("scratch (46%)", 15.0, 15.0)
  {
    var ds := [Detection("scratch", 0.456, BBox(10.0, 20.0, 110.0, 220.0))];
    assert LabelText(ds[0]) == "scratch (46%)" by {
      assert NearestInt(45.6) == 46;
      assert Decimal(46) == "46";
    }
    hide LabelText, DetectionsCmds, DetectionCmds, MapBox, NaturalStyle;
    NaturalBoxAt(Image(640, 480), ds, 640, 480, 0);
  }
}
