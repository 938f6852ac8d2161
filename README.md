# Detection overlay layout

This project models the part of the defect-detection web app that decides
what is drawn over a photo or a video frame once the inference service has
returned its detections. A detection is a class label, a confidence and a
box `[x1, y1, x2, y2]` in source-image pixels. The app has three renderers:

- `generateImageWithBBoxes` in `lib/imageUtils.ts` makes a **stretched
  snapshot**. It draws the image over a `displayWidth` by `displayHeight`
  canvas and maps boxes with independent horizontal and vertical scales.
  Then it draws a legend panel with one `<class>: <count>` line per class.
- The `BoundingBoxOverlay` component draws a **live overlay**. Its canvas
  takes the parent element's size. The frame is fitted into the canvas with
  one scale for both axes and centred. A legend follows at fixed
  positions; its panel grows by 20 pixels per class.
- The inner `generateImageWithBBoxes` of `app/camera/page.tsx` makes a
  **natural-size snapshot**. Boxes keep their pixel coordinates. Line width
  and font follow the larger image side. There is no legend.

The canvas and its 2D context are classes (`Canvas2D`). Every drawing call
and every `lineWidth`/`font` assignment appends one `Cmd` to the canvas's
log. Each renderer is a method over them. Its postcondition says the log
equals a *plan*, a function of the inputs (`StretchPlan`, `OverlayPlan`,
`NaturalPlan`). The lemmas then state what each plan draws and where.

The modules are as follows:

- `Detections` holds the detection record.
- `Format` holds the integer-to-decimal conversion and `toFixed(0)`.
- `ClassTally` holds the per-class count. `Tally` is the pure function and
  `CountClasses` is the `forEach` that fills it. The tally is an
  association list in first-seen order, which is the order `Object.entries`
  gives for ordinary string keys.
- `Canvas2D` holds the canvas, the context and the WebIDL conversion of a
  number assigned to `canvas.width`/`height`.
- `Layout` holds the box transform and the four calls per detection, which
  all three renderers share. It also holds the legend, which the stretched
  snapshot and the live overlay share.
- `ImageUtils`, `BoundingBoxOverlay` and `CameraPage` hold one renderer
  each.

Some behaviour of the code is worth knowing:

- Non-positive target sizes are not rejected. The canvas takes whatever
  the conversion gives.
- The stretched snapshot always uses line width 3, whatever the display
  size.
- A missing 2D context, or an image that fails to decode, leaves the
  promise pending. It does not fail.

## Model

| member | source | states |
|---|---|---|
| Format.Decimal | lib/imageUtils.ts:75 | `${count}` of a non-negative integer is a non-empty digit string that starts with `0` only for zero |
| Format.ParseDecimalOfDecimal | lib/imageUtils.ts:75 | reading the written count back gives the count: the numeral loses nothing |
| Format.ToFixed0 | lib/imageUtils.ts:55 | `toFixed(0)` writes at least one character: only digits for a non-negative value, and a `-` followed by digits for a negative one |
| Format.ToFixed0Rounds | lib/imageUtils.ts:55 | the percentage written by `toFixed(0)` is the nearest integer, halves rounding up, and a negative value is written as `-` before the text of its magnitude |
| ClassTally.Bump | lib/imageUtils.ts:36 | one `counts[c] = (counts[c] \|\| 0) + 1` keeps every key and adds at most one |
| ClassTally.Tally | lib/imageUtils.ts:34-37 | there are never more classes than detections, and at least one class when there is a detection |
| ClassTally.CountClasses | lib/imageUtils.ts:34-37 | the `forEach` leaves `classCount` equal to the tally: one bump per detection, in input order |
| ClassTally.BumpKeys | lib/imageUtils.ts:36 | one `counts[c] = (counts[c] \|\| 0) + 1` keeps the key order, and appends `c` exactly when it is not yet a key |
| ClassTally.BumpCountOf | lib/imageUtils.ts:36 | one bump adds 1 to the count of `c` and leaves every other class's count unchanged |
| ClassTally.BumpSum | lib/imageUtils.ts:36 | one bump adds 1 to the total count |
| ClassTally.TallyKeys | lib/imageUtils.ts:34-37 | the keys have no repeats, and a class is a key exactly when some detection has it |
| ClassTally.TallyCounts | lib/imageUtils.ts:34-37 | every class's count, and every entry's count, equals that class's number of occurrences; the `useMemo` at components/BoundingBoxOverlay.tsx:15-21 computes the same tally |
| ClassTally.TallySum | components/BoundingBoxOverlay.tsx:15-21 | the counts add up to the number of detections |
| ClassTally.TallySize | lib/imageUtils.ts:64 | `Object.keys(classCount).length` is the number of distinct classes |
| ClassTally.TallyFirstSeen | lib/imageUtils.ts:74 | `Object.entries` lists the classes in the order of their first occurrence |
| Canvas2D.CanvasDimension | components/BoundingBoxOverlay.tsx:34-35 | a size in range becomes its integer part; the result is never above 2^31 - 1, except for the element's default |
| Canvas2D.Canvas.constructor | lib/imageUtils.ts:21 | a new canvas is 300 by 150 and blank |
| Canvas2D.Canvas.SetWidth | lib/imageUtils.ts:22 | assigning the width converts it, keeps the height and clears the bitmap |
| Canvas2D.Canvas.SetHeight | lib/imageUtils.ts:23 | assigning the height converts it, keeps the width and clears the bitmap |
| Canvas2D.Context2D.DrawImage | app/camera/page.tsx:58 | appends the unscaled image at the given point, and nothing else |
| Canvas2D.Context2D.DrawImageScaled | lib/imageUtils.ts:28 | appends the image stretched to the given rectangle |
| Canvas2D.Context2D.ClearRect | components/BoundingBoxOverlay.tsx:37 | appends a clear of the given rectangle |
| Canvas2D.Context2D.StrokeRect | lib/imageUtils.ts:45-50 | appends one stroked rectangle |
| Canvas2D.Context2D.FillRect | lib/imageUtils.ts:68 | appends one filled rectangle |
| Canvas2D.Context2D.FillText | lib/imageUtils.ts:54-58 | appends one text at the given point |
| Canvas2D.Context2D.SetLineWidth | lib/imageUtils.ts:44 | appends the new line width |
| Canvas2D.Context2D.SetFont | lib/imageUtils.ts:53 | appends the new font size |
| Layout.MapBox | lib/imageUtils.ts:45-50 | the stroked rectangle, drawn from the mapped top-left corner with the scaled size, ends exactly at the mapped bottom-right corner of the box |
| Layout.LabelText | lib/imageUtils.ts:55 | a box label reads the class name, then ` (`, then the percentage in digits when the confidence is not negative, then `%)`; the same template is at components/BoundingBoxOverlay.tsx:60 and app/camera/page.tsx:70 |
| Layout.LabelTextReadsBack | lib/imageUtils.ts:55 | for a non-negative confidence, the digits between ` (` and `%)` read back as `confidence * 100` rounded to the nearest integer, halves up |
| Layout.BoxRects | lib/imageUtils.ts:40-50 | the mapped boxes, one per detection, in input order |
| Layout.LabelTextsAt | lib/imageUtils.ts:40-58 | the label list holds detection `j`'s label at position `j` |
| Layout.MapBoxInside | components/BoundingBoxOverlay.tsx:50-55 | under non-negative scales, a box inside the source lands inside the mapped image area |
| Layout.DetectionsCmds | lib/imageUtils.ts:40-59 | the box loop issues exactly four calls per detection |
| Layout.DetectionsCmdsAt | lib/imageUtils.ts:40-59 | detection `i` owns calls `4i` to `4i + 3`, in input order |
| Layout.DetectionDraws | lib/imageUtils.ts:45-58 | one detection strokes its mapped box and fills its label, and nothing else |
| Layout.DetectionsStrokes | lib/imageUtils.ts:40-50 | the stroked rectangles are the detections' mapped boxes, one each, in input order |
| Layout.DetectionsTexts | lib/imageUtils.ts:40-59 | the texts filled by the box loop are the detections' labels, one each, in input order |
| Layout.EntryText | lib/imageUtils.ts:75 | a legend line starts with the class name and `: `, and has something after it; the same template is at components/BoundingBoxOverlay.tsx:75 |
| Layout.EntryTextReadsBack | lib/imageUtils.ts:75 | after `<class>: ` the line holds only digits, and reading them back gives the count |
| Layout.EntryTexts | lib/imageUtils.ts:74-77 | the legend loop writes as many texts as the tally has entries |
| Layout.EntryTextsAt | lib/imageUtils.ts:74-77 | the legend's text `j` is entry `j`'s line, in tally order |
| Layout.LegendLines | lib/imageUtils.ts:74-77 | the legend loop writes one line per tally entry |
| Layout.LegendLinesAt | lib/imageUtils.ts:73-77 | line `j` reads `<class>: <count>` of entry `j`, `j` steps below the first baseline |
| Layout.LinesDraw | lib/imageUtils.ts:74-77 | the legend lines stroke nothing and fill the entries' texts in tally order |
| Layout.LegendDraws | lib/imageUtils.ts:61-77 | the whole legend (panel, font, lines) strokes nothing and fills exactly the entries' texts |
| ImageUtils.StretchTransform | lib/imageUtils.ts:30-31 | no offset, and the scales carry the source's full width and height onto the display's |
| ImageUtils.StretchStep | lib/imageUtils.ts:41-58 | one pass of the box loop issues line width 3, the box scaled per axis, the font at 2% of the larger side, and the label 5 right of and 5 above the corner |
| ImageUtils.StretchLegendCmds | lib/imageUtils.ts:62-73 | the legend is the panel at (10, 10), 200 wide and `k * lineHeight + 20` high, the font, then the lines from baseline `10 + lineHeight` |
| ImageUtils.StretchSnapshot | lib/imageUtils.ts:17-80 | a failed decode leaves the promise pending and the canvas untouched; the canvas takes the display size; without a context the canvas stays blank and the promise pending; otherwise the drawing is exactly the plan and the snapshot resolves with it |
| ImageUtils.DrawBoxes | lib/imageUtils.ts:40-59 | the box loop appends exactly the stretched boxes' calls to what was drawn before |
| ImageUtils.DrawLegend | lib/imageUtils.ts:61-77 | the panel, font and line loop append exactly the stretched legend |
| ImageUtils.StretchPlanShape | lib/imageUtils.ts:28-71 | the snapshot draws `3 + 4n + k` commands: first the image over the whole display, then after the boxes the panel `k * lineHeight + 20` high and the font |
| ImageUtils.StretchDetectionCmds | lib/imageUtils.ts:41-58 | under the stretch a detection sets line width 3, strokes its box with both corners scaled, sets the font at 2% of the larger side, and labels the box at `(x1 * scaleX + 5, y1 * scaleY - 5)` |
| ImageUtils.StretchBoxAt | lib/imageUtils.ts:40-59 | detection `i` owns calls `1 + 4i` to `4 + 4i` of the snapshot, its box before its label |
| ImageUtils.StretchLegendLineAt | lib/imageUtils.ts:73-77 | legend line `j` reads `<class>: <occurrences>` at `(15, 10 + (j + 1) * lineHeight)` |
| ImageUtils.StretchDraws | lib/imageUtils.ts:40-77 | exactly one stroke per detection, in input order; the texts are the labels in input order, then one legend line per class |
| ImageUtils.StretchEmpty | lib/imageUtils.ts:62-71 | with no detections the snapshot is the image, a panel 20 high and the font, nothing else |
| ImageUtils.StretchFullBox | lib/imageUtils.ts:30-50 | a box covering the whole source is stroked over the whole display |
| ImageUtils.StretchBoxInside | lib/imageUtils.ts:45-50 | a box inside the source is stroked inside the display |
| ImageUtils.StretchExample | lib/imageUtils.ts:40-58 | a 1000 by 800 photo shown at 500 by 400: box (100, 100)-(300, 300) is stroked at (50, 50) size 100 by 100, label "defect (87%)" at (55, 45) |
| BoundingBoxOverlay.OverlayStep | components/BoundingBoxOverlay.tsx:45-63 | one pass of the box loop issues line width 3, the box through the common scale and the margins, the 16px font, and the label 2 right of and 5 above the corner |
| BoundingBoxOverlay.OverlayLegendCmds | components/BoundingBoxOverlay.tsx:67-73 | the legend is the panel at (10, 10), 150 wide and `k * 20 + 10` high, the 16px font, then the lines from baseline 30 |
| BoundingBoxOverlay.DrawOverlay | components/BoundingBoxOverlay.tsx:23-78 | with no context or no parent nothing on the canvas changes; otherwise the canvas takes the parent's size and the drawing is exactly the plan: a clear of the whole canvas, the fitted boxes, the legend |
| BoundingBoxOverlay.DrawFittedBoxes | components/BoundingBoxOverlay.tsx:45-64 | the box loop appends exactly the fitted boxes' calls |
| BoundingBoxOverlay.DrawCounts | components/BoundingBoxOverlay.tsx:66-77 | the panel, font and line loop append exactly the overlay's legend |
| BoundingBoxOverlay.AspectFit | components/BoundingBoxOverlay.tsx:40-42 | one scale for both axes, and each margin is half of what the scaled frame leaves of the canvas on that axis |
| BoundingBoxOverlay.AspectFitFits | components/BoundingBoxOverlay.tsx:40-42 | one scale for both axes; the frame fits inside the canvas and fills at least one side; the margins are equal on both sides, never negative, and at least one of them is zero |
| BoundingBoxOverlay.OverlayBoxInside | components/BoundingBoxOverlay.tsx:40-55 | a box inside the frame is stroked inside the canvas |
| BoundingBoxOverlay.OverlayKeepsAspect | components/BoundingBoxOverlay.tsx:50-55 | a stroked box has the detection's proportions |
| BoundingBoxOverlay.OverlayPlanShape | components/BoundingBoxOverlay.tsx:37-72 | the overlay draws `3 + 4n + k` commands: first a clear of the whole canvas, then after the boxes the panel `k * 20 + 10` high and the 16px font |
| BoundingBoxOverlay.OverlayDetectionCmds | components/BoundingBoxOverlay.tsx:45-63 | under the fit a detection sets line width 3, strokes `(offsetX + x1 * scale, offsetY + y1 * scale)` sized by the common scale, sets the 16px font, and labels at `(offsetX + x1 * scale + 2, offsetY + y1 * scale - 5)` |
| BoundingBoxOverlay.OverlayBoxAt | components/BoundingBoxOverlay.tsx:45-64 | detection `i` owns calls `1 + 4i` to `4 + 4i` of the overlay |
| BoundingBoxOverlay.OverlayLegendLineAt | components/BoundingBoxOverlay.tsx:73-77 | legend line `j` reads `<class>: <occurrences>` at `(20, 30 + 20j)` |
| BoundingBoxOverlay.OverlayDraws | components/BoundingBoxOverlay.tsx:45-77 | exactly one stroke per detection, in input order; the texts are the labels in input order, then one legend line per class |
| BoundingBoxOverlay.OverlayExample | components/BoundingBoxOverlay.tsx:40-63 | a 1000 by 500 frame on an 800 by 800 canvas: scale 0.8, margins 0 and 200; box (100, 100)-(300, 300) is stroked at (80, 280) size 160 by 160, label at (82, 275) |
| CameraPage.IdentityMapBox | app/camera/page.tsx:65 | at natural size a box is stroked from its own corner with its own size |
| CameraPage.NaturalStep | app/camera/page.tsx:60-73 | one pass of the loop issues line width `0.003 * max(w, h)`, the raw box, the font at `0.02 * max(w, h)`, and the label at `(x1 + 5, y1 - 5)` |
| CameraPage.NaturalSnapshot | app/camera/page.tsx:48-78 | a failed decode leaves the promise pending and the canvas untouched; the canvas takes the photo's natural size; without a context the canvas stays blank and the promise pending; otherwise the drawing is exactly the plan and the snapshot resolves with it |
| CameraPage.DrawNaturalBoxes | app/camera/page.tsx:60-74 | the box loop appends exactly the natural-size boxes' calls |
| CameraPage.NaturalCanvasSize | app/camera/page.tsx:53-54 | a photo within the canvas limit gets a canvas of exactly its own size |
| CameraPage.NaturalPlanShape | app/camera/page.tsx:58-74 | the snapshot draws the image at the origin, then four calls per detection, and nothing else: no legend |
| CameraPage.NaturalBoxAt | app/camera/page.tsx:60-74 | detection `i` owns calls `1 + 4i` to `4 + 4i`: the line width, the raw box, the font and the label |
| CameraPage.NaturalDraws | app/camera/page.tsx:58-76 | exactly one stroke per detection (its raw box) and one text per detection (its label), in input order |
| CameraPage.NaturalBoxInside | app/camera/page.tsx:53-65 | a box inside the photo is stroked inside the canvas |
| CameraPage.NaturalExample | app/camera/page.tsx:60-73 | a 640 by 480 photo: line width 1.92, box (10, 20)-(110, 220) stroked as is, font 12.8, label "scratch (46%)" at (15, 15) |

## Left out

- Decoding the image, `toDataURL` and JPEG encoding are left out, and so are colours, alpha, font family and text metrics. The log records calls and sizes, not pixels. An image is known only by its natural size, and a decode failure is an absent image.
- Numbers are exact reals. IEEE-754 rounding of the scales and offsets is not modelled. The legend's baselines are `first + j * lineHeight`, where the source adds `lineHeight` to `yOffset` once per line, so the double sum can drift from that in its last bits. `toFixed(0)` is modelled for values below 10^21; above that JavaScript switches to exponent notation, which no confidence reaches.
- Layout.LabelText: the percentage is `toFixed(0)` of the exact product `confidence * 100`. A browser rounds the double product, which can lie just below a half when the exact value is a half. Then the drawn percentage is one less: for 0.285 a browser computes 28.499999999999996 and draws `28%`, where the model gives `29%`.
- The font is recorded as its pixel size. The text of the `font` string is not.
- Promises and `onload`, React's effect and memo scheduling, and dependency tracking are left out. Each renderer is one synchronous run, and the memoised tally is computed at the start of the effect's run.
- Of `getBoundingClientRect` only the width and height are used, as the source does. The parent's size is a parameter.
- Camera capture, gallery upload, the inference call, the page UI and the manifest script are outside the drawing core.
- ClassTally.CountClasses: requires plain class labels. A label naming an `Object.prototype` member (`constructor`, `__proto__`, ...) breaks `counts[c] || 0`, and an array-index label such as `"7"` is enumerated before the others. These quirks of JavaScript objects are excluded rather than modelled. The renderers that tally carry the same precondition.
- ImageUtils.StretchSnapshot: requires a positive natural size. At zero the source divides by zero and draws at `Infinity`/`NaN`, which reals cannot express.
- BoundingBoxOverlay.DrawOverlay: requires a positive `width` and `height`, for the same reason. It says nothing when the canvas element itself is absent, because nothing exists then to observe.
- CameraPage.DrawNaturalBoxes: takes the canvas size as parameters instead of reading `canvas.width`/`canvas.height` on each pass. The loop only appends to the log, so the size is the same on every pass.
