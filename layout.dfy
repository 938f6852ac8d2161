// What the three renderers have in common: every box goes through one
// coordinate transform, and every detection issues the same four context
// calls. The two renderers with a legend draw it as a panel followed by one
// line per tally entry. The renderers differ in their first call (a scaled
// image, a clear, or an unscaled image), in the transform and style
// constants, and in whether and where they draw a legend.
module Layout {
  import opened Detections
  import opened Format
  import opened ClassTally
  import opened Canvas2D

  /** `Math.max`. */
  function Max(a: real, b: real): real
  {
    if a >= b then a else b
  }

  /** Source pixel `(x, y)` goes to `(offsetX + x * scaleX, offsetY + y * scaleY)`. */
  datatype Transform = Transform(scaleX: real, scaleY: real, offsetX: real, offsetY: real)

  /**
   * The rectangle stroked for a box: its mapped top-left corner and its
   * scaled size, so that it ends exactly at the mapped bottom-right corner.
   */
  function MapBox(b: BBox, tr: Transform): (r: Rect)
    ensures r.x + r.w == tr.offsetX + b.x2 * tr.scaleX
    ensures r.y + r.h == tr.offsetY + b.y2 * tr.scaleY
  {
    Rect(tr.offsetX + b.x1 * tr.scaleX, tr.offsetY + b.y1 * tr.scaleY,
         (b.x2 - b.x1) * tr.scaleX, (b.y2 - b.y1) * tr.scaleY)
  }

  /**
   * The stroked rectangle of a box under a transform given by its parts.
   * It only links the loops' local expressions to `MapBox`; it states no
   * property of its own.
   */
  lemma MapBoxSpelled(b: BBox, scaleX: real, scaleY: real, offsetX: real, offsetY: real)
    ensures MapBox(b, Transform(scaleX, scaleY, offsetX, offsetY))
      == Rect(offsetX + b.x1 * scaleX, offsetY + b.y1 * scaleY, (b.x2 - b.x1) * scaleX, (b.y2 - b.y1) * scaleY)
  {
    var r := MapBox(b, Transform(scaleX, scaleY, offsetX, offsetY));
    assert r.x == offsetX + b.x1 * scaleX;
    assert r.y == offsetY + b.y1 * scaleY;
    assert r.w == (b.x2 - b.x1) * scaleX;
    assert r.h == (b.y2 - b.y1) * scaleY;
  }

  lemma MulMono(a: real, b: real, k: real)
    requires a <= b && k >= 0.0
    ensures a * k <= b * k
  {
  }

  /**
   * A box inside the `w` by `h` source lands inside the image's mapped area,
   * `[offsetX, offsetX + w * scaleX]` by `[offsetY, offsetY + h * scaleY]`.
   */
  lemma MapBoxInside(b: BBox, tr: Transform, w: real, h: real)
    requires 0.0 <= b.x1 <= b.x2 <= w && 0.0 <= b.y1 <= b.y2 <= h
    requires tr.scaleX >= 0.0 && tr.scaleY >= 0.0
    ensures tr.offsetX <= MapBox(b, tr).x
    ensures MapBox(b, tr).x + MapBox(b, tr).w <= tr.offsetX + w * tr.scaleX
    ensures tr.offsetY <= MapBox(b, tr).y
    ensures MapBox(b, tr).y + MapBox(b, tr).h <= tr.offsetY + h * tr.scaleY
  {
    MulMono(0.0, b.x1, tr.scaleX);
    MulMono(b.x2, w, tr.scaleX);
    MulMono(0.0, b.y1, tr.scaleY);
    MulMono(b.y2, h, tr.scaleY);
  }

  /** Per-detection drawing state and the label's horizontal nudge from the box corner. */
  datatype BoxStyle = BoxStyle(lineWidth: real, fontSize: real, labelDx: real)

  /** Labels sit this far above the box's top edge. */
  const LabelRise: real := 5.0

  /**
   * `${d.class} (${(d.confidence * 100).toFixed(0)}%)`: the class, then the
   * percentage in parentheses, digits only when the confidence is not negative.
   */
  function LabelText(d: Detection): (s: string)
    ensures |s| >= |d.className| + 4
    ensures s[..|d.className|] == d.className && s[|d.className|..|d.className| + 2] == " ("
    ensures s[|s| - 2..] == "%)"
    ensures d.confidence >= 0.0 ==> forall i :: |d.className| + 2 <= i < |s| - 2 ==> IsDigit(s[i])
  {
    var pct := ToFixed0(d.confidence * 100.0);
    var s := d.className + " (" + pct + "%)";
    assert forall i :: |d.className| + 2 <= i < |s| - 2 ==> s[i] == pct[i - |d.className| - 2];
    s
  }

  /** The percentage in a label is `confidence * 100` rounded to the nearest integer, halves up. */
  lemma LabelTextReadsBack(d: Detection)
    requires d.confidence >= 0.0
    ensures var s := LabelText(d);
      var n := ParseDecimal(s[|d.className| + 2..|s| - 2]) as real;
      n - 0.5 <= d.confidence * 100.0 < n + 0.5
  {
    var x := d.confidence * 100.0;
    var head, pct := d.className + " (", ToFixed0(x);
    var s := LabelText(d);
    assert s == head + pct + "%)";
    hide LabelText, ToFixed0;
    assert s[|d.className| + 2..|s| - 2] == pct by {
      MiddleSlice(head, pct, "%)", 0, |pct|);
      assert pct[0..|pct|] == pct;
    }
    ToFixed0Rounds(x);
  }

  /** The calls one detection issues: line width, its box, font, its label. */
  function DetectionCmds(d: Detection, tr: Transform, st: BoxStyle): seq<Cmd>
  {
    var r := MapBox(d.bbox, tr);
    [SetLineWidth(st.lineWidth), StrokeRect(r), SetFont(st.fontSize),
     FillText(LabelText(d), r.x + st.labelDx, r.y - LabelRise)]
  }

  /** The calls of the box-and-label loop over `ds`, in input order. */
  function DetectionsCmds(ds: seq<Detection>, tr: Transform, st: BoxStyle): (r: seq<Cmd>)
    ensures |r| == 4 * |ds|
  {
    if ds == [] then [] else DetectionsCmds(ds[..|ds| - 1], tr, st) + DetectionCmds(ds[|ds| - 1], tr, st)
  }

  /** Detection `i` owns commands `4i .. 4i+3`: its box before its own label. */
  lemma {:induction false} DetectionsCmdsAt(ds: seq<Detection>, tr: Transform, st: BoxStyle, i: nat)
    requires i < |ds|
    ensures DetectionsCmds(ds, tr, st)[4 * i .. 4 * i + 4] == DetectionCmds(ds[i], tr, st)
  {
    hide MapBox, LabelText;
    var p := ds[..|ds| - 1];
    var front := DetectionsCmds(p, tr, st);
    var last := DetectionCmds(ds[|ds| - 1], tr, st);
    assert DetectionsCmds(ds, tr, st) == front + last;
    if i < |p| {
      DetectionsCmdsAt(p, tr, st, i);
      assert ds[i] == p[i];
      assert (front + last)[4 * i .. 4 * i + 4] == front[4 * i .. 4 * i + 4];
    } else {
      assert (front + last)[4 * i .. 4 * i + 4] == last;
    }
  }

  /** One more iteration of the box loop appends that detection's four calls. */
  lemma DetectionsCmdsSnoc(ds: seq<Detection>, tr: Transform, st: BoxStyle, i: nat)
    requires i < |ds|
    ensures DetectionsCmds(ds[..i + 1], tr, st) == DetectionsCmds(ds[..i], tr, st) + DetectionCmds(ds[i], tr, st)
  {
    hide MapBox, LabelText;
    assert ds[..i + 1][..i] == ds[..i];
  }

  /** Two four-element sequences that agree element by element are equal. */
  lemma SameFour<T>(s: seq<T>, t: seq<T>)
    requires |s| == 4 && |t| == 4
    requires s[0] == t[0] && s[1] == t[1] && s[2] == t[2] && s[3] == t[3]
    ensures s == t
  {
  }

  /** A run of `n` elements of the middle part of `head + body + tail`. */
  lemma MiddleSlice<T>(head: seq<T>, body: seq<T>, tail: seq<T>, k: nat, n: nat)
    requires k + n <= |body|
    ensures (head + body + tail)[|head| + k .. |head| + k + n] == body[k .. k + n]
  {
    var s := head + body + tail;
    var got, want := s[|head| + k .. |head| + k + n], body[k .. k + n];
    forall j | 0 <= j < n
      ensures got[j] == want[j]
    {
      assert s[|head| + k + j] == body[k + j];
    }
  }

  /** The rectangles stroked by a command sequence, in order. */
  function StrokedRects(cmds: seq<Cmd>): seq<Rect>
  {
    if cmds == [] then []
    else StrokedRects(cmds[..|cmds| - 1]) + (if cmds[|cmds| - 1].StrokeRect? then [cmds[|cmds| - 1].rect] else [])
  }

  /** The texts filled by a command sequence, in order. */
  function FilledTexts(cmds: seq<Cmd>): seq<string>
  {
    if cmds == [] then []
    else FilledTexts(cmds[..|cmds| - 1]) + (if cmds[|cmds| - 1].FillText? then [cmds[|cmds| - 1].text] else [])
  }

  lemma {:induction false} StrokedRectsAppend(a: seq<Cmd>, b: seq<Cmd>)
    ensures StrokedRects(a + b) == StrokedRects(a) + StrokedRects(b)
  {
    if b != [] {
      assert (a + b)[..|a + b| - 1] == a + b[..|b| - 1];
      StrokedRectsAppend(a, b[..|b| - 1]);
    } else {
      assert a + b == a;
    }
  }

  lemma {:induction false} FilledTextsAppend(a: seq<Cmd>, b: seq<Cmd>)
    ensures FilledTexts(a + b) == FilledTexts(a) + FilledTexts(b)
  {
    if b != [] {
      assert (a + b)[..|a + b| - 1] == a + b[..|b| - 1];
      FilledTextsAppend(a, b[..|b| - 1]);
    } else {
      assert a + b == a;
    }
  }

  lemma SingleDraws(c: Cmd)
    ensures StrokedRects([c]) == if c.StrokeRect? then [c.rect] else []
    ensures FilledTexts([c]) == if c.FillText? then [c.text] else []
  {
    assert [c][..0] == [];
  }

  /** The four calls drawn per box stroke one rectangle and fill one text. */
  lemma BoxCallsDraw(lineWidth: real, r: Rect, fontSize: real, text: string, x: real, y: real)
    ensures StrokedRects([SetLineWidth(lineWidth), StrokeRect(r), SetFont(fontSize), FillText(text, x, y)]) == [r]
    ensures FilledTexts([SetLineWidth(lineWidth), StrokeRect(r), SetFont(fontSize), FillText(text, x, y)]) == [text]
  {
    var c0, c1, c2, c3 := SetLineWidth(lineWidth), StrokeRect(r), SetFont(fontSize), FillText(text, x, y);
    assert [c0, c1, c2, c3] == [c0] + [c1] + [c2] + [c3];
    SingleDraws(c0);
    SingleDraws(c1);
    SingleDraws(c2);
    SingleDraws(c3);
    StrokedRectsAppend([c0], [c1]);
    StrokedRectsAppend([c0] + [c1], [c2]);
    StrokedRectsAppend([c0] + [c1] + [c2], [c3]);
    FilledTextsAppend([c0], [c1]);
    FilledTextsAppend([c0] + [c1], [c2]);
    FilledTextsAppend([c0] + [c1] + [c2], [c3]);
  }

  /** One detection strokes its mapped box and fills its label, nothing else. */
  lemma DetectionDraws(d: Detection, tr: Transform, st: BoxStyle)
    ensures StrokedRects(DetectionCmds(d, tr, st)) == [MapBox(d.bbox, tr)]
    ensures FilledTexts(DetectionCmds(d, tr, st)) == [LabelText(d)]
  {
    hide LabelText, MapBox, StrokedRects, FilledTexts;
    var r, text := MapBox(d.bbox, tr), LabelText(d);
    assert DetectionCmds(d, tr, st)
      == [SetLineWidth(st.lineWidth), StrokeRect(r), SetFont(st.fontSize), FillText(text, r.x + st.labelDx, r.y - LabelRise)];
    hide DetectionCmds;
    BoxCallsDraw(st.lineWidth, r, st.fontSize, text, r.x + st.labelDx, r.y - LabelRise);
  }

  /** The box each detection is mapped to, in input order. */
  function BoxRects(ds: seq<Detection>, tr: Transform): (r: seq<Rect>)
    ensures |r| == |ds|
    ensures forall j :: 0 <= j < |ds| ==> r[j] == MapBox(ds[j].bbox, tr)
  {
    if ds == [] then [] else BoxRects(ds[..|ds| - 1], tr) + [MapBox(ds[|ds| - 1].bbox, tr)]
  }

  /** The label of each detection, in input order (element by element: `LabelTextsAt`). */
  function LabelTexts(ds: seq<Detection>): (r: seq<string>)
    ensures |r| == |ds|
  {
    if ds == [] then [] else LabelTexts(ds[..|ds| - 1]) + [LabelText(ds[|ds| - 1])]
  }

  lemma {:induction false} LabelTextsAt(ds: seq<Detection>, j: nat)
    requires j < |ds|
    ensures LabelTexts(ds)[j] == LabelText(ds[j])
  {
    hide LabelText;
    if j < |ds| - 1 {
      LabelTextsAt(ds[..|ds| - 1], j);
    }
  }

  /** Exactly one stroked rectangle per detection, its mapped box, in input order. */
  lemma {:induction false} DetectionsStrokes(ds: seq<Detection>, tr: Transform, st: BoxStyle)
    ensures StrokedRects(DetectionsCmds(ds, tr, st)) == BoxRects(ds, tr)
  {
    hide LabelText, MapBox;
    if ds != [] {
      var p, d := ds[..|ds| - 1], ds[|ds| - 1];
      var front, last := DetectionsCmds(p, tr, st), DetectionCmds(d, tr, st);
      assert StrokedRects(DetectionsCmds(ds, tr, st)) == StrokedRects(front) + [MapBox(d.bbox, tr)] by {
        assert DetectionsCmds(ds, tr, st) == front + last;
        StrokedRectsAppend(front, last);
        DetectionDraws(d, tr, st);
      }
      DetectionsStrokes(p, tr, st);
    }
  }

  /** Exactly one filled text per detection, its label, in input order. */
  lemma {:induction false} DetectionsTexts(ds: seq<Detection>, tr: Transform, st: BoxStyle)
    ensures FilledTexts(DetectionsCmds(ds, tr, st)) == LabelTexts(ds)
  {
    hide LabelText, MapBox;
    if ds != [] {
      var p, d := ds[..|ds| - 1], ds[|ds| - 1];
      var front, last := DetectionsCmds(p, tr, st), DetectionCmds(d, tr, st);
      assert FilledTexts(DetectionsCmds(ds, tr, st)) == FilledTexts(front) + [LabelText(d)] by {
        assert DetectionsCmds(ds, tr, st) == front + last;
        FilledTextsAppend(front, last);
        DetectionDraws(d, tr, st);
      }
      DetectionsTexts(p, tr, st);
    }
  }

  // ---- The legend ----

  /**
   * Where the legend goes: the panel's corner and width, its height as
   * `padding` plus one `lineHeight` per class, its font, and the first
   * line's baseline.
   */
  datatype LegendLayout = LegendLayout(
    panelX: real, panelY: real, panelWidth: real, padding: real, lineHeight: real,
    fontSize: real, textX: real, firstBaseline: real)

  /** `${cls}: ${count}`: the class, a colon and a space, then the count's numeral. */
  function EntryText(e: Entry): (s: string)
    ensures |s| >= |e.className| + 3
    ensures s[..|e.className| + 2] == e.className + ": "
  {
    e.className + ": " + Decimal(e.count)
  }

  /** A legend line reads back as its entry: the text after `": "` is the count's numeral. */
  lemma EntryTextReadsBack(e: Entry)
    ensures var s := EntryText(e);
      (forall i :: |e.className| + 2 <= i < |s| ==> IsDigit(s[i]))
      && ParseDecimal(s[|e.className| + 2..]) == e.count
  {
    var s := EntryText(e);
    assert s[|e.className| + 2..] == Decimal(e.count);
    ParseDecimalOfDecimal(e.count);
  }

  /** The entries' texts, in tally order (element by element: `EntryTextsAt`). */
  function EntryTexts(t: seq<Entry>): (r: seq<string>)
    ensures |r| == |t|
  {
    if t == [] then [] else [EntryText(t[0])] + EntryTexts(t[1..])
  }

  lemma {:induction false} EntryTextsAt(t: seq<Entry>, j: nat)
    requires j < |t|
    ensures EntryTexts(t)[j] == EntryText(t[j])
  {
    hide EntryText;
    if j > 0 {
      EntryTextsAt(t[1..], j - 1);
    }
  }

  /** One line per entry at baseline `y`, the rest each `step` further down. */
  function LegendLines(t: seq<Entry>, x: real, y: real, step: real): (r: seq<Cmd>)
    ensures |r| == |t|
  {
    if t == [] then [] else [FillText(EntryText(t[0]), x, y)] + LegendLines(t[1..], x, y + step, step)
  }

  /** Line `j` reads `<class>: <count>` for entry `j`, `j` steps below the first baseline. */
  lemma {:induction false} LegendLinesAt(t: seq<Entry>, x: real, y: real, step: real, j: nat)
    requires j < |t|
    ensures LegendLines(t, x, y, step)[j] == FillText(EntryText(t[j]), x, y + j as real * step)
  {
    hide EntryText;
    if j > 0 {
      LegendLinesAt(t[1..], x, y + step, step, j - 1);
      assert (y + step) + (j - 1) as real * step == y + j as real * step;
    }
  }

  /** One iteration of the legend loop: the first remaining line, then the rest one step lower. */
  lemma LegendLinesStep(t: seq<Entry>, x: real, y: real, step: real, j: nat)
    requires j < |t|
    ensures LegendLines(t[j..], x, y, step) == [FillText(EntryText(t[j]), x, y)] + LegendLines(t[j + 1..], x, y + step, step)
  {
    hide EntryText;
    assert t[j..][1..] == t[j + 1..];
  }

  /** The panel behind the lines, sized to one line per entry, then the legend font. */
  function LegendPanel(t: seq<Entry>, l: LegendLayout): seq<Cmd>
  {
    [FillRect(Rect(l.panelX, l.panelY, l.panelWidth, |t| as real * l.lineHeight + l.padding)), SetFont(l.fontSize)]
  }

  /** The legend: the panel, the font, then the lines. */
  function LegendCmds(t: seq<Entry>, l: LegendLayout): seq<Cmd>
  {
    LegendPanel(t, l) + LegendLines(t, l.textX, l.firstBaseline, l.lineHeight)
  }

  /** The legend strokes nothing, and its texts are the entries' lines in tally order. */
  lemma {:induction false} LegendDraws(t: seq<Entry>, l: LegendLayout)
    ensures StrokedRects(LegendCmds(t, l)) == []
    ensures FilledTexts(LegendCmds(t, l)) == EntryTexts(t)
  {
    var head := LegendPanel(t, l);
    assert head == [head[0]] + [head[1]];
    SingleDraws(head[0]);
    SingleDraws(head[1]);
    StrokedRectsAppend([head[0]], [head[1]]);
    FilledTextsAppend([head[0]], [head[1]]);
    assert StrokedRects(head) == [] && FilledTexts(head) == [];
    var lines := LegendLines(t, l.textX, l.firstBaseline, l.lineHeight);
    StrokedRectsAppend(head, lines);
    FilledTextsAppend(head, lines);
    LinesDraw(t, l.textX, l.firstBaseline, l.lineHeight);
  }

  /** The first entry's line and text, then the rest's. */
  lemma LinesCons(t: seq<Entry>, x: real, y: real, step: real)
    requires t != []
    ensures LegendLines(t, x, y, step) == [FillText(EntryText(t[0]), x, y)] + LegendLines(t[1..], x, y + step, step)
    ensures EntryTexts(t) == [EntryText(t[0])] + EntryTexts(t[1..])
  {
  }

  lemma {:induction false} LinesDraw(t: seq<Entry>, x: real, y: real, step: real)
    ensures StrokedRects(LegendLines(t, x, y, step)) == []
    ensures FilledTexts(LegendLines(t, x, y, step)) == EntryTexts(t)
  {
    if t != [] {
      hide EntryText, EntryTexts, LegendLines, StrokedRects, FilledTexts;
      var text, texts := EntryText(t[0]), EntryTexts(t[1..]);
      var first, rest := [FillText(text, x, y)], LegendLines(t[1..], x, y + step, step);
      LinesCons(t, x, y, step);
      assert LegendLines(t, x, y, step) == first + rest;
      assert EntryTexts(t) == [text] + texts;
      LinesDraw(t[1..], x, y + step, step);
      assert StrokedRects(rest) == [] && FilledTexts(rest) == texts;
      SingleDraws(first[0]);
      assert StrokedRects(first) == [] && FilledTexts(first) == [text];
      assert StrokedRects(first + rest) == [] by {
        StrokedRectsAppend(first, rest);
      }
      assert FilledTexts(first + rest) == [text] + texts by {
        FilledTextsAppend(first, rest);
      }
    }
  }
}
