// A recording model of an HTML canvas and its 2D context. Each drawing call
// and each `lineWidth`/`font` assignment appends one command to the canvas's
// log; the log is the content of the bitmap since it was last cleared.
// Colours (`strokeStyle`, `fillStyle`) and pixels are not recorded.
module Canvas2D {

  datatype Option<T> = None | Some(value: T)

  /** A decoded image, known by its intrinsic size. */
  datatype Image = Image(naturalWidth: nat, naturalHeight: nat)

  /** A rectangle as the context's rect calls take it: corner, then width and height. */
  datatype Rect = Rect(x: real, y: real, w: real, h: real)

  datatype Cmd =
    | DrawImage(img: Image, dx: real, dy: real)       // drawImage(img, dx, dy)
    | DrawImageScaled(img: Image, dest: Rect)         // drawImage(img, dx, dy, dw, dh)
    | ClearRect(rect: Rect)
    | StrokeRect(rect: Rect)
    | FillRect(rect: Rect)
    | FillText(text: string, x: real, y: real)
    | SetLineWidth(width: real)
    | SetFont(sizePx: real)                           // font = `${sizePx}px sans-serif`

  /** What `toDataURL` encodes: the bitmap's size and what was drawn on it. */
  datatype Snapshot = Snapshot(width: nat, height: nat, drawn: seq<Cmd>)

  /** A snapshot promise: resolved with an image, or never settled. */
  datatype Outcome = Pending | Resolved(image: Snapshot)

  const DefaultWidth: nat := 300
  const DefaultHeight: nat := 150
  const MaxDimension: nat := 0x7FFF_FFFF

  /** Truncation toward zero (`IntegerPart`). */
  function Trunc(x: real): int
  {
    if x >= 0.0 then x.Floor else -((-x).Floor)
  }

  /**
   * The value a canvas dimension takes when a number is assigned to it: the
   * WebIDL `unsigned long` conversion (truncate, then modulo 2^32), and the
   * element's default when the result is above 2^31 - 1.
   */
  function CanvasDimension(x: real, default: nat): (n: nat)
    ensures 0.0 <= x < MaxDimension as real + 1.0 ==> n as real <= x < n as real + 1.0
    ensures n <= MaxDimension || n == default
  {
    var m := Trunc(x) % 0x1_0000_0000;
    if m <= MaxDimension then m else default
  }

  class Canvas {
    var width: nat
    var height: nat
    var log: seq<Cmd>

    /** `document.createElement("canvas")`. */
    constructor ()
      ensures width == DefaultWidth && height == DefaultHeight && log == []
    {
      width, height, log := DefaultWidth, DefaultHeight, [];
    }

    /** `canvas.width = x`: resizes and clears the bitmap, even to the same value. */
    method SetWidth(x: real)
      modifies this
      ensures width == CanvasDimension(x, DefaultWidth) && height == old(height) && log == []
    {
      width, log := CanvasDimension(x, DefaultWidth), [];
    }

    /** `canvas.height = x`. */
    method SetHeight(x: real)
      modifies this
      ensures height == CanvasDimension(x, DefaultHeight) && width == old(width) && log == []
    {
      height, log := CanvasDimension(x, DefaultHeight), [];
    }
  }

  /** The `CanvasRenderingContext2D` of one canvas. */
  class Context2D {
    const canvas: Canvas

    constructor (canvas: Canvas)
      ensures this.canvas == canvas
    {
      this.canvas := canvas;
    }

    method DrawImage(img: Image, dx: real, dy: real)
      modifies canvas`log
      ensures canvas.log == old(canvas.log) + [Cmd.DrawImage(img, dx, dy)]
    {
      canvas.log := canvas.log + [Cmd.DrawImage(img, dx, dy)];
    }

    method DrawImageScaled(img: Image, dx: real, dy: real, dw: real, dh: real)
      modifies canvas`log
      ensures canvas.log == old(canvas.log) + [Cmd.DrawImageScaled(img, Rect(dx, dy, dw, dh))]
    {
      canvas.log := canvas.log + [Cmd.DrawImageScaled(img, Rect(dx, dy, dw, dh))];
    }

    method ClearRect(x: real, y: real, w: real, h: real)
      modifies canvas`log
      ensures canvas.log == old(canvas.log) + [Cmd.ClearRect(Rect(x, y, w, h))]
    {
      canvas.log := canvas.log + [Cmd.ClearRect(Rect(x, y, w, h))];
    }

    method StrokeRect(x: real, y: real, w: real, h: real)
      modifies canvas`log
      ensures canvas.log == old(canvas.log) + [Cmd.StrokeRect(Rect(x, y, w, h))]
    {
      canvas.log := canvas.log + [Cmd.StrokeRect(Rect(x, y, w, h))];
    }

    method FillRect(x: real, y: real, w: real, h: real)
      modifies canvas`log
      ensures canvas.log == old(canvas.log) + [Cmd.FillRect(Rect(x, y, w, h))]
    {
      canvas.log := canvas.log + [Cmd.FillRect(Rect(x, y, w, h))];
    }

    method FillText(text: string, x: real, y: real)
      modifies canvas`log
      ensures canvas.log == old(canvas.log) + [Cmd.FillText(text, x, y)]
    {
      canvas.log := canvas.log + [Cmd.FillText(text, x, y)];
    }

    /** `ctx.lineWidth = w`. */
    method SetLineWidth(w: real)
      modifies canvas`log
      ensures canvas.log == old(canvas.log) + [Cmd.SetLineWidth(w)]
    {
      canvas.log := canvas.log + [Cmd.SetLineWidth(w)];
    }

    /** `ctx.font = `${px}px sans-serif``. */
    method SetFont(px: real)
      modifies canvas`log
      ensures canvas.log == old(canvas.log) + [Cmd.SetFont(px)]
    {
      canvas.log := canvas.log + [Cmd.SetFont(px)];
    }
  }
}
