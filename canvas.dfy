/**
 * A 2D canvas reduced to what the banner and shirt generators observe of
 * it: its size, the current drawing style and scale, and the list of
 * drawing commands issued since the bitmap was last reset. Each command
 * records the style and scale in force when it was issued, so the order
 * of setter calls and draw calls is visible in the recorded picture.
 */
module Canvas {

  datatype Style = Style(
    fillStyle: string,
    strokeStyle: string,
    lineWidth: real,
    lineJoin: string,
    lineCap: string,
    font: string,
    textAlign: string,
    textBaseline: string,
    shadowColor: string,
    shadowBlur: real,
    shadowOffsetX: real,
    shadowOffsetY: real)

  /** The drawing state of a fresh (or freshly resized) canvas. */
  const DefaultStyle := Style("#000000", "#000000", 1.0, "miter", "butt", "10px sans-serif",
                              "start", "alphabetic", "rgba(0, 0, 0, 0)", 0.0, 0.0, 0.0)

  datatype Rect = Rect(x: real, y: real, w: real, h: real)

  /** What one drawing call puts on the bitmap. */
  datatype Shape =
    | ClearRect(area: Rect)
    | FillRect(area: Rect)
    | DrawImage(area: Rect)
    | FillText(text: string, x: real, y: real)
    | StrokeText(text: string, x: real, y: real)

  /** A drawing call with the style and uniform scale in force when it was issued. */
  datatype Op = Draw(shape: Shape, style: Style, scale: real)

  /** An image file handed to the browser for download: its name, pixel size and picture. */
  datatype DownloadFile = DownloadFile(name: string, width: real, height: real, picture: seq<Op>)

  class Context {
    var width: real
    var height: real
    var scale: real
    var style: Style
    var ops: seq<Op>

    /** A new canvas element: 300 by 150, nothing drawn, default style. */
    constructor ()
      ensures width == 300.0 && height == 150.0
      ensures scale == 1.0 && style == DefaultStyle && ops == []
    {
      width := 300.0;
      height := 150.0;
      scale := 1.0;
      style := DefaultStyle;
      ops := [];
    }

    /** Assigning the canvas size resets the bitmap and the whole drawing state. */
    method Resize(w: real, h: real)
      modifies this
      ensures width == w && height == h
      ensures scale == 1.0 && style == DefaultStyle && ops == []
    {
      width := w;
      height := h;
      scale := 1.0;
      style := DefaultStyle;
      ops := [];
    }

    /** `scale(s, s)`: later coordinates are multiplied by `s` on top of the current scale. */
    method Scale(s: real)
      modifies this`scale
      ensures scale == old(scale) * s
    {
      scale := scale * s;
    }

    /** Any change to the style properties; draws nothing. */
    method SetStyle(s: Style)
      modifies this`style
      ensures style == s
    {
      style := s;
    }

    /** A drawing call: appended with the current style and scale. */
    method Issue(shape: Shape)
      modifies this`ops
      ensures ops == old(ops) + [Draw(shape, style, scale)]
    {
      ops := ops + [Draw(shape, style, scale)];
    }
  }
}
