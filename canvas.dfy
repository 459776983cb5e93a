/**
 * The browser's 2D canvas, as far as the vectorscope uses it: the bitmap
 * size, the three pieces of context state the code sets (fillStyle,
 * strokeStyle, lineWidth) and the sequence of drawing commands issued since
 * the bitmap was last cleared.
 */
module Canvas {
  import opened Wrappers

  /** A CSS colour with its alpha: `rgb(r, g, b)` or `rgba(r, g, b, a)`. */
  datatype Paint = Paint(r: int, g: int, b: int, alpha: real)

  /** `#000000`, the default fillStyle and strokeStyle. */
  const Black := Paint(0, 0, 0, 1.0)

  /** A canvas element's size before anything sets it. */
  const DefaultWidth: nat := 300
  const DefaultHeight: nat := 150

  datatype Point = Point(x: real, y: real)

  datatype Command =
    | Rect(x: real, y: real, w: real, h: real, fill: Paint)
    | Line(from: Point, to: Point, stroke: Paint, lineWidth: real)

  class Surface {
    var width: nat
    var height: nat
    var fillStyle: Paint
    var strokeStyle: Paint
    var lineWidth: real
    var drawn: seq<Command>

    /** The state a context starts in and returns to when its bitmap is resized. */
    ghost predicate IsReset()
      reads this
    {
      fillStyle == Black && strokeStyle == Black && lineWidth == 1.0 && drawn == []
    }

    /** A freshly created canvas element. */
    constructor ()
      ensures width == DefaultWidth && height == DefaultHeight && IsReset()
    {
      width, height := DefaultWidth, DefaultHeight;
      fillStyle, strokeStyle, lineWidth := Black, Black, 1.0;
      drawn := [];
    }

    /**
     * `canvas.width = w`: setting the width, even to its current value,
     * clears the bitmap and resets the context state.
     */
    method SetWidth(w: nat)
      modifies this
      ensures width == w && height == old(height) && IsReset()
    {
      width := w;
      fillStyle, strokeStyle, lineWidth := Black, Black, 1.0;
      drawn := [];
    }

    /** `canvas.height = h`, which resets the canvas in the same way. */
    method SetHeight(h: nat)
      modifies this
      ensures height == h && width == old(width) && IsReset()
    {
      height := h;
      fillStyle, strokeStyle, lineWidth := Black, Black, 1.0;
      drawn := [];
    }

    method SetFillStyle(p: Paint)
      modifies this
      ensures fillStyle == p
      ensures width == old(width) && height == old(height)
      ensures strokeStyle == old(strokeStyle) && lineWidth == old(lineWidth) && drawn == old(drawn)
    {
      fillStyle := p;
    }

    /**
     * `ctx.strokeStyle = css`: a colour string that does not parse (None) is
     * ignored and the previous stroke style stays.
     */
    method SetStrokeStyle(p: Option<Paint>)
      modifies this
      ensures strokeStyle == (if p.Some? then p.value else old(strokeStyle))
      ensures width == old(width) && height == old(height)
      ensures fillStyle == old(fillStyle) && lineWidth == old(lineWidth) && drawn == old(drawn)
    {
      if p.Some? {
        strokeStyle := p.value;
      }
    }

    method SetLineWidth(w: real)
      modifies this
      ensures lineWidth == w
      ensures width == old(width) && height == old(height)
      ensures fillStyle == old(fillStyle) && strokeStyle == old(strokeStyle) && drawn == old(drawn)
    {
      lineWidth := w;
    }

    /** `ctx.fillRect(x, y, w, h)` with the current fill style. */
    method FillRect(x: real, y: real, w: real, h: real)
      modifies this
      ensures drawn == old(drawn) + [Rect(x, y, w, h, fillStyle)]
      ensures width == old(width) && height == old(height)
      ensures fillStyle == old(fillStyle) && strokeStyle == old(strokeStyle) && lineWidth == old(lineWidth)
    {
      drawn := drawn + [Rect(x, y, w, h, fillStyle)];
    }

    /**
     * `beginPath(); moveTo(from); lineTo(to); stroke()`: one straight segment
     * in the current stroke style and line width.
     */
    method StrokeSegment(from: Point, to: Point)
      modifies this
      ensures drawn == old(drawn) + [Line(from, to, strokeStyle, lineWidth)]
      ensures width == old(width) && height == old(height)
      ensures fillStyle == old(fillStyle) && strokeStyle == old(strokeStyle) && lineWidth == old(lineWidth)
    {
      drawn := drawn + [Line(from, to, strokeStyle, lineWidth)];
    }
  }
}
