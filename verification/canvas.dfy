/** What the frame loop asks the 800x600 drawing surface to paint. Pixels are
    not modelled: every paint call becomes one `Command`. */
module Canvas {

  /** An integer pixel position, as produced by scaling a landmark to the canvas. */
  datatype Point = Point(x: int, y: int)

  /** An RGB triple. */
  datatype Color = Color(r: int, g: int, b: int)

  /** A pixel displacement (used for the spray jitter). */
  datatype Offset = Offset(dx: int, dy: int)

  function Shift(p: Point, o: Offset): Point {
    Point(p.x + o.dx, p.y + o.dy)
  }

  datatype Command =
      /** a straight line of the given width */
    | Line(color: Color, from: Point, to: Point, width: int)
      /** the piece of the line from `from` to `to` that starts `offset` pixels along it
          and is `length` pixels long */
    | Dash(color: Color, from: Point, to: Point, offset: int, length: int, width: int)
      /** a filled circle */
    | Disc(color: Color, center: Point, radius: int)
      /** a filled axis-aligned rectangle given by its top-left corner and size */
    | Box(color: Color, left: int, top: int, w: int, h: int)
}
