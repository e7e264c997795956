/**
 * The drawing primitives the renderers emit, as values: what the SVG
 * library would be asked to draw, not how it serialises it.
 */
module Svg {
  import opened Wrappers

  datatype Point = Point(x: real, y: real)

  /** One colour stop of a linear gradient: offset, colour, opacity. */
  datatype Stop = Stop(offset: real, color: string, opacity: real)

  datatype Fill =
    | Solid(color: string)
    | Gradient(x1: real, y1: real, x2: real, y2: real, stops: seq<Stop>)

  datatype Shape =
    | Rect(x: real, y: real, width: real, height: real, fill: Fill)
      /** An open polyline (`close=False`) with the given stroke colour. */
    | Lines(points: seq<Point>, stroke: string)
      /** A text at an anchor; a hidden text is drawn with `fill-opacity:0`. */
    | Text(content: string, fontSize: int, x: real, y: real, hidden: bool)
      /** A vertical line whose ends may be missing; the library writes a missing end as "None". */
    | Vertical(x: real, from: Option<real>, to: Option<real>)
}
