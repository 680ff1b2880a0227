/** The drawable primitives the renderer emits, kept as structured values
    instead of formatted SVG text. Every primitive is stroked in black. */
module Svg {

  import opened Ast

  /** JavaScript's `Math.min` and `Math.max` on finite numbers. */
  function Min(a: real, b: real): (m: real)
    ensures m <= a && m <= b
    ensures m == a || m == b
  {
    if a <= b then a else b
  }

  function Max(a: real, b: real): (m: real)
    ensures a <= m && b <= m
    ensures m == a || m == b
  {
    if a <= b then b else a
  }

  /** A wall is treated as horizontal exactly when it is wider than it is tall;
      a square wall counts as vertical. */
  predicate IsHorizontal(width: real, height: real) {
    width > height
  }

  datatype Point = Point(x: real, y: real)

  /** The `fill` attribute values used by the renderer. */
  datatype Fill = NoFill | LightBlue | Black | White

  datatype Element =
      /** `<rect x y width height fill stroke-width>` */
    | Rect(x: real, y: real, width: real, height: real, fill: Fill, strokeWidth: real)
      /** The door `<path d="M start L corner A radius radius 0 0 sweep end">`
          (white fill, stroke width 0.05), tagged with the wall direction;
          an absent direction is written out as `undefined`. */
    | DoorPath(start: Point, corner: Point, radius: real, sweep: int, end: Point, direction: Option<string>)
      /** The window `<rect>` (white fill, stroke width 0.01), tagged with the wall direction. */
    | WindowRect(x: real, y: real, width: real, height: real, direction: Option<string>)

  /** The four numbers of a `viewBox` attribute. */
  datatype ViewBox = ViewBox(minX: real, minY: real, width: real, height: real)

  /** A piece of the emitted document, in output order. A `None` view box stands
      for the box printed from infinite extrema when there is nothing to bound. */
  datatype Markup = SvgOpen(viewBox: Option<ViewBox>) | Child(element: Element) | SvgClose

  /** `inner`'s area lies within `outer`'s; both are plain rectangles. */
  predicate RectWithin(inner: Element, outer: Element)
    requires inner.Rect? && outer.Rect?
  {
    && outer.x <= inner.x
    && outer.y <= inner.y
    && inner.x + inner.width <= outer.x + outer.width
    && inner.y + inner.height <= outer.y + outer.height
  }
}
