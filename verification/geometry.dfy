/**
 * The geometry snapshot the controller reads from the host page.
 *
 * The element's bounding box only changes when the transform is written back
 * (`apply`), so every read inside one operation sees the same values; an
 * operation is therefore given one `Snapshot`, and a handler that applies the
 * transform half-way is given one snapshot for each side of that write.
 */
module Geometry {

  datatype Axis = X | Y

  /** The `'x' | 'y' | 'xy'` argument of `center` and `#fitsInContainer`. */
  datatype Direction = Along(axis: Axis) | Both

  datatype Point = Point(x: real, y: real)

  /** A bounding box as `getBoundingClientRect` reports it (viewport-relative). */
  datatype Rect = Rect(left: real, top: real, right: real, bottom: real, width: real, height: real)

  datatype Snapshot = Snapshot(
    element: Rect,       // the controlled element
    container: Rect,     // `document.body` in window mode, the offset parent in parent mode
    innerWidth: real,    // window size
    innerHeight: real,
    offsetLeft: real,    // the element's offset inside its offset parent
    offsetTop: real)

  function Coord(p: Point, a: Axis): real {
    if a == X then p.x else p.y
  }

  /** Leading edge (`left` / `top`) of a box along an axis. */
  function Lead(r: Rect, a: Axis): real {
    if a == X then r.left else r.top
  }

  /** Trailing edge (`right` / `bottom`) of a box along an axis. */
  function Far(r: Rect, a: Axis): real {
    if a == X then r.right else r.bottom
  }

  /** Size (`width` / `height`) of a box along an axis. */
  function Extent(r: Rect, a: Axis): real {
    if a == X then r.width else r.height
  }

  function InnerSize(g: Snapshot, a: Axis): real {
    if a == X then g.innerWidth else g.innerHeight
  }

  function OffsetLead(g: Snapshot, a: Axis): real {
    if a == X then g.offsetLeft else g.offsetTop
  }

  /** `#fitsInContainer`: the element is no larger than its container along
      every axis the direction names. */
  predicate FitsInContainer(g: Snapshot, d: Direction)
    ensures FitsInContainer(g, d) <==>
              forall a: Axis | d == Both || d == Along(a) :: Extent(g.element, a) <= Extent(g.container, a)
    decreases if d.Both? then 1 else 0
  {
    match d
    case Both => FitsInContainer(g, Along(X)) && FitsInContainer(g, Along(Y))
    case Along(a) => Extent(g.element, a) <= Extent(g.container, a)
  }

  /** `Math.max` on two numbers. */
  function Max(a: real, b: real): real {
    if a >= b then a else b
  }

  /** `Math.min` on two numbers. */
  function Min(a: real, b: real): real {
    if a <= b then a else b
  }

  /** `Math.abs`. */
  function Abs(v: real): real {
    if v < 0.0 then -v else v
  }

}
