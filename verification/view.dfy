/**
 * The controller's state record: the transform (`#values`), the drag anchor,
 * the pointer cache, the cached pinch distance and the interaction flag,
 * with the public accessors of the transform.
 */
module View {

  import opened Optional
  import opened Geometry
  import opened PointerCache

  /** `#draggingStartPosition`: the transform offset and the pointer's screen
      position when the drag began. */
  datatype Anchor = Anchor(elementX: real, elementY: real, pointerX: real, pointerY: real)

  datatype State = State(
    x: real,
    y: real,
    zoom: real,                 // percent; 100 is the natural size
    anchor: Option<Anchor>,
    cache: seq<Pointer>,
    pinchDistance: real,        // -1 when no distance is cached
    interacting: bool)

  /** The state of a freshly constructed controller. */
  const Initial := State(0.0, 0.0, 100.0, None, [], -1.0, false)

  function Offset(s: State, a: Axis): real {
    if a == X then s.x else s.y
  }

  function AnchorElement(k: Anchor, a: Axis): real {
    if a == X then k.elementX else k.elementY
  }

  function AnchorPointer(k: Anchor, a: Axis): real {
    if a == X then k.pointerX else k.pointerY
  }

  /** The gesture part of two states agrees. */
  predicate SameGesture(s: State, t: State) {
    s.anchor == t.anchor && s.cache == t.cache
    && s.pinchDistance == t.pinchDistance && s.interacting == t.interacting
  }

  function GetZoom(s: State): real {
    s.zoom
  }

  function GetPos(s: State): Point {
    Point(s.x, s.y)
  }

  function IsInteracting(s: State): bool {
    s.interacting
  }

  /** `reset`: back to the untransformed element; gestures are not touched. */
  function Reset(s: State): (r: State)
    ensures GetZoom(r) == 100.0 && GetPos(r) == Point(0.0, 0.0)
    ensures GetZoom(r) == GetZoom(Initial) && GetPos(r) == GetPos(Initial)
    ensures SameGesture(r, s)
  {
    s.(x := 0.0, y := 0.0, zoom := 100.0)
  }

  /** `setZoom`: no validation; reading the zoom back gives the value set. */
  function SetZoom(s: State, v: real): (r: State)
    ensures GetZoom(r) == v
    ensures GetPos(r) == GetPos(s) && SameGesture(r, s)
  {
    s.(zoom := v)
  }

  /** `setPos`: no validation; reading the position back gives the value set. */
  function SetPos(s: State, p: Point): (r: State)
    ensures GetPos(r) == p
    ensures GetZoom(r) == GetZoom(s) && SameGesture(r, s)
  {
    s.(x := p.x, y := p.y)
  }

  /** `getZoom` reads back what `setZoom` stored, and storing what was read
      changes nothing. */
  lemma ZoomRoundTrip(s: State, v: real)
    ensures GetZoom(SetZoom(s, v)) == v
    ensures SetZoom(s, GetZoom(s)) == s
  {
  }

  /** `getPos` reads back what `setPos` stored, and storing what was read
      changes nothing. */
  lemma PosRoundTrip(s: State, p: Point)
    ensures GetPos(SetPos(s, p)) == p
    ensures SetPos(s, GetPos(s)) == s
  {
  }

  /** `isInteracting` reports the flag, which the public setters and `reset`
      leave as it was. */
  lemma InteractingUntouched(s: State, v: real, p: Point, b: bool)
    ensures IsInteracting(s.(interacting := b)) == b
    ensures IsInteracting(SetZoom(s, v)) == IsInteracting(s)
    ensures IsInteracting(SetPos(s, p)) == IsInteracting(s)
    ensures IsInteracting(Reset(s)) == IsInteracting(s)
  {
  }

  /** A fresh controller shows the element untransformed, with no gesture. */
  lemma InitialState()
    ensures GetZoom(Initial) == 100.0 && GetPos(Initial) == Point(0.0, 0.0)
    ensures !IsInteracting(Initial) && Initial.anchor.None? && Initial.cache == []
  {
  }

  /** Setting a coordinate through an axis. */
  function WithOffset(s: State, a: Axis, v: real): (r: State)
    ensures Offset(r, a) == v
    ensures forall b: Axis :: b != a ==> Offset(r, b) == Offset(s, b)
    ensures r.zoom == s.zoom && SameGesture(r, s)
  {
    if a == X then s.(x := v) else s.(y := v)
  }

}
