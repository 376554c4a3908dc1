/**
 * The gesture state machine: pointer-down captures the drag anchor and
 * caches the pointer, pointer-move updates the cache and drags (one pointer)
 * or pinch-zooms (two pointers), pointer-up drops the anchor and the pointer.
 */
module Gesture {

  import opened Optional
  import opened Geometry
  import opened Settings
  import opened PointerCache
  import opened View
  import opened Bounds
  import opened Zoom

  /** `#onPointerDown`: the anchor is captured only when none exists; the
      pointer is appended to the cache. */
  function OnPointerDown(s: State, p: Pointer): (r: State)
    ensures r.x == s.x && r.y == s.y && r.zoom == s.zoom
    ensures r.pinchDistance == s.pinchDistance && r.interacting == s.interacting
    ensures |r.cache| == |s.cache| + 1 && r.cache[..|s.cache|] == s.cache && r.cache[|s.cache|] == p
    ensures r.anchor.Some?
    ensures s.anchor.Some? ==> r.anchor == s.anchor
    ensures s.anchor.None? ==> r.anchor == Some(Anchor(s.x, s.y, p.screenX, p.screenY))
  {
    var anchor := if s.anchor.None? then Some(Anchor(s.x, s.y, p.screenX, p.screenY)) else s.anchor;
    s.(anchor := anchor, cache := s.cache + [p])
  }

  /** `#onPointerUp`, without the deferred clearing of the interaction flag
      (see `DebounceElapsed`): the anchor is dropped, the pointer removed,
      and the cached pinch distance forgotten below two pointers. */
  function OnPointerUp(s: State, p: Pointer): (r: State)
    ensures r.x == s.x && r.y == s.y && r.zoom == s.zoom && r.interacting == s.interacting
    ensures r.anchor.None?
    ensures r.cache == Remove(s.cache, p.id)
    ensures IndexOf(s.cache, p.id).Some? ==> |r.cache| == |s.cache| - 1
    ensures IndexOf(s.cache, p.id).None? ==> r.cache == s.cache
    ensures |r.cache| < 2 ==> r.pinchDistance == -1.0
    ensures |r.cache| >= 2 ==> r.pinchDistance == s.pinchDistance
  {
    var cache := Remove(s.cache, p.id);
    s.(anchor := None,
       cache := cache,
       pinchDistance := if |cache| < 2 then -1.0 else s.pinchDistance)
  }

  /** The timer callback scheduled by pointer-up, once its delay has passed. */
  function DebounceElapsed(s: State): (r: State)
    ensures !IsInteracting(r)
    ensures r == s.(interacting := false)
  {
    s.(interacting := false)
  }

  /** A pointer pressed and released again leaves the cache as it was and no
      drag anchor behind. */
  lemma PointerDownUpRoundTrip(s: State, p: Pointer)
    requires IndexOf(s.cache, p.id).None?
    ensures var r := OnPointerUp(OnPointerDown(s, p), p);
            r.cache == s.cache && r.anchor.None?
            && r.x == s.x && r.y == s.y && r.zoom == s.zoom
  {
    RemoveAfterAppend(s.cache, p);
  }

  /** The drag proceeds: dragging is enabled, an anchor exists, and the event
      has no target or the target of the first cached pointer. */
  predicate DragApplies(s: State, cfg: Config, p: Pointer)
    requires |s.cache| >= 1
  {
    cfg.draggable && s.anchor.Some? && !(p.target.Some? && p.target != s.cache[0].target)
  }

  /** The offset a drag proposes: the anchor offset plus the pointer's
      screen displacement since the anchor was captured. */
  function Proposed(k: Anchor, p: Pointer, a: Axis): real {
    Screen(p, a) - AnchorPointer(k, a) + AnchorElement(k, a)
  }

  /** `v` is the point of `[lo, hi]` nearest to `want`. */
  predicate NearestIn(v: real, lo: real, hi: real, want: real) {
    lo <= v <= hi
    && (lo <= want <= hi ==> v == want)
    && (want > hi ==> v == hi)
    && (want < lo ==> v == lo)
  }

  function DragAxis(s: State, cfg: Config, g: Snapshot, k: Anchor, p: Pointer, a: Axis): real {
    var proposed := Proposed(k, p, a);
    if !cfg.bounds then proposed
    else if !FitsInContainer(g, Along(a)) then
      var capped := Min(0.0, proposed);
      Max(Extent(g.container, a) - Extent(g.element, a), capped)
    else Offset(s, a)
  }

  /** `#handleSinglePointerMove`. */
  function SinglePointerMove(s: State, cfg: Config, g: Snapshot, p: Pointer): (r: State)
    requires |s.cache| >= 1
    ensures !DragApplies(s, cfg, p) ==> r == s
    ensures r.zoom == s.zoom && r.anchor == s.anchor && r.cache == s.cache
    ensures r.pinchDistance == s.pinchDistance
    ensures DragApplies(s, cfg, p) ==>
              var k := s.anchor.value;
              r.interacting == (s.interacting
                || Abs(p.screenX - k.pointerX) > 1.0 || Abs(p.screenY - k.pointerY) > 1.0)
    ensures DragApplies(s, cfg, p) && !cfg.bounds ==>
              forall a: Axis :: Offset(r, a) - AnchorElement(s.anchor.value, a)
                                == Screen(p, a) - AnchorPointer(s.anchor.value, a)
    ensures DragApplies(s, cfg, p) && cfg.bounds ==>
              forall a: Axis :: FitsInContainer(g, Along(a)) ==> Offset(r, a) == Offset(s, a)
    ensures DragApplies(s, cfg, p) && cfg.bounds ==>
              forall a: Axis :: !FitsInContainer(g, Along(a)) ==>
                NearestIn(Offset(r, a), Extent(g.container, a) - Extent(g.element, a), 0.0,
                          Proposed(s.anchor.value, p, a))
  {
    if !cfg.draggable then s
    else if s.anchor.None? then s
    else if p.target.Some? && p.target != s.cache[0].target then s
    else
      var k := s.anchor.value;
      var moved := Abs(p.screenX - k.pointerX) > 1.0 || Abs(p.screenY - k.pointerY) > 1.0;
      s.(x := DragAxis(s, cfg, g, k, p, X),
         y := DragAxis(s, cfg, g, k, p, Y),
         interacting := if moved then true else s.interacting)
  }

  /** `d` is the Euclidean distance between the two pointers' client positions. */
  predicate IsDistance(d: real, p: Pointer, q: Pointer) {
    var dx := q.clientX - p.clientX;
    var dy := q.clientY - p.clientY;
    d >= 0.0 && d * d == dx * dx + dy * dy
  }

  /** The pinch zooms: a distance is cached and the new one differs from it
      by more than 1. */
  predicate PinchFires(s: State, d: real) {
    s.pinchDistance > 0.0 && Abs(d - s.pinchDistance) > 1.0
  }

  /** The zooming branch of `#handleDoublePointerMove`: zoom by the ratio of
      the new distance to the cached one about the first pointer, fit to the
      bounds, raise the interaction flag and cache the new distance. */
  function Pinch(s: State, cfg: Config, g: Snapshot, g': Snapshot, d: real): (r: State)
    requires |s.cache| >= 1 && PinchFires(s, d)
    ensures r.pinchDistance == d && r.interacting
    ensures r.cache == s.cache && r.anchor == s.anchor
    ensures r.zoom == Scale(PolicyOf(cfg, g), s.zoom, d / s.pinchDistance)
    ensures Rejects(s, cfg, g, d / s.pinchDistance) ==> r.zoom == s.zoom
    ensures !cfg.bounds && Rejects(s, cfg, g, d / s.pinchDistance) ==>
              r == s.(pinchDistance := d, interacting := true)
    ensures !cfg.bounds && !Rejects(s, cfg, g, d / s.pinchDistance) ==>
              AnchorStays(s, r, g, d / s.pinchDistance, Client(s.cache[0]))
    ensures cfg.bounds ==> forall a: Axis :: !Overflows(cfg, g', a) ==> Centred(r, g', a)
    ensures cfg.bounds ==> forall a: Axis :: Overflows(cfg, g', a) ==>
              Offset(r, a) == Settle(Offset(ZoomAt(s, cfg, g, d / s.pinchDistance, Client(s.cache[0])), a), cfg, g', a)
  {
    // The source raises the flag before zooming; neither `zoomAt` nor
    // `fitToBounds` reads or writes it, so it is set afterwards here.
    var zoomed := ZoomAndFit(s, cfg, g, g', d / s.pinchDistance, Client(s.cache[0]));
    zoomed.(interacting := true, pinchDistance := d)
  }

  /** `#handleDoublePointerMove`; `g` is the geometry before the zoom is
      applied and `g'` the geometry after it. */
  function DoublePointerMove(s: State, cfg: Config, g: Snapshot, g': Snapshot, d: real): (r: State)
    requires |s.cache| >= 2 && IsDistance(d, s.cache[0], s.cache[1])
    ensures r.pinchDistance == d
    ensures r.cache == s.cache && r.anchor == s.anchor
    ensures !PinchFires(s, d) ==> r == s.(pinchDistance := d)
    ensures PinchFires(s, d) ==> r.interacting
    ensures PinchFires(s, d) ==> r.zoom == Scale(PolicyOf(cfg, g), s.zoom, d / s.pinchDistance)
    ensures PinchFires(s, d) && Rejects(s, cfg, g, d / s.pinchDistance) ==> r.zoom == s.zoom
    ensures PinchFires(s, d) && !cfg.bounds && Rejects(s, cfg, g, d / s.pinchDistance) ==>
              r == s.(pinchDistance := d, interacting := true)
    ensures PinchFires(s, d) && !cfg.bounds && !Rejects(s, cfg, g, d / s.pinchDistance) ==>
              AnchorStays(s, r, g, d / s.pinchDistance, Client(s.cache[0]))
    ensures PinchFires(s, d) && cfg.bounds ==>
              forall a: Axis :: !Overflows(cfg, g', a) ==> Centred(r, g', a)
    ensures PinchFires(s, d) && cfg.bounds ==>
              forall a: Axis :: Overflows(cfg, g', a) ==>
                Offset(r, a) == Settle(Offset(ZoomAt(s, cfg, g, d / s.pinchDistance, Client(s.cache[0])), a), cfg, g', a)
  {
    if s.pinchDistance > 0.0 && Abs(d - s.pinchDistance) > 1.0 then Pinch(s, cfg, g, g', d)
    else s.(pinchDistance := d)
  }

  /** An accepted zoom by the ratio `d / q` multiplies the zoom by `d` and
      divides it by `q`. */
  lemma ScaleByRatio(pol: Policy, zoom: real, d: real, q: real)
    requires q > 0.0
    ensures !Refuses(pol, zoom, d / q) ==> Scale(pol, zoom, d / q) * q == zoom * d
  {
    assert (d / q) * q == d;
    assert (zoom * (d / q)) * q == zoom * ((d / q) * q);
  }

  /** An accepted pinch scales the zoom by exactly the ratio of the new
      distance to the cached one. */
  lemma PinchFollowsDistance(s: State, cfg: Config, g: Snapshot, g': Snapshot, d: real)
    requires |s.cache| >= 2 && IsDistance(d, s.cache[0], s.cache[1])
    requires PinchFires(s, d) && !Rejects(s, cfg, g, d / s.pinchDistance)
    ensures DoublePointerMove(s, cfg, g, g', d).zoom * s.pinchDistance == s.zoom * d
  {
    ScaleByRatio(PolicyOf(cfg, g), s.zoom, d, s.pinchDistance);
  }

  /** Pointers moving apart zoom in and pointers moving together zoom out,
      whenever the pinch fires, the limits accept it and the zoom is positive. */
  lemma PinchDirection(s: State, cfg: Config, g: Snapshot, g': Snapshot, d: real)
    requires |s.cache| >= 2 && IsDistance(d, s.cache[0], s.cache[1])
    requires PinchFires(s, d) && !Rejects(s, cfg, g, d / s.pinchDistance) && s.zoom > 0.0
    ensures d > s.pinchDistance ==> DoublePointerMove(s, cfg, g, g', d).zoom > s.zoom
    ensures d < s.pinchDistance ==> DoublePointerMove(s, cfg, g, g', d).zoom < s.zoom
  {
    PinchFollowsDistance(s, cfg, g, g', d);
    CrossMultiplied(DoublePointerMove(s, cfg, g, g', d).zoom, s.zoom, s.pinchDistance, d);
  }

  /** If `z * p == z0 * d` with `p` and `z0` positive, `z` exceeds `z0`
      exactly when `d` exceeds `p`. */
  lemma CrossMultiplied(z: real, z0: real, p: real, d: real)
    requires p > 0.0 && z0 > 0.0 && z * p == z0 * d
    ensures d > p ==> z > z0
    ensures d < p ==> z < z0
  {
    if d > p {
      assert z * p > z0 * p;
    } else if d < p {
      assert z * p < z0 * p;
    }
  }

  /** `#onPointerMove`: update the cache, then drag with one pointer, pinch
      with two, and do nothing else otherwise. `d` is the distance between
      the first two cached pointers after the update. */
  function OnPointerMove(s: State, cfg: Config, g: Snapshot, g': Snapshot, p: Pointer, d: real): (r: State)
    requires |s.cache| == 2 ==> IsDistance(d, Update(s.cache, p)[0], Update(s.cache, p)[1])
    ensures r.cache == Update(s.cache, p)
    ensures |s.cache| != 1 && |s.cache| != 2 ==> r == s.(cache := Update(s.cache, p))
    ensures |s.cache| == 1 ==> r.zoom == s.zoom && r.pinchDistance == s.pinchDistance
    ensures |s.cache| == 2 ==> r.pinchDistance == d && r.anchor == s.anchor
    ensures |s.cache| == 1 && !DragApplies(s.(cache := Update(s.cache, p)), cfg, p) ==>
              r == s.(cache := Update(s.cache, p))
    ensures |s.cache| == 1 && DragApplies(s.(cache := Update(s.cache, p)), cfg, p) && !cfg.bounds ==>
              forall a: Axis :: Offset(r, a) - AnchorElement(s.anchor.value, a)
                                == Screen(p, a) - AnchorPointer(s.anchor.value, a)
    ensures |s.cache| == 2 && !PinchFires(s, d) ==>
              r == s.(cache := Update(s.cache, p), pinchDistance := d)
    ensures |s.cache| == 2 && PinchFires(s, d) ==>
              r.interacting && r.zoom == Scale(PolicyOf(cfg, g), s.zoom, d / s.pinchDistance)
    ensures |s.cache| == 1 ==> r == SinglePointerMove(s.(cache := Update(s.cache, p)), cfg, g, p)
    ensures |s.cache| == 2 ==> r == DoublePointerMove(s.(cache := Update(s.cache, p)), cfg, g, g', d)
  {
    var s1 := s.(cache := Update(s.cache, p));
    if |s1.cache| == 1 then SinglePointerMove(s1, cfg, g, p)
    else if |s1.cache| == 2 then DoublePointerMove(s1, cfg, g, g', d)
    else s1
  }

  /** Pressing a pointer on an element with no drag in progress and then
      moving the same pointer, with dragging on and no bounds, moves the
      element by the pointer's screen displacement. */
  lemma PressThenDrag(s: State, cfg: Config, g: Snapshot, g': Snapshot, p: Pointer, p': Pointer, d: real)
    requires s.cache == [] && s.anchor.None?
    requires p'.id == p.id && cfg.draggable && !cfg.bounds
    ensures var r := OnPointerMove(OnPointerDown(s, p), cfg, g, g', p', d);
            r.x == s.x + (p'.screenX - p.screenX) && r.y == s.y + (p'.screenY - p.screenY)
            && r.zoom == s.zoom && r.cache == [p']
  {
    var s1 := OnPointerDown(s, p);
    assert s1.cache == [p];
    IndexOfIsFirst(s1.cache, p'.id, 0);
    assert Update(s1.cache, p') == [p'];
    assert DragApplies(s1.(cache := Update(s1.cache, p')), cfg, p');
    var r := OnPointerMove(s1, cfg, g, g', p', d);
    assert Offset(r, X) - AnchorElement(s1.anchor.value, X) == Screen(p', X) - AnchorPointer(s1.anchor.value, X);
    assert Offset(r, Y) - AnchorElement(s1.anchor.value, Y) == Screen(p', Y) - AnchorPointer(s1.anchor.value, Y);
  }

  /** A drag from screen (100, 100) to (150, 130) with the anchor offset at
      the origin and no bounds moves the element to (50, 30). */
  lemma DragScenario(s: State, cfg: Config, g: Snapshot, p: Pointer)
    requires cfg.draggable && !cfg.bounds && |s.cache| >= 1 && p.target.None?
    requires s.anchor == Some(Anchor(0.0, 0.0, 100.0, 100.0))
    requires p.screenX == 150.0 && p.screenY == 130.0
    ensures var r := SinglePointerMove(s, cfg, g, p);
            r.x == 50.0 && r.y == 30.0 && r.interacting
  {
  }

}
