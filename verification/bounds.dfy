/**
 * The bounds engine: centring, fitting the element to its container, and
 * zooming so that the element fits. Everything but `center` is a no-op unless
 * the element declares `data-bounds`.
 */
module Bounds {

  import opened Geometry
  import opened Settings
  import opened View

  /** The element's midpoint sits on the container's midpoint along `a`
      (offsets are measured from the container's leading edge). */
  predicate Centred(s: State, g: Snapshot, a: Axis) {
    Offset(s, a) + Extent(g.element, a) / 2.0 == Extent(g.container, a) / 2.0
  }

  /** `center`. The source tests `'x' || 'xy'` and then, in an `else if`,
      `'y' || 'xy'`, so `'xy'` only centres horizontally. */
  function Center(s: State, g: Snapshot, d: Direction): (r: State)
    ensures r.zoom == s.zoom && SameGesture(r, s)
    ensures d == Along(Y) ==> r.x == s.x && Centred(r, g, Y)
    ensures d != Along(Y) ==> r.y == s.y && Centred(r, g, X)
  {
    match d
    case Along(X) | Both => s.(x := g.container.width / 2.0 - g.element.width / 2.0)
    case Along(Y) => s.(y := g.container.height / 2.0 - g.element.height / 2.0)
  }

  /** Size of the box `fitToBounds` measures overflow against: the window in
      window mode, the offset parent in parent mode. */
  function OriginExtent(cfg: Config, g: Snapshot, a: Axis): real {
    if cfg.mode == Window then InnerSize(g, a) else Extent(g.container, a)
  }

  /** The source's `smallerWidth` / `smallerHeight`: the element is at least
      as large as the origin box along `a`. */
  predicate Overflows(cfg: Config, g: Snapshot, a: Axis) {
    Extent(g.element, a) >= OriginExtent(cfg, g, a)
  }

  /** The per-axis callback of `fitToBounds` for an overflowing axis, as a new
      offset: snap the offset to 0 when the leading edge is inside the origin
      box, then add the gap left at the trailing edge, if any. */
  function Settle(v: real, cfg: Config, g: Snapshot, a: Axis): real {
    if cfg.mode == Window then
      var snapped := if Lead(g.element, a) > 0.0 then 0.0 else v;
      var gap := InnerSize(g, a) - Far(g.element, a);
      if gap > 0.0 then snapped + gap else snapped
    else
      var gap := (Lead(g.container, a) + Extent(g.container, a))
                 - (Lead(g.element, a) + Extent(g.element, a));
      var snapped := if OffsetLead(g, a) > 0.0 then 0.0 else v;
      if gap > 0.0 then snapped + gap else snapped
  }

  /** `fitToBounds`. A fitting axis is centred in the container; an overflowing
      axis is settled by its own callback, which reads only that axis. */
  function FitToBounds(s: State, cfg: Config, g: Snapshot): (r: State)
    ensures !cfg.bounds ==> r == s
    ensures r.zoom == s.zoom && SameGesture(r, s)
    ensures cfg.bounds ==> forall a: Axis :: !Overflows(cfg, g, a) ==> Centred(r, g, a)
    ensures cfg.bounds ==> forall a: Axis :: Overflows(cfg, g, a) ==>
              Offset(r, a) == Settle(Offset(s, a), cfg, g, a)
  {
    if !cfg.bounds then s
    else
      var overflowX := Overflows(cfg, g, X);
      var overflowY := Overflows(cfg, g, Y);
      var s1 := if !overflowX then Center(s, g, Along(X)) else s;
      var s2 := if !overflowY then Center(s1, g, Along(Y)) else s1;
      var s3 := if overflowX then WithOffset(s2, X, Settle(s2.x, cfg, g, X)) else s2;
      if overflowY then WithOffset(s3, Y, Settle(s3.y, cfg, g, Y)) else s3
  }

  /** Along `a`, the element's box moved by `delta` covers the origin box:
      no gap at the leading edge and none at the trailing edge. In parent mode
      the leading edge is the source's `offsetLeft` / `offsetTop`. */
  predicate CoversAfter(cfg: Config, g: Snapshot, a: Axis, delta: real) {
    if cfg.mode == Window then
      Lead(g.element, a) + delta <= 0.0 && Far(g.element, a) + delta >= InnerSize(g, a)
    else
      OffsetLead(g, a) + delta <= 0.0
      && Lead(g.element, a) + Extent(g.element, a) + delta >= Lead(g.container, a) + Extent(g.container, a)
  }

  /** The element's box sits where its offset puts it: at the offset from the
      page origin in window mode, at the offset inside the parent otherwise. */
  predicate Consistent(s: State, cfg: Config, g: Snapshot, a: Axis) {
    if cfg.mode == Window then
      Lead(g.element, a) == Offset(s, a) && Far(g.element, a) == Lead(g.element, a) + Extent(g.element, a)
    else
      OffsetLead(g, a) == Offset(s, a) && Lead(g.element, a) == Lead(g.container, a) + OffsetLead(g, a)
  }

  /** An overflowing axis that already covers its origin box is left alone. */
  lemma FitToBoundsKeepsCoveringAxis(s: State, cfg: Config, g: Snapshot, a: Axis)
    requires cfg.bounds && Overflows(cfg, g, a) && CoversAfter(cfg, g, a, 0.0)
    ensures Offset(FitToBounds(s, cfg, g), a) == Offset(s, a)
  {
  }

  /** When the element's box follows its offset, fitting an overflowing axis
      leaves no gap at either edge of the origin box. */
  lemma FitToBoundsCovers(s: State, cfg: Config, g: Snapshot, a: Axis)
    requires cfg.bounds && Overflows(cfg, g, a) && Consistent(s, cfg, g, a)
    ensures CoversAfter(cfg, g, a, Offset(FitToBounds(s, cfg, g), a) - Offset(s, a))
  {
  }

  /** `zoomToFit` stores a number: the container has area, and the larger
      size ratio is not zero or the zoom is positive. (A positive zoom
      divided by a zero ratio is `Infinity`, which the minimum caps at 100; a
      zero or negative zoom would give `NaN` or `-Infinity`.) */
  predicate ZoomToFitDefined(s: State, cfg: Config, g: Snapshot) {
    !cfg.bounds
    || (g.container.width > 0.0 && g.container.height > 0.0
        && (s.zoom > 0.0 || Max(Ratio(g, X), Ratio(g, Y)) != 0.0))
  }

  /** A box whose width and height are not negative, as every box
      `getBoundingClientRect` reports. */
  predicate Sized(r: Rect) {
    r.width >= 0.0 && r.height >= 0.0
  }

  /** The element, scaled by `k`, fits in its container along both axes. */
  predicate FitsScaled(g: Snapshot, k: real) {
    forall a: Axis :: Extent(g.element, a) * k <= Extent(g.container, a)
  }

  /** The element, scaled by `k`, exactly fills its container along some axis. */
  predicate FillsScaled(g: Snapshot, k: real) {
    exists a: Axis :: Extent(g.element, a) * k == Extent(g.container, a)
  }

  function Ratio(g: Snapshot, a: Axis): real
    requires Extent(g.container, a) > 0.0
  {
    Extent(g.element, a) / Extent(g.container, a)
  }

  /** `zoomToFit`: scale so that the larger of the two size ratios becomes 1,
      but never above 100 percent. Only the zoom changes. */
  function ZoomToFit(s: State, cfg: Config, g: Snapshot): (r: State)
    requires ZoomToFitDefined(s, cfg, g)
    ensures !cfg.bounds ==> r == s
    ensures r.x == s.x && r.y == s.y && SameGesture(r, s)
    ensures cfg.bounds ==> r.zoom <= 100.0
    ensures cfg.bounds && s.zoom > 0.0 && Sized(g.element) ==>
              r.zoom > 0.0 && FitsScaled(g, r.zoom / s.zoom)
    ensures cfg.bounds && s.zoom > 0.0 && Sized(g.element) && r.zoom < 100.0 ==>
              FillsScaled(g, r.zoom / s.zoom)
    ensures cfg.bounds && g.element.width == 0.0 && g.element.height == 0.0 ==> r.zoom == 100.0
    ensures cfg.bounds && s.zoom == 0.0 ==> r.zoom == 0.0
    ensures cfg.bounds && s.zoom <= 0.0 && Sized(g.element) ==>
              r.zoom == s.zoom / Max(Ratio(g, X), Ratio(g, Y))
  {
    if !cfg.bounds then s
    else
      var widthFactor := Ratio(g, X);
      var heightFactor := Ratio(g, Y);
      // With a zero factor the division yields `Infinity`; the minimum is 100.
      var r := s.(zoom := if Max(widthFactor, heightFactor) == 0.0 then 100.0
                          else Min(100.0, s.zoom / Max(widthFactor, heightFactor)));
      if s.zoom > 0.0 && Sized(g.element) then
        EmptyOrPositiveRatio(g);
        if Max(widthFactor, heightFactor) > 0.0 then
          ScaledFit(g, s.zoom, r.zoom); ScaledFill(g, s.zoom, r.zoom); r
        else r
      else r
  }

  /** For a sized element, the larger ratio is zero exactly when the element
      has no extent at all, and positive otherwise. */
  lemma EmptyOrPositiveRatio(g: Snapshot)
    requires g.container.width > 0.0 && g.container.height > 0.0 && Sized(g.element)
    ensures Max(Ratio(g, X), Ratio(g, Y)) >= 0.0
    ensures Max(Ratio(g, X), Ratio(g, Y)) == 0.0 <==> g.element.width == 0.0 && g.element.height == 0.0
  {
    if g.element.width > 0.0 {
      assert Ratio(g, X) > 0.0;
    } else if g.element.height > 0.0 {
      assert Ratio(g, Y) > 0.0;
    } else {
      assert Ratio(g, X) == 0.0 && Ratio(g, Y) == 0.0;
    }
  }

  /** One axis of the fit: a ratio at most `m`, scaled by `k` with `k * m <= 1`. */
  lemma ScaledExtentFits(e: real, c: real, m: real, k: real)
    requires c > 0.0 && m > 0.0 && e / c <= m && k > 0.0 && k * m <= 1.0
    ensures e * k <= c
  {
    assert e <= m * c;
    if e >= 0.0 {
      assert e * k <= m * c * k;
      assert m * c * k == c * (k * m);
      assert c * (k * m) <= c;
    }
  }

  /** One axis of the fill: a ratio equal to `m`, scaled by `1 / m`. */
  lemma ScaledExtentFills(e: real, c: real, m: real, k: real)
    requires c > 0.0 && m > 0.0 && e / c == m && k * m == 1.0
    ensures e * k == c
  {
    assert e == m * c;
    assert e * k == c * (k * m);
  }

  /** Scaling by `zoom' / zoom` with `zoom' = min(100, zoom / m)` for the
      largest ratio `m` makes the element fit on both axes. */
  lemma ScaledFit(g: Snapshot, zoom: real, zoom': real)
    requires g.container.width > 0.0 && g.container.height > 0.0
    requires Max(Ratio(g, X), Ratio(g, Y)) > 0.0
    requires zoom > 0.0 && zoom' == Min(100.0, zoom / Max(Ratio(g, X), Ratio(g, Y)))
    ensures zoom' > 0.0 && FitsScaled(g, zoom' / zoom)
  {
    FitFactor(zoom, zoom', Max(Ratio(g, X), Ratio(g, Y)));
    ScaledExtentFits(Extent(g.element, X), Extent(g.container, X), Max(Ratio(g, X), Ratio(g, Y)), zoom' / zoom);
    ScaledExtentFits(Extent(g.element, Y), Extent(g.container, Y), Max(Ratio(g, X), Ratio(g, Y)), zoom' / zoom);
  }

  /** Below the cap, the same scale exactly fills the axis of the largest
      ratio. */
  lemma ScaledFill(g: Snapshot, zoom: real, zoom': real)
    requires g.container.width > 0.0 && g.container.height > 0.0
    requires Max(Ratio(g, X), Ratio(g, Y)) > 0.0
    requires zoom > 0.0 && zoom' == Min(100.0, zoom / Max(Ratio(g, X), Ratio(g, Y)))
    ensures zoom' < 100.0 ==> FillsScaled(g, zoom' / zoom)
  {
    if zoom' < 100.0 {
      FitFactor(zoom, zoom', Max(Ratio(g, X), Ratio(g, Y)));
      var a := if Ratio(g, X) >= Ratio(g, Y) then X else Y;
      ScaledExtentFills(Extent(g.element, a), Extent(g.container, a), Max(Ratio(g, X), Ratio(g, Y)), zoom' / zoom);
    }
  }

  /** The scale factor `zoom' / zoom` with `zoom' = min(100, zoom / m)` brings
      the ratio `m` to at most 1, and to exactly 1 below the cap. */
  lemma FitFactor(zoom: real, zoom': real, m: real)
    requires zoom > 0.0 && m > 0.0 && zoom' == Min(100.0, zoom / m)
    ensures zoom' > 0.0 && zoom' / zoom > 0.0
    ensures (zoom' / zoom) * m <= 1.0
    ensures zoom' < 100.0 ==> (zoom' / zoom) * m == 1.0
  {
    assert zoom / m > 0.0;
    assert (zoom' / zoom) * m * zoom == zoom' * m;
    assert zoom' * m <= zoom;
  }

  /** A 1000 x 750 element at 100 percent in an 800 x 600 container is zoomed
      to 80 percent. */
  lemma ZoomToFitScenario(s: State, cfg: Config, g: Snapshot)
    requires cfg.bounds && s.zoom == 100.0
    requires g.element.width == 1000.0 && g.element.height == 750.0
    requires g.container.width == 800.0 && g.container.height == 600.0
    ensures ZoomToFit(s, cfg, g).zoom == 80.0
  {
    assert Ratio(g, X) == 1.25 && Ratio(g, Y) == 1.25;
  }

  /** The zoom is capped at 100 percent: an element displayed at half the
      container's size at 50 percent is zoomed in to 100. */
  lemma ZoomToFitMayZoomIn(s: State, cfg: Config, g: Snapshot)
    requires cfg.bounds && s.zoom == 50.0
    requires g.element.width == 400.0 && g.element.height == 300.0
    requires g.container.width == 800.0 && g.container.height == 600.0
    ensures ZoomToFit(s, cfg, g).zoom == 100.0 > s.zoom
  {
    assert Ratio(g, X) == 0.5 && Ratio(g, Y) == 0.5;
  }

}
