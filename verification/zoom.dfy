/**
 * The zoom engine: `zoomAt` scales the element by an amplitude about an
 * anchor point, unless the zoom-limit policy rejects the request.
 */
module Zoom {

  import opened Geometry
  import opened Settings
  import opened View
  import opened Bounds

  /** What the limit policy of one request depends on: the two zoom limits
      and whether the element currently fits its container on both axes. */
  datatype Policy = Policy(minZoom: Limit, maxZoom: Limit, fits: bool)

  function PolicyOf(cfg: Config, g: Snapshot): Policy {
    Policy(ZoomLimit(cfg, MinZoom), ZoomLimit(cfg, MaxZoom), FitsInContainer(g, Both))
  }

  /** The four ways the limit policy turns a request into a no-op. A `"fit"`
      limit blocks zooming in its direction while the element fits on both
      axes; a numeric limit blocks a result at or beyond it. */
  predicate Refuses(p: Policy, zoom: real, amplitude: real) {
    || (amplitude < 1.0 && p.minZoom == Fit && p.fits)
    || (amplitude > 1.0 && p.maxZoom == Fit && p.fits)
    || (amplitude < 1.0 && AtOrBelow(zoom * amplitude, p.minZoom))
    || (amplitude > 1.0 && AtOrAbove(zoom * amplitude, p.maxZoom))
  }

  /** `Refuses` for the state's zoom under the configured limits and the
      snapshot's fit. */
  predicate Rejects(s: State, cfg: Config, g: Snapshot, amplitude: real) {
    Refuses(PolicyOf(cfg, g), s.zoom, amplitude)
  }

  /** The zoom level a request leads to under policy `p`. */
  function Scale(p: Policy, zoom: real, amplitude: real): real {
    if Refuses(p, zoom, amplitude) then zoom else zoom * amplitude
  }

  /** The anchor point is at the same place before and after the scale: the
      element's leading edge moves with the offset, and the anchor's distance
      from that edge grows by the amplitude. */
  predicate AnchorStays(s: State, r: State, g: Snapshot, amplitude: real, pos: Point) {
    forall a: Axis ::
      (Lead(g.element, a) + Offset(r, a) - Offset(s, a)) + (Coord(pos, a) - Lead(g.element, a)) * amplitude
      == Coord(pos, a)
  }

  /** `zoomAt`: the four early returns of the limit policy, then the offset
      update that keeps `pos` in place and the multiplication of the zoom. */
  function ZoomAt(s: State, cfg: Config, g: Snapshot, amplitude: real, pos: Point): (r: State)
    ensures SameGesture(r, s)
    ensures r.zoom == Scale(PolicyOf(cfg, g), s.zoom, amplitude)
    ensures Rejects(s, cfg, g, amplitude) ==> r == s
    ensures !Rejects(s, cfg, g, amplitude) ==> AnchorStays(s, r, g, amplitude, pos)
  {
    var minZoom := ZoomLimit(cfg, MinZoom);
    var maxZoom := ZoomLimit(cfg, MaxZoom);
    if amplitude < 1.0 && minZoom == Fit && FitsInContainer(g, Both) then s
    else if amplitude > 1.0 && maxZoom == Fit && FitsInContainer(g, Both) then s
    else if amplitude < 1.0 && minZoom != Fit && AtOrBelow(s.zoom * amplitude, minZoom) then s
    else if amplitude > 1.0 && maxZoom != Fit && AtOrAbove(s.zoom * amplitude, maxZoom) then s
    else
      var rect := g.element;
      s.(x := (pos.x - (rect.left - s.x)) - (pos.x - rect.left) * amplitude,
         y := (pos.y - (rect.top - s.y)) - (pos.y - rect.top) * amplitude,
         zoom := s.zoom * amplitude)
  }

  /** Amplitude 1 is never rejected and changes nothing. */
  lemma ZoomAtIdentity(s: State, cfg: Config, g: Snapshot, pos: Point)
    ensures ZoomAt(s, cfg, g, 1.0, pos) == s
  {
  }

  /** Zooming about the element's own top-left corner keeps the offset. */
  lemma ZoomAtTopLeftKeepsOffset(s: State, cfg: Config, g: Snapshot, amplitude: real)
    requires !Rejects(s, cfg, g, amplitude)
    ensures var r := ZoomAt(s, cfg, g, amplitude, Point(g.element.left, g.element.top));
            r.x == s.x && r.y == s.y && r.zoom == s.zoom * amplitude
  {
  }

  /** With numeric limits, a positive zoom strictly between them stays there
      under any positive amplitude. */
  lemma ScaleStaysWithinLimits(p: Policy, zoom: real, amplitude: real, lo: int, hi: int)
    requires p.minZoom == Num(lo) && p.maxZoom == Num(hi)
    requires lo as real < zoom < hi as real && zoom > 0.0 && amplitude > 0.0
    ensures lo as real < Scale(p, zoom, amplitude) < hi as real
    ensures Scale(p, zoom, amplitude) > 0.0
  {
    if amplitude < 1.0 {
      ScaledBelow(zoom, amplitude);
    } else if amplitude > 1.0 {
      ScaledAbove(zoom, amplitude);
    }
  }

  /** A positive zoom scaled by an amplitude in (0, 1) shrinks but stays
      positive. */
  lemma ScaledBelow(zoom: real, amplitude: real)
    requires zoom > 0.0 && 0.0 < amplitude < 1.0
    ensures 0.0 < zoom * amplitude < zoom
  {
    assert zoom - zoom * amplitude == zoom * (1.0 - amplitude);
  }

  /** A positive zoom scaled by an amplitude above 1 grows. */
  lemma ScaledAbove(zoom: real, amplitude: real)
    requires zoom > 0.0 && amplitude > 1.0
    ensures zoom * amplitude > zoom
  {
    assert zoom * amplitude - zoom == zoom * (amplitude - 1.0);
  }

  /** `ScaleStaysWithinLimits` for the state `zoomAt` produces. */
  lemma ZoomAtStaysWithinLimits(s: State, cfg: Config, g: Snapshot, amplitude: real, pos: Point,
                                lo: int, hi: int)
    requires ZoomLimit(cfg, MinZoom) == Num(lo) && ZoomLimit(cfg, MaxZoom) == Num(hi)
    requires lo as real < s.zoom < hi as real && s.zoom > 0.0 && amplitude > 0.0
    ensures var r := ZoomAt(s, cfg, g, amplitude, pos);
            lo as real < r.zoom < hi as real && r.zoom > 0.0
  {
    ScaleStaysWithinLimits(PolicyOf(cfg, g), s.zoom, amplitude, lo, hi);
  }

  /** Zooming by `a` and then by `1 / a` about the same point, with the
      element's box following the offset in between, restores the transform. */
  lemma ZoomAtInverse(s: State, cfg: Config, g: Snapshot, g': Snapshot, amplitude: real, pos: Point)
    requires amplitude > 0.0
    requires !Rejects(s, cfg, g, amplitude)
    requires var s1 := ZoomAt(s, cfg, g, amplitude, pos);
             !Rejects(s1, cfg, g', 1.0 / amplitude)
             && g'.element.left == g.element.left + (s1.x - s.x)
             && g'.element.top == g.element.top + (s1.y - s.y)
    ensures var s1 := ZoomAt(s, cfg, g, amplitude, pos);
            ZoomAt(s1, cfg, g', 1.0 / amplitude, pos) == s
  {
    var s1 := ZoomAt(s, cfg, g, amplitude, pos);
    InverseFactor(s.zoom, s1.zoom, amplitude);
    var s2 := ZoomAt(s1, cfg, g', 1.0 / amplitude, pos);
    AnchorInverse(s, s1, s2, g, g', amplitude, pos, X);
    AnchorInverse(s, s1, s2, g, g', amplitude, pos, Y);
  }

  /** One axis of `ZoomAtInverse`: two scalings that each keep the anchor in
      place, the second by the reciprocal amplitude and seeing the element's
      box moved by the first, restore the offset. */
  lemma AnchorInverse(s: State, s1: State, s2: State, g: Snapshot, g': Snapshot, amplitude: real,
                      pos: Point, a: Axis)
    requires amplitude > 0.0
    requires AnchorStays(s, s1, g, amplitude, pos) && AnchorStays(s1, s2, g', 1.0 / amplitude, pos)
    requires Lead(g'.element, a) == Lead(g.element, a) + (Offset(s1, a) - Offset(s, a))
    ensures Offset(s2, a) == Offset(s, a)
  {
    InverseOffset(Lead(g.element, a), Lead(g'.element, a), Coord(pos, a),
                  Offset(s, a), Offset(s1, a), Offset(s2, a), amplitude);
  }

  /** Scaling by `a` and then by `1 / a` restores a value. */
  lemma InverseFactor(v: real, v1: real, amplitude: real)
    requires amplitude > 0.0 && v1 == v * amplitude
    ensures v1 * (1.0 / amplitude) == v
  {
    assert (v * amplitude) * (1.0 / amplitude) == v * (amplitude * (1.0 / amplitude));
  }

  /** One axis of `ZoomAtInverse`: anchor invariance of both steps pins the
      final offset to the initial one. */
  lemma InverseOffset(lead: real, lead': real, p: real, v: real, v1: real, v2: real, amplitude: real)
    requires amplitude > 0.0
    requires lead' == lead + (v1 - v)
    requires (lead + v1 - v) + (p - lead) * amplitude == p
    requires (lead' + v2 - v1) + (p - lead') * (1.0 / amplitude) == p
    ensures v2 == v
  {
    InverseFactor(p - lead, p - lead', amplitude);
  }

  /** The sequence both input handlers run: `zoomAt`, `apply`, `fitToBounds`,
      `apply`. `g` is the geometry `zoomAt` reads and `g'` the geometry after
      the first `apply`, which `fitToBounds` reads. */
  function ZoomAndFit(s: State, cfg: Config, g: Snapshot, g': Snapshot, amplitude: real, pos: Point): (r: State)
    ensures SameGesture(r, s)
    ensures r.zoom == Scale(PolicyOf(cfg, g), s.zoom, amplitude)
    ensures !cfg.bounds && Rejects(s, cfg, g, amplitude) ==> r == s
    ensures !cfg.bounds && !Rejects(s, cfg, g, amplitude) ==> AnchorStays(s, r, g, amplitude, pos)
    ensures cfg.bounds ==> forall a: Axis :: !Overflows(cfg, g', a) ==> Centred(r, g', a)
    ensures cfg.bounds ==> forall a: Axis :: Overflows(cfg, g', a) ==>
              Offset(r, a) == Settle(Offset(ZoomAt(s, cfg, g, amplitude, pos), a), cfg, g', a)
  {
    FitToBounds(ZoomAt(s, cfg, g, amplitude, pos), cfg, g')
  }

  /** One request of a sequence of zooms, with the geometry it sees. */
  datatype ZoomRequest = ZoomRequest(amplitude: real, anchor: Point, geometry: Snapshot)

  function ZoomAll(s: State, cfg: Config, reqs: seq<ZoomRequest>): State
    decreases |reqs|
  {
    if |reqs| == 0 then s
    else ZoomAll(ZoomAt(s, cfg, reqs[0].geometry, reqs[0].amplitude, reqs[0].anchor), cfg, reqs[1..])
  }

  /** The zoom level alone through the same sequence: rejection depends on
      the zoom level, the limits and the geometry, never on the offset. */
  function ScaleAll(zoom: real, cfg: Config, reqs: seq<ZoomRequest>): real
    decreases |reqs|
  {
    if |reqs| == 0 then zoom
    else ScaleAll(Scale(PolicyOf(cfg, reqs[0].geometry), zoom, reqs[0].amplitude), cfg, reqs[1..])
  }

  /** No request of the sequence, started at zoom level `zoom`, is rejected
      by the limit policy. */
  predicate AllAccepted(zoom: real, cfg: Config, reqs: seq<ZoomRequest>)
    decreases |reqs|
  {
    |reqs| == 0
    || (!Refuses(PolicyOf(cfg, reqs[0].geometry), zoom, reqs[0].amplitude)
        && AllAccepted(zoom * reqs[0].amplitude, cfg, reqs[1..]))
  }

  function Product(reqs: seq<ZoomRequest>): real
    decreases |reqs|
  {
    if |reqs| == 0 then 1.0 else reqs[0].amplitude * Product(reqs[1..])
  }

  /** The zoom after a sequence of requests is the zoom level `ScaleAll`
      tracks. */
  lemma {:induction false} ZoomAllTracksScale(s: State, cfg: Config, reqs: seq<ZoomRequest>)
    ensures ZoomAll(s, cfg, reqs).zoom == ScaleAll(s.zoom, cfg, reqs)
    decreases |reqs|
  {
    if |reqs| > 0 {
      var q := reqs[0];
      ZoomAllTracksScale(ZoomAt(s, cfg, q.geometry, q.amplitude, q.anchor), cfg, reqs[1..]);
    }
  }

  /** The zoom level reached if every request of the sequence is applied. */
  function Compound(zoom: real, reqs: seq<ZoomRequest>): real
    decreases |reqs|
  {
    if |reqs| == 0 then zoom else Compound(zoom * reqs[0].amplitude, reqs[1..])
  }

  /** Along an accepted sequence the tracked zoom level is the compounded one. */
  lemma {:induction false} ScaleAllCompounds(zoom: real, cfg: Config, reqs: seq<ZoomRequest>)
    ensures AllAccepted(zoom, cfg, reqs) ==> ScaleAll(zoom, cfg, reqs) == Compound(zoom, reqs)
    decreases |reqs|
  {
    if |reqs| > 0 && AllAccepted(zoom, cfg, reqs) {
      AcceptedStep(zoom, cfg, reqs);
      ScaleAllCompounds(zoom * reqs[0].amplitude, cfg, reqs[1..]);
    }
  }

  /** Compounding the amplitudes multiplies by their product. */
  lemma {:induction false} CompoundMultiplies(zoom: real, reqs: seq<ZoomRequest>)
    ensures Compound(zoom, reqs) == zoom * Product(reqs)
    decreases |reqs|
  {
    if |reqs| > 0 {
      CompoundMultiplies(zoom * reqs[0].amplitude, reqs[1..]);
      Associate(zoom, reqs[0].amplitude, Product(reqs[1..]));
    }
  }

  /** The first request of an accepted sequence scales the zoom level by its
      amplitude and leaves an accepted rest. */
  lemma AcceptedStep(zoom: real, cfg: Config, reqs: seq<ZoomRequest>)
    requires |reqs| > 0 && AllAccepted(zoom, cfg, reqs)
    ensures AllAccepted(zoom * reqs[0].amplitude, cfg, reqs[1..])
    ensures ScaleAll(zoom, cfg, reqs) == ScaleAll(zoom * reqs[0].amplitude, cfg, reqs[1..])
  {
    var p := PolicyOf(cfg, reqs[0].geometry);
    assert Scale(p, zoom, reqs[0].amplitude) == zoom * reqs[0].amplitude;
  }

  /** After a sequence of accepted zooms the zoom is the initial zoom times
      the product of the amplitudes. */
  lemma ZoomAllMultiplies(s: State, cfg: Config, reqs: seq<ZoomRequest>)
    requires AllAccepted(s.zoom, cfg, reqs)
    ensures ZoomAll(s, cfg, reqs).zoom == s.zoom * Product(reqs)
  {
    ZoomAllTracksScale(s, cfg, reqs);
    ScaleAllCompounds(s.zoom, cfg, reqs);
    CompoundMultiplies(s.zoom, reqs);
  }

  lemma Associate(a: real, b: real, c: real)
    ensures (a * b) * c == a * (b * c)
  {
  }

}
