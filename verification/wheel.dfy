/**
 * The wheel handler: the wheel's vertical delta picks a zoom amplitude, the
 * element is zoomed about the pointer, the transform is applied and the
 * element is fitted to its bounds.
 */
module Wheel {

  import opened Geometry
  import opened Settings
  import opened View
  import opened Bounds
  import opened Zoom

  /** The amplitude chosen in `#onWheel`: 1.1 below a delta of 1, 1 / 1.1
      above it, and the initial 0 at exactly 1. */
  function Amplitude(deltaY: real): (amplitude: real)
    ensures deltaY < 1.0 ==> amplitude == 1.1
    ensures deltaY > 1.0 ==> amplitude == 1.0 / 1.1
    ensures amplitude > 1.0 <==> deltaY < 1.0
    ensures 0.0 < amplitude < 1.0 <==> deltaY > 1.0
    ensures amplitude == 0.0 <==> deltaY == 1.0
    ensures deltaY > 1.0 ==> amplitude * Amplitude(0.0) == 1.0
  {
    var initial := 0.0;
    var afterUp := if deltaY < 1.0 then 1.1 else initial;
    if deltaY > 1.0 then 1.0 / 1.1 else afterUp
  }

  /** `#onWheel`; `g` is the geometry before the zoom is applied and `g'`
      the geometry after it, which `fitToBounds` reads. */
  function OnWheel(s: State, cfg: Config, g: Snapshot, g': Snapshot, deltaY: real, client: Point): (r: State)
    ensures SameGesture(r, s)
    ensures Rejects(s, cfg, g, Amplitude(deltaY)) ==> r.zoom == s.zoom
    ensures !Rejects(s, cfg, g, Amplitude(deltaY)) ==> r.zoom == s.zoom * Amplitude(deltaY)
    ensures !cfg.bounds && Rejects(s, cfg, g, Amplitude(deltaY)) ==> r == s
    ensures !cfg.bounds && !Rejects(s, cfg, g, Amplitude(deltaY)) ==>
              AnchorStays(s, r, g, Amplitude(deltaY), client)
    ensures cfg.bounds ==> forall a: Axis :: !Overflows(cfg, g', a) ==> Centred(r, g', a)
    ensures cfg.bounds ==> forall a: Axis :: Overflows(cfg, g', a) ==>
              Offset(r, a) == Settle(Offset(ZoomAt(s, cfg, g, Amplitude(deltaY), client), a), cfg, g', a)
  {
    ZoomAndFit(s, cfg, g, g', Amplitude(deltaY), client)
  }

  /** The `zoomAt` call of a delta of exactly 1 is a no-op whenever the
      minimum zoom is a non-negative number, the default 10 included; without
      `data-bounds` the whole wheel event is. */
  lemma NeutralDeltaRejectedByNumericMin(s: State, cfg: Config, g: Snapshot, g': Snapshot, client: Point)
    requires ZoomLimit(cfg, MinZoom).Num? && ZoomLimit(cfg, MinZoom).percent >= 0
    ensures ZoomAt(s, cfg, g, Amplitude(1.0), client) == s
    ensures !cfg.bounds ==> OnWheel(s, cfg, g, g', 1.0, client) == s
  {
  }

  /** The amplitude 0 of a delta of exactly 1 is accepted, and sets the zoom
      to 0, when the minimum is `"fit"` and the element overflows, or the
      minimum is not a number, or it is a negative number. */
  lemma NeutralDeltaCollapsesZoom(s: State, cfg: Config, g: Snapshot, g': Snapshot, client: Point)
    requires || (ZoomLimit(cfg, MinZoom) == Fit && !FitsInContainer(g, Both))
             || ZoomLimit(cfg, MinZoom) == NotANumber
             || (ZoomLimit(cfg, MinZoom).Num? && ZoomLimit(cfg, MinZoom).percent < 0)
    ensures OnWheel(s, cfg, g, g', 1.0, client).zoom == 0.0
  {
  }

  /** A collapsed zoom stays collapsed under every further wheel event. */
  lemma CollapsedZoomIsStuck(s: State, cfg: Config, g: Snapshot, g': Snapshot, deltaY: real, client: Point)
    requires s.zoom == 0.0
    ensures OnWheel(s, cfg, g, g', deltaY, client).zoom == 0.0
  {
  }

  /** The evidently intended amplitude: a delta that selects neither
      direction leaves the zoom alone (amplitude 1) instead of zeroing it. */
  function CorrectedAmplitude(deltaY: real): (amplitude: real)
    ensures amplitude > 0.0
    ensures deltaY != 1.0 ==> amplitude == Amplitude(deltaY)
    ensures deltaY == 1.0 ==> amplitude == 1.0
  {
    if deltaY < 1.0 then 1.1
    else if deltaY > 1.0 then 1.0 / 1.1
    else 1.0
  }

  /** `#onWheel` with the corrected amplitude. */
  function OnWheelCorrected(s: State, cfg: Config, g: Snapshot, g': Snapshot, deltaY: real, client: Point): (r: State)
    ensures SameGesture(r, s)
    ensures deltaY == 1.0 ==> r == FitToBounds(s, cfg, g')
    ensures deltaY != 1.0 ==> r == OnWheel(s, cfg, g, g', deltaY, client)
  {
    ZoomAtIdentity(s, cfg, g, client);
    ZoomAndFit(s, cfg, g, g', CorrectedAmplitude(deltaY), client)
  }

  /** With the corrected amplitude a positive zoom stays positive, whatever
      the limits are. */
  lemma CorrectedWheelKeepsZoomPositive(s: State, cfg: Config, g: Snapshot, g': Snapshot, deltaY: real, client: Point)
    requires s.zoom > 0.0
    ensures OnWheelCorrected(s, cfg, g, g', deltaY, client).zoom > 0.0
  {
    var amplitude := CorrectedAmplitude(deltaY);
    if !Rejects(s, cfg, g, amplitude) {
      assert s.zoom * amplitude > 0.0;
    }
  }

}
