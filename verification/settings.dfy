/**
 * The element's declared configuration (its `data-*` attributes) and the
 * zoom-limit policy read from it.
 */
module Settings {

  import opened Optional

  /** `data-origin-parent` absent: the container is the window; present: the offset parent. */
  datatype Mode = Window | Parent

  datatype Bound = MinZoom | MaxZoom

  /** A resolved zoom limit: the `"fit"` sentinel, a whole percentage, or the
      `NaN` that `parseInt` yields for text that is not a number. */
  datatype Limit = Fit | Num(percent: int) | NotANumber

  datatype Config = Config(
    bounds: bool,                      // data-bounds
    draggable: bool,                   // data-draggable
    mode: Mode,                        // data-origin-parent
    minZoomAttr: Option<string>,       // data-min-zoom, None when absent
    maxZoomAttr: Option<string>,       // data-max-zoom, None when absent
    parseInt: string -> Option<int>)   // the platform's parseInt, None for NaN

  /** The percentage an absent (or empty) limit attribute falls back to. */
  function DefaultLimit(b: Bound): int {
    if b == MinZoom then 10 else 4000
  }

  function LimitAttr(cfg: Config, b: Bound): Option<string> {
    if b == MinZoom then cfg.minZoomAttr else cfg.maxZoomAttr
  }

  /** `#getZoomLimit`. An absent or empty attribute selects the default (the
      source parses the literal "10" / "4000" in that case). */
  function ZoomLimit(cfg: Config, b: Bound): (l: Limit)
    ensures l.Fit? <==> LimitAttr(cfg, b) == Some("fit")
    ensures LimitAttr(cfg, b) in {None, Some("")} ==> l == Num(DefaultLimit(b))
    ensures l.NotANumber? ==> LimitAttr(cfg, b).Some? && cfg.parseInt(LimitAttr(cfg, b).value).None?
    ensures LimitAttr(cfg, b).Some? && LimitAttr(cfg, b).value !in {"", "fit"} ==>
              (l.Num? <==> cfg.parseInt(LimitAttr(cfg, b).value).Some?)
              && (l.Num? ==> cfg.parseInt(LimitAttr(cfg, b).value) == Some(l.percent))
  {
    var attr := LimitAttr(cfg, b);
    if attr == Some("fit") then Fit
    else if attr.None? || attr.value == "" then Num(DefaultLimit(b))
    else match cfg.parseInt(attr.value)
      case Some(n) => Num(n)
      case None => NotANumber
  }

  /** `limit != "fit" && v <= limit`; every comparison with NaN is false. */
  predicate AtOrBelow(v: real, l: Limit) {
    l.Num? && v <= l.percent as real
  }

  /** `limit != "fit" && v >= limit`; every comparison with NaN is false. */
  predicate AtOrAbove(v: real, l: Limit) {
    l.Num? && v >= l.percent as real
  }

}
