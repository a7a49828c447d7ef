/** The decision `setZoom` takes before writing the camera parameters. */
module Zoom {
  import opened Wrappers

  /** The zoom that is written into the parameters, or None when a negative
      request is ignored; requests above the maximum are clamped to it. */
  function ZoomToApply(value: int, maxZoom: int): (z: Option<int>)
    ensures z.None? <==> value < 0
    ensures z.Some? ==> z.value <= maxZoom && z.value <= value
    ensures z.Some? ==> z.value == value || z.value == maxZoom
    ensures z.Some? && 0 <= maxZoom ==> 0 <= z.value
  {
    if value < 0 then None
    else if value <= maxZoom then Some(value)
    else Some(maxZoom)
  }

  /** Applying the clamped value again changes nothing. */
  lemma ZoomIdempotent(value: int, maxZoom: int)
    requires 0 <= maxZoom && 0 <= value
    ensures ZoomToApply(ZoomToApply(value, maxZoom).value, maxZoom) == ZoomToApply(value, maxZoom)
  {
  }

  /** The decision is monotonic in the request. */
  lemma ZoomMonotonic(v1: int, v2: int, maxZoom: int)
    requires 0 <= v1 <= v2
    ensures ZoomToApply(v1, maxZoom).value <= ZoomToApply(v2, maxZoom).value
  {
  }
}
