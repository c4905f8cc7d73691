/**
 * `getZoomedData`: the window of the normalized series the chart shows at a
 * zoom level, either anchored at the playback position or, in live mode, the
 * newest points.
 */
module Zoom {

  /** The zoom levels the zoom controls can reach. */
  predicate IsZoomLevel(z: int) {
    z == 1 || z == 2 || z == 4 || z == 8
  }

  /**
   * `getZoomedData(data)`. Zoom 1 is the whole series. Live mode is the last
   * `floor(len / z)` points. Static mode is `data.slice(start, end)` with
   * `start = position` and `end = min(start + floor(len / z), len)`; a start
   * past the end is an empty slice.
   */
  function ZoomedData<T>(data: seq<T>, zoom: int, liveMode: bool, position: nat): (r: seq<T>)
    requires zoom >= 1
    ensures |r| <= |data|
    ensures liveMode ==> r == data[|data| - |r|..]
  {
    if zoom == 1 then data
    else if liveMode then
      var windowSize := |data| / zoom;
      DivAtMost(|data|, zoom);
      var start := if |data| - windowSize > 0 then |data| - windowSize else 0;
      data[start..]
    else
      var windowSize := |data| / zoom;
      var end := if position + windowSize < |data| then position + windowSize else |data|;
      if position <= end then data[position..end] else []
  }

  /** At zoom 1 the window is the whole series. */
  lemma UnzoomedIsWhole<T>(data: seq<T>, liveMode: bool, position: nat)
    ensures ZoomedData(data, 1, liveMode, position) == data
  {
  }

  /** In live mode the window is the newest `floor(len / z)` points, whatever the position. */
  lemma {:induction false} LiveWindowIsNewest<T>(data: seq<T>, zoom: int, position: nat)
    requires zoom > 1
    ensures var r := ZoomedData(data, zoom, true, position);
      && |r| == |data| / zoom
      && r == data[|data| - |r|..]
  {
    DivAtMost(|data|, zoom);
  }

  /**
   * In static mode the window is a contiguous run of the series that starts
   * at the position, holds at most `floor(len / z)` points, is cut short only
   * by the end of the series, and is empty once the position is past it.
   */
  lemma {:induction false} StaticWindowAtPosition<T>(data: seq<T>, zoom: int, position: nat)
    requires zoom > 1
    ensures var r := ZoomedData(data, zoom, false, position);
      && |r| <= |data| / zoom
      && (r != [] ==> position + |r| <= |data|)
      && (forall i :: 0 <= i < |r| ==> r[i] == data[position + i])
      && (position <= |data| ==> |r| == Min(|data| / zoom, |data| - position))
  {
  }

  /** `zoomIn`: doubles the level while it is below 8. */
  function ZoomInLevel(z: int): (r: int)
    ensures IsZoomLevel(z) ==> IsZoomLevel(r)
    ensures 0 < z < 8 ==> r > z
    ensures z >= 8 ==> r == z
  {
    if z < 8 then z * 2 else z
  }

  /** `zoomOut`: halves the level while it is above 1. */
  function ZoomOutLevel(z: int): (r: int)
    ensures IsZoomLevel(z) ==> IsZoomLevel(r)
    ensures z > 1 ==> r < z
    ensures z <= 1 ==> r == z
  {
    if z > 1 then z / 2 else z
  }

  /**
   * Zooming out undoes zooming in below the maximum, and zooming in undoes
   * zooming out above the minimum.
   */
  lemma ZoomRoundTrip(z: int)
    requires IsZoomLevel(z)
    ensures z < 8 ==> ZoomOutLevel(ZoomInLevel(z)) == z
    ensures z > 1 ==> ZoomInLevel(ZoomOutLevel(z)) == z
  {
  }

  /** Three steps in either direction reach the extreme level from any level. */
  lemma ZoomSaturates(z: int)
    requires IsZoomLevel(z)
    ensures ZoomInLevel(ZoomInLevel(ZoomInLevel(z))) == 8
    ensures ZoomOutLevel(ZoomOutLevel(ZoomOutLevel(z))) == 1
  {
  }

  function Min(a: int, b: int): int {
    if a <= b then a else b
  }

  /** `floor(a / z) <= a` for a non-negative `a` and `z >= 1`. */
  lemma DivAtMost(a: nat, z: int)
    requires z >= 1
    ensures a / z <= a
  {
  }
}
