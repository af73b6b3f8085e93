/**
 * Browser-facing rules that both scripts apply the same way: sizes floored at
 * one pixel, the capped device pixel ratio and the intersection observer's
 * reading of its first entry.
 */
module Viewport {
  import opened Numeric

  /** `Math.max(1, n)` on an element dimension. */
  function AtLeastOne(n: int): (m: int)
    ensures m >= 1 && m >= n
    ensures n >= 1 ==> m == n
  {
    if n < 1 then 1 else n
  }

  /** `Math.min(window.devicePixelRatio || 1, cap)`: a ratio of 0 counts as missing. */
  function CappedPixelRatio(devicePixelRatio: real, cap: real): (r: real)
    ensures r <= cap
    ensures devicePixelRatio != 0.0 ==> r <= devicePixelRatio && (r == cap || r == devicePixelRatio)
    ensures devicePixelRatio == 0.0 ==> r <= 1.0 && (r == cap || r == 1.0)
  {
    Min(if devicePixelRatio == 0.0 then 1.0 else devicePixelRatio, cap)
  }

  /** `entries[0]?.isIntersecting ?? true`, given each entry's isIntersecting flag. */
  function IntersectionVisible(entries: seq<bool>): (v: bool)
    ensures v <==> |entries| == 0 || entries[0]
  {
    if |entries| == 0 then true else entries[0]
  }
}
