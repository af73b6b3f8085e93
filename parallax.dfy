/**
 * The pointer parallax (script.js, section 3): a pointer move sets a clamped
 * target and asks for at most one animation frame; each frame eases the
 * current offset 8% of the way toward the target.
 *
 * The pointer's offset from the visual's centre, already divided by the
 * visual's size, is an input; the CSS transforms written from the offset are
 * not part of this model.
 */
module Parallax {
  import opened Numeric

  /** How far the target may be from the centre, either way. */
  const Reach: real := 0.6
  /** The share of the remaining distance covered per frame. */
  const Rate: real := 0.08

  /** `Math.max(-0.6, Math.min(0.6, x))`. */
  function Target(offset: real): (t: real)
    ensures t == Clamp(offset, -Reach, Reach)
    ensures -Reach <= t <= Reach
  {
    Max(-Reach, Min(Reach, offset))
  }

  /** `c += (t - c) * 0.08`: one frame of easing toward t. */
  function Ease(c: real, t: real): (e: real)
    ensures e - t == (1.0 - Rate) * (c - t)
    ensures c <= t ==> c <= e <= t
    ensures t <= c ==> t <= e <= c
  {
    c + (t - c) * Rate
  }

  function Pow(b: real, n: nat): real
  {
    if n == 0 then 1.0 else b * Pow(b, n - 1)
  }

  /** The offset after n frames toward a fixed target. */
  function EaseN(c: real, t: real, n: nat): (e: real)
    ensures c <= t ==> c <= e <= t
    ensures t <= c ==> t <= e <= c
  {
    if n == 0 then c else Ease(EaseN(c, t, n - 1), t)
  }

  /** After n frames the gap to the target is 0.92^n of the starting gap. */
  lemma {:induction false} EaseNGap(c: real, t: real, n: nat)
    ensures EaseN(c, t, n) - t == Pow(1.0 - Rate, n) * (c - t)
  {
    if n > 0 {
      EaseNGap(c, t, n - 1);
      var r, p, gap := 1.0 - Rate, Pow(1.0 - Rate, n - 1), c - t;
      // one more frame multiplies the gap p * gap by r
      assert EaseN(c, t, n) - t == r * (p * gap);
      assert r * (p * gap) == (r * p) * gap;
    }
  }

  /** An offset that starts in [-0.6, 0.6] stays there however many frames run. */
  lemma {:induction false} EaseNStaysInReach(c: real, t: real, n: nat)
    requires -Reach <= c <= Reach && -Reach <= t <= Reach
    ensures -Reach <= EaseN(c, t, n) <= Reach
  {
    if n > 0 {
      EaseNStaysInReach(c, t, n - 1);
    }
  }

  class Pointer {
    const hasVisual: bool   // whether the page has the `#visual` element
    const finePointer: bool // the `(pointer:fine)` query matched, so `mousemove` is listened to
    var tx: real
    var ty: real
    var cx: real
    var cy: real
    var raf: nat            // the pending frame request's handle, 0 when none
    ghost var scheduled: nat  // frame callbacks requested and not yet run

    /** A frame is requested exactly when `raf` holds a handle, so at most one is pending. */
    ghost predicate Valid()
      reads this
    {
      scheduled == (if raf == 0 then 0 else 1)
    }

    constructor (hasVisual: bool, finePointer: bool)
      ensures Valid()
      ensures this.hasVisual == hasVisual && this.finePointer == finePointer
      ensures tx == 0.0 && ty == 0.0 && cx == 0.0 && cy == 0.0 && raf == 0
    {
      this.hasVisual := hasVisual;
      this.finePointer := finePointer;
      tx, ty, cx, cy, raf := 0.0, 0.0, 0.0, 0.0, 0;
      scheduled := 0;
    }

    /** `parallaxMove`, the `mousemove` listener installed only for a fine pointer;
        `handle` is what `requestAnimationFrame` would return (never 0). */
    method Move(offsetX: real, offsetY: real, handle: nat)
      requires finePointer
      requires Valid() && handle > 0
      modifies this
      ensures Valid() && scheduled <= 1
      ensures !hasVisual ==> unchanged(this)
      ensures hasVisual ==>
        && tx == Target(offsetX) && ty == Target(offsetY)
        && cx == old(cx) && cy == old(cy)
        && raf == (if old(raf) == 0 then handle else old(raf))
        && scheduled == 1
    {
      if !hasVisual {
        return;
      }
      tx := Target(offsetX);
      ty := Target(offsetY);
      if raf == 0 {
        raf := handle;
        scheduled := scheduled + 1;
      }
    }

    /** `parallaxTick`, run by the one pending frame request. */
    method Tick()
      requires Valid() && scheduled > 0
      modifies this
      ensures Valid() && raf == 0 && scheduled == 0
      ensures cx == Ease(old(cx), tx) && cy == Ease(old(cy), ty)
      ensures tx == old(tx) && ty == old(ty)
      ensures -Reach <= old(cx) <= Reach && -Reach <= tx <= Reach ==> -Reach <= cx <= Reach
      ensures -Reach <= old(cy) <= Reach && -Reach <= ty <= Reach ==> -Reach <= cy <= Reach
    {
      raf := 0;
      scheduled := scheduled - 1;
      cx := cx + (tx - cx) * Rate;
      cy := cy + (ty - cy) * Rate;
    }
  }
}
