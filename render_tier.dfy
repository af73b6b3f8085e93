/**
 * The black-hole scene's device tiers: the frame-rate cap, the overscan factor,
 * the device-pixel-ratio cap and the tessellation of the spheres and the disk,
 * chosen once at mount from two media queries.
 */
module RenderTier {

  /** Segment counts handed to a sphere or ring geometry (first and second count). */
  datatype Segments = Segments(first: nat, second: nat)

  datatype Profile = Profile(
    fps: nat,            // frames per second the limiter admits
    overscan: real,      // render-buffer size over container size
    dprCap: real,        // largest device pixel ratio used
    sphere: Segments,    // glow shell and core: width and height segments
    disk: Segments       // accretion ring: theta and phi segments
  )

  /** The `(max-width: 980px)` media query: inclusive at 980 CSS pixels. */
  predicate IsMobileWidth(viewportWidth: real): (mobile: bool)
    ensures viewportWidth == 980.0 ==> mobile
    ensures viewportWidth > 980.0 ==> !mobile
    ensures viewportWidth < 980.0 ==> mobile
  {
    viewportWidth <= 980.0
  }

  const LowSphere := Segments(64, 32)
  const HighSphere := Segments(96, 48)
  const LowDisk := Segments(128, 64)
  const HighDisk := Segments(192, 96)

  /** `OVERSCAN`: render 20% larger than the container except on mobile. */
  function Overscan(isMobile: bool): (k: real)
    ensures 1.0 <= k <= 1.2
  {
    if isMobile then 1.0 else 1.2
  }

  /** `DPR_CAP`: the device pixel ratio is never taken above this. */
  function DprCap(isMobile: bool): (c: real)
    ensures 1.0 <= c <= 1.5
  {
    if isMobile then 1.0 else 1.5
  }

  /** The profile for a device: only the frame rate looks at reduced motion. */
  function SelectProfile(isMobile: bool, reduceMotion: bool): (p: Profile)
    ensures p.fps == 30 || p.fps == 60
    ensures p.fps == 30 <==> isMobile || reduceMotion
    ensures p.overscan >= 1.0 && p.dprCap >= 1.0
    ensures isMobile <==> p.overscan == 1.0
    ensures isMobile <==> p.dprCap == 1.0
    ensures isMobile <==> p.sphere == LowSphere && p.disk == LowDisk
    ensures !isMobile <==> p.sphere == HighSphere && p.disk == HighDisk
  {
    Profile(
      if isMobile || reduceMotion then 30 else 60,
      Overscan(isMobile),
      DprCap(isMobile),
      if isMobile then LowSphere else HighSphere,
      if isMobile then LowDisk else HighDisk)
  }

  /** Milliseconds the limiter waits between two frames: `1000 / FPS`. */
  function FrameInterval(p: Profile): (ms: real)
    requires p.fps > 0
    ensures ms * (p.fps as real) == 1000.0
  {
    1000.0 / (p.fps as real)
  }

  /** Overscan, pixel-ratio cap and tessellation ignore the reduced-motion flag. */
  lemma DetailIgnoresReducedMotion(isMobile: bool, r1: bool, r2: bool)
    ensures var p1, p2 := SelectProfile(isMobile, r1), SelectProfile(isMobile, r2);
      p1.overscan == p2.overscan && p1.dprCap == p2.dprCap && p1.sphere == p2.sphere && p1.disk == p2.disk
  {
  }

  /** A desktop with reduced motion is capped at 30 fps yet keeps the high-detail tier. */
  lemma ReducedMotionDesktop()
    ensures SelectProfile(false, true) == Profile(30, 1.2, 1.5, HighSphere, HighDisk)
  {
  }

  /** The 980-pixel boundary itself selects the mobile tier. */
  lemma BoundaryWidthIsMobile()
    ensures IsMobileWidth(980.0) && !IsMobileWidth(980.5)
    ensures SelectProfile(IsMobileWidth(980.0), false) == Profile(30, 1.0, 1.0, LowSphere, LowDisk)
  {
  }

  /** The two frame intervals: 1000/30 ms on the capped tier, 1000/60 ms otherwise. */
  lemma FrameIntervals(isMobile: bool, reduceMotion: bool)
    ensures var ms := FrameInterval(SelectProfile(isMobile, reduceMotion));
      ms == (if isMobile || reduceMotion then 1000.0 / 30.0 else 1000.0 / 60.0)
      && 16.0 < ms < 34.0
  {
  }
}
