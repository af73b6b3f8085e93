/**
 * The black-hole scene's state machine (blackhole.js): container-driven
 * resizing, the two gating flags, the frame-rate limiter and the per-frame
 * uniform updates ahead of the single composite render.
 *
 * The rendering library is not modelled. Its observable effects are fields of
 * `Scene`: the camera aspect, the buffer sizes, the pixel ratio and the uniform
 * values; each `composer.render()` call appends to `frames` the uniform values
 * it drew with. The clock's elapsed time and the projected position of the
 * core are inputs of `Animate`.
 */
module BlackHole {
  import opened Numeric
  import opened RenderTier
  import opened Viewport
  import Lensing

  // ---------------------------------------------------------------- resizing

  /** Everything `resizeToMount` hands to the camera, the renderer and the passes. */
  datatype Sizing = Sizing(
    cameraAspect: real,   // camera.aspect
    bufferWidth: int,     // rw: renderer, composer, bloom pass and canvas CSS width
    bufferHeight: int,    // rh
    pixelRatio: real,     // renderer pixel ratio
    lensAspect: real      // the lensing pass's aspectRatio uniform
  )

  function ResizeSizing(clientWidth: int, clientHeight: int, devicePixelRatio: real, isMobile: bool): (s: Sizing)
    ensures var w, h := AtLeastOne(clientWidth), AtLeastOne(clientHeight);
      && IsAspect(s.cameraAspect, w, h)
      && w <= s.bufferWidth && h <= s.bufferHeight
      && IsFloor(s.bufferWidth, (w as real) * Overscan(isMobile))
      && IsFloor(s.bufferHeight, (h as real) * Overscan(isMobile))
      && IsAspect(s.lensAspect, s.bufferWidth, s.bufferHeight)
      && s.pixelRatio == CappedPixelRatio(devicePixelRatio, DprCap(isMobile))
  {
    var w, h, k := AtLeastOne(clientWidth), AtLeastOne(clientHeight), Overscan(isMobile);
    var rw, rh := BufferSize(w, k), BufferSize(h, k);
    Sizing(Aspect(w, h), rw, rh, CappedPixelRatio(devicePixelRatio, DprCap(isMobile)), Aspect(rw, rh))
  }

  /** `Math.floor(n * OVERSCAN)`: never below the size itself. */
  function BufferSize(n: int, k: real): (m: int)
    requires n >= 1 && k >= 1.0
    ensures n <= m
    ensures IsFloor(m, (n as real) * k)
    ensures k == 1.0 ==> m == n
  {
    assert (n as real) * k >= (n as real) * 1.0;
    ((n as real) * k).Floor
  }

  /** m is the greatest integer not above x. */
  predicate IsFloor(m: int, x: real)
  {
    m as real <= x < (m + 1) as real
  }

  /** r is the ratio of width to height. */
  predicate IsAspect(r: real, width: int, height: int)
  {
    r * (height as real) == width as real
  }

  /** A width over a height, as the camera and the lensing pass take it. */
  function Aspect(width: int, height: int): (r: real)
    requires height >= 1
    ensures IsAspect(r, width, height)
    ensures width >= 1 ==> r > 0.0
  {
    (width as real) / (height as real)
  }

  /** Without overscan (mobile) the buffer is the container and the two aspects agree. */
  lemma MobileAspectsAgree(clientWidth: int, clientHeight: int, devicePixelRatio: real)
    ensures var s := ResizeSizing(clientWidth, clientHeight, devicePixelRatio, true);
      && s.bufferWidth == AtLeastOne(clientWidth) && s.bufferHeight == AtLeastOne(clientHeight)
      && s.lensAspect == s.cameraAspect
  {
    var w, h := AtLeastOne(clientWidth), AtLeastOne(clientHeight);
    assert BufferSize(w, Overscan(true)) == w && BufferSize(h, Overscan(true)) == h;
  }

  /** With overscan the two aspects may disagree: a 5x3 container gives a 6x3 buffer. */
  lemma DesktopAspectsCanDiffer()
    ensures var s := ResizeSizing(5, 3, 1.0, false);
      s.bufferWidth == 6 && s.bufferHeight == 3 && s.lensAspect == 2.0 && s.cameraAspect != s.lensAspect
  {
    assert (5.0 * 1.2).Floor == 6;
    assert (3.0 * 1.2).Floor == 3;
  }

  // ------------------------------------------------------- gating and limiter

  /** The flags `running` (tab shown) and `visible` (in the viewport) and the limiter's clock. */
  datatype LoopState = LoopState(running: bool, visible: bool, lastFrameTime: real)

  /** What reaches the scene: a visibility change, an intersection report, a frame callback. */
  datatype LoopEvent =
    | VisibilityChange(hidden: bool)
    | Intersection(entries: seq<bool>)   // isIntersecting of each reported entry
    | AnimationFrame(now: real)

  /** A frame callback renders when neither flag gates it and the limiter admits it. */
  predicate Renders(s: LoopState, e: LoopEvent, interval: real): (r: bool)
    ensures r ==> e.AnimationFrame? && e.now - s.lastFrameTime >= interval
    ensures !s.running || !s.visible ==> !r
    ensures e.AnimationFrame? && s.running && s.visible && e.now - s.lastFrameTime >= interval ==> r
  {
    e.AnimationFrame? && s.running && s.visible && !(e.now - s.lastFrameTime < interval)
  }

  function Step(s: LoopState, e: LoopEvent, interval: real): (r: LoopState)
    ensures e.AnimationFrame? ==> r.running == s.running && r.visible == s.visible
    ensures Renders(s, e, interval) ==> r.lastFrameTime == e.now
    ensures !Renders(s, e, interval) ==> r.lastFrameTime == s.lastFrameTime
    ensures e.VisibilityChange? ==> r.running == !e.hidden && r.visible == s.visible
    ensures e.Intersection? ==> r.visible == IntersectionVisible(e.entries) && r.running == s.running
  {
    match e
    case VisibilityChange(hidden) => s.(running := !hidden)
    case Intersection(entries) => s.(visible := IntersectionVisible(entries))
    case AnimationFrame(now) =>
      if !s.running || !s.visible then s
      else if now - s.lastFrameTime < interval then s
      else s.(lastFrameTime := now)
  }

  /** The times of the frames rendered over a run of events, in order. */
  function Run(s: LoopState, events: seq<LoopEvent>, interval: real): (times: seq<real>)
    ensures |times| <= |events|
    ensures (forall i :: 0 <= i < |events| ==> !events[i].AnimationFrame?) ==> times == []
    decreases |events|
  {
    if events == [] then []
    else
      (if Renders(s, events[0], interval) then [events[0].now] else [])
      + Run(Step(s, events[0], interval), events[1..], interval)
  }

  /** Rendered frames are `interval` apart, and the first one `interval` after `start`. */
  ghost predicate SpacedFrom(start: real, times: seq<real>, interval: real)
  {
    && (|times| > 0 ==> times[0] - start >= interval)
    && forall i :: 0 < i < |times| ==> times[i] - times[i - 1] >= interval
  }

  lemma {:induction false} RunSpaced(s: LoopState, events: seq<LoopEvent>, interval: real)
    ensures SpacedFrom(s.lastFrameTime, Run(s, events, interval), interval)
    decreases |events|
  {
    if events != [] {
      var e, s' := events[0], Step(s, events[0], interval);
      var rest := Run(s', events[1..], interval);
      RunSpaced(s', events[1..], interval);
      if Renders(s, e, interval) {
        var times := [e.now] + rest;
        assert Run(s, events, interval) == times;
        forall i | 0 < i < |times|
          ensures times[i] - times[i - 1] >= interval
        {
          if i > 1 { assert times[i] == rest[i - 1] && times[i - 1] == rest[i - 2]; }
        }
      } else {
        assert Run(s, events, interval) == rest;
      }
    }
  }

  /** While either flag is down, frame callbacks render nothing, however many arrive. */
  lemma {:induction false} GatedRunRendersNothing(s: LoopState, events: seq<LoopEvent>, interval: real)
    requires !s.running || !s.visible
    requires forall i :: 0 <= i < |events| ==> events[i].AnimationFrame?
    ensures Run(s, events, interval) == []
    decreases |events|
  {
    if events != [] {
      GatedRunRendersNothing(Step(s, events[0], interval), events[1..], interval);
    }
  }

  /** A single callback renders exactly when it is admitted. */
  lemma RunOne(s: LoopState, now: real, interval: real)
    ensures Run(s, [AnimationFrame(now)], interval)
         == (if Renders(s, AnimationFrame(now), interval) then [now] else [])
  {
    assert [AnimationFrame(now)][1..] == [];
  }

  /** At 30 fps two callbacks 10 ms apart yield at most one frame. */
  lemma TenMillisecondsApartRenderOnce(s: LoopState, t: real)
    ensures var interval := FrameInterval(SelectProfile(true, false));
      |Run(s, [AnimationFrame(t), AnimationFrame(t + 10.0)], interval)| <= 1
  {
    var interval := FrameInterval(SelectProfile(true, false));
    var events := [AnimationFrame(t), AnimationFrame(t + 10.0)];
    var s1 := Step(s, events[0], interval);
    assert events[1..] == [AnimationFrame(t + 10.0)];
    assert Run(s1, [AnimationFrame(t + 10.0)], interval)
        == (if Renders(s1, AnimationFrame(t + 10.0), interval) then [t + 10.0] else []);
  }

  // ------------------------------------------------------------- the uniforms

  /** `camera.position` after `set(-3.5, 5.0, 4.5)`, `lookAt(0, 0, 0)` and `multiplyScalar(1.6)`. */
  const CameraPosition: Vec3 := Scale(Vec3(-3.5, 5.0, 4.5), 1.6)

  /** The lensing centre from the core's projected position: `((x + 1) / 2, (y + 1) / 2)`. */
  function LensCenter(ndc: Lensing.Vec2): (c: Lensing.Vec2)
    ensures 2.0 * c.x - 1.0 == ndc.x && 2.0 * c.y - 1.0 == ndc.y
    ensures -1.0 <= ndc.x <= 1.0 && -1.0 <= ndc.y <= 1.0 ==> 0.0 <= c.x <= 1.0 && 0.0 <= c.y <= 1.0
    ensures ndc == Lensing.Vec2(0.0, 0.0) ==> c == Lensing.Vec2(0.5, 0.5)
  {
    Lensing.Vec2((ndc.x + 1.0) / 2.0, (ndc.y + 1.0) / 2.0)
  }

  /** One `composer.render()` call with the uniforms it drew with. */
  datatype Frame = Frame(
    at: real,                  // the callback time that admitted it
    diskTime: real,            // the disk's uTime
    glowTime: real,            // the glow shell's uTime
    glowCamera: Vec3,          // the glow shell's uCameraPosition
    coreCamera: Vec3,          // the core's uCameraPosition
    lensCenter: Lensing.Vec2   // the lensing pass's blackHoleScreenPos
  )

  function FrameTimes(frames: seq<Frame>): (times: seq<real>)
    ensures |times| == |frames|
    ensures forall i :: 0 <= i < |frames| ==> times[i] == frames[i].at
  {
    seq(|frames|, i requires 0 <= i < |frames| => frames[i].at)
  }

  lemma FrameTimesAppend(frames: seq<Frame>, f: Frame)
    ensures FrameTimes(frames + [f]) == FrameTimes(frames) + [f.at]
  {
  }

  /** A frame `interval` after the last one keeps the run spaced. */
  lemma SpacedAppend(start: real, times: seq<real>, last: real, t: real, interval: real)
    requires SpacedFrom(start, times, interval)
    requires last == (if times == [] then start else times[|times| - 1])
    requires t - last >= interval
    ensures SpacedFrom(start, times + [t], interval)
  {
    var all := times + [t];
    forall i | 0 < i < |all|
      ensures all[i] - all[i - 1] >= interval
    {
      if i < |times| { assert all[i] == times[i] && all[i - 1] == times[i - 1]; }
    }
  }

  /** The render log of a scene: frames spaced at least `interval` apart from time 0, the
      limiter's clock at the last one, and every frame drawn with one time for disk and glow
      and the camera position in both camera uniforms. */
  ghost predicate ValidLog(frames: seq<Frame>, lastFrameTime: real, interval: real)
  {
    && SpacedFrom(0.0, FrameTimes(frames), interval)
    && lastFrameTime == (if frames == [] then 0.0 else frames[|frames| - 1].at)
    && forall i :: 0 <= i < |frames| ==>
         frames[i].diskTime == frames[i].glowTime
         && frames[i].glowCamera == CameraPosition && frames[i].coreCamera == CameraPosition
  }

  /** An admitted frame drawn with consistent uniforms extends a valid log. */
  lemma LogAppend(frames: seq<Frame>, lastFrameTime: real, interval: real, f: Frame)
    requires ValidLog(frames, lastFrameTime, interval)
    requires f.at - lastFrameTime >= interval
    requires f.diskTime == f.glowTime && f.glowCamera == CameraPosition && f.coreCamera == CameraPosition
    ensures ValidLog(frames + [f], f.at, interval)
    ensures FrameTimes(frames + [f]) == FrameTimes(frames) + [f.at]
  {
    SpacedAppend(0.0, FrameTimes(frames), lastFrameTime, f.at, interval);
    FrameTimesAppend(frames, f);
  }

  class Scene {
    const isMobile: bool
    const reduceMotion: bool
    const profile: Profile
    const frameInterval: real

    var cameraAspect: real
    var pixelRatio: real
    var bufferWidth: int
    var bufferHeight: int
    var lensAspect: real

    var running: bool
    var visible: bool
    var lastFrameTime: real

    var diskTime: real
    var glowTime: real
    var glowCamera: Vec3
    var coreCamera: Vec3
    var lensCenter: Lensing.Vec2

    var frames: seq<Frame>

    ghost predicate Valid()
      reads this
    {
      && profile == SelectProfile(isMobile, reduceMotion)
      && frameInterval == FrameInterval(profile)
      && ValidLog(frames, lastFrameTime, frameInterval)
    }

    function Loop(): LoopState
      reads this
    {
      LoopState(running, visible, lastFrameTime)
    }

    function Sizes(): Sizing
      reads this
    {
      Sizing(cameraAspect, bufferWidth, bufferHeight, pixelRatio, lensAspect)
    }

    /** Mounting: the tier, the initial uniforms, a first resize; rendering starts ungated. */
    constructor (isMobile: bool, reduceMotion: bool, clientWidth: int, clientHeight: int, devicePixelRatio: real)
      ensures Valid()
      ensures this.isMobile == isMobile && this.reduceMotion == reduceMotion
      ensures Sizes() == ResizeSizing(clientWidth, clientHeight, devicePixelRatio, isMobile)
      ensures Loop() == LoopState(true, true, 0.0)
      ensures diskTime == 0.0 && glowTime == 0.0
      ensures glowCamera == CameraPosition && coreCamera == CameraPosition
      ensures lensCenter == Lensing.Vec2(0.5, 0.5)
      ensures frames == []
    {
      this.isMobile := isMobile;
      this.reduceMotion := reduceMotion;
      profile := SelectProfile(isMobile, reduceMotion);
      frameInterval := FrameInterval(SelectProfile(isMobile, reduceMotion));
      cameraAspect, pixelRatio, bufferWidth, bufferHeight, lensAspect := 1.0, 1.0, 1, 1, 1.0;
      running, visible, lastFrameTime := true, true, 0.0;
      diskTime, glowTime := 0.0, 0.0;
      glowCamera, coreCamera := CameraPosition, CameraPosition;
      lensCenter := Lensing.Vec2(0.5, 0.5);
      frames := [];
      new;
      ResizeToMount(clientWidth, clientHeight, devicePixelRatio);
    }

    /** `resizeToMount`: the container's size, floored at 1, drives camera and buffers. */
    method ResizeToMount(clientWidth: int, clientHeight: int, devicePixelRatio: real)
      requires Valid()
      modifies this`cameraAspect, this`pixelRatio, this`bufferWidth, this`bufferHeight, this`lensAspect
      ensures Valid()
      ensures Sizes() == ResizeSizing(clientWidth, clientHeight, devicePixelRatio, isMobile)
      ensures Loop() == old(Loop()) && frames == old(frames)
      ensures diskTime == old(diskTime) && glowTime == old(glowTime)
      ensures glowCamera == old(glowCamera) && coreCamera == old(coreCamera) && lensCenter == old(lensCenter)
    {
      var s := ResizeSizing(clientWidth, clientHeight, devicePixelRatio, isMobile);
      cameraAspect := s.cameraAspect;
      pixelRatio := s.pixelRatio;
      bufferWidth, bufferHeight := s.bufferWidth, s.bufferHeight;
      lensAspect := s.lensAspect;
    }

    /** The `visibilitychange` handler. */
    method OnVisibilityChange(hidden: bool)
      requires Valid()
      modifies this`running
      ensures Valid()
      ensures Loop() == Step(old(Loop()), VisibilityChange(hidden), frameInterval)
    {
      running := !hidden;
    }

    /** The intersection observer's callback. */
    method OnIntersection(entries: seq<bool>)
      requires Valid()
      modifies this`visible
      ensures Valid()
      ensures Loop() == Step(old(Loop()), Intersection(entries), frameInterval)
    {
      visible := IntersectionVisible(entries);
    }

    /**
     * `animate(now)`: after rescheduling itself, a gated or too-early callback
     * changes nothing; an admitted one moves the limiter's clock to `now`, sets
     * both time uniforms to the elapsed time, both camera uniforms to the camera
     * position and the lensing centre from the projected core, then renders once.
     */
    method Animate(now: real, elapsed: real, projectedCore: Lensing.Vec2) returns (rendered: bool)
      requires Valid()
      modifies this
      ensures Valid()
      ensures rendered == Renders(old(Loop()), AnimationFrame(now), frameInterval)
      ensures Loop() == Step(old(Loop()), AnimationFrame(now), frameInterval)
      ensures FrameTimes(frames) == old(FrameTimes(frames)) + Run(old(Loop()), [AnimationFrame(now)], frameInterval)
      ensures !rendered ==> unchanged(this)
      ensures rendered ==>
        && frames == old(frames) + [Frame(now, elapsed, elapsed, CameraPosition, CameraPosition, LensCenter(projectedCore))]
        && diskTime == elapsed && glowTime == elapsed
        && glowCamera == CameraPosition && coreCamera == CameraPosition
        && lensCenter == LensCenter(projectedCore)
        && Sizes() == old(Sizes())
    {
      RunOne(Loop(), now, frameInterval);
      if !running || !visible {
        return false;
      }
      if now - lastFrameTime < frameInterval {
        return false;
      }
      ghost var before, clock := frames, lastFrameTime;
      PushUniforms(now, elapsed, projectedCore);
      Render();
      rendered := true;
      LogAppend(before, clock, frameInterval, frames[|frames| - 1]);
    }

    /** The admitted branch of `animate` before the render: the limiter's clock, then the uniforms. */
    method PushUniforms(now: real, elapsed: real, projectedCore: Lensing.Vec2)
      modifies this`lastFrameTime, this`diskTime, this`glowTime, this`glowCamera, this`coreCamera, this`lensCenter
      ensures lastFrameTime == now && diskTime == elapsed && glowTime == elapsed
      ensures glowCamera == CameraPosition && coreCamera == CameraPosition
      ensures lensCenter == LensCenter(projectedCore)
    {
      lastFrameTime := now;
      diskTime := elapsed;
      glowTime := elapsed;
      glowCamera := CameraPosition;
      coreCamera := CameraPosition;
      lensCenter := LensCenter(projectedCore);
    }

    /** `composer.render()`: draws with the uniform values set at this moment. */
    method Render()
      modifies this`frames
      ensures frames == old(frames) + [Frame(lastFrameTime, diskTime, glowTime, glowCamera, coreCamera, lensCenter)]
    {
      frames := frames + [Frame(lastFrameTime, diskTime, glowTime, glowCamera, coreCamera, lensCenter)];
    }
  }
}
