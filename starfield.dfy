/**
 * The hero starfield (script.js, section 1): the star-count policy, sizing the
 * canvas to the hero, the visibility gate, the capped time step and the pass
 * over the `stars` array that moves, respawns and wraps each star.
 *
 * `Math.random()` results are inputs (`Draw`, each value in [0, 1)), and so is
 * the sine of each star's twinkle phase; the canvas calls are represented by
 * the dots a frame draws.
 */
module Starfield {
  import opened Numeric
  import opened Viewport

  const Speed: real := 0.55
  const BaseAlpha: real := 0.16
  /** The largest `STAR_COUNT` there is. */
  const MaxStarCount: nat := 120

  /** `computeCounts`: 85 stars below 900 px of width, 120 otherwise, 20 fewer above 2.2 Mpx. */
  function StarCount(w: int, h: int): (n: nat)
    ensures n == 65 || n == 85 || n == 100 || n == 120
    ensures w < 900 <==> n <= 85
    ensures w * h > 2200000 <==> n == 65 || n == 100
  {
    var base := if w < 900 then 85 else 120;
    if w * h > 2200000 then base - 20 else base
  }

  datatype Star = Star(x: real, y: real, r: real, a: real, v: real, drift: real, seed: real)

  /** The `Math.random()` results one `makeStar` call may use, one per property. */
  datatype Draw = Draw(x: real, y: real, r: real, a: real, v: real, drift: real, seed: real)

  predicate UnitDraw(d: Draw)
  {
    0.0 <= d.x < 1.0 && 0.0 <= d.y < 1.0 && 0.0 <= d.r < 1.0 && 0.0 <= d.a < 1.0
    && 0.0 <= d.v < 1.0 && 0.0 <= d.drift < 1.0 && 0.0 <= d.seed < 1.0
  }

  /** `Math.random() * span + lo`: a draw in [0, 1) spread over [lo, lo + span). */
  function Uniform(u: real, lo: real, span: real): (r: real)
    requires 0.0 <= u < 1.0 && span >= 0.0
    ensures lo <= r <= lo + span
    ensures span > 0.0 ==> r < lo + span
  {
    ProductNonNegative(u, span);
    var rest := 1.0 - u;
    ProductNonNegative(rest, span);
    assert rest * span == span - u * span;
    if span > 0.0 then
      ProductPositive(rest, span);
      lo + u * span
    else
      lo + u * span
  }

  /** `makeStar(randomY)`: a star somewhere across the canvas, at the top unless `randomY`. */
  function MakeStar(d: Draw, randomY: bool, width: nat, height: nat): (s: Star)
    requires UnitDraw(d)
    ensures 0.0 <= s.x <= width as real && (width > 0 ==> s.x < width as real)
    ensures randomY ==> 0.0 <= s.y <= height as real && (height > 0 ==> s.y < height as real)
    ensures !randomY ==> s.y == -20.0
    ensures 0.35 <= s.r < 1.45
    ensures BaseAlpha <= s.a < BaseAlpha + 0.18
    ensures 14.0 <= s.v < 46.0
    ensures -5.0 <= s.drift < 5.0
    ensures 0.0 <= s.seed < 1000.0
  {
    Star(Uniform(d.x, 0.0, width as real),
         if randomY then Uniform(d.y, 0.0, height as real) else -20.0,
         Uniform(d.r, 0.35, 1.1),
         Uniform(d.a, BaseAlpha, 0.18),
         Uniform(d.v, 14.0, 32.0),
         Uniform(d.drift, -5.0, 10.0),
         Uniform(d.seed, 0.0, 1000.0))
  }

  /** `Math.min(0.033, (now - last) / 1000)`: the step in seconds, at most 33 ms. */
  function FrameDt(now: real, last: real): (dt: real)
    ensures dt <= 0.033
    ensures dt == 0.033 || dt == (now - last) / 1000.0
    ensures now - last <= 33.0 ==> dt == (now - last) / 1000.0
    ensures now >= last ==> dt >= 0.0
  {
    Min(0.033, (now - last) / 1000.0)
  }

  /** Lines 107-108: fall by `v * dt * SPEED`, drift sideways by `drift * dt * 0.25`. */
  function Move(s: Star, dt: real): (m: Star)
    ensures m.(x := s.x, y := s.y) == s
    ensures s.v >= 0.0 && dt >= 0.0 ==> m.y >= s.y
  {
    var fall := s.v * dt * Speed;
    if s.v >= 0.0 && dt >= 0.0 then
      ProductNonNegative(s.v, dt);
      ProductNonNegative(s.v * dt, Speed);
      s.(y := s.y + fall, x := s.x + s.drift * dt * 0.25)
    else
      s.(y := s.y + fall, x := s.x + s.drift * dt * 0.25)
  }

  /** Lines 111-112: leaving by one side re-enters by the other, 40 px off the canvas. */
  function Wrap(s: Star, width: nat): (w: Star)
    ensures -40.0 <= w.x <= width as real + 40.0
    ensures w.(x := s.x) == s
    ensures -40.0 <= s.x <= width as real + 40.0 ==> w == s
  {
    var x1 := if s.x < -40.0 then width as real + 40.0 else s.x;
    var x2 := if x1 > width as real + 40.0 then -40.0 else x1;
    s.(x := x2)
  }

  /** Below 30 px under the canvas a star is replaced (line 110). */
  predicate FallenOut(s: Star, height: nat): (out: bool)
    ensures out ==> s.y > 30.0
    ensures s.y <= 30.0 ==> !out
  {
    s.y > height as real + 30.0
  }

  /** What one star becomes in a frame: a fresh star at the top once it has fallen out,
      otherwise itself moved and wrapped. */
  function StepStar(s: Star, dt: real, width: nat, height: nat, d: Draw): (n: Star)
    requires UnitDraw(d)
    ensures FallenOut(Move(s, dt), height) ==> n.y == -20.0 && 0.0 <= n.x <= width as real
    ensures !FallenOut(Move(s, dt), height) ==>
      && -40.0 <= n.x <= width as real + 40.0
      && n.y == Move(s, dt).y <= height as real + 30.0
      && n.(x := Move(s, dt).x) == Move(s, dt)
  {
    var m := Move(s, dt);
    if FallenOut(m, height) then MakeStar(d, false, width, height) else Wrap(m, width)
  }

  /** The fill alpha: `min(0.9, a * (0.8 + tw * 0.7))` with `tw = 0.6 + wave * 0.4`,
      `wave` being the sine of the twinkle phase. */
  function TwinkleAlpha(a: real, wave: real): (alpha: real)
    ensures alpha <= 0.9
    ensures a > 0.0 && -1.0 <= wave <= 1.0 ==> alpha > 0.0
  {
    var tw := 0.6 + wave * 0.4;
    var gain := 0.8 + tw * 0.7;
    if a > 0.0 && -1.0 <= wave <= 1.0 then
      ProductPositive(a, gain);
      Min(0.9, a * gain)
    else
      Min(0.9, a * gain)
  }

  /** One `arc` filled on the canvas: centre, radius and fill alpha. */
  datatype Dot = Dot(x: real, y: real, r: real, alpha: real)

  /** The dot drawn for a star: lines 111-120 read the star object the loop started
      with, so a replaced star is still drawn where it fell out, wrapped. */
  function DotFor(s: Star, dt: real, width: nat, wave: real): (dot: Dot)
    ensures -40.0 <= dot.x <= width as real + 40.0
    ensures dot.y == Move(s, dt).y && dot.r == s.r
    ensures dot.alpha <= 0.9
  {
    var w := Wrap(Move(s, dt), width);
    Dot(w.x, w.y, w.r, TwinkleAlpha(w.a, wave))
  }

  /** What `resizeStars` derives from the hero's box and the device pixel ratio. */
  datatype Layout = Layout(
    cssWidth: int,    // heroW: the canvas's CSS width, in px
    cssHeight: int,   // heroH
    dpr: real,        // DPR
    scale: real,      // SCALE
    count: nat,       // STAR_COUNT
    width: nat,       // W = canvas.width
    height: nat       // H = canvas.height
  )

  /** The hero's box floored to at least one pixel, the pixel ratio capped at 1.25, the
      backing store shrunk by SCALE, and the star count for the box. */
  function StarLayout(rectWidth: real, rectHeight: real, devicePixelRatio: real): (l: Layout)
    requires devicePixelRatio >= 0.0
    ensures l.cssWidth == AtLeastOne(rectWidth.Floor) && l.cssHeight == AtLeastOne(rectHeight.Floor)
    ensures l.dpr == CappedPixelRatio(devicePixelRatio, 1.25) && 0.0 < l.dpr <= 1.25
    ensures l.scale == (if l.cssWidth < 900 then 0.75 else 0.82)
    ensures l.count == StarCount(l.cssWidth, l.cssHeight)
    ensures l.width as real <= (l.cssWidth as real) * l.dpr * l.scale < (l.width + 1) as real
    ensures l.height as real <= (l.cssHeight as real) * l.dpr * l.scale < (l.height + 1) as real
  {
    var heroW, heroH := AtLeastOne(rectWidth.Floor), AtLeastOne(rectHeight.Floor);
    var dpr := CappedPixelRatio(devicePixelRatio, 1.25);
    var scale := if heroW < 900 then 0.75 else 0.82;
    Layout(heroW, heroH, dpr, scale, StarCount(heroW, heroH),
           CanvasSize(heroW, dpr, scale), CanvasSize(heroH, dpr, scale))
  }

  class StarCanvas {
    const hasHero: bool        // whether the page has a `.heroWrap`
    var width: nat             // W, the canvas's backing width
    var height: nat            // H
    var dpr: real              // DPR
    var scale: real            // SCALE
    var starCount: nat         // STAR_COUNT
    var cssWidth: int          // canvas.style.width, in px
    var cssHeight: int
    var stars: array<Star>
    var running: bool          // the tab is shown
    var heroVisible: bool      // the hero intersects the viewport
    var last: real             // time of the last animated frame, ms

    /** The script's initial globals; `last` is `performance.now()` at load. */
    constructor (hasHero: bool, loadTime: real)
      ensures this.hasHero == hasHero
      ensures width == 0 && height == 0 && dpr == 1.0 && scale == 0.8 && starCount == MaxStarCount
      ensures cssWidth == 0 && cssHeight == 0
      ensures fresh(stars) && stars.Length == 0
      ensures running && heroVisible && last == loadTime
    {
      this.hasHero := hasHero;
      width, height, dpr, scale, starCount := 0, 0, 1.0, 0.8, MaxStarCount;
      cssWidth, cssHeight := 0, 0;
      stars := new Star[0];
      running, heroVisible, last := true, true, loadTime;
    }

    /**
     * `resizeStars`: nothing without a hero; otherwise size the canvas to the hero's
     * box (floored, at least 1) times the capped pixel ratio and the scale, and
     * rebuild `stars` as `STAR_COUNT` stars scattered over the canvas.
     */
    method ResizeStars(rectWidth: real, rectHeight: real, devicePixelRatio: real, draws: seq<Draw>)
      requires devicePixelRatio >= 0.0
      requires |draws| >= MaxStarCount && forall i :: 0 <= i < |draws| ==> UnitDraw(draws[i])
      modifies this
      ensures !hasHero ==> unchanged(this)
      ensures hasHero ==>
        && Layout(cssWidth, cssHeight, dpr, scale, starCount, width, height)
           == StarLayout(rectWidth, rectHeight, devicePixelRatio)
        && fresh(stars) && stars.Length == starCount
        && (forall i :: 0 <= i < stars.Length ==> stars[i] == MakeStar(draws[i], true, width, height))
        && running == old(running) && heroVisible == old(heroVisible) && last == old(last)
    {
      if !hasHero {
        return;
      }
      var l := StarLayout(rectWidth, rectHeight, devicePixelRatio);
      dpr, scale := l.dpr, l.scale;
      starCount := l.count;
      cssWidth, cssHeight := l.cssWidth, l.cssHeight;
      width, height := l.width, l.height;
      stars := new Star[l.count](i requires 0 <= i < l.count => MakeStar(draws[i], true, l.width, l.height));
    }

    /** `requestAnimationFrame(drawStars)` at `now`; `draws[i]` and `waves[i]` are the random
        values and the twinkle sine used for star i. A frame that is gated draws nothing. */
    method DrawStars(now: real, draws: seq<Draw>, waves: seq<real>) returns (drawn: seq<Dot>)
      requires |draws| == stars.Length && |waves| == stars.Length
      requires forall i :: 0 <= i < |draws| ==> UnitDraw(draws[i])
      modifies this`last, stars
      ensures stars == old(stars) && width == old(width) && height == old(height)
      ensures running == old(running) && heroVisible == old(heroVisible)
      ensures !old(running) || !old(heroVisible) ==> unchanged(this) && unchanged(stars) && drawn == []
      ensures old(running) && old(heroVisible) ==>
        var dt := FrameDt(now, old(last));
        && last == now
        && |drawn| == stars.Length
        && (forall i :: 0 <= i < stars.Length ==>
              stars[i] == StepStar(old(stars[i]), dt, width, height, draws[i])
              && drawn[i] == DotFor(old(stars[i]), dt, width, waves[i]))
    {
      if !running || !heroVisible {
        return [];
      }
      var dt := FrameDt(now, last);
      last := now;
      drawn := [];
      var i := 0;
      while i < stars.Length
        invariant 0 <= i <= stars.Length
        invariant |drawn| == i
        invariant forall j :: 0 <= j < i ==>
          stars[j] == StepStar(old(stars[j]), dt, width, height, draws[j])
          && drawn[j] == DotFor(old(stars[j]), dt, width, waves[j])
        invariant forall j :: i <= j < stars.Length ==> stars[j] == old(stars[j])
        modifies stars
      {
        var s := Move(stars[i], dt);
        stars[i] := s;
        var replaced := FallenOut(s, height);
        if replaced {
          stars[i] := MakeStar(draws[i], false, width, height);
        }
        // the wrap below changes the object `s` names, which is no longer in the
        // array once it has been replaced
        s := Wrap(s, width);
        if !replaced {
          stars[i] := s;
        }
        drawn := drawn + [Dot(s.x, s.y, s.r, TwinkleAlpha(s.a, waves[i]))];
        i := i + 1;
      }
    }

    /** The `visibilitychange` handler. */
    method OnVisibilityChange(hidden: bool)
      modifies this`running
      ensures running == !hidden
    {
      running := !hidden;
    }

    /** The hero's intersection observer callback, installed only when there is a hero. */
    method OnIntersection(entries: seq<bool>)
      requires hasHero
      modifies this`heroVisible
      ensures heroVisible == IntersectionVisible(entries)
    {
      heroVisible := IntersectionVisible(entries);
    }
  }

  /** `Math.floor(n * DPR * SCALE)`, a canvas backing dimension. */
  function CanvasSize(n: int, dpr: real, scale: real): (m: nat)
    requires n >= 1 && dpr >= 0.0 && scale >= 0.0
    ensures m as real <= (n as real) * dpr * scale < (m + 1) as real
  {
    ProductNonNegative(n as real, dpr);
    ProductNonNegative((n as real) * dpr, scale);
    ((n as real) * dpr * scale).Floor
  }
}
