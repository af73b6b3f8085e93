/**
 * The accretion disk's fragment shading (blackhole.js, the disk material's
 * `main`): the eased radial position, the five-stop colour gradient, the
 * brightness and the edge-tapered alpha. The simplex noise, `sin` and the
 * vertex attributes are not computed here: the combined noise value, the
 * sine of the pulsation phase and the fragment's radius are inputs.
 */
module DiskShading {
  import opened Numeric

  /** Ring radii as the shader source prints them (`toFixed(2)`): 1.3 + 0.2 and 8. */
  const InnerRadius: real := 1.5
  const OuterRadius: real := 8.0
  /** The density uniform. */
  const Density: real := 1.3

  /** The gradient stops, from the hot inner edge to the cool outer one. */
  datatype Palette = Palette(hot: Vec3, mid1: Vec3, mid2: Vec3, mid3: Vec3, outer: Vec3)

  predicate PaletteInUnitCube(p: Palette)
  {
    InUnitCube(p.hot) && InUnitCube(p.mid1) && InUnitCube(p.mid2) && InUnitCube(p.mid3) && InUnitCube(p.outer)
  }

  datatype Rgba = Rgba(rgb: Vec3, alpha: real)

  /** `smoothstep(1.50, 8.00, vRadius)`: the radial position eased into [0, 1]. */
  function NormalizedRadius(radius: real): (nr: real)
    ensures 0.0 <= nr <= 1.0
    ensures radius <= InnerRadius ==> nr == 0.0
    ensures radius >= OuterRadius ==> nr == 1.0
  {
    Smoothstep(InnerRadius, OuterRadius, radius)
  }

  /** Three simplex-noise octaves weighted 0.45, 0.35 and 0.2, moved from [-1, 1] to [0, 1]. */
  function NoiseValue(n1: real, n2: real, n3: real): (v: real)
    ensures -1.0 <= n1 <= 1.0 && -1.0 <= n2 <= 1.0 && -1.0 <= n3 <= 1.0 ==> 0.0 <= v <= 1.0
    ensures n1 == n2 == n3 ==> v == (n1 + 1.0) * 0.5
  {
    var combined := n1 * 0.45 + n2 * 0.35 + n3 * 0.2;
    (combined + 1.0) * 0.5
  }

  /** The layered mix from the outer colour to the hot one (four smoothstep bands). */
  function Gradient(nr: real, p: Palette): (c: Vec3)
    ensures nr <= 0.0 ==> c == p.outer
    ensures nr >= 0.95 ==> c == p.hot
    ensures PaletteInUnitCube(p) ==> InUnitCube(c)
  {
    var c1 := MixVec(p.outer, p.mid3, Smoothstep(0.0, 0.25, nr));
    var c2 := MixVec(c1, p.mid2, Smoothstep(0.2, 0.55, nr));
    var c3 := MixVec(c2, p.mid1, Smoothstep(0.5, 0.75, nr));
    MixVec(c3, p.hot, Smoothstep(0.7, 0.95, nr))
  }

  /** `pow(1 - nr, 1.0) * 3.5 + 0.5`: brightest (4) at the inner edge, 0.5 at the outer. */
  function BaseBrightness(nr: real): (b: real)
    ensures 0.0 <= nr <= 1.0 ==> 0.5 <= b <= 4.0
    ensures nr == 0.0 ==> b == 4.0
    ensures nr == 1.0 ==> b == 0.5
  {
    (1.0 - nr) * 3.5 + 0.5
  }

  /** The base brightness falls strictly as the fragment moves outwards. */
  lemma BaseBrightnessDecreasing(nr1: real, nr2: real)
    requires nr1 < nr2
    ensures BaseBrightness(nr2) < BaseBrightness(nr1)
  {
  }

  /** The base brightness scaled by the noise gain `0.3 + noise * 2.2` and by the pulsation
      `wave * 0.15 + 0.85`, where `wave` is the sine of the pulsation phase. With the noise in
      [0, 1] and a sine in [-1, 1] it stays within [0.105, 10]. */
  function Brightness(nr: real, noise: real, wave: real): (b: real)
    ensures 0.0 <= nr <= 1.0 && 0.0 <= noise <= 1.0 && -1.0 <= wave <= 1.0 ==> 0.105 <= b <= 10.0
  {
    var base, gain, pulse := BaseBrightness(nr), 0.3 + noise * 2.2, wave * 0.15 + 0.85;
    var lit := base * gain;
    if 0.0 <= nr <= 1.0 && 0.0 <= noise <= 1.0 && -1.0 <= wave <= 1.0 then
      ProductBounds(base, gain, 0.5, 4.0, 0.3, 2.5);
      ProductBounds(lit, pulse, 0.15, 10.0, 0.7, 1.0);
      lit * pulse
    else
      lit * pulse
  }

  /** The density times `0.2 + noise * 0.9`, tapered by smoothstep at both radial ends, clamped. */
  function Alpha(nr: real, noise: real): (a: real)
    ensures 0.0 <= a <= 1.0
    ensures nr <= 0.0 || nr >= 1.0 ==> a == 0.0
  {
    var fadeIn, fadeOut := Smoothstep(0.0, 0.15, nr), 1.0 - Smoothstep(0.85, 1.0, nr);
    Clamp(Taper(Density * (0.2 + noise * 0.9), fadeIn, fadeOut), 0.0, 1.0)
  }

  /** An opacity scaled by the inner and the outer fade factors. */
  function Taper(raw: real, fadeIn: real, fadeOut: real): (t: real)
    ensures fadeIn == 0.0 || fadeOut == 0.0 ==> t == 0.0
    ensures fadeIn == 1.0 && fadeOut == 1.0 ==> t == raw
  {
    raw * fadeIn * fadeOut
  }

  /** Between the two tapers the disk is never transparent: alpha is at least 0.26. */
  lemma AlphaPlateau(nr: real, noise: real)
    requires 0.15 <= nr <= 0.85 && 0.0 <= noise
    ensures Alpha(nr, noise) >= 0.26
    ensures noise >= 0.9 ==> Alpha(nr, noise) == 1.0
  {
    assert Smoothstep(0.0, 0.15, nr) == 1.0;
    assert Smoothstep(0.85, 1.0, nr) == 0.0;
  }

  /** The whole fragment: gradient colour, noise tint and brightness, and the tapered alpha. */
  function DiskFragment(radius: real, noise: real, wave: real, p: Palette): (f: Rgba)
    ensures 0.0 <= f.alpha <= 1.0
    ensures radius <= InnerRadius || radius >= OuterRadius ==> f.alpha == 0.0
  {
    var nr := NormalizedRadius(radius);
    var tinted := Scale(Gradient(nr, p), 0.5 + noise * 1.0);
    Rgba(Scale(tinted, Brightness(nr, noise, wave)), Alpha(nr, noise))
  }

  /** Soft edges: at either end of the ring the fragment is fully transparent
      whatever the noise, and the gradient there is the outer or the hot stop. */
  lemma DiskEdgesFade(noise: real, wave: real, p: Palette)
    ensures DiskFragment(InnerRadius, noise, wave, p).alpha == 0.0
    ensures DiskFragment(OuterRadius, noise, wave, p).alpha == 0.0
    ensures Gradient(NormalizedRadius(InnerRadius), p) == p.outer
    ensures Gradient(NormalizedRadius(OuterRadius), p) == p.hot
  {
    assert NormalizedRadius(InnerRadius) == 0.0;
    assert NormalizedRadius(OuterRadius) == 1.0;
  }
}
