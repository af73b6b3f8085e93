/**
 * The full-screen lensing pass (blackhole.js, the lensing shader's fragment
 * `main`): the clamped, falloff-weighted distortion magnitude, the three
 * channel sample positions and the luminance-derived alpha. `length`,
 * `normalize` and the texture reads are not computed here: the distance to
 * the centre, the displacement and the sampled colour are inputs.
 */
module Lensing {
  import opened Numeric

  /** Uniform values the pass is created with. */
  const Strength: real := 0.12
  const Radius: real := 0.3
  const ChromaticAberration: real := 0.005
  /** The most a fragment is displaced, in UV units before the aspect correction. */
  const MaxDistortion: real := 0.7

  datatype Vec2 = Vec2(x: real, y: real)

  /** The vector from the lensing centre to the fragment, x stretched by the aspect ratio
      so that the distortion stays round on a non-square buffer. */
  function ToCenter(uv: Vec2, center: Vec2, aspect: real): (v: Vec2)
    ensures aspect != 0.0 ==> v.x / aspect + center.x == uv.x
    ensures v.y + center.y == uv.y
  {
    Vec2((uv.x - center.x) * aspect, uv.y - center.y)
  }

  /**
   * `strength / (dist^2 + 0.003)` clamped to [0, 0.7], then scaled by the falloff
   * `smoothstep(radius, radius * 0.3, dist)`. Its edges are reversed, which the
   * shading-language specification leaves undefined; the Hermite formula is
   * taken for it as written, so `radius` must not be 0.
   */
  function Distortion(strength: real, radius: real, dist: real): (d: real)
    requires radius != 0.0
    ensures 0.0 <= d <= MaxDistortion
    ensures radius > 0.0 && dist >= radius ==> d == 0.0
  {
    var magnitude := Clamp(strength / (dist * dist + 0.003), 0.0, MaxDistortion);
    var falloff := Smoothstep(radius, radius * 0.3, dist);
    ProductBounds(magnitude, falloff, 0.0, MaxDistortion, 0.0, 1.0);
    magnitude * falloff
  }

  /** Near the centre (within 0.09 of it) the distortion is at its ceiling of 0.7. */
  lemma DistortionSaturatesAtCenter(dist: real)
    requires 0.0 <= dist <= 0.09
    ensures Distortion(Strength, Radius, dist) == MaxDistortion
  {
    var den := dist * dist + 0.003;
    ProductBounds(dist, dist, 0.0, 0.09, 0.0, 0.09);
    assert 0.003 <= den <= 0.0111;
    RatioAtLeast(Strength, den, MaxDistortion);
    assert Smoothstep(Radius, Radius * 0.3, dist) == 1.0;
  }

  lemma RatioAtLeast(n: real, d: real, bound: real)
    requires d > 0.0 && n >= bound * d
    ensures n / d >= bound
  {
  }

  /** From the distortion radius outwards the frame is passed through undistorted. */
  lemma NoDistortionOutsideRadius(dist: real)
    requires dist >= Radius
    ensures Distortion(Strength, Radius, dist) == 0.0
  {
  }

  /** The three sample positions: red displaced by `1 + ca`, green by 1, blue by `1 - ca`. */
  datatype ChannelUvs = ChannelUvs(r: Vec2, g: Vec2, b: Vec2)

  function SampleUvs(uv: Vec2, offset: Vec2, ca: real): (s: ChannelUvs)
    ensures s.r.x + s.b.x == 2.0 * s.g.x && s.r.y + s.b.y == 2.0 * s.g.y
    ensures s.g.x + offset.x == uv.x && s.g.y + offset.y == uv.y
    ensures ca == 0.0 ==> s.r == s.g == s.b
  {
    ChannelUvs(
      Vec2(uv.x - offset.x * (1.0 + ca), uv.y - offset.y * (1.0 + ca)),
      Vec2(uv.x - offset.x, uv.y - offset.y),
      Vec2(uv.x - offset.x * (1.0 - ca), uv.y - offset.y * (1.0 - ca)))
  }

  /** `dot(rgb, vec3(0.299, 0.587, 0.114))`. */
  function Luminance(rgb: Vec3): (l: real)
    ensures InUnitCube(rgb) ==> 0.0 <= l <= 1.0
    ensures rgb.x == rgb.y == rgb.z ==> l == rgb.x
  {
    rgb.x * 0.299 + rgb.y * 0.587 + rgb.z * 0.114
  }

  /** `smoothstep(0.04, 0.14, lum)`: dark pixels become transparent, bright ones opaque. */
  function OutputAlpha(rgb: Vec3): (a: real)
    ensures 0.0 <= a <= 1.0
    ensures Luminance(rgb) <= 0.04 ==> a == 0.0
    ensures Luminance(rgb) >= 0.14 ==> a == 1.0
  {
    Smoothstep(0.04, 0.14, Luminance(rgb))
  }

  /** The cleared (black) background stays fully transparent, white stays opaque. */
  lemma BackgroundIsTransparent()
    ensures OutputAlpha(Vec3(0.0, 0.0, 0.0)) == 0.0
    ensures OutputAlpha(Vec3(1.0, 1.0, 1.0)) == 1.0
  {
  }
}
