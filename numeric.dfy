/**
 * The scalar and vector helpers shared by the shaders and the page scripts:
 * GLSL's clamp, mix and smoothstep (OpenGL ES Shading Language 3.00, section 8.3),
 * JavaScript's Math.min and Math.max, and three-component vectors.
 * Numbers are Dafny reals: the rounding of 32-bit shader floats and of
 * JavaScript doubles is not modelled.
 */
module Numeric {

  function Min(a: real, b: real): (r: real)
    ensures r <= a && r <= b
    ensures r == a || r == b
  {
    if a <= b then a else b
  }

  function Max(a: real, b: real): (r: real)
    ensures r >= a && r >= b
    ensures r == a || r == b
  {
    if a >= b then a else b
  }

  /** GLSL `clamp(x, lo, hi)`, defined there as `min(max(x, lo), hi)`; the
      JavaScript idiom `Math.max(lo, Math.min(hi, x))` agrees with it whenever `lo <= hi`. */
  function Clamp(x: real, lo: real, hi: real): (r: real)
    requires lo <= hi
    ensures lo <= r <= hi
    ensures lo <= x <= hi ==> r == x
    ensures x <= lo ==> r == lo
    ensures x >= hi ==> r == hi
  {
    Min(Max(x, lo), hi)
  }

  /** GLSL `mix(a, b, t) = a * (1 - t) + b * t`. */
  function Mix(a: real, b: real, t: real): (r: real)
    ensures t == 0.0 ==> r == a
    ensures t == 1.0 ==> r == b
    ensures 0.0 <= t <= 1.0 ==> Min(a, b) <= r <= Max(a, b)
  {
    MixBetween(a, b, t);
    a * (1.0 - t) + b * t
  }

  lemma MixBetween(a: real, b: real, t: real)
    ensures 0.0 <= t <= 1.0 ==> Min(a, b) <= a * (1.0 - t) + b * t <= Max(a, b)
  {
    if 0.0 <= t <= 1.0 {
      // the result is a + (b - a) * t, a point of the segment from a to b
      assert a * (1.0 - t) + b * t == a + (b - a) * t;
      var w, u := if a <= b then b - a else a - b, 1.0 - t;
      ProductNonNegative(w, t);
      ProductNonNegative(w, u);
      assert w * u == w - w * t;
    }
  }

  /** The cubic Hermite ease `t * t * (3 - 2 * t)` of smoothstep. */
  function Hermite(t: real): real
  {
    t * t * (3.0 - 2.0 * t)
  }

  lemma HermiteInUnit(t: real)
    requires 0.0 <= t <= 1.0
    ensures 0.0 <= Hermite(t) <= 1.0
  {
    var sq, rest := t * t, 3.0 - 2.0 * t;
    ProductNonNegative(t, t);
    ProductNonNegative(sq, rest);
    // 1 - t*t*(3 - 2t) factors as (1 - t)^2 * (1 + 2t)
    var gap, grow := (1.0 - t) * (1.0 - t), 1.0 + 2.0 * t;
    ProductNonNegative(1.0 - t, 1.0 - t);
    ProductNonNegative(gap, grow);
    assert 1.0 - Hermite(t) == gap * grow;
  }

  lemma ProductNonNegative(a: real, b: real)
    requires a >= 0.0 && b >= 0.0
    ensures a * b >= 0.0
  {
  }

  lemma ProductPositive(a: real, b: real)
    requires a > 0.0 && b > 0.0
    ensures a * b > 0.0
  {
  }

  /**
   * GLSL `smoothstep(e0, e1, x)`: `t = clamp((x - e0) / (e1 - e0), 0, 1)`, then the
   * Hermite ease of t. The GLSL specification leaves it undefined when `e0 >= e1`;
   * this model takes that same formula for reversed edges too, which is what the
   * lensing falloff relies on, and excludes only `e0 == e1` (a division by zero).
   */
  function Smoothstep(e0: real, e1: real, x: real): (r: real)
    requires e0 != e1
    ensures 0.0 <= r <= 1.0
    ensures (e0 < e1 && x <= e0) || (e1 < e0 && x >= e0) ==> r == 0.0
    ensures (e0 < e1 && x >= e1) || (e1 < e0 && x <= e1) ==> r == 1.0
  {
    var q := (x - e0) / (e1 - e0);
    var t := Clamp(q, 0.0, 1.0);
    HermiteInUnit(t);
    EdgeRatio(e0, e1, x);
    Hermite(t)
  }

  /** Where x lies against the edges decides the sign of the smoothstep ratio. */
  lemma EdgeRatio(e0: real, e1: real, x: real)
    requires e0 != e1
    ensures (e0 < e1 && x <= e0) || (e1 < e0 && x >= e0) ==> (x - e0) / (e1 - e0) <= 0.0
    ensures (e0 < e1 && x >= e1) || (e1 < e0 && x <= e1) ==> (x - e0) / (e1 - e0) >= 1.0
  {
    // divide by the positive width |e1 - e0| instead
    var d, n := if e0 < e1 then e1 - e0 else e0 - e1, if e0 < e1 then x - e0 else e0 - x;
    assert (x - e0) / (e1 - e0) == n / d;
    RatioBounds(n, d);
  }

  lemma RatioBounds(n: real, d: real)
    requires d > 0.0
    ensures n <= 0.0 ==> n / d <= 0.0
    ensures n >= d ==> n / d >= 1.0
  {
  }

  /** Bounds of a product of two non-negative factors from bounds of the factors. */
  lemma ProductBounds(a: real, b: real, aLo: real, aHi: real, bLo: real, bHi: real)
    requires 0.0 <= aLo <= a <= aHi && 0.0 <= bLo <= b <= bHi
    ensures aLo * bLo <= a * b <= aHi * bHi
  {
    // a*b - aLo*bLo = (a - aLo)*b + aLo*(b - bLo), and symmetrically at the top
    ProductNonNegative(a - aLo, b);
    ProductNonNegative(aLo, b - bLo);
    assert a * b - aLo * bLo == (a - aLo) * b + aLo * (b - bLo);
    ProductNonNegative(aHi - a, b);
    ProductNonNegative(aHi, bHi - b);
    assert aHi * bHi - a * b == (aHi - a) * b + aHi * (bHi - b);
  }

  /** A colour or a position: three real components. */
  datatype Vec3 = Vec3(x: real, y: real, z: real)

  function Scale(v: Vec3, k: real): Vec3
  {
    Vec3(v.x * k, v.y * k, v.z * k)
  }

  predicate InUnitCube(v: Vec3)
  {
    0.0 <= v.x <= 1.0 && 0.0 <= v.y <= 1.0 && 0.0 <= v.z <= 1.0
  }

  /** GLSL `mix` on vectors, component by component. */
  function MixVec(a: Vec3, b: Vec3, t: real): (r: Vec3)
    ensures t == 0.0 ==> r == a
    ensures t == 1.0 ==> r == b
    ensures 0.0 <= t <= 1.0 && InUnitCube(a) && InUnitCube(b) ==> InUnitCube(r)
  {
    Vec3(Mix(a.x, b.x, t), Mix(a.y, b.y, t), Mix(a.z, b.z, t))
  }
}
