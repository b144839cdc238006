/**
 * Shared vocabulary of the scene model: real-valued 3D vectors, instance
 * transforms, the small numeric helpers the scene code takes from `Math`,
 * and the environment that stands in for the floating-point library
 * (`Math.cos`, `Math.sin`, `Math.pow`, `Math.PI`, `Vector3.normalize`) and
 * for the `Math.random` stream.
 */
module Geometry {

  datatype Option<T> = None | Some(value: T)

  /** `Math.min` on two reals. */
  function Min(a: real, b: real): (r: real)
    ensures r <= a && r <= b
    ensures r == a || r == b
  {
    if a <= b then a else b
  }

  /** `Math.max` on two reals. */
  function Max(a: real, b: real): (r: real)
    ensures a <= r && b <= r
    ensures r == a || r == b
  {
    if a >= b then a else b
  }

  /** `Math.min(1, Math.max(0, x))`, the clamp the scene uses for every blend factor. */
  function Clamp01(x: real): (r: real)
    ensures 0.0 <= r <= 1.0
    ensures 0.0 <= x <= 1.0 ==> r == x
    ensures x < 0.0 ==> r == 0.0
    ensures x > 1.0 ==> r == 1.0
  {
    Min(1.0, Max(0.0, x))
  }

  datatype Vec3 = Vec3(x: real, y: real, z: real)

  const Origin := Vec3(0.0, 0.0, 0.0)

  /** `a.clone().add(b)` */
  function Add(a: Vec3, b: Vec3): Vec3 {
    Vec3(a.x + b.x, a.y + b.y, a.z + b.z)
  }

  /** `v.clone().multiplyScalar(k)` */
  function Scale(v: Vec3, k: real): Vec3 {
    Vec3(v.x * k, v.y * k, v.z * k)
  }

  /** `Vector3.lerp`: each component moves `alpha` of the way from `a` to `b`. */
  function Lerp(a: Vec3, b: Vec3, alpha: real): Vec3 {
    Vec3(a.x + (b.x - a.x) * alpha, a.y + (b.y - a.y) * alpha, a.z + (b.z - a.z) * alpha)
  }

  /** `Vector3.setScalar(s)`: the same factor on all three axes. */
  function Uniform3(s: real): Vec3 {
    Vec3(s, s, s)
  }

  /** Squared distance from the vertical axis through the origin. */
  function HorizontalDist2(v: Vec3): real {
    v.x * v.x + v.z * v.z
  }

  lemma {:induction false} LerpEnds(a: Vec3, b: Vec3)
    ensures Lerp(a, b, 0.0) == a
    ensures Lerp(a, b, 1.0) == b
  {
  }

  /**
   * How an instance is oriented. `Euler` is `rotation.set(x, y, z)`;
   * `LookingAt` records a call of `Object3D.lookAt(target)`, optionally
   * followed by `rotateZ(roll)`. The rotation that `lookAt` computes is
   * three.js library code and is not modelled.
   */
  datatype Orientation = Euler(angles: Vec3) | LookingAt(target: Vec3, roll: real)

  /** What `Object3D.updateMatrix` composes into one instance matrix. */
  datatype Transform = Transform(position: Vec3, scale: Vec3, rotation: Orientation)

  const Identity := Transform(Origin, Uniform3(1.0), Euler(Origin))

  /**
   * The floating-point library the scene calls, taken as given functions:
   * nothing about them is assumed beyond what `Sound` states.
   */
  datatype MathLib = MathLib(
    pi: real,
    cos: real -> real,
    sin: real -> real,
    pow: (real, real) -> real,
    normalize: Vec3 -> Vec3)

  /** The facts about `Math` that the model relies on. */
  ghost predicate Sound(m: MathLib) {
    && 3.14 < m.pi < 3.15
    && (forall a :: m.cos(a) * m.cos(a) + m.sin(a) * m.sin(a) == 1.0)
    && (forall u, e :: 0.0 <= u <= 1.0 && 0.0 < e ==> 0.0 <= m.pow(u, e) <= 1.0)
  }

  /** Every draw of the `Math.random` stream lies in [0, 1). */
  ghost predicate Uniform(rng: nat -> real) {
    forall k :: 0.0 <= rng(k) < 1.0
  }

  /** The point at `angle` on the circle of radius `r` around the vertical axis, at height `y`. */
  function Polar(m: MathLib, angle: real, r: real, y: real): Vec3 {
    Vec3(m.cos(angle) * r, y, m.sin(angle) * r)
  }

  lemma {:induction false} SquareMono(a: real, b: real)
    requires 0.0 <= a <= b
    ensures a * a <= b * b
  {
    assert a * a <= a * b;
    assert a * b <= b * b;
  }

  lemma {:induction false} SquareStrictMono(a: real, b: real)
    requires 0.0 <= a < b
    ensures a * a < b * b
  {
    calc {
      a * a;
      <= a * b;
      < b * b;
    }
  }

  lemma {:induction false} MulMono(c: real, a: real, b: real)
    requires 0.0 <= c && a <= b
    ensures c * a <= c * b
  {
  }

  /** Bounds of a product of two non-negative factors drawn from [alo, ahi] and [blo, bhi). */
  lemma {:induction false} MulBounds(a: real, b: real, alo: real, ahi: real, blo: real, bhi: real)
    requires 0.0 <= alo <= a <= ahi && 0.0 < ahi
    requires 0.0 <= blo <= b < bhi
    ensures alo * blo <= a * b < ahi * bhi
  {
    calc {
      alo * blo;
      <= a * blo;
      <= a * b;
    }
    calc {
      a * b;
      <= ahi * b;
      < ahi * bhi;
    }
  }

  /** Polar placement lies exactly on its circle: x² + z² = r². */
  lemma {:induction false} PolarOnCircle(m: MathLib, angle: real, r: real, y: real)
    requires Sound(m)
    ensures HorizontalDist2(Polar(m, angle, r, y)) == r * r
    ensures Polar(m, angle, r, y).y == y
  {
    var c, s := m.cos(angle), m.sin(angle);
    assert c * c + s * s == 1.0;
    calc {
      (c * r) * (c * r) + (s * r) * (s * r);
      == (c * c) * (r * r) + (s * s) * (r * r);
      == (c * c + s * s) * (r * r);
      == r * r;
    }
  }

  /** A polar placement whose radius lies in [lo, hi) stays in that annulus. */
  lemma {:induction false} PolarInAnnulus(m: MathLib, angle: real, r: real, y: real, lo: real, hi: real)
    requires Sound(m)
    requires 0.0 <= lo <= r < hi
    ensures lo * lo <= HorizontalDist2(Polar(m, angle, r, y)) < hi * hi
  {
    PolarOnCircle(m, angle, r, y);
    SquareMono(lo, r);
    SquareStrictMono(r, hi);
  }

  /** The sine of the environment never leaves [-1, 1]. */
  lemma {:induction false} SinBounded(m: MathLib, a: real)
    requires Sound(m)
    ensures -1.0 <= m.sin(a) <= 1.0
  {
    var c, s := m.cos(a), m.sin(a);
    assert c * c + s * s == 1.0;
    assert s * s <= 1.0 by { assert c * c >= 0.0; }
  }

  /** The cosine of the environment never leaves [-1, 1]. */
  lemma {:induction false} CosBounded(m: MathLib, a: real)
    requires Sound(m)
    ensures -1.0 <= m.cos(a) <= 1.0
  {
    var c, s := m.cos(a), m.sin(a);
    assert c * c + s * s == 1.0;
    assert c * c <= 1.0 by { assert s * s >= 0.0; }
  }

  /** A product `s * k` with `s` in [-1, 1] and `k >= 0` lies in [-k, k]. */
  lemma {:induction false} UnitTimes(s: real, k: real)
    requires -1.0 <= s <= 1.0 && 0.0 <= k
    ensures -k <= s * k <= k
  {
    MulMono(k, s, 1.0);
    MulMono(k, -1.0, s);
  }
}
