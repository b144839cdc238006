/**
 * The explosion control signal of the tree scene: the camera's distance to
 * its orbit target is mapped to a clamped collapse target, and the
 * explosion factor follows that target through a first-order low-pass
 * filter, once per rendered frame.
 */
module ControlSignal {
  import opened Geometry

  /** Camera distance at which the tree starts to burst apart. */
  const StartDistance: real := 6.5
  /** Camera distance at which the burst is complete. */
  const EndDistance: real := 4.5
  /** Fraction of the remaining gap the explosion factor closes each frame. */
  const Smoothing: real := 0.08
  /** Distance used while the orbit controls are not yet mounted. */
  const DefaultDistance: real := 6.0

  /** `controlsRef.current?.getDistance?.() ?? 6` */
  function CameraDistance(reading: Option<real>): (dist: real)
    ensures reading.None? ==> dist == DefaultDistance
    ensures reading.Some? ==> dist == reading.value
  {
    match reading
    case None => DefaultDistance
    case Some(d) => d
  }

  /** The collapse target: 0 far from the tree, 1 close to it, linear in between. */
  function CollapseTarget(dist: real): (target: real)
    ensures 0.0 <= target <= 1.0
    ensures dist >= StartDistance ==> target == 0.0
    ensures dist <= EndDistance ==> target == 1.0
    ensures EndDistance <= dist <= StartDistance ==>
              target * (StartDistance - EndDistance) == StartDistance - dist
  {
    Clamp01((StartDistance - dist) / (StartDistance - EndDistance))
  }

  /** Moving the camera closer never lowers the collapse target. */
  lemma {:induction false} CollapseTargetAntitone(near: real, far: real)
    requires near <= far
    ensures CollapseTarget(far) <= CollapseTarget(near)
  {
  }

  /**
   * One frame of the follower: `f += (target - f) * 0.08`. The new value
   * lies between the old value and the target (it never overshoots), the
   * remaining gap shrinks to 0.92 of what it was, and the step is exactly
   * the smoothing fraction of the gap.
   */
  function Follow(f: real, target: real): (next: real)
    ensures f <= target ==> f <= next <= target
    ensures target <= f ==> target <= next <= f
    ensures target - next == (1.0 - Smoothing) * (target - f)
    ensures next - f == Smoothing * (target - f)
  {
    f + (target - f) * Smoothing
  }

  /** The follower keeps the factor in [0, 1] whenever factor and target are there. */
  lemma {:induction false} FollowStaysInUnit(f: real, target: real)
    requires 0.0 <= f <= 1.0 && 0.0 <= target <= 1.0
    ensures 0.0 <= Follow(f, target) <= 1.0
  {
  }

  /** A factor that has reached its target stays there. */
  lemma {:induction false} FollowFixedPoint(target: real)
    ensures Follow(target, target) == target
  {
  }

  /** `n` frames with the camera held at one distance. */
  function FollowN(f: real, target: real, n: nat): real
    decreases n
  {
    if n == 0 then f else FollowN(Follow(f, target), target, n - 1)
  }

  function Pow(a: real, n: nat): real
  {
    if n == 0 then 1.0 else a * Pow(a, n - 1)
  }

  /** After `n` frames at a fixed target the gap is 0.92^n of the initial gap. */
  lemma {:induction false} FollowNGap(f: real, target: real, n: nat)
    ensures target - FollowN(f, target, n) == Pow(1.0 - Smoothing, n) * (target - f)
    decreases n
  {
    if n > 0 {
      FollowNGap(Follow(f, target), target, n - 1);
      calc {
        target - FollowN(f, target, n);
        == target - FollowN(Follow(f, target), target, n - 1);
        == Pow(1.0 - Smoothing, n - 1) * (target - Follow(f, target));
        == Pow(1.0 - Smoothing, n - 1) * ((1.0 - Smoothing) * (target - f));
        == Pow(1.0 - Smoothing, n) * (target - f);
      }
    }
  }

  /** While the target is held at 1 the factor never decreases and never passes 1. */
  lemma {:induction false} FollowNMonotone(f: real, n: nat)
    requires f <= 1.0
    ensures f <= FollowN(f, 1.0, n) <= FollowN(f, 1.0, n + 1) <= 1.0
    decreases n
  {
    if n > 0 {
      FollowNMonotone(Follow(f, 1.0), n - 1);
    }
  }

  lemma {:induction false} PowNonNegative(a: real, n: nat)
    requires 0.0 <= a
    ensures 0.0 <= Pow(a, n)
  {
    if n > 0 {
      PowNonNegative(a, n - 1);
    }
  }

  lemma {:induction false} PowAdd(a: real, m: nat, n: nat)
    ensures Pow(a, m + n) == Pow(a, m) * Pow(a, n)
  {
    if m > 0 {
      PowAdd(a, m - 1, n);
    }
  }

  lemma {:induction false} PowMul(a: real, m: nat, n: nat)
    ensures Pow(a, m * n) == Pow(Pow(a, m), n)
  {
    if n > 0 {
      PowMul(a, m, n - 1);
      PowAdd(a, m, m * (n - 1));
      assert m * n == m + m * (n - 1);
    }
  }

  lemma {:induction false} PowMonoBase(a: real, b: real, n: nat)
    requires 0.0 <= a <= b
    ensures Pow(a, n) <= Pow(b, n)
  {
    if n > 0 {
      PowMonoBase(a, b, n - 1);
      PowNonNegative(a, n - 1);
      assert a * Pow(a, n - 1) <= b * Pow(a, n - 1);
      assert b * Pow(a, n - 1) <= b * Pow(b, n - 1);
    }
  }

  lemma {:induction false} PowShrinks(a: real, m: nat, n: nat)
    requires 0.0 <= a <= 1.0 && m <= n
    ensures Pow(a, n) <= Pow(a, m)
  {
    PowAdd(a, m, n - m);
    PowMonoBase(a, 1.0, n - m);
    PowOne(n - m);
    PowNonNegative(a, m);
    assert Pow(a, m) * Pow(a, n - m) <= Pow(a, m) * 1.0;
  }

  lemma {:induction false} PowOne(n: nat)
    ensures Pow(1.0, n) == 1.0
  {
    if n > 0 {
      PowOne(n - 1);
    }
  }

  /** 0.92^60 < 0.01 */
  lemma SixtyFramesBound()
    ensures Pow(1.0 - Smoothing, 60) < 0.01
  {
    var q := 1.0 - Smoothing;
    assert Pow(q, 5) <= 0.66 by {
      assert Pow(q, 1) == 0.92;
      assert Pow(q, 2) == 0.8464;
      assert Pow(q, 3) == 0.778688;
      assert Pow(q, 4) == 0.71639296;
      assert Pow(q, 5) == 0.6590815232;
    }
    PowNonNegative(q, 5);
    PowMul(q, 5, 12);
    PowMonoBase(Pow(q, 5), 0.66, 12);
    PowMul(0.66, 2, 6);
    assert Pow(0.66, 2) <= 0.44;
    PowMonoBase(Pow(0.66, 2), 0.44, 6);
    PowMul(0.44, 2, 3);
    assert Pow(0.44, 2) <= 0.2;
    PowMonoBase(Pow(0.44, 2), 0.2, 3);
    assert Pow(0.2, 3) == 0.008;
  }

  /**
   * Convergence: with the camera held inside the full-burst band, a factor
   * starting anywhere in [0, 1] is within 0.01 of 1 after at most 60 frames.
   */
  lemma {:induction false} ConvergesWithinSixtyFrames(f: real, n: nat)
    requires 0.0 <= f <= 1.0 && n >= 60
    ensures 1.0 - 0.01 < FollowN(f, 1.0, n) <= 1.0
  {
    FollowNGap(f, 1.0, n);
    FollowNMonotone(f, n);
    PowShrinks(1.0 - Smoothing, 60, n);
    SixtyFramesBound();
    PowNonNegative(1.0 - Smoothing, n);
    assert Pow(1.0 - Smoothing, n) * (1.0 - f) <= Pow(1.0 - Smoothing, n) * 1.0;
  }

  /** The factor after one frame per camera-distance reading, starting from `f`. */
  function Run(f: real, readings: seq<Option<real>>): real
    decreases |readings|
  {
    if readings == [] then f
    else Run(Follow(f, CollapseTarget(CameraDistance(readings[0]))), readings[1..])
  }

  /** Whatever the camera does, a factor that starts in [0, 1] (it starts at 0) stays there. */
  lemma {:induction false} RunStaysInUnit(f: real, readings: seq<Option<real>>)
    requires 0.0 <= f <= 1.0
    ensures 0.0 <= Run(f, readings) <= 1.0
    decreases |readings|
  {
    if readings != [] {
      var target := CollapseTarget(CameraDistance(readings[0]));
      FollowStaysInUnit(f, target);
      RunStaysInUnit(Follow(f, target), readings[1..]);
    }
  }

  /**
   * The two refs written by the voxel frame callback: `explode` is
   * `explodeRef.current`, `collapse` is `collapseRef.current`. Both start at 0.
   */
  class Signal {
    var explode: real
    var collapse: real

    ghost predicate Valid()
      reads this
    {
      0.0 <= explode <= 1.0 && 0.0 <= collapse <= 1.0
    }

    constructor ()
      ensures Valid()
      ensures explode == 0.0 && collapse == 0.0
    {
      explode := 0.0;
      collapse := 0.0;
    }

    /** The first three statements of the voxel frame callback. */
    method Tick(reading: Option<real>)
      requires Valid()
      modifies this
      ensures Valid()
      ensures collapse == CollapseTarget(CameraDistance(reading))
      ensures explode == Follow(old(explode), collapse)
    {
      var target := CollapseTarget(CameraDistance(reading));
      collapse := target;
      explode := explode + (target - explode) * Smoothing;
    }
  }
}
