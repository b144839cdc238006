/**
 * The CSS snow layer: `count` flakes, each with six parameters drawn from
 * the `Math.random` stream in the order the record literal lists them.
 */
module Snow {
  import opened Geometry

  /** Flakes drawn when no count is given. */
  const DefaultCount: nat := 70
  /** The count the countdown overlay asks for. */
  const OverlayCount: nat := 220

  /** Draws per flake: left, size, duration, delay, opacity, drift. */
  const DrawsPerFlake: nat := 6

  datatype Snowflake = Snowflake(id: nat, left: real, size: real, duration: real, delay: real, opacity: real, drift: real)

  /** The ranges the flake parameters take for draws in [0, 1). */
  ghost predicate InRange(f: Snowflake) {
    && 0.0 <= f.left < 100.0
    && 2.0 <= f.size < 6.0
    && 12.0 <= f.duration < 26.0
    && -20.0 < f.delay <= 0.0
    && 0.35 <= f.opacity < 0.85
    && -24.0 <= f.drift < 24.0
  }

  /** The flake at `index`, from draws `6 index` to `6 index + 5`. */
  function FlakeAt(index: nat, rng: nat -> real): (f: Snowflake)
    requires Uniform(rng)
    ensures f.id == index && InRange(f)
  {
    var k := DrawsPerFlake * index;
    Snowflake(index,
              rng(k) * 100.0,
              2.0 + rng(k + 1) * 4.0,
              12.0 + rng(k + 2) * 14.0,
              -rng(k + 3) * 20.0,
              0.35 + rng(k + 4) * 0.5,
              (rng(k + 5) * 2.0 - 1.0) * 24.0)
  }

  /** The draws a flake was made from, read back from its parameters. */
  function DrawsOf(f: Snowflake): seq<real> {
    [f.left / 100.0, (f.size - 2.0) / 4.0, (f.duration - 12.0) / 14.0, -f.delay / 20.0,
     (f.opacity - 0.35) / 0.5, (f.drift / 24.0 + 1.0) / 2.0]
  }

  /** Every draw survives into its flake: the parameters determine the six draws exactly. */
  lemma {:induction false} FlakeKeepsDraws(index: nat, rng: nat -> real)
    requires Uniform(rng)
    ensures DrawsOf(FlakeAt(index, rng)) == seq(DrawsPerFlake, j requires 0 <= j < DrawsPerFlake => rng(DrawsPerFlake * index + j))
  {
  }

  /** The `flakes` memo: `Array.from({ length: count }, …)`. */
  function Flakes(count: nat, rng: nat -> real): (flakes: seq<Snowflake>)
    requires Uniform(rng)
    ensures |flakes| == count
    ensures forall i :: 0 <= i < count ==> flakes[i].id == i && InRange(flakes[i])
  {
    seq(count, index requires 0 <= index < count => FlakeAt(index, rng))
  }

  /**
   * Flakes do not share draws: two streams that agree on a flake's six
   * draws give that flake the same parameters, whatever they do elsewhere.
   */
  lemma {:induction false} FlakesIndependent(count: nat, rng: nat -> real, other: nat -> real, i: nat)
    requires Uniform(rng) && Uniform(other) && i < count
    requires forall k :: DrawsPerFlake * i <= k < DrawsPerFlake * i + DrawsPerFlake ==> rng(k) == other(k)
    ensures Flakes(count, rng)[i] == Flakes(count, other)[i]
  {
  }

  /** `SnowLayer({ count = 70 })`: the flakes for an optional `count` prop. */
  function Layer(count: Option<nat>, rng: nat -> real): (flakes: seq<Snowflake>)
    requires Uniform(rng)
    ensures count.None? ==> |flakes| == DefaultCount
    ensures count.Some? ==> |flakes| == count.value
    ensures forall i :: 0 <= i < |flakes| ==> flakes[i] == FlakeAt(i, rng)
  {
    Flakes(if count.None? then DefaultCount else count.value, rng)
  }

  /** The countdown overlay's snow: 220 flakes, every one within the flake ranges. */
  lemma {:induction false} OverlaySnow(rng: nat -> real)
    requires Uniform(rng)
    ensures |Layer(Some(OverlayCount), rng)| == 220
    ensures forall i :: 0 <= i < 220 ==> InRange(Layer(Some(OverlayCount), rng)[i])
  {
    var flakes := Layer(Some(OverlayCount), rng);
    forall i | 0 <= i < 220
      ensures InRange(flakes[i])
    {
      assert flakes[i] == FlakeAt(i, rng);
    }
  }
}
