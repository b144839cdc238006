/**
 * The burst layer of the tree (`ExplosionVoxels`): the placement
 * generators `base`, `makeBurst`, `makeBoxes` and the gold-card list, the
 * per-instance transforms written by `updateBurst` and `updateRibbons`,
 * and the frame callback that first advances the control signal and then
 * rewrites every burst batch from it.
 */
module Voxels {
  import opened Geometry
  import opened Instancing
  import opened ControlSignal
  import TreeBody

  /** A burst placement: base position, flight direction, base size and an optional rotation. */
  datatype BurstItem = BurstItem(pos: Vec3, dir: Vec3, size: real, rot: Option<Vec3>)

  /** `Math.random() * span` */
  function DrawUpTo(u: real, span: real): (v: real)
    requires 0.0 <= u < 1.0 && 0.0 < span
    ensures 0.0 <= v < span
  {
    assert u * span < 1.0 * span;
    u * span
  }

  /**
   * The jitter added to a position before normalising it into a flight
   * direction: sideways by at most 0.4, upwards by up to 1.2, never downwards.
   */
  function Jitter(rng: nat -> real, k: nat): (j: Vec3)
    requires Uniform(rng)
    ensures -0.4 <= j.x < 0.4 && -0.4 <= j.z < 0.4
    ensures 0.0 <= j.y < 1.2
  {
    Vec3((rng(k) - 0.5) * 0.8, DrawUpTo(rng(k + 1), 1.2), (rng(k + 2) - 0.5) * 0.8)
  }

  /**
   * The common head of `base`, `makeBurst` and `makeBoxes` (eight draws):
   * a height below `height`, a tapered radius, an angle, two spreads for x
   * and z, then the direction `normalize(pos + jitter)`.
   */
  function DrawScatter(m: MathLib, rng: nat -> real, k: nat, height: real, radiusBase: real,
                       taperHeight: real, drop: real): (r: (Vec3, Vec3))
    requires Sound(m) && Uniform(rng) && 0.0 < height <= taperHeight && 0.0 < radiusBase
    ensures -drop <= r.0.y < height - drop
    ensures HorizontalDist2(r.0) < (1.26 * radiusBase) * (1.26 * radiusBase)
    ensures r.1 == m.normalize(Add(r.0, Jitter(rng, k + 5)))
  {
    var h := DrawUpTo(rng(k), height);
    var radius := Tapered(radiusBase, h, taperHeight, rng(k + 1));
    var angle := TreeBody.RandomAngle(m, rng(k + 2));
    var pos := Vec3(Spreaded(m.cos(angle), radius, rng(k + 3)), h - drop, Spreaded(m.sin(angle), radius, rng(k + 4)));
    ScatterReach(m, angle, radiusBase, h, taperHeight, rng(k + 1), rng(k + 3), rng(k + 4), h - drop);
    (pos, m.normalize(Add(pos, Jitter(rng, k + 5))))
  }

  /** A scattered point lies within `1.26 radiusBase` of the tree's axis. */
  lemma {:induction false} ScatterReach(m: MathLib, angle: real, base: real, h: real, taper: real,
                                        u: real, ux: real, uz: real, y: real)
    requires Sound(m) && 0.0 < base && 0.0 <= h < taper
    requires 0.0 <= u < 1.0 && 0.0 <= ux < 1.0 && 0.0 <= uz < 1.0
    ensures var radius := Tapered(base, h, taper, u);
            HorizontalDist2(Vec3(Spreaded(m.cos(angle), radius, ux), y, Spreaded(m.sin(angle), radius, uz)))
            < (1.26 * base) * (1.26 * base)
  {
    var radius := Tapered(base, h, taper, u);
    var pos := Vec3(Spreaded(m.cos(angle), radius, ux), y, Spreaded(m.sin(angle), radius, uz));
    TaperedRadius(base, h, taper, u);
    SpreadReach(m, angle, radius, ux, uz, y);
    ReachBound(radius, base);
    var d2, rr := HorizontalDist2(pos), radius * radius;
    assert d2 <= 1.1025 * rr < (1.26 * base) * (1.26 * base);
  }

  /** `radiusBase * (1 - h / taperHeight) * (0.6 + Math.random() * 0.6)`: narrower higher up. */
  function Tapered(base: real, h: real, taper: real, u: real): real
    requires taper != 0.0
  {
    base * (1.0 - h / taper) * (0.6 + u * 0.6)
  }

  /** The tapered radius stays below `1.2 base`. */
  lemma {:induction false} TaperedRadius(base: real, h: real, taper: real, u: real)
    requires 0.0 < base && 0.0 <= h < taper && 0.0 <= u < 1.0
    ensures 0.0 <= Tapered(base, h, taper, u) < 1.2 * base
  {
    var t := 1.0 - h / taper;
    assert h / taper < 1.0 by {
      assert h / taper * taper == h;
      if h / taper >= 1.0 {
        MulMono(taper, 1.0, h / taper);
      }
    }
    assert 0.0 < t <= 1.0;
    MulMono(base, t, 1.0);
    MulBounds(base * t, 0.6 + u * 0.6, 0.0, base, 0.6, 1.2);
  }

  /**
   * x and z are spread independently by factors below 1.05, so the point
   * stays within `1.05 R` of the axis: x² + z² <= 1.1025 R².
   */
  lemma {:induction false} SpreadReach(m: MathLib, angle: real, radius: real, u: real, v: real, y: real)
    requires Sound(m) && 0.0 <= radius && 0.0 <= u < 1.0 && 0.0 <= v < 1.0
    ensures HorizontalDist2(Vec3(Spreaded(m.cos(angle), radius, u), y, Spreaded(m.sin(angle), radius, v)))
            <= 1.1025 * (radius * radius)
  {
    var c, s := m.cos(angle), m.sin(angle);
    var a, b := 0.9 + u * 0.15, 0.9 + v * 0.15;
    var rr := radius * radius;
    assert c * c + s * s == 1.0;
    SquareMono(a, 1.05);
    SquareMono(b, 1.05);
    MulMono(rr, 0.0, c * c);
    MulMono(rr, 0.0, s * s);
    var cc, ss := rr * (c * c), rr * (s * s);
    assert (c * radius * a) * (c * radius * a) == cc * (a * a);
    assert (s * radius * b) * (s * radius * b) == ss * (b * b);
    MulMono(cc, a * a, 1.1025);
    MulMono(ss, b * b, 1.1025);
    assert cc + ss == rr * (c * c + s * s);
  }

  lemma {:induction false} ReachBound(radius: real, base: real)
    requires 0.0 <= radius < 1.2 * base
    ensures 1.1025 * (radius * radius) < (1.26 * base) * (1.26 * base)
  {
    SquareStrictMono(radius, 1.2 * base);
    assert (1.2 * base) * (1.2 * base) == 1.44 * (base * base);
    assert (1.26 * base) * (1.26 * base) == 1.5876 * (base * base);
  }

  /** One horizontal coordinate of a scatter point: `trig(angle) * radius * (0.9 + Math.random() * 0.15)`. */
  function Spreaded(trig: real, radius: real, u: real): real {
    trig * radius * (0.9 + u * 0.15)
  }

  /** `sizeMin + Math.random() * (sizeMax - sizeMin)` */
  function DrawSize(u: real, sizeMin: real, sizeMax: real): (s: real)
    requires 0.0 <= u < 1.0 && sizeMin <= sizeMax
    ensures sizeMin <= s <= sizeMax
  {
    MulMono(sizeMax - sizeMin, u, 1.0);
    sizeMin + u * (sizeMax - sizeMin)
  }

  /**
   * Where a burst item may land: below `height` from `-drop` up, within
   * 1.26 times the cone's base radius of the axis, with a size in range.
   */
  ghost predicate BurstPlaced(p: BurstItem, height: real, drop: real, radiusBase: real, sizeMin: real, sizeMax: real) {
    && -drop <= p.pos.y < height - drop
    && HorizontalDist2(p.pos) < (1.26 * radiusBase) * (1.26 * radiusBase)
    && sizeMin <= p.size <= sizeMax
  }

  ghost predicate AllPlaced(items: seq<BurstItem>, height: real, drop: real, radiusBase: real, sizeMin: real, sizeMax: real) {
    forall i :: 0 <= i < |items| ==> BurstPlaced(items[i], height, drop, radiusBase, sizeMin, sizeMax)
  }

  /** The item flies along its normalised position jittered by draws `k + 5 .. k + 7`. */
  ghost predicate AimedAt(m: MathLib, rng: nat -> real, k: nat, p: BurstItem) {
    Uniform(rng) && p.dir == m.normalize(Add(p.pos, Jitter(rng, k + 5)))
  }

  // ----------------------------------------------------------- generators

  const BaseCount: nat := 420
  const BaseHeight: real := 3.6

  /** One iteration of the `base` loop (nine draws). */
  function DrawBase(m: MathLib, rng: nat -> real, k: nat): (r: (BurstItem, nat))
    requires Sound(m) && Uniform(rng)
    ensures r.1 == k + 9
    ensures BurstPlaced(r.0, BaseHeight, 1.3, 1.8, 0.035, 0.105) && r.0.rot.None?
    ensures AimedAt(m, rng, k, r.0)
  {
    var (pos, dir) := DrawScatter(m, rng, k, BaseHeight, 1.8, 4.0, 1.3);
    (BurstItem(pos, dir, DrawSize(rng(k + 8), 0.035, 0.105), None), k + 9)
  }

  /** The `base` list of the voxel layer: `count` items, no rotation. */
  method GenerateBase(m: MathLib, rng: nat -> real, start: nat, count: nat)
    returns (list: seq<BurstItem>, next: nat)
    requires Sound(m) && Uniform(rng)
    ensures |list| == count && next == start + 9 * count
    ensures forall i :: 0 <= i < count ==> BurstPlaced(list[i], BaseHeight, 1.3, 1.8, 0.035, 0.105) && list[i].rot.None?
    ensures forall i :: 0 <= i < count ==> AimedAt(m, rng, start + 9 * i, list[i])
  {
    list, next := [], start;
    for i := 0 to count
      invariant |list| == i && next == start + 9 * i
      invariant forall j :: 0 <= j < i ==> BurstPlaced(list[j], BaseHeight, 1.3, 1.8, 0.035, 0.105) && list[j].rot.None?
      invariant forall j :: 0 <= j < i ==> AimedAt(m, rng, start + 9 * j, list[j])
    {
      var drawn := DrawBase(m, rng, next);
      list := list + [drawn.0];
      next := drawn.1;
    }
  }

  /** One iteration of `makeBurst` (nine draws). */
  function DrawBurst(m: MathLib, rng: nat -> real, k: nat, sizeMin: real, sizeMax: real, height: real)
    : (r: (BurstItem, nat))
    requires Sound(m) && Uniform(rng) && sizeMin <= sizeMax && 0.0 < height
    ensures r.1 == k + 9
    ensures BurstPlaced(r.0, height, 1.4, 2.0, sizeMin, sizeMax) && r.0.rot.None?
    ensures AimedAt(m, rng, k, r.0)
  {
    var (pos, dir) := DrawScatter(m, rng, k, height, 2.0, height, 1.4);
    (BurstItem(pos, dir, DrawSize(rng(k + 8), sizeMin, sizeMax), None), k + 9)
  }

  /** `makeBurst(num, sizeMin, sizeMax, height)` */
  method MakeBurst(m: MathLib, rng: nat -> real, start: nat, num: nat, sizeMin: real, sizeMax: real, height: real)
    returns (list: seq<BurstItem>, next: nat)
    requires Sound(m) && Uniform(rng) && sizeMin <= sizeMax && 0.0 < height
    ensures |list| == num && next == start + 9 * num
    ensures forall i :: 0 <= i < num ==> BurstPlaced(list[i], height, 1.4, 2.0, sizeMin, sizeMax) && list[i].rot.None?
    ensures forall i :: 0 <= i < num ==> AimedAt(m, rng, start + 9 * i, list[i])
  {
    list, next := [], start;
    for i := 0 to num
      invariant |list| == i && next == start + 9 * i
      invariant forall j :: 0 <= j < i ==> BurstPlaced(list[j], height, 1.4, 2.0, sizeMin, sizeMax) && list[j].rot.None?
      invariant forall j :: 0 <= j < i ==> AimedAt(m, rng, start + 9 * j, list[j])
    {
      var drawn := DrawBurst(m, rng, next, sizeMin, sizeMax, height);
      list := list + [drawn.0];
      next := drawn.1;
    }
  }

  /** A box tilt: small x and z tilts and a full turn about y. */
  ghost predicate BoxTilt(m: MathLib, rot: Vec3, tiltX: real, tiltZ: real) {
    0.0 <= rot.x < tiltX && 0.0 <= rot.y < 2.0 * m.pi && 0.0 <= rot.z < tiltZ
  }

  /** One iteration of `makeBoxes`: a `makeBurst` item plus a rotation (twelve draws). */
  function DrawBox(m: MathLib, rng: nat -> real, k: nat, sizeMin: real, sizeMax: real, height: real)
    : (r: (BurstItem, nat))
    requires Sound(m) && Uniform(rng) && sizeMin <= sizeMax && 0.0 < height
    ensures r.1 == k + 12
    ensures BurstPlaced(r.0, height, 1.4, 2.0, sizeMin, sizeMax) && AimedAt(m, rng, k, r.0)
    ensures r.0.rot.Some? && BoxTilt(m, r.0.rot.value, 0.5, 0.5)
  {
    var (pos, dir) := DrawScatter(m, rng, k, height, 2.0, height, 1.4);
    var size := DrawSize(rng(k + 8), sizeMin, sizeMax);
    var rot := Vec3(DrawUpTo(rng(k + 9), 0.5), TreeBody.RandomAngle(m, rng(k + 10)), DrawUpTo(rng(k + 11), 0.5));
    (BurstItem(pos, dir, size, Some(rot)), k + 12)
  }

  /** `makeBoxes(num, sizeMin, sizeMax, height)`: every box carries a rotation. */
  method MakeBoxes(m: MathLib, rng: nat -> real, start: nat, num: nat, sizeMin: real, sizeMax: real, height: real)
    returns (list: seq<BurstItem>, next: nat)
    requires Sound(m) && Uniform(rng) && sizeMin <= sizeMax && 0.0 < height
    ensures |list| == num && next == start + 12 * num
    ensures forall i :: 0 <= i < num ==>
              BurstPlaced(list[i], height, 1.4, 2.0, sizeMin, sizeMax) && list[i].rot.Some? && BoxTilt(m, list[i].rot.value, 0.5, 0.5)
    ensures forall i :: 0 <= i < num ==> AimedAt(m, rng, start + 12 * i, list[i])
  {
    list, next := [], start;
    for i := 0 to num
      invariant |list| == i && next == start + 12 * i
      invariant forall j :: 0 <= j < i ==>
                  BurstPlaced(list[j], height, 1.4, 2.0, sizeMin, sizeMax) && list[j].rot.Some? && BoxTilt(m, list[j].rot.value, 0.5, 0.5)
      invariant forall j :: 0 <= j < i ==> AimedAt(m, rng, start + 12 * j, list[j])
    {
      var drawn := DrawBox(m, rng, next, sizeMin, sizeMax, height);
      list := list + [drawn.0];
      next := drawn.1;
    }
  }

  const GoldCardCount: nat := 25

  /** The `goldCards` list: each is `makeBurst(1, 0.08, 0.12, 3.8)[0]` given a rotation. */
  method GenerateGoldCards(m: MathLib, rng: nat -> real, start: nat)
    returns (list: seq<BurstItem>, next: nat)
    requires Sound(m) && Uniform(rng)
    ensures |list| == GoldCardCount && next == start + 12 * GoldCardCount
    ensures forall i :: 0 <= i < GoldCardCount ==>
              BurstPlaced(list[i], 3.8, 1.4, 2.0, 0.08, 0.12) && list[i].rot.Some? && BoxTilt(m, list[i].rot.value, 0.4, 0.3)
    ensures forall i :: 0 <= i < GoldCardCount ==> AimedAt(m, rng, start + 12 * i, list[i])
  {
    list, next := [], start;
    for i := 0 to GoldCardCount
      invariant |list| == i && next == start + 12 * i
      invariant forall j :: 0 <= j < i ==>
                  BurstPlaced(list[j], 3.8, 1.4, 2.0, 0.08, 0.12) && list[j].rot.Some? && BoxTilt(m, list[j].rot.value, 0.4, 0.3)
      invariant forall j :: 0 <= j < i ==> AimedAt(m, rng, start + 12 * j, list[j])
    {
      var one, after := MakeBurst(m, rng, next, 1, 0.08, 0.12, 3.8);
      var card := one[0];
      var rot := Vec3(DrawUpTo(rng(after), 0.4), TreeBody.RandomAngle(m, rng(after + 1)), DrawUpTo(rng(after + 2), 0.3));
      list := list + [card.(rot := Some(rot))];
      next := after + 3;
    }
  }

  // ------------------------------------------------------ per-frame updates

  /** How far a burst instance flies at full explosion, in units of its direction. */
  const Spread: real := 3.0
  /** How much a burst instance grows at full explosion. */
  const Growth: real := 1.6

  /** `p.dir * (3 * f)` */
  function Offset(p: BurstItem, f: real): Vec3 {
    Scale(p.dir, Spread * f)
  }

  /** `p.size * (1 + f * 1.6)` */
  function BurstSize(p: BurstItem, f: real): real {
    p.size * (1.0 + f * Growth)
  }

  /** What `updateBurst` (and the inline `base` loop) writes for one item. */
  function BurstTransform(p: BurstItem, f: real): Transform {
    Transform(Add(p.pos, Offset(p, f)), Uniform3(BurstSize(p, f)), LookingAt(Scale(Offset(p, f), 2.0), 0.0))
  }

  /**
   * A burst instance moves along the straight segment from its base position
   * to `pos + 3 dir`, which it reaches at `f = 1`.
   */
  lemma {:induction false} BurstPath(p: BurstItem, f: real)
    ensures BurstTransform(p, f).position == Lerp(p.pos, Add(p.pos, Scale(p.dir, Spread)), f)
  {
    var a, d := p.pos, p.dir;
    var l := Lerp(a, Add(a, Scale(d, Spread)), f);
    assert l.x == a.x + d.x * (Spread * f) by { assert (a.x + d.x * Spread - a.x) * f == d.x * (Spread * f); }
    assert l.y == a.y + d.y * (Spread * f) by { assert (a.y + d.y * Spread - a.y) * f == d.y * (Spread * f); }
    assert l.z == a.z + d.z * (Spread * f) by { assert (a.z + d.z * Spread - a.z) * f == d.z * (Spread * f); }
    assert BurstTransform(p, f).position == Add(a, Scale(d, Spread * f));
  }

  /** At rest (`f = 0`) a burst instance sits exactly at its base position with its base size. */
  lemma {:induction false} BurstAtRest(p: BurstItem)
    ensures BurstTransform(p, 0.0).position == p.pos && BurstTransform(p, 0.0).scale == Uniform3(p.size)
  {
    assert Offset(p, 0.0) == Origin;
  }

  /** Over [0, 1] a burst instance grows from `size` to `2.6 size`, never shrinking as `f` rises. */
  lemma {:induction false} BurstGrowth(p: BurstItem, f: real, g: real)
    requires 0.0 <= p.size && 0.0 <= f <= g <= 1.0
    ensures p.size <= BurstSize(p, f) <= BurstSize(p, g) <= 2.6 * p.size
  {
    var s, a, b := p.size, 1.0 + f * Growth, 1.0 + g * Growth;
    assert 1.0 <= a <= b <= 2.6;
    MulMono(s, 1.0, a);
    MulMono(s, a, b);
    MulMono(s, b, 2.6);
    assert BurstSize(p, f) == s * a && BurstSize(p, g) == s * b;
  }

  /** `updateBurst(items, ref)`: every slot `0 .. |items| - 1` is rewritten. */
  method UpdateBurst(items: seq<BurstItem>, batch: array<Transform>, f: real)
    requires batch.Length == |items|
    modifies batch
    ensures forall i :: 0 <= i < |items| ==> batch[i] == BurstTransform(items[i], f)
  {
    for i := 0 to |items|
      invariant forall j :: 0 <= j < i ==> batch[j] == BurstTransform(items[j], f)
    {
      var p := items[i];
      var offset := Scale(p.dir, 3.0 * f);
      batch[i] := Transform(Add(p.pos, offset), Uniform3(p.size * (1.0 + f * 1.6)), LookingAt(Scale(offset, 2.0), 0.0));
    }
  }

  datatype Axis = X | Y

  /**
   * What `updateRibbons` writes for one box: the box's flight position
   * lifted by `0.7` of the ribbon thickness along z, a band `1.6 size` long
   * and `0.4 size` thick along the chosen axis, and the box's rotation.
   */
  function RibbonTransform(p: BurstItem, f: real, axis: Axis): Transform
    requires p.rot.Some?
  {
    var long := p.size * 1.6;
    var thick := p.size * 0.4;
    var flown := Add(p.pos, Offset(p, f));
    Transform(flown.(z := flown.z + thick * 0.7),
              if axis == X then Vec3(long, thick, thick) else Vec3(thick, long, thick),
              Euler(p.rot.value))
  }

  /**
   * The two ribbons of a box cross: they share position and rotation, their
   * scales are each other's with x and y swapped, and they sit `0.28 size`
   * in front of the box along z. Their size does not grow with the burst.
   */
  lemma {:induction false} RibbonsCross(p: BurstItem, f: real)
    requires p.rot.Some?
    ensures RibbonTransform(p, f, X).position == RibbonTransform(p, f, Y).position
    ensures RibbonTransform(p, f, X).rotation == RibbonTransform(p, f, Y).rotation == Euler(p.rot.value)
    ensures var sx, sy := RibbonTransform(p, f, X).scale, RibbonTransform(p, f, Y).scale;
            sx.x == sy.y && sx.y == sy.x && sx.z == sy.z
    ensures RibbonTransform(p, f, X).scale == Vec3(1.6 * p.size, 0.4 * p.size, 0.4 * p.size)
    ensures RibbonTransform(p, f, X).scale == RibbonTransform(p, 0.0, X).scale
    ensures RibbonTransform(p, f, X).position.z == BurstTransform(p, f).position.z + 0.28 * p.size
    ensures RibbonTransform(p, f, X).position.x == BurstTransform(p, f).position.x
  {
  }

  /**
   * `updateRibbons(items, ref, axis)`. Both callers pass `makeBoxes` lists,
   * whose items all carry a rotation.
   */
  method UpdateRibbons(items: seq<BurstItem>, batch: array<Transform>, f: real, axis: Axis)
    requires batch.Length == |items|
    requires forall i :: 0 <= i < |items| ==> items[i].rot.Some?
    modifies batch
    ensures forall i :: 0 <= i < |items| ==> batch[i] == RibbonTransform(items[i], f, axis)
  {
    for i := 0 to |items|
      invariant forall j :: 0 <= j < i ==> batch[j] == RibbonTransform(items[j], f, axis)
    {
      var p := items[i];
      var offset := Scale(p.dir, 3.0 * f);
      var position := Add(p.pos, offset);
      var long := p.size * 1.6;
      var thick := p.size * 0.4;
      var scale := if axis == X then Vec3(long, thick, thick) else Vec3(thick, long, thick);
      position := position.(z := position.z + thick * 0.7);
      batch[i] := Transform(position, scale, Euler(p.rot.value));
    }
  }

  // ------------------------------------------------------------- the layer

  datatype Style = Burst | Ribbon(axis: Axis)

  /** One instanced group of the layer: its placement list and the update that writes it. */
  datatype Group = Group(items: seq<BurstItem>, style: Style)

  ghost predicate GroupReady(g: Group) {
    g.style.Ribbon? ==> forall i :: 0 <= i < |g.items| ==> g.items[i].rot.Some?
  }

  function StyledTransform(g: Group, i: nat, f: real): Transform
    requires GroupReady(g) && i < |g.items|
  {
    match g.style
    case Burst => BurstTransform(g.items[i], f)
    case Ribbon(axis) => RibbonTransform(g.items[i], f, axis)
  }

  method UpdateGroup(g: Group, batch: array<Transform>, f: real)
    requires GroupReady(g) && batch.Length == |g.items|
    modifies batch
    ensures forall i :: 0 <= i < |g.items| ==> batch[i] == StyledTransform(g, i, f)
  {
    match g.style
    case Burst => UpdateBurst(g.items, batch, f);
    case Ribbon(axis) => UpdateRibbons(g.items, batch, f, axis);
  }

  /**
   * `ExplosionVoxels`: the shared control signal and the twelve instanced
   * groups in the order the frame callback updates them: `base`, gold, red
   * and white spheres, gold and red boxes, the x and y ribbons of the gold
   * boxes, those of the red boxes, snow flakes, gold cards.
   */
  class VoxelLayer {
    const signal: Signal
    const groups: seq<Group>
    const meshes: seq<InstancedMesh>

    ghost function Batches(): set<array<Transform>>
    {
      set g | 0 <= g < |meshes| :: meshes[g].matrices
    }

    ghost predicate Valid()
      reads this, signal
    {
      && signal.Valid()
      && |groups| == |meshes|
      && (forall g :: 0 <= g < |groups| ==> GroupReady(groups[g]) && meshes[g].matrices.Length == |groups[g].items|)
      && (forall g, h :: 0 <= g < h < |meshes| ==> meshes[g].matrices != meshes[h].matrices)
    }

    constructor (m: MathLib, rng: nat -> real, start: nat)
      requires Sound(m) && Uniform(rng)
      ensures Valid() && fresh(signal) && signal.explode == 0.0 && signal.collapse == 0.0
      ensures |groups| == 12
      ensures |groups[0].items| == BaseCount && |groups[11].items| == GoldCardCount
      ensures groups[4].items == groups[6].items == groups[7].items
      ensures groups[5].items == groups[8].items == groups[9].items
      ensures groups[6].style == groups[8].style == Ribbon(X)
      ensures groups[7].style == groups[9].style == Ribbon(Y)
      ensures forall g :: g in {0, 1, 2, 3, 4, 5, 10, 11} ==> groups[g].style == Burst
      ensures |groups[1].items| == 80 && |groups[2].items| == 80 && |groups[3].items| == 160
      ensures |groups[4].items| == 75 && |groups[5].items| == 53 && |groups[10].items| == 600
      ensures AllPlaced(groups[0].items, BaseHeight, 1.3, 1.8, 0.035, 0.105)
      ensures AllPlaced(groups[1].items, 3.8, 1.4, 2.0, 0.04, 0.08)
      ensures AllPlaced(groups[2].items, 3.8, 1.4, 2.0, 0.045, 0.085)
      ensures AllPlaced(groups[3].items, 3.8, 1.4, 2.0, 0.035, 0.07)
      ensures AllPlaced(groups[4].items, 3.8, 1.4, 2.0, 0.05, 0.1)
      ensures AllPlaced(groups[5].items, 3.8, 1.4, 2.0, 0.05, 0.09)
      ensures AllPlaced(groups[10].items, 4.2, 1.4, 2.0, 0.01, 0.02)
      ensures AllPlaced(groups[11].items, 3.8, 1.4, 2.0, 0.08, 0.12)
    {
      var base, k := GenerateBase(m, rng, start, BaseCount);
      var goldSpheres, k1 := MakeBurst(m, rng, k, 80, 0.04, 0.08, 3.8);
      var redSpheres, k2 := MakeBurst(m, rng, k1, 80, 0.045, 0.085, 3.8);
      var whiteSpheres, k3 := MakeBurst(m, rng, k2, 160, 0.035, 0.07, 3.8);
      var goldBoxes, k4 := MakeBoxes(m, rng, k3, 75, 0.05, 0.1, 3.8);
      var redBoxes, k5 := MakeBoxes(m, rng, k4, 53, 0.05, 0.09, 3.8);
      var snowFlakes, k6 := MakeBurst(m, rng, k5, 600, 0.01, 0.02, 4.2);
      var goldCards, _ := GenerateGoldCards(m, rng, k6);
      var gs := [Group(base, Burst), Group(goldSpheres, Burst), Group(redSpheres, Burst),
                 Group(whiteSpheres, Burst), Group(goldBoxes, Burst), Group(redBoxes, Burst),
                 Group(goldBoxes, Ribbon(X)), Group(goldBoxes, Ribbon(Y)),
                 Group(redBoxes, Ribbon(X)), Group(redBoxes, Ribbon(Y)),
                 Group(snowFlakes, Burst), Group(goldCards, Burst)];
      var ms: seq<InstancedMesh> := [];
      for g := 0 to |gs|
        invariant |ms| == g
        invariant forall h :: 0 <= h < g ==> fresh(ms[h].matrices) && ms[h].matrices.Length == |gs[h].items|
        invariant forall h, h' :: 0 <= h < h' < g ==> ms[h].matrices != ms[h'].matrices
      {
        var mesh := new InstancedMesh(|gs[g].items|);
        ms := ms + [mesh];
      }
      signal := new Signal();
      groups := gs;
      meshes := ms;
    }

    /**
     * One run of the frame callback: the signal is advanced from the camera
     * reading first, then every group's batch is rewritten from the new
     * explosion factor.
     */
    method Frame(reading: Option<real>)
      requires Valid()
      modifies signal, Batches()
      ensures Valid()
      ensures signal.collapse == CollapseTarget(CameraDistance(reading))
      ensures signal.explode == Follow(old(signal.explode), signal.collapse)
      ensures forall g, i :: 0 <= g < |groups| && 0 <= i < |groups[g].items| ==>
                meshes[g].matrices[i] == StyledTransform(groups[g], i, signal.explode)
    {
      signal.Tick(reading);
      var f := signal.explode;
      for g := 0 to |groups|
        invariant Valid() && signal.explode == f
        invariant signal.collapse == CollapseTarget(CameraDistance(reading))
        invariant forall h, i :: 0 <= h < g && 0 <= i < |groups[h].items| ==>
                    meshes[h].matrices[i] == StyledTransform(groups[h], i, f)
      {
        UpdateGroup(groups[g], meshes[g].matrices, f);
      }
    }
  }
}
