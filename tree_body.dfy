/**
 * The tree body: the four cone-shaped placement generators (ornaments,
 * foliage points, light specks, gift boxes) and the per-frame updates of
 * the three instanced groups among them, which keep every instance at its
 * base position, shrink it as the explosion factor rises, and hide the
 * group once the factor is close to 1.
 *
 * Every generator consumes the `Math.random` stream `rng` from cursor
 * `start`, in the order the source calls `Math.random`, and returns the
 * cursor after its last draw.
 */
module TreeBody {
  import opened Geometry
  import opened Instancing

  /**
   * Height of a cone sample: `Math.min(height, t * height + boost * gain)`.
   * With `t` in [0, 1] and a non-negative boost the sample never leaves
   * [0, height]; without a boost it is exactly `t * height`.
   */
  function ConeHeight(height: real, t: real, boost: real, gain: real): (h: real)
    requires 0.0 < height && 0.0 <= t <= 1.0 && 0.0 <= boost && 0.0 <= gain
    ensures 0.0 <= h <= height
    ensures h <= t * height + boost * gain
    ensures boost == 0.0 ==> h == t * height
  {
    assert 0.0 <= t * height <= 1.0 * height;
    assert 0.0 <= boost * gain;
    Min(height, t * height + boost * gain)
  }

  /**
   * `base * (1 - h / height)`: the cone's radius at height `h`, `base` at the
   * foot and 0 at the apex.
   */
  function Taper(base: real, height: real, h: real): (r: real)
    requires 0.0 < height && 0.0 <= h <= height && 0.0 <= base
    ensures 0.0 <= r <= base
    ensures h == 0.0 ==> r == base
    ensures h == height ==> r == 0.0
  {
    assert 0.0 <= h / height <= 1.0;
    base * (1.0 - h / height)
  }

  /** `Math.random() * Math.PI * 2`: a uniform draw turned into an angle in [0, 2π). */
  function RandomAngle(m: MathLib, u: real): (a: real)
    requires 0.0 < m.pi && 0.0 <= u < 1.0
    ensures 0.0 <= a < 2.0 * m.pi
  {
    assert 0.0 <= u * m.pi < 1.0 * m.pi;
    u * m.pi * 2.0
  }

  // ---------------------------------------------------------------- ornaments

  datatype Ornament = Ornament(position: Vec3, scale: real, gold: bool, red: bool)

  const OrnamentHeight: real := 4.0

  /** Where an ornament may land: on the cone between radius 0.1·0.88 and 1.9·1.04. */
  ghost predicate OrnamentPlaced(o: Ornament) {
    && -1.5 <= o.position.y <= OrnamentHeight - 1.5
    && 0.088 * 0.088 <= HorizontalDist2(o.position) < 1.976 * 1.976
    && 0.06 <= o.scale < 0.14
    && !(o.gold && o.red)
  }

  /** One iteration of the `OrnamentField` loop; returns the ornament and the next cursor. */
  function DrawOrnament(m: MathLib, rng: nat -> real, k: nat): (r: (Ornament, nat))
    requires Sound(m) && Uniform(rng)
    ensures k + 6 <= r.1 <= k + 8
    ensures OrnamentPlaced(r.0)
  {
    var boosted := rng(k) < 0.3;
    var boost := if boosted then rng(k + 1) * 0.8 else 0.0;
    var j := if boosted then k + 2 else k + 1;
    var h := ConeHeight(OrnamentHeight, m.pow(rng(j), 0.9), boost, 0.6);
    var radius := Taper(1.8, OrnamentHeight, h) + 0.1;
    var angle := RandomAngle(m, rng(j + 1));
    var spread := 0.88 + rng(j + 2) * 0.16;
    var gold := rng(j + 3) > 0.3;
    var red := !gold && rng(j + 4) > 0.35;
    var s := if gold then j + 4 else j + 5;
    MulBounds(radius, spread, 0.1, 1.9, 0.88, 1.04);
    PolarInAnnulus(m, angle, radius * spread, h - 1.5, 0.088, 1.976);
    (Ornament(Polar(m, angle, radius * spread, h - 1.5), 0.06 + rng(s) * 0.08, gold, red), s + 1)
  }

  /** `OrnamentField`'s placement list: exactly `count` ornaments, all on the cone. */
  method GenerateOrnaments(m: MathLib, rng: nat -> real, start: nat, count: nat)
    returns (list: seq<Ornament>, next: nat)
    requires Sound(m) && Uniform(rng)
    ensures |list| == count
    ensures forall i :: 0 <= i < count ==> OrnamentPlaced(list[i])
    ensures start + 6 * count <= next <= start + 8 * count
  {
    list, next := [], start;
    for i := 0 to count
      invariant |list| == i
      invariant forall j :: 0 <= j < i ==> OrnamentPlaced(list[j])
      invariant start + 6 * i <= next <= start + 8 * i
    {
      var drawn := DrawOrnament(m, rng, next);
      list := list + [drawn.0];
      next := drawn.1;
    }
  }

  /** An ornament is a separate mesh scaled by `1 - f * 0.8` when the field renders. */
  function OrnamentRenderScale(o: Ornament, f: real): (s: real)
    requires 0.0 <= f <= 1.0 && 0.0 <= o.scale
    ensures 0.2 * o.scale <= s <= o.scale
  {
    assert o.scale * (f * 0.8) <= o.scale * 0.8;
    o.scale * (1.0 - f * 0.8)
  }

  // --------------------------------------------------- foliage and light specks

  /** A foliage point or light speck: base position and base scale. */
  datatype TreePoint = TreePoint(pos: Vec3, scale: real)

  const FoliageHeight: real := 4.1
  const SpeckHeight: real := 4.1

  ghost predicate FoliagePlaced(p: TreePoint) {
    && -1.5 <= p.pos.y <= FoliageHeight - 1.5
    && 0.045 * 0.045 <= HorizontalDist2(p.pos) < 2.205 * 2.205
    && 0.022 <= p.scale < 0.052
  }

  /** One iteration of the `FoliagePoints` loop. */
  function DrawFoliage(m: MathLib, rng: nat -> real, k: nat): (r: (TreePoint, nat))
    requires Sound(m) && Uniform(rng)
    ensures k + 5 <= r.1 <= k + 6
    ensures FoliagePlaced(r.0)
  {
    var boosted := rng(k) < 0.28;
    var boost := if boosted then rng(k + 1) * 1.0 else 0.0;
    var j := if boosted then k + 2 else k + 1;
    var h := ConeHeight(FoliageHeight, m.pow(rng(j), 0.9), boost, 0.6);
    var radius := Taper(2.0, FoliageHeight, h) + 0.1;
    var angle := RandomAngle(m, rng(j + 1));
    var factor := 0.45 + rng(j + 2) * 0.6;
    MulBounds(radius, factor, 0.1, 2.1, 0.45, 1.05);
    PolarInAnnulus(m, angle, radius * factor, h - 1.5, 0.045, 2.205);
    (TreePoint(Polar(m, angle, radius * factor, h - 1.5), 0.022 + rng(j + 3) * 0.03), j + 4)
  }

  /** `FoliagePoints`' placement list: exactly `count` points, all on the cone. */
  method GenerateFoliage(m: MathLib, rng: nat -> real, start: nat, count: nat)
    returns (list: seq<TreePoint>, next: nat)
    requires Sound(m) && Uniform(rng)
    ensures |list| == count
    ensures forall i :: 0 <= i < count ==> FoliagePlaced(list[i])
    ensures start + 5 * count <= next <= start + 6 * count
  {
    list, next := [], start;
    for i := 0 to count
      invariant |list| == i
      invariant forall j :: 0 <= j < i ==> FoliagePlaced(list[j])
      invariant start + 5 * i <= next <= start + 6 * i
    {
      var drawn := DrawFoliage(m, rng, next);
      list := list + [drawn.0];
      next := drawn.1;
    }
  }

  ghost predicate SpeckPlaced(p: TreePoint) {
    && -1.48 <= p.pos.y < SpeckHeight - 1.45 + 0.03
    && HorizontalDist2(p.pos) < 2.0 * 2.0
    && 0.014 <= p.scale < 0.034
  }

  /** One iteration of the `LightSpecks` loop. */
  function DrawSpeck(m: MathLib, rng: nat -> real, k: nat): (r: (TreePoint, nat))
    requires Sound(m) && Uniform(rng)
    ensures k + 6 <= r.1 <= k + 7
    ensures SpeckPlaced(r.0)
  {
    var boosted := rng(k) < 0.25;
    var boost := if boosted then rng(k + 1) * 0.9 else 0.0;
    var j := if boosted then k + 2 else k + 1;
    var h := ConeHeight(SpeckHeight, m.pow(rng(j), 0.9), boost, 0.5);
    var radius := Taper(2.0, SpeckHeight, h);
    var angle := RandomAngle(m, rng(j + 1));
    var factor := 0.5 + rng(j + 2) * 0.5;
    var y := h - 1.45 + (rng(j + 3) - 0.5) * 0.06;
    MulBounds(radius, factor, 0.0, 2.0, 0.5, 1.0);
    PolarInAnnulus(m, angle, radius * factor, y, 0.0, 2.0);
    (TreePoint(Polar(m, angle, radius * factor, y), 0.014 + rng(j + 4) * 0.02), j + 5)
  }

  /** `LightSpecks`' placement list: exactly `count` specks, all inside the cone. */
  method GenerateSpecks(m: MathLib, rng: nat -> real, start: nat, count: nat)
    returns (list: seq<TreePoint>, next: nat)
    requires Sound(m) && Uniform(rng)
    ensures |list| == count
    ensures forall i :: 0 <= i < count ==> SpeckPlaced(list[i])
    ensures start + 6 * count <= next <= start + 7 * count
  {
    list, next := [], start;
    for i := 0 to count
      invariant |list| == i
      invariant forall j :: 0 <= j < i ==> SpeckPlaced(list[j])
      invariant start + 6 * i <= next <= start + 7 * i
    {
      var drawn := DrawSpeck(m, rng, next);
      list := list + [drawn.0];
      next := drawn.1;
    }
  }

  // --------------------------------------------------------------- gift boxes

  datatype GiftBox = GiftBox(pos: Vec3, rotY: real, scale: real)

  const GiftHeight: real := 3.6

  ghost predicate GiftPlaced(m: MathLib, g: GiftBox) {
    && -1.3 <= g.pos.y <= GiftHeight - 1.3
    && HorizontalDist2(g.pos) < 1.68 * 1.68
    && 0.0 <= g.rotY < 2.0 * m.pi
    && 0.08 <= g.scale < 0.12
  }

  /** One iteration of the `GiftBoxes` loop (always five draws). */
  function DrawGift(m: MathLib, rng: nat -> real, k: nat): (r: (GiftBox, nat))
    requires Sound(m) && Uniform(rng)
    ensures r.1 == k + 5
    ensures GiftPlaced(m, r.0)
  {
    var t := m.pow(rng(k), 0.8);
    var h := t * GiftHeight;
    var radius := Taper(1.4, GiftHeight, h);
    var angle := RandomAngle(m, rng(k + 1));
    var factor := 0.7 + rng(k + 2) * 0.5;
    MulBounds(radius, factor, 0.0, 1.4, 0.7, 1.2);
    PolarInAnnulus(m, angle, radius * factor, h - 1.3, 0.0, 1.68);
    (GiftBox(Polar(m, angle, radius * factor, h - 1.3), RandomAngle(m, rng(k + 3)), 0.08 + rng(k + 4) * 0.04), k + 5)
  }

  /** `GiftBoxes`' placement list: exactly `count` boxes, all inside the cone. */
  method GenerateGifts(m: MathLib, rng: nat -> real, start: nat, count: nat)
    returns (list: seq<GiftBox>, next: nat)
    requires Sound(m) && Uniform(rng)
    ensures |list| == count
    ensures forall i :: 0 <= i < count ==> GiftPlaced(m, list[i])
    ensures next == start + 5 * count
  {
    list, next := [], start;
    for i := 0 to count
      invariant |list| == i
      invariant forall j :: 0 <= j < i ==> GiftPlaced(m, list[j])
      invariant next == start + 5 * i
    {
      var drawn := DrawGift(m, rng, next);
      list := list + [drawn.0];
      next := drawn.1;
    }
  }

  // ----------------------------------------------------------- frame updates

  const FoliageShrink: real := 0.85
  const SpeckShrink: real := 0.9
  const GiftShrink: real := 1.0
  /** The three instanced tree-body groups are hidden from this factor on. */
  const HideThreshold: real := 0.98

  /** `scale * (1 - f * k)` */
  function ShrunkScale(scale: real, k: real, f: real): real {
    scale * (1.0 - f * k)
  }

  /**
   * Over a burst in [0, 1] the shrunk scale stays between `scale * (1 - k)`
   * and `scale`, equals `scale` at rest, and never grows as `f` rises.
   */
  lemma {:induction false} ShrunkScaleBounds(scale: real, k: real, f: real, g: real)
    requires 0.0 <= scale && 0.0 <= k <= 1.0 && 0.0 <= f <= g <= 1.0
    ensures ShrunkScale(scale, k, 0.0) == scale
    ensures 0.0 <= scale * (1.0 - k) <= ShrunkScale(scale, k, g) <= ShrunkScale(scale, k, f) <= scale
  {
    MulMono(k, f, g);
    MulMono(k, g, 1.0);
    assert f * k <= g * k <= k;
    MulMono(scale, f * k, g * k);
    MulMono(scale, g * k, k);
    MulMono(scale, 0.0, f * k);
    assert ShrunkScale(scale, k, g) == scale - scale * (g * k);
    assert ShrunkScale(scale, k, f) == scale - scale * (f * k);
    assert scale * (1.0 - k) == scale - scale * k;
  }

  /** What one foliage point or light speck writes into its batch slot. */
  function ShrinkTransform(p: TreePoint, k: real, f: real): (t: Transform)
    ensures t.position == p.pos
    ensures t.scale == Uniform3(ShrunkScale(p.scale, k, f))
    ensures t.rotation == Euler(Origin)
  {
    Transform(p.pos, Uniform3(ShrunkScale(p.scale, k, f)), Euler(Origin))
  }

  /**
   * The `useFrame` callback of `FoliagePoints` (k = 0.85) and of
   * `LightSpecks` (k = 0.9): every slot of the batch is rewritten, and the
   * group is visible exactly while `f < 0.98`.
   */
  method UpdatePointGroup(points: seq<TreePoint>, k: real, mesh: InstancedMesh, f: real)
    requires mesh.matrices.Length == |points|
    modifies mesh, mesh.matrices
    ensures forall i :: 0 <= i < |points| ==> mesh.matrices[i] == ShrinkTransform(points[i], k, f)
    ensures mesh.visible <==> f < HideThreshold
  {
    for i := 0 to |points|
      invariant forall j :: 0 <= j < i ==> mesh.matrices[j] == ShrinkTransform(points[j], k, f)
    {
      mesh.matrices[i] := Transform(points[i].pos, Uniform3(points[i].scale * (1.0 - f * k)), Euler(Origin));
    }
    mesh.visible := f < HideThreshold;
  }

  /** The `useFrame` callback of `FoliagePoints`. */
  method UpdateFoliage(points: seq<TreePoint>, mesh: InstancedMesh, f: real)
    requires mesh.matrices.Length == |points|
    modifies mesh, mesh.matrices
    ensures forall i :: 0 <= i < |points| ==> mesh.matrices[i] == ShrinkTransform(points[i], FoliageShrink, f)
    ensures mesh.visible <==> f < HideThreshold
  {
    UpdatePointGroup(points, FoliageShrink, mesh, f);
  }

  /** The `useFrame` callback of `LightSpecks`. */
  method UpdateSpecks(points: seq<TreePoint>, mesh: InstancedMesh, f: real)
    requires mesh.matrices.Length == |points|
    modifies mesh, mesh.matrices
    ensures forall i :: 0 <= i < |points| ==> mesh.matrices[i] == ShrinkTransform(points[i], SpeckShrink, f)
    ensures mesh.visible <==> f < HideThreshold
  {
    UpdatePointGroup(points, SpeckShrink, mesh, f);
  }

  /**
   * Over a burst in [0, 1] foliage points keep at least 15% and specks at
   * least 10% of their size: they fade out by the visibility switch, not
   * by shrinking to nothing.
   */
  lemma {:induction false} PointsNeverVanish(p: TreePoint, f: real)
    requires 0.0 <= p.scale && 0.0 <= f <= 1.0
    ensures 0.15 * p.scale <= ShrinkTransform(p, FoliageShrink, f).scale.x <= p.scale
    ensures 0.1 * p.scale <= ShrinkTransform(p, SpeckShrink, f).scale.x <= p.scale
  {
    ShrunkScaleBounds(p.scale, FoliageShrink, f, f);
    ShrunkScaleBounds(p.scale, SpeckShrink, f, f);
    assert p.scale * (1.0 - FoliageShrink) == 0.15 * p.scale;
    assert p.scale * (1.0 - SpeckShrink) == 0.1 * p.scale;
  }

  /** What gift box `i` writes: tilted by `0.2 sin i` and `0.2 cos i`, turned by its `rotY`. */
  function GiftTransform(m: MathLib, g: GiftBox, i: nat, f: real): (t: Transform)
    ensures t.position == g.pos
    ensures t.scale == Uniform3(ShrunkScale(g.scale, GiftShrink, f))
    ensures t.rotation == Euler(Vec3(0.2 * m.sin(i as real), g.rotY, 0.2 * m.cos(i as real)))
  {
    Transform(g.pos, Uniform3(ShrunkScale(g.scale, GiftShrink, f)),
              Euler(Vec3(0.2 * m.sin(i as real), g.rotY, 0.2 * m.cos(i as real))))
  }

  /** The `useFrame` callback of `GiftBoxes`. */
  method UpdateGifts(m: MathLib, gifts: seq<GiftBox>, mesh: InstancedMesh, f: real)
    requires mesh.matrices.Length == |gifts|
    modifies mesh, mesh.matrices
    ensures forall i :: 0 <= i < |gifts| ==> mesh.matrices[i] == GiftTransform(m, gifts[i], i, f)
    ensures mesh.visible <==> f < HideThreshold
  {
    for i := 0 to |gifts|
      invariant forall j :: 0 <= j < i ==> mesh.matrices[j] == GiftTransform(m, gifts[j], j, f)
    {
      var g := gifts[i];
      mesh.matrices[i] := Transform(g.pos, Uniform3(g.scale * (1.0 - f)),
                                    Euler(Vec3(0.2 * m.sin(i as real), g.rotY, 0.2 * m.cos(i as real))));
    }
    mesh.visible := f < HideThreshold;
  }

  /** Each gift box leans by at most 0.2 radians about x and about z. */
  lemma {:induction false} GiftTiltBounded(m: MathLib, g: GiftBox, i: nat, f: real)
    requires Sound(m)
    ensures var a := GiftTransform(m, g, i, f).rotation.angles;
            -0.2 <= a.x <= 0.2 && -0.2 <= a.z <= 0.2 && a.y == g.rotY
  {
    SinBounded(m, i as real);
    CosBounded(m, i as real);
  }

  /** A fully burst tree leaves the gift boxes at zero scale. */
  lemma {:induction false} GiftsVanishAtFullBurst(m: MathLib, g: GiftBox, i: nat)
    ensures GiftTransform(m, g, i, 1.0).scale == Uniform3(0.0)
  {
  }
}
