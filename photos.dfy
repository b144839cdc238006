/**
 * The floating photo cards of the tree scene (`FloatingPhotos` and
 * `PhotoCard`): the scattered layout and the focus ring built once per
 * photo count, the assignment of photos and ring slots to cards, the
 * fitted size of each photo inside its frame, and the per-frame pose of
 * a card, which blends from its scattered place to its ring slot as the
 * tree bursts.
 */
module Photos {
  import opened Geometry

  // --------------------------------------------------------------- blending

  /** How far the blend leans from the explosion factor towards the collapse target. */
  const Lean: real := 0.4

  /** `Math.min(1, Math.max(0, f + (target - f) * 0.4))` */
  function Blend(f: real, target: real): (b: real)
    ensures 0.0 <= b <= 1.0
  {
    Clamp01(f + (target - f) * Lean)
  }

  /**
   * With factor and target in [0, 1] the clamp never acts: the blend is
   * the point 0.4 of the way from the factor to the target, so it lies
   * between the two, and it equals them when they agree.
   */
  lemma {:induction false} BlendBetween(f: real, target: real)
    requires 0.0 <= f <= 1.0 && 0.0 <= target <= 1.0
    ensures Blend(f, target) == f + (target - f) * Lean
    ensures Min(f, target) <= Blend(f, target) <= Max(f, target)
    ensures f == target ==> Blend(f, target) == f
  {
  }

  /** The smoothstep `b * b * (3 - 2 * b)`: rises from 0 at 0 to 1 at 1. */
  function Smooth(b: real): (s: real)
    requires 0.0 <= b <= 1.0
    ensures 0.0 <= s <= 1.0
    ensures b == 0.0 ==> s == 0.0
    ensures b == 1.0 ==> s == 1.0
  {
    assert 1.0 - b * b * (3.0 - 2.0 * b) == (1.0 - b) * (1.0 - b) * (1.0 + 2.0 * b);
    NonNegProduct3(b, b, 3.0 - 2.0 * b);
    NonNegProduct3(1.0 - b, 1.0 - b, 1.0 + 2.0 * b);
    b * b * (3.0 - 2.0 * b)
  }

  lemma {:induction false} NonNegProduct3(x: real, y: real, z: real)
    requires 0.0 <= x && 0.0 <= y && 0.0 <= z
    ensures 0.0 <= x * y * z
  {
    MulMono(x, 0.0, y);
    MulMono(x * y, 0.0, z);
  }

  /** The smoothstep never decreases. */
  lemma {:induction false} SmoothMonotone(a: real, b: real)
    requires 0.0 <= a <= b <= 1.0
    ensures Smooth(a) <= Smooth(b)
  {
    var slope := 3.0 * (a + b) - 2.0 * (a * a + a * b + b * b);
    SlopeNonNegative(a, b);
    assert Smooth(b) - Smooth(a) == (b - a) * slope;
    MulMono(b - a, 0.0, slope);
  }

  /**
   * A larger explosion factor never gives a smaller blend towards the same
   * target, before or after smoothing: the cards only move further towards
   * their ring slots as the tree bursts.
   */
  lemma {:induction false} BlendMonotone(f: real, g: real, target: real)
    requires f <= g
    ensures Blend(f, target) <= Blend(g, target)
    ensures Smooth(Blend(f, target)) <= Smooth(Blend(g, target))
  {
    assert f + (target - f) * Lean <= g + (target - g) * Lean;
    SmoothMonotone(Blend(f, target), Blend(g, target));
  }

  /** The difference quotient of the smoothstep on [0, 1] is non-negative. */
  lemma {:induction false} SlopeNonNegative(a: real, b: real)
    requires 0.0 <= a <= 1.0 && 0.0 <= b <= 1.0
    ensures 0.0 <= 3.0 * (a + b) - 2.0 * (a * a + a * b + b * b)
  {
    ProductBelow(a, a);
    ProductBelow(a, b);
    ProductBelow(b, b);
    SumBelow(a, b, a * a, a * b, b * b);
  }

  lemma {:induction false} SumBelow(a: real, b: real, aa: real, ab: real, bb: real)
    requires aa <= a && ab <= a && ab <= b && bb <= b
    ensures 2.0 * (aa + ab + bb) <= 3.0 * (a + b)
  {
  }

  /** A product of two factors in [0, 1] is at most either factor. */
  lemma {:induction false} ProductBelow(x: real, y: real)
    requires 0.0 <= x <= 1.0 && 0.0 <= y <= 1.0
    ensures x * y <= x && x * y <= y
  {
    MulMono(x, y, 1.0);
    MulMono(y, x, 1.0);
  }

  /** The smoothstep is point-symmetric about (1/2, 1/2). */
  lemma {:induction false} SmoothSymmetric(b: real)
    requires 0.0 <= b <= 1.0
    ensures Smooth(1.0 - b) == 1.0 - Smooth(b)
  {
    assert (1.0 - b) * (1.0 - b) * (3.0 - 2.0 * (1.0 - b)) == 1.0 - b * b * (3.0 - 2.0 * b);
  }

  /** `0.08 * (1 - smooth * 0.5)`: the bob amplitude halves as the card reaches its slot. */
  function FloatAmp(smooth: real): (a: real)
    requires 0.0 <= smooth <= 1.0
    ensures 0.04 <= a <= 0.08
    ensures smooth == 0.0 ==> a == 0.08
    ensures smooth == 1.0 ==> a == 0.04
  {
    0.08 * (1.0 - smooth * 0.5)
  }

  /** The card scale `scale * (1 + smooth * 0.55)`, floored at 0.001. */
  function CardScale(scale: real, smooth: real): (s: real)
    ensures 0.001 <= s
    ensures scale * (1.0 + smooth * 0.55) >= 0.001 ==> s == scale * (1.0 + smooth * 0.55)
    ensures scale * (1.0 + smooth * 0.55) < 0.001 ==> s == 0.001
  {
    Max(0.001, scale * (1.0 + smooth * 0.55))
  }

  /** For a scattered card (scale at least 0.3) the floor never acts and the card grows up to 1.55 times. */
  lemma {:induction false} CardScaleGrows(scale: real, smooth: real)
    requires 0.3 <= scale && 0.0 <= smooth <= 1.0
    ensures scale <= CardScale(scale, smooth) <= 1.55 * scale
  {
    var grown := scale * (1.0 + smooth * 0.55);
    MulMono(scale, 1.0, 1.0 + smooth * 0.55);
    MulMono(scale, 1.0 + smooth * 0.55, 1.55);
    assert scale <= grown <= scale * 1.55;
    assert CardScale(scale, smooth) == grown;
  }

  // ------------------------------------------------------------ photo size

  /** The size of the photo plane inside the frame's matte. */
  datatype Size = Size(width: real, height: real)

  const MaxPhotoWidth: real := 0.92
  const MaxPhotoHeight: real := 1.3

  /** `image?.width && image?.height`: both dimensions known and non-zero. */
  predicate HasDims(width: Option<nat>, height: Option<nat>) {
    width.Some? && height.Some? && width.value > 0 && height.value > 0
  }

  /**
   * `photoSize`: the largest size inside 0.92 × 1.3 with the image's aspect
   * ratio, touching the frame on one side; without usable dimensions, the
   * full 0.92 × 1.3.
   */
  function PhotoSize(width: Option<nat>, height: Option<nat>): (r: Size)
    ensures 0.0 < r.width <= MaxPhotoWidth && 0.0 < r.height <= MaxPhotoHeight
    ensures HasDims(width, height) ==> r.width * (height.value as real) == r.height * (width.value as real)
    ensures HasDims(width, height) ==> r.width == MaxPhotoWidth || r.height == MaxPhotoHeight
    ensures !HasDims(width, height) ==> r == Size(MaxPhotoWidth, MaxPhotoHeight)
  {
    if HasDims(width, height) then
      var w, h := width.value as real, height.value as real;
      var aspect := w / h;
      var maxAspect := MaxPhotoWidth / MaxPhotoHeight;
      if aspect >= maxAspect then
        FitWide(w, h);
        Size(MaxPhotoWidth, MaxPhotoWidth / aspect)
      else
        FitTall(w, h);
        Size(MaxPhotoHeight * aspect, MaxPhotoHeight)
    else
      Size(MaxPhotoWidth, MaxPhotoHeight)
  }

  lemma {:induction false} FitWide(w: real, h: real)
    requires 0.0 < w && 0.0 < h && w / h >= MaxPhotoWidth / MaxPhotoHeight
    ensures 0.0 < MaxPhotoWidth / (w / h) <= MaxPhotoHeight
    ensures MaxPhotoWidth * h == (MaxPhotoWidth / (w / h)) * w
  {
    var aspect := w / h;
    assert aspect * h == w;
    assert MaxPhotoWidth / aspect * aspect == MaxPhotoWidth;
    assert MaxPhotoHeight * aspect >= MaxPhotoHeight * (MaxPhotoWidth / MaxPhotoHeight);
  }

  lemma {:induction false} FitTall(w: real, h: real)
    requires 0.0 < w && 0.0 < h && w / h < MaxPhotoWidth / MaxPhotoHeight
    ensures 0.0 < MaxPhotoHeight * (w / h) <= MaxPhotoWidth
    ensures MaxPhotoHeight * (w / h) * h == MaxPhotoHeight * w
  {
    var aspect := w / h;
    assert aspect * h == w;
    assert MaxPhotoHeight * aspect < MaxPhotoHeight * (MaxPhotoWidth / MaxPhotoHeight);
  }

  // -------------------------------------------------------- layout and ring

  /** A card's scattered place: position, rotation, base scale and bob phase. */
  datatype Scatter = Scatter(pos: Vec3, rot: Vec3, scale: real, phase: real)

  /** A card's focus-ring slot. */
  datatype Slot = Slot(pos: Vec3, rot: Vec3)

  /** `Math.max(1, photoUrls.length)`: both layouts have at least one entry. */
  function LayoutCount(n: nat): (c: nat)
    ensures 1 <= c && (n > 0 ==> c == n)
  {
    if n >= 1 then n else 1
  }

  /** `(i / count) * Math.PI * 2`: the i-th of `count` evenly spaced angles. */
  function SlotAngle(m: MathLib, i: nat, count: nat): real
    requires 0 < count
  {
    (i as real / count as real) * m.pi * 2.0
  }

  /** The slot angles of a layout increase strictly with the index and stay in [0, 2π). */
  lemma {:induction false} SlotAnglesIncrease(m: MathLib, i: nat, j: nat, count: nat)
    requires 0.0 < m.pi && i < j < count
    ensures 0.0 <= SlotAngle(m, i, count) < SlotAngle(m, j, count) < 2.0 * m.pi
  {
    var c := count as real;
    var a, b := i as real / c, j as real / c;
    assert 0.0 <= a < b < 1.0 by {
      assert a * c == i as real && b * c == j as real;
    }
    MulMono(m.pi * 2.0, 0.0, a);
    StrictMulMono(m.pi * 2.0, a, b);
    StrictMulMono(m.pi * 2.0, b, 1.0);
    assert SlotAngle(m, i, count) == (m.pi * 2.0) * a;
    assert SlotAngle(m, j, count) == (m.pi * 2.0) * b;
  }

  lemma {:induction false} StrictMulMono(c: real, a: real, b: real)
    requires 0.0 < c && a < b
    ensures c * a < c * b
  {
  }

  /** What the scattered layout promises about one card. */
  ghost predicate ScatterPlaced(m: MathLib, s: Scatter, i: nat, count: nat)
    requires 0 < count
  {
    && 2.4 * 2.4 <= HorizontalDist2(s.pos) < 3.3 * 3.3
    && -0.2 <= s.pos.y < 1.8
    && -0.25 <= s.rot.y - m.pi - SlotAngle(m, i, count) < 0.25
    && -0.15 <= s.rot.x < 0.15 && -0.1 <= s.rot.z < 0.1
    && 0.3 <= s.scale < 0.38
    && 0.0 <= s.phase < 2.0 * m.pi
  }

  /** One iteration of the `positions` loop (seven draws). */
  function DrawScatter(m: MathLib, rng: nat -> real, k: nat, i: nat, count: nat): (r: (Scatter, nat))
    requires Sound(m) && Uniform(rng) && 0 < count
    ensures r.1 == k + 7
    ensures ScatterPlaced(m, r.0, i, count)
  {
    var radius := 2.4 + rng(k) * 0.9;
    var angle := SlotAngle(m, i, count) + (rng(k + 1) - 0.5) * 0.5;
    var y := rng(k + 2) * 2.0 - 0.2;
    PolarInAnnulus(m, angle, radius, y, 2.4, 3.3);
    var rot := Vec3((rng(k + 3) - 0.5) * 0.3, angle + m.pi, (rng(k + 4) - 0.5) * 0.2);
    var phase := rng(k + 6) * m.pi * 2.0;
    assert 0.0 <= phase < 2.0 * m.pi by {
      MulMono(m.pi * 2.0, 0.0, rng(k + 6));
      StrictMulMono(m.pi * 2.0, rng(k + 6), 1.0);
    }
    (Scatter(Polar(m, angle, radius, y), rot, 0.3 + rng(k + 5) * 0.08, phase), k + 7)
  }

  /** The `positions` memo: one scattered place per card, at least one. */
  method ScatterLayout(m: MathLib, rng: nat -> real, start: nat, n: nat)
    returns (pts: seq<Scatter>, next: nat)
    requires Sound(m) && Uniform(rng)
    ensures |pts| == LayoutCount(n) && next == start + 7 * LayoutCount(n)
    ensures forall i :: 0 <= i < |pts| ==> ScatterPlaced(m, pts[i], i, LayoutCount(n))
  {
    var count := LayoutCount(n);
    pts, next := [], start;
    for i := 0 to count
      invariant |pts| == i && next == start + 7 * i
      invariant forall j :: 0 <= j < i ==> ScatterPlaced(m, pts[j], j, count)
    {
      var drawn := DrawScatter(m, rng, next, i, count);
      pts := pts + [drawn.0];
      next := drawn.1;
    }
  }

  /** `Math.min(2.9, 1.7 + count * 0.04)`: the ring widens with the photo count up to 2.9. */
  function RingRadius(count: nat): (r: real)
    requires 1 <= count
    ensures 1.74 <= r <= 2.9
    ensures count <= 30 ==> r == 1.7 + count as real * 0.04
  {
    Min(2.9, 1.7 + count as real * 0.04)
  }

  /** What the focus ring promises about one slot around `center`. */
  ghost predicate SlotPlaced(m: MathLib, s: Slot, i: nat, count: nat, center: Vec3)
    requires 0 < count
  {
    && 0.6 * 0.6 <= HorizontalDist2(s.pos) <= 3.12 * 3.12
    && -0.45 <= s.pos.y - center.y < 0.45
    && s.rot == Vec3(0.04, SlotAngle(m, i, count) + m.pi, 0.0)
  }

  /** One iteration of the `focusRing` loop (two draws). */
  function DrawSlot(m: MathLib, rng: nat -> real, k: nat, i: nat, count: nat, center: Vec3): (r: (Slot, nat))
    requires Sound(m) && Uniform(rng) && 0 < count
    ensures r.1 == k + 2
    ensures SlotPlaced(m, r.0, i, count, center)
  {
    var angle := SlotAngle(m, i, count);
    SinBounded(m, i as real * 1.7);
    CosBounded(m, i as real * 0.9);
    SinBounded(m, i as real * 1.3);
    var yJitter := (m.sin(i as real * 1.7) + m.cos(i as real * 0.9)) * 0.18 + (rng(k) - 0.5) * 0.18;
    var rJitter := m.sin(i as real * 1.3) * 0.16 + (rng(k + 1) - 0.5) * 0.12;
    var r := Max(0.6, RingRadius(count) + rJitter);
    PolarOnCircle(m, angle, r, center.y + yJitter);
    SquareMono(0.6, r);
    SquareMono(r, 3.12);
    (Slot(Polar(m, angle, r, center.y + yJitter), Vec3(0.04, angle + m.pi, 0.0)), k + 2)
  }

  /** The `focusRing` memo: one slot per card around the focus centre, at least one. */
  method FocusRing(m: MathLib, rng: nat -> real, start: nat, n: nat, center: Vec3)
    returns (ring: seq<Slot>, next: nat)
    requires Sound(m) && Uniform(rng)
    ensures |ring| == LayoutCount(n) && next == start + 2 * LayoutCount(n)
    ensures forall i :: 0 <= i < |ring| ==> SlotPlaced(m, ring[i], i, LayoutCount(n), center)
  {
    var count := LayoutCount(n);
    ring, next := [], start;
    for i := 0 to count
      invariant |ring| == i && next == start + 2 * i
      invariant forall j :: 0 <= j < i ==> SlotPlaced(m, ring[j], j, count, center)
    {
      var drawn := DrawSlot(m, rng, next, i, count, center);
      ring := ring + [drawn.0];
      next := drawn.1;
    }
  }

  /** The tree group's position and the orbit target in scene coordinates. */
  const TreePos := Vec3(-0.1, 0.3, 0.0)
  const TreeTarget := Vec3(-0.1, 0.8, 0.0)

  /** `photoFocusCenter`: the orbit target in the tree group's own coordinates. */
  const FocusCenter := Vec3(TreeTarget.x - TreePos.x, TreeTarget.y - TreePos.y, TreeTarget.z - TreePos.z)

  /**
   * In the scene the ring is centred half a unit up the tree's axis, so
   * every slot hangs between 0.05 and 0.95 in the group's coordinates.
   */
  lemma {:induction false} SceneRingHeights(m: MathLib, s: Slot, i: nat, count: nat)
    requires 0 < count && SlotPlaced(m, s, i, count, FocusCenter)
    ensures FocusCenter == Vec3(0.0, 0.5, 0.0)
    ensures 0.05 <= s.pos.y < 0.95
  {
    assert FocusCenter.y == 0.5;
  }

  // ------------------------------------------------------------- assignment

  /** One rendered card: the index of its photo, its scattered place and its ring slot. */
  datatype Card = Card(photo: nat, home: Scatter, slot: Slot)

  /**
   * The cards `FloatingPhotos` renders for `n` photos: none at all when
   * there are no photos; otherwise card `idx` shows photo `idx % n` and
   * flies to slot `idx % ring.length`.
   */
  function AssignCards(n: nat, positions: seq<Scatter>, ring: seq<Slot>): (cards: Option<seq<Card>>)
    requires |positions| == |ring| == LayoutCount(n)
    ensures n == 0 <==> cards.None?
    ensures cards.Some? ==> |cards.value| == n
    ensures cards.Some? ==> forall i :: 0 <= i < n ==>
              cards.value[i] == Card(i, positions[i], ring[i])
  {
    if n == 0 then None
    else
      var cards := seq(|positions|, idx requires 0 <= idx < |positions| =>
                       Card(idx % n, positions[idx], ring[idx % |ring|]));
      assert forall i :: 0 <= i < n ==> cards[i] == Card(i, positions[i], ring[i]) by {
        forall i | 0 <= i < n
          ensures cards[i] == Card(i, positions[i], ring[i])
        {
          ModBelow(i, n);
        }
      }
      Some(cards)
  }

  /** An index below the modulus is its own remainder. */
  lemma {:induction false} ModBelow(i: nat, n: nat)
    requires i < n
    ensures i % n == i
  {
  }

  /** Every photo is shown exactly once and no two cards share a ring slot index. */
  lemma {:induction false} CardsDistinct(n: nat, positions: seq<Scatter>, ring: seq<Slot>, i: nat, j: nat)
    requires |positions| == |ring| == LayoutCount(n)
    requires 0 < n && i < j < n
    ensures AssignCards(n, positions, ring).value[i].photo != AssignCards(n, positions, ring).value[j].photo
  {
  }

  // ------------------------------------------------------------ frame pose

  /**
   * The pose `PhotoCard`'s frame callback gives a card at elapsed time `t`
   * for collapse target `target`, explosion factor `f` and camera position
   * `camera`: lerp from the scattered place to the slot by the smoothed
   * blend, bob vertically, spin slowly about y, turn to the camera once the
   * blend passes 0.35, and grow by up to 55 %.
   */
  function CardPose(m: MathLib, c: Card, t: real, target: real, f: real, camera: Vec3): Transform
  {
    var smooth := Smooth(Blend(f, target));
    var lerped := Lerp(c.home.pos, c.slot.pos, smooth);
    var pos := lerped.(y := lerped.y + m.sin(t * 0.8 + c.home.phase) * FloatAmp(smooth));
    var baseSpin := t * (0.2 - smooth * 0.14);
    var rot, focusRot := c.home.rot, c.slot.rot;
    var rotX := rot.x + (focusRot.x - rot.x) * smooth;
    var rotY := rot.y + (focusRot.y - rot.y) * smooth + baseSpin;
    var rotZ := rot.z + (focusRot.z - rot.z) * smooth;
    var orientation := if smooth > 0.35 then LookingAt(camera, rotZ * 0.35) else Euler(Vec3(rotX, rotY, rotZ));
    Transform(pos, Uniform3(CardScale(c.home.scale, smooth)), orientation)
  }

  /**
   * Wherever the card is on its way, it stays within the float amplitude
   * (at most 0.08) of the lerped height, its x and z are exactly the lerped
   * ones, and it turns to the camera exactly when the smoothed blend passes 0.35.
   */
  lemma {:induction false} CardPoseBounds(m: MathLib, c: Card, t: real, target: real, f: real, camera: Vec3)
    requires Sound(m)
    ensures var smooth := Smooth(Blend(f, target));
            var p := CardPose(m, c, t, target, f, camera).position;
            var l := Lerp(c.home.pos, c.slot.pos, smooth);
            && p.x == l.x && p.z == l.z
            && -FloatAmp(smooth) <= p.y - l.y <= FloatAmp(smooth)
            && (CardPose(m, c, t, target, f, camera).rotation.LookingAt? <==> smooth > 0.35)
  {
    var smooth := Smooth(Blend(f, target));
    SinBounded(m, t * 0.8 + c.home.phase);
    UnitTimes(m.sin(t * 0.8 + c.home.phase), FloatAmp(smooth));
  }

  /**
   * Fully collapsed (blend 1) a card sits on its slot: x and z exactly,
   * y within 0.04; it faces the camera, rolled by 0.35 of the slot's z
   * rotation; it is 1.55 times its scattered scale.
   */
  lemma {:induction false} CardAtSlot(m: MathLib, c: Card, t: real, target: real, f: real, camera: Vec3)
    requires Sound(m) && Blend(f, target) == 1.0 && 0.3 <= c.home.scale
    ensures var p := CardPose(m, c, t, target, f, camera);
            && p.position.x == c.slot.pos.x && p.position.z == c.slot.pos.z
            && -0.04 <= p.position.y - c.slot.pos.y <= 0.04
            && p.rotation == LookingAt(camera, c.slot.rot.z * 0.35)
            && p.scale == Uniform3(1.55 * c.home.scale)
  {
    CardPoseBounds(m, c, t, target, f, camera);
    LerpEnds(c.home.pos, c.slot.pos);
  }

  /**
   * At rest (blend 0) a card sits at its scattered place within the full
   * bob of 0.08, keeps its scattered x and z rotation, spins about y at 0.2
   * radians per second and has its scattered scale.
   */
  lemma {:induction false} CardAtHome(m: MathLib, c: Card, t: real, target: real, f: real, camera: Vec3)
    requires Sound(m) && Blend(f, target) == 0.0 && 0.3 <= c.home.scale
    ensures var p := CardPose(m, c, t, target, f, camera);
            && p.position.x == c.home.pos.x && p.position.z == c.home.pos.z
            && -0.08 <= p.position.y - c.home.pos.y <= 0.08
            && p.rotation == Euler(Vec3(c.home.rot.x, c.home.rot.y + t * 0.2, c.home.rot.z))
            && p.scale == Uniform3(c.home.scale)
  {
    CardPoseBounds(m, c, t, target, f, camera);
    LerpEnds(c.home.pos, c.slot.pos);
  }

  /** A mounted `PhotoCard`: its assignment and the group transform its frame callback writes. */
  class PhotoCard {
    const card: Card
    var pose: Transform

    constructor (card: Card)
      ensures this.card == card && pose == Identity
    {
      this.card := card;
      pose := Identity;
    }

    /** One run of the card's frame callback. */
    method Frame(m: MathLib, t: real, target: real, f: real, camera: Vec3)
      modifies this
      ensures pose == CardPose(m, card, t, target, f, camera)
    {
      var blend := Min(1.0, Max(0.0, f + (target - f) * 0.4));
      var smooth := blend * blend * (3.0 - 2.0 * blend);
      var floatAmp := 0.08 * (1.0 - smooth * 0.5);
      var position := Lerp(card.home.pos, card.slot.pos, smooth);
      position := position.(y := position.y + m.sin(t * 0.8 + card.home.phase) * floatAmp);
      var baseSpin := t * (0.2 - smooth * 0.14);
      var rot, focusRot := card.home.rot, card.slot.rot;
      var rotX := rot.x + (focusRot.x - rot.x) * smooth;
      var rotY := rot.y + (focusRot.y - rot.y) * smooth + baseSpin;
      var rotZ := rot.z + (focusRot.z - rot.z) * smooth;
      var rotation := Euler(Vec3(rotX, rotY, rotZ));
      if smooth > 0.35 {
        rotation := LookingAt(camera, rotZ * 0.35);
      }
      var s := card.home.scale * (1.0 + smooth * 0.55);
      pose := Transform(position, Uniform3(Max(0.001, s)), rotation);
      assert blend == Blend(f, target);
      assert smooth == Smooth(Blend(f, target));
      assert floatAmp == FloatAmp(smooth);
      assert Max(0.001, s) == CardScale(card.home.scale, smooth);
      assert pose.position == CardPose(m, card, t, target, f, camera).position;
      assert pose.rotation == CardPose(m, card, t, target, f, camera).rotation;
    }
  }
}
