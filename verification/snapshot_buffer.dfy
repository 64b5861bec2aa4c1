/** The per-frame smoothing buffers of src/hooks/useSnapshotBuffer.ts.
    Positions approach their target by linear interpolation each frame;
    rotations by spherical interpolation of quaternions, whose arithmetic
    (`setFromEuler`, `slerp`) is a parameter of the model. */
module SnapshotBuffer {
  import opened ColyseusTypes

  /** `PERFORMANCE.POSITION_LERP_FACTOR` and `ROTATION_LERP_FACTOR`. */
  const POSITION_LERP_FACTOR: real := 0.2
  const ROTATION_LERP_FACTOR: real := 0.2
  /** `Math.PI` as a double, the rotation buffer's default y offset. */
  const PI: real := 3.141592653589793

  lemma MulNonneg(a: real, b: real)
    requires 0.0 <= a && 0.0 <= b
    ensures 0.0 <= a * b
  {
  }

  /** Scaling by a factor in [0, 1] keeps a value between 0 and itself. */
  lemma ScaleBetween(g: real, f: real)
    requires 0.0 <= f <= 1.0
    ensures 0.0 <= g ==> 0.0 <= g * f <= g
    ensures g <= 0.0 ==> g <= g * f <= 0.0
  {
    var h := 1.0 - f;
    assert g * h == g - g * f;
    if 0.0 <= g {
      MulNonneg(g, f);
      MulNonneg(g, h);
    } else {
      MulNonneg(-g, f);
      MulNonneg(-g, h);
      assert (-g) * f == -(g * f);
      assert (-g) * h == -(g * h);
    }
  }

  lemma MulAssoc(x: real, y: real, z: real)
    ensures x * (y * z) == (y * x) * z
  {
  }

  /** The part of the gap a lerp leaves: `(1 - f)` of it. */
  lemma LerpGap(a: real, b: real, f: real)
    ensures b - (a + (b - a) * f) == (1.0 - f) * (b - a)
  {
    var g := b - a;
    assert (1.0 - f) * g == g - f * g;
  }

  /** The two facts about one lerp step: the gap left is `(1 - f)` of the
      old one, and a factor in [0, 1] lands between the two ends. */
  lemma LerpFacts(a: real, b: real, f: real, d: real)
    requires d == (b - a) * f
    ensures b - (a + d) == (1.0 - f) * (b - a)
    ensures 0.0 <= f <= 1.0 ==> (a <= b ==> a <= a + d <= b) && (b <= a ==> b <= a + d <= a)
  {
    LerpGap(a, b, f);
    if 0.0 <= f <= 1.0 {
      var g := b - a;
      ScaleBetween(g, f);
      assert 0.0 <= g ==> 0.0 <= d <= g;
      assert g <= 0.0 ==> g <= d <= 0.0;
    }
  }

  /** `r` lies between `a` and `b`, whichever order they come in. */
  predicate Between(a: real, r: real, b: real) {
    (a <= b ==> a <= r <= b) && (b <= a ==> b <= r <= a)
  }

  /** `a.lerp(b, f)` on one component. */
  function LerpScalar(a: real, b: real, f: real): (r: real)
    ensures b - r == (1.0 - f) * (b - a)
    ensures 0.0 <= f <= 1.0 ==> Between(a, r, b)
  {
    var d := (b - a) * f;
    LerpFacts(a, b, f, d);
    a + d
  }

  /** `Vector3.lerp`: each component separately. */
  function Lerp(a: Vec3, b: Vec3, f: real): (r: Vec3)
    ensures b.x - r.x == (1.0 - f) * (b.x - a.x)
    ensures b.y - r.y == (1.0 - f) * (b.y - a.y)
    ensures b.z - r.z == (1.0 - f) * (b.z - a.z)
    ensures 0.0 <= f <= 1.0 ==> Between(a.x, r.x, b.x) && Between(a.y, r.y, b.y) && Between(a.z, r.z, b.z)
  {
    Vec3(LerpScalar(a.x, b.x, f), LerpScalar(a.y, b.y, f), LerpScalar(a.z, b.z, f))
  }

  function Pow(q: real, n: nat): real {
    if n == 0 then 1.0 else q * Pow(q, n - 1)
  }

  lemma {:induction false} PowBounds(q: real, n: nat)
    requires 0.0 <= q <= 1.0
    ensures 0.0 <= Pow(q, n) <= 1.0
  {
    if n > 0 {
      PowBounds(q, n - 1);
      ScaleBetween(Pow(q, n - 1), q);
      assert Pow(q, n) == Pow(q, n - 1) * q;
    }
  }

  /** The component value after `n` more frames toward a fixed target. */
  function Approach(c: real, target: real, f: real, n: nat): real
    decreases n
  {
    if n == 0 then c else Approach(LerpScalar(c, target, f), target, f, n - 1)
  }

  /** After `n` frames the remaining gap is the first gap times (1 - f)^n. */
  lemma {:induction false} ApproachGap(c: real, target: real, f: real, n: nat)
    ensures target - Approach(c, target, f, n) == Pow(1.0 - f, n) * (target - c)
    decreases n
  {
    if n > 0 {
      var c' := LerpScalar(c, target, f);
      ApproachGap(c', target, f, n - 1);
      assert target - c' == (1.0 - f) * (target - c);
      MulAssoc(Pow(1.0 - f, n - 1), 1.0 - f, target - c);
    }
  }

  /** With a factor in [0, 1] the smoothed value never overshoots: it stays
      between where it started and the target. */
  lemma {:induction false} ApproachNeverOvershoots(c: real, target: real, f: real, n: nat)
    requires 0.0 <= f <= 1.0
    ensures c <= target ==> c <= Approach(c, target, f, n) <= target
    ensures target <= c ==> target <= Approach(c, target, f, n) <= c
  {
    ApproachGap(c, target, f, n);
    PowBounds(1.0 - f, n);
    var g := target - c;
    var p := Pow(1.0 - f, n);
    var e := Approach(c, target, f, n);
    var d := g * p;
    assert target - e == p * g;
    assert p * g == d;
    ScaleBetween(g, p);
    assert 0.0 <= g ==> 0.0 <= d <= g;
    assert g <= 0.0 ==> g <= d <= 0.0;
  }

  /** With a factor in (0, 1], each frame strictly shrinks a nonzero gap. */
  lemma {:induction false} FrameShrinksGap(c: real, target: real, f: real)
    requires 0.0 < f <= 1.0 && c != target
    ensures c < target ==> target - LerpScalar(c, target, f) < target - c
    ensures target < c ==> LerpScalar(c, target, f) - target < c - target
  {
    var r := LerpScalar(c, target, f);
    assert target - r == (1.0 - f) * (target - c);
  }

  /** `usePositionBuffer(target, factor)`. */
  class PositionBuffer {
    var current: Vec3
    var target: Vec3
    var initialized: bool
    const factor: real

    /** First render: `current` starts as a copy of the target. */
    constructor (target: Vec3, factor: real := POSITION_LERP_FACTOR)
      ensures current == target && this.target == target && !initialized
      ensures this.factor == factor
    {
      current, this.target, initialized := target, target, false;
      this.factor := factor;
    }

    /** A re-render with a new target (`targetRef.current = target`). */
    method SetTarget(t: Vec3)
      modifies this
      ensures target == t && current == old(current) && initialized == old(initialized)
    {
      target := t;
    }

    /** One `useFrame` callback: the first snaps to the target, later ones
        move `factor` of the way toward it. */
    method Frame()
      modifies this
      ensures !old(initialized) ==> current == target
      ensures old(initialized) ==> current == Lerp(old(current), target, factor)
      ensures initialized && target == old(target)
    {
      if !initialized {
        current := target;
        initialized := true;
        return;
      }
      current := Lerp(current, target, factor);
    }
  }

  /** A unit quaternion, as x, y, z, w. */
  datatype Quaternion = Quaternion(x: real, y: real, z: real, w: real)

  /** `new Quaternion()`. */
  const Identity: Quaternion := Quaternion(0.0, 0.0, 0.0, 1.0)

  /** The Euler angles that `useRotationBuffer` converts: the target turned
      by `yOffset` about the vertical axis. */
  function OffsetEuler(t: Vec3, yOffset: real): (e: Vec3)
    ensures e.x == t.x && e.z == t.z && e.y - t.y == yOffset
  {
    Vec3(t.x, t.y + yOffset, t.z)
  }

  /** `useRotationBuffer(targetEuler, factor, yOffset)`. */
  class RotationBuffer {
    var current: Quaternion
    var target: Vec3
    var initialized: bool
    const factor: real
    const yOffset: real
    /** `Quaternion.setFromEuler` (default XYZ order). */
    const fromEuler: Vec3 -> Quaternion
    /** `Quaternion.slerp(to, t)`. */
    const slerp: (Quaternion, Quaternion, real) -> Quaternion

    constructor (target: Vec3, fromEuler: Vec3 -> Quaternion, slerp: (Quaternion, Quaternion, real) -> Quaternion,
                 factor: real := ROTATION_LERP_FACTOR, yOffset: real := PI)
      ensures current == Identity && this.target == target && !initialized
      ensures this.factor == factor && this.yOffset == yOffset
      ensures this.fromEuler == fromEuler && this.slerp == slerp
    {
      current, this.target, initialized := Identity, target, false;
      this.factor, this.yOffset := factor, yOffset;
      this.fromEuler, this.slerp := fromEuler, slerp;
    }

    method SetTarget(t: Vec3)
      modifies this
      ensures target == t && current == old(current) && initialized == old(initialized)
    {
      target := t;
    }

    /** One `useFrame` callback: the first copies the offset target
        orientation, later ones slerp `factor` of the way toward it. */
    method Frame()
      modifies this
      ensures !old(initialized) ==> current == fromEuler(OffsetEuler(target, yOffset))
      ensures old(initialized) ==> current == slerp(old(current), fromEuler(OffsetEuler(target, yOffset)), factor)
      ensures initialized && target == old(target)
    {
      var tmpQuatTo := fromEuler(OffsetEuler(target, yOffset));
      if !initialized {
        current := tmpQuatTo;
        initialized := true;
        return;
      }
      current := slerp(current, tmpQuatTo, factor);
    }
  }

  /** A position buffer driven `n` frames toward a fixed target ends, on
      each axis, exactly where `Approach` says. */
  method RunPositionFrames(b: PositionBuffer, n: nat)
    requires b.initialized
    modifies b
    ensures b.initialized && b.target == old(b.target)
    ensures b.current.x == Approach(old(b.current.x), b.target.x, b.factor, n)
    ensures b.current.y == Approach(old(b.current.y), b.target.y, b.factor, n)
    ensures b.current.z == Approach(old(b.current.z), b.target.z, b.factor, n)
  {
    var i := 0;
    while i < n
      invariant 0 <= i <= n
      invariant b.initialized && b.target == old(b.target)
      invariant Approach(b.current.x, b.target.x, b.factor, n - i) == Approach(old(b.current.x), b.target.x, b.factor, n)
      invariant Approach(b.current.y, b.target.y, b.factor, n - i) == Approach(old(b.current.y), b.target.y, b.factor, n)
      invariant Approach(b.current.z, b.target.z, b.factor, n - i) == Approach(old(b.current.z), b.target.z, b.factor, n)
    {
      b.Frame();
      i := i + 1;
    }
  }
}
