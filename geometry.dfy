/**
 * The part of Three.js vector and box arithmetic that the editor uses:
 * points, rotation about the vertical axis by whole quarter turns, and
 * axis-aligned boxes with Box3's closed-interval intersection test.
 */
module Geometry {
  import opened Constants

  datatype Vec3 = Vec3(x: real, y: real, z: real)

  /** A yaw of k * ROTATION_INCREMENT = k * pi/2 radians. */
  type Quarter = k: int | 0 <= k < 4

  /** cos(k * pi/2), exactly. */
  function Cos(k: Quarter): real {
    if k == 0 then 1.0 else if k == 2 then -1.0 else 0.0
  }

  /** sin(k * pi/2), exactly. */
  function Sin(k: Quarter): real {
    if k == 1 then 1.0 else if k == 3 then -1.0 else 0.0
  }

  /** The rotation reached after one more ROTATION_INCREMENT, wrapped into [0, 2*pi). */
  function NextQuarter(k: Quarter): Quarter {
    (k + 1) % QUARTER_TURNS
  }

  /** X of p rotated about the Y axis (Vector3.applyAxisAngle with axis (0,1,0)). */
  function RotX(p: Vec3, k: Quarter): real {
    p.x * Cos(k) + p.z * Sin(k)
  }

  /** Z of p rotated about the Y axis. */
  function RotZ(p: Vec3, k: Quarter): real {
    -p.x * Sin(k) + p.z * Cos(k)
  }

  function RotateY(p: Vec3, k: Quarter): Vec3 {
    Vec3(RotX(p, k), p.y, RotZ(p, k))
  }

  /** A quarter-turn rotation only swaps and negates coordinates. */
  lemma RotateYCases(p: Vec3, k: Quarter)
    ensures RotateY(p, k) == if k == 0 then p else if k == 1 then Vec3(p.z, p.y, -p.x)
      else if k == 2 then Vec3(-p.x, p.y, -p.z) else Vec3(-p.z, p.y, p.x)
  {
  }

  /** Four ROTATION_INCREMENT steps make a full turn. */
  lemma FourStepsMakeFullTurn(k: Quarter)
    ensures NextQuarter(NextQuarter(NextQuarter(NextQuarter(k)))) == k
    ensures forall j: Quarter :: j != k ==> NextQuarter(j) != NextQuarter(k)
  {
  }

  /** Rotating by one more step is rotating the already rotated point by one step:
      the quarter index is all that is needed to describe rotationY. */
  lemma {:induction false} RotationSteps(p: Vec3, k: Quarter)
    ensures RotateY(p, NextQuarter(k)) == RotateY(RotateY(p, k), 1)
    ensures RotateY(p, 0) == p
  {
    if k == 0 {
      assert RotateY(p, 1) == Vec3(p.z, p.y, -p.x);
    } else if k == 1 {
      assert RotateY(p, 2) == Vec3(-p.x, p.y, -p.z);
    } else if k == 2 {
      assert RotateY(p, 3) == Vec3(-p.z, p.y, p.x);
    } else {
      assert RotateY(p, 0) == Vec3(p.x, p.y, p.z);
    }
  }

  /** Rotation keeps the horizontal distance from the axis. */
  lemma RotationPreservesLength(p: Vec3, k: Quarter)
    ensures RotX(p, k) * RotX(p, k) + RotZ(p, k) * RotZ(p, k) == p.x * p.x + p.z * p.z
  {
  }

  /** An axis-aligned box, as THREE.Box3 (min and max corners). */
  datatype Box = Box(min: Vec3, max: Vec3)

  /** Box3.intersectsBox: the boxes overlap or touch on all three axes. */
  predicate Intersects(a: Box, b: Box) {
    && b.max.x >= a.min.x && b.min.x <= a.max.x
    && b.max.y >= a.min.y && b.min.y <= a.max.y
    && b.max.z >= a.min.z && b.min.z <= a.max.z
  }

  /** Box3.expandByScalar: every face pushed outward by d. */
  function ExpandByScalar(b: Box, d: real): Box {
    Box(Vec3(b.min.x - d, b.min.y - d, b.min.z - d), Vec3(b.max.x + d, b.max.y + d, b.max.z + d))
  }

  /** The horizontal faces pulled inward by d, the vertical extent kept. */
  function ShrinkXZ(b: Box, d: real): Box {
    Box(Vec3(b.min.x + d, b.min.y, b.min.z + d), Vec3(b.max.x - d, b.max.y, b.max.z - d))
  }

  /** Box3.min.add(c); Box3.max.add(c). */
  function Translate(b: Box, c: Vec3): Box {
    Box(Vec3(b.min.x + c.x, b.min.y + c.y, b.min.z + c.z), Vec3(b.max.x + c.x, b.max.y + c.y, b.max.z + c.z))
  }

  predicate Contains(b: Box, p: Vec3) {
    b.min.x <= p.x <= b.max.x && b.min.y <= p.y <= b.max.y && b.min.z <= p.z <= b.max.z
  }

  /** The intersection test is symmetric, and two boxes sharing a point intersect. */
  lemma IntersectsProperties(a: Box, b: Box, p: Vec3)
    ensures Intersects(a, b) <==> Intersects(b, a)
    ensures Contains(a, p) && Contains(b, p) ==> Intersects(a, b)
  {
  }
}
