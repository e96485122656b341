/** Values the camera is built from: small real vectors, the transform record and the
    floating-point linear-algebra library (quaternions, matrices), which stays abstract. */
module Glm {

  datatype Vec2 = Vec2(x: real, y: real)
  datatype Vec3 = Vec3(x: real, y: real, z: real)

  const Zero2: Vec2 := Vec2(0.0, 0.0)
  const Zero3: Vec3 := Vec3(0.0, 0.0, 0.0)

  /** The camera's local forward axis, glm.vec3(0, 0, -1). */
  const Forward: Vec3 := Vec3(0.0, 0.0, -1.0)
  /** The local pitch axis, glm.vec3(1, 0, 0). */
  const AxisX: Vec3 := Vec3(1.0, 0.0, 0.0)

  function Add(a: Vec3, b: Vec3): Vec3 { Vec3(a.x + b.x, a.y + b.y, a.z + b.z) }
  function Sub(a: Vec3, b: Vec3): Vec3 { Vec3(a.x - b.x, a.y - b.y, a.z - b.z) }
  function Scale(a: Vec3, k: real): Vec3 { Vec3(a.x * k, a.y * k, a.z * k) }
  function Add2(a: Vec2, b: Vec2): Vec2 { Vec2(a.x + b.x, a.y + b.y) }
  function Sub2(a: Vec2, b: Vec2): Vec2 { Vec2(a.x - b.x, a.y - b.y) }

  /** glm.mix on scalars: x * (1 - t) + y * t. */
  function Mix(a: real, b: real, t: real): real { a * (1.0 - t) + b * t }

  /** glm.mix on vectors, component by component. */
  function Mix3(a: Vec3, b: Vec3, t: real): Vec3 {
    Vec3(Mix(a.x, b.x, t), Mix(a.y, b.y, t), Mix(a.z, b.z, t))
  }

  /** A blend with a factor in [0, 1] lands between its two ends. */
  lemma MixBetween(a: real, b: real, t: real)
    requires 0.0 <= t <= 1.0
    ensures a <= b ==> a <= Mix(a, b, t) <= b
    ensures b <= a ==> b <= Mix(a, b, t) <= a
  {
    assert Mix(a, b, t) == a + (b - a) * t;
    if a <= b {
      ScaleDown(b - a, t);
    } else {
      ScaleDown(a - b, t);
    }
  }

  /** A non-negative quantity scaled by a factor in [0, 1] stays between 0 and itself. */
  lemma ScaleDown(x: real, t: real)
    requires x >= 0.0 && 0.0 <= t <= 1.0
    ensures 0.0 <= x * t <= x
  {
    assert x * t >= 0.0;
    assert x * (1.0 - t) >= 0.0;
    assert x - x * t == x * (1.0 - t);
  }

  /** A blend leaves the fraction 1 - t of the gap to its far end. */
  lemma MixGap(a: real, b: real, t: real)
    ensures Mix(a, b, t) - b == (a - b) * (1.0 - t)
  {
  }

  function Abs(x: real): real { if x < 0.0 then -x else x }

  /** With a factor in [0, 1] the blend is never farther from its far end than its near end was. */
  lemma MixGapShrinks(a: real, b: real, t: real)
    requires 0.0 <= t <= 1.0
    ensures Abs(Mix(a, b, t) - b) <= Abs(a - b)
  {
    var x, u := a - b, 1.0 - t;
    MixGap(a, b, t);
    assert Mix(a, b, t) - b == x * u;
    if x >= 0.0 {
      ScaleDown(x, u);
    } else {
      ScaleDown(-x, u);
      NegateProduct(x, u);
    }
  }

  lemma NegateProduct(x: real, u: real)
    ensures (-x) * u == -(x * u)
  {
  }

  /** Orientations (glm.quat) and 4x4 matrices (glm.mat4) are not modelled numerically. */
  type Quat(==)
  type Mat4(==)

  /** transform.py's Transform, as a plain record copied by value. */
  datatype Transform = Transform(position: Vec3, scale: Vec3, orientation: Quat)

  /** The glm operations the camera calls, given as functions rather than computed. */
  datatype Library = Library(
    angleAxis: (real, Vec3) -> Quat,     // glm.angleAxis(angle, axis)
    mul: (Quat, Quat) -> Quat,           // quaternion product
    normalize: Quat -> Quat,             // glm.normalize on a quaternion
    normalize3: Vec3 -> Vec3,            // glm.normalize on a vector
    rotate: (Quat, Vec3) -> Vec3,        // quaternion * vector
    slerp: (Quat, Quat, real) -> Quat,   // glm.slerp
    quatLookAt: (Vec3, Vec3) -> Quat,    // glm.quatLookAt(direction, up)
    length: Vec3 -> real,                // glm.length
    pow: (real, real) -> real,           // glm.pow
    mat4: Transform -> Mat4,             // Transform.mat4()
    inverse: Mat4 -> Mat4)               // glm.inverse

  /** Transform.mat4(). */
  function Matrix(t: Transform, g: Library): Mat4 {
    g.mat4(t)
  }

  /** glm.inverse on a matrix. */
  function Inverse(m: Mat4, g: Library): Mat4 {
    g.inverse(m)
  }

  /** Transform.lookAt: only the orientation is recomputed. */
  function LookAt(t: Transform, target: Vec3, up: Vec3, g: Library): (r: Transform)
    ensures r.position == t.position && r.scale == t.scale
  {
    t.(orientation := g.quatLookAt(g.normalize3(Sub(target, t.position)), up))
  }
}
