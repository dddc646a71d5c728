/**
 * The engine's vector types and the scalar helpers of Unity's Mathf, with
 * floating point replaced by real arithmetic.
 */
module Geometry {

  datatype Vec2 = Vec2(x: real, y: real)
  {
    function Plus(o: Vec2): Vec2 { Vec2(x + o.x, y + o.y) }
    function Scale(k: real): Vec2 { Vec2(k * x, k * y) }
  }

  datatype Vec3 = Vec3(x: real, y: real, z: real)
  {
    function Plus(o: Vec3): Vec3 { Vec3(x + o.x, y + o.y, z + o.z) }
    function Minus(o: Vec3): Vec3 { Vec3(x - o.x, y - o.y, z - o.z) }
    function Scale(k: real): Vec3 { Vec3(k * x, k * y, k * z) }
  }

  datatype Quaternion = Quaternion(x: real, y: real, z: real, w: real)

  const Zero2: Vec2 := Vec2(0.0, 0.0)
  const Zero3: Vec3 := Vec3(0.0, 0.0, 0.0)

  function Abs(r: real): real { if r < 0.0 then -r else r }

  function Min(a: real, b: real): real { if a <= b then a else b }

  /** Mathf.Sign: 1 for zero and positive numbers, -1 for negative ones. */
  function Sign(r: real): real { if r >= 0.0 then 1.0 else -1.0 }

  /** Mathf.Clamp01. */
  function Clamp01(t: real): real { if t < 0.0 then 0.0 else if t > 1.0 then 1.0 else t }

  /** Vector3.Lerp, which clamps its parameter to [0, 1]. */
  function Lerp(p0: Vec3, p1: Vec3, t: real): Vec3
  {
    p0.Plus(p1.Minus(p0).Scale(Clamp01(t)))
  }
}
