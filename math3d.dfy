// Vectors and matrices as the scene graph and the cameras use them. The
// floating-point library itself is not modelled: a matrix is a term that
// records which operations built it, so the bookkeeping around it (which
// matrix is written where, and when) can be stated exactly.
module Math3D {

  datatype Vec3 = Vec3(x: real, y: real, z: real)

  /** `Vector3.ZERO`, `ONE`, `UP`, `DOWN`, `RIGHT`, `FORWARD`. */
  const Zero := Vec3(0.0, 0.0, 0.0)
  const One := Vec3(1.0, 1.0, 1.0)
  const Up := Vec3(0.0, 1.0, 0.0)
  const Down := Vec3(0.0, -1.0, 0.0)
  const Right := Vec3(1.0, 0.0, 0.0)
  const Forward := Vec3(0.0, 0.0, 1.0)

  /** A component of a vector. */
  datatype Axis = X | Y | Z

  function Get(v: Vec3, a: Axis): real
  {
    match a
    case X => v.x
    case Y => v.y
    case Z => v.z
  }

  /** `vector[a] = c`: the vector with one component replaced. */
  function With(v: Vec3, a: Axis, c: real): (r: Vec3)
    ensures Get(r, a) == c
    ensures forall b :: b != a ==> Get(r, b) == Get(v, b)
  {
    match a
    case X => v.(x := c)
    case Y => v.(y := c)
    case Z => v.(z := c)
  }

  /** `Vector3.array` / `toArray()`: the three components in order. */
  function Components(v: Vec3): (s: seq<real>)
    ensures |s| == 3 && s[0] == v.x && s[1] == v.y && s[2] == v.z
  {
    [v.x, v.y, v.z]
  }

  function Add(a: Vec3, b: Vec3): Vec3 { Vec3(a.x + b.x, a.y + b.y, a.z + b.z) }
  function Sub(a: Vec3, b: Vec3): Vec3 { Vec3(a.x - b.x, a.y - b.y, a.z - b.z) }
  function Scale(a: Vec3, k: real): Vec3 { Vec3(a.x * k, a.y * k, a.z * k) }
  function Dot(a: Vec3, b: Vec3): real { a.x * b.x + a.y * b.y + a.z * b.z }
  function Cross(a: Vec3, b: Vec3): Vec3
  {
    Vec3(a.y * b.z - a.z * b.y, a.z * b.x - a.x * b.z, a.x * b.y - a.y * b.x)
  }

  /** Any two edges of a triangle span the same cross product, taken around it in the same turn. */
  lemma CrossOfEdges(p0: Vec3, p1: Vec3, p2: Vec3)
    ensures Cross(Sub(p1, p0), Sub(p2, p1)) == Cross(Sub(p1, p0), Sub(p2, p0))
    ensures Cross(Sub(p0, p2), Sub(p1, p2)) == Cross(Sub(p1, p0), Sub(p2, p0))
  {
    var a, b := Sub(p1, p0), Sub(p2, p0);
    assert Sub(p2, p1) == Sub(b, a);
    CrossShift(a, b);
    assert Sub(p0, p2) == Vec3(-b.x, -b.y, -b.z) && Sub(p1, p2) == Sub(a, b);
    CrossTurn(a, b);
  }

  lemma CrossShift(a: Vec3, b: Vec3)
    ensures Cross(a, Sub(b, a)) == Cross(a, b)
  {
  }

  lemma CrossTurn(a: Vec3, b: Vec3)
    ensures Cross(Vec3(-b.x, -b.y, -b.z), Sub(a, b)) == Cross(a, b)
  {
  }

  /** An angle converted from degrees with `deg * Math.PI / 180`. */
  datatype Radians = FromDegrees(degrees: real)

  /** A JavaScript quotient `num / den`, kept symbolic (the canvas height may be 0). */
  datatype Ratio = Literal(value: real) | Quotient(num: real, den: real)

  /** A 4x4 matrix, named by the operations that produced it. */
  datatype Mat =
    | Identity
    | Translate(m: Mat, offset: Vec3)
    | Rotate(m: Mat, angle: real, axis: Vec3)
    | ScaleBy(m: Mat, factors: Vec3)
    | Mul(a: Mat, b: Mat)
    | LookAt(eye: Vec3, target: Vec3, up: Vec3)
    | Perspective(fovy: Radians, aspect: Ratio, near: real, far: real)
    | Inverse(m: Mat)
    | NormalOf(m: Mat)   // Matrix3.fromMatrix4: the upper-left 3x3 block

  /**
   * The local matrix of a node: identity, translated by the position,
   * rotated about x, y and z in that order, then scaled.
   */
  function Local(position: Vec3, rotation: Vec3, scale: Vec3): Mat
  {
    ScaleBy(Rotate(Rotate(Rotate(Translate(Identity, position),
      rotation.x, Right), rotation.y, Up), rotation.z, Forward), scale)
  }
}
