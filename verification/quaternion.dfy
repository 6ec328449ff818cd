/** Quaternion and 3-vector arithmetic used by the interactive viewer to rotate
    the camera (the helpers at the top of the Qt5 interaction module).
    Components are exact reals: floating-point rounding is not modelled. */
module QuaternionMath {

  /** A 3-vector: a camera position, look-at point, up vector or basis vector. */
  datatype Vec3 = Vec3(x: real, y: real, z: real)

  /** A quaternion w + xi + yj + zk, the 4-tuple (w, x, y, z) that `q_mult` and `q_conjugate` take. */
  datatype Quat = Quat(w: real, x: real, y: real, z: real)

  /** The trigonometric functions the caller supplies in place of math.cos and math.sin. */
  datatype Trig = Trig(cos: real -> real, sin: real -> real)

  /** cos(0) = 1 and sin(0) = 0. */
  predicate FixesZero(trig: Trig) {
    trig.cos(0.0) == 1.0 && trig.sin(0.0) == 0.0
  }

  /** cos(a)^2 + sin(a)^2 = 1 at the angle a. */
  predicate PythagoreanAt(trig: Trig, a: real) {
    trig.cos(a) * trig.cos(a) + trig.sin(a) * trig.sin(a) == 1.0
  }

  function Add(a: Vec3, b: Vec3): Vec3 {
    Vec3(a.x + b.x, a.y + b.y, a.z + b.z)
  }

  function Sub(a: Vec3, b: Vec3): Vec3 {
    Vec3(a.x - b.x, a.y - b.y, a.z - b.z)
  }

  function Scale(k: real, a: Vec3): Vec3 {
    Vec3(k * a.x, k * a.y, k * a.z)
  }

  /** The dot product of two 3-vectors. */
  function Dot(a: Vec3, b: Vec3): real {
    a.x * b.x + a.y * b.y + a.z * b.z
  }

  /** Squared Euclidean length of a 3-vector. */
  function Length2(a: Vec3): real {
    a.x * a.x + a.y * a.y + a.z * a.z
  }

  /** Squared norm of a quaternion. */
  function Norm2(q: Quat): real {
    q.w * q.w + q.x * q.x + q.y * q.y + q.z * q.z
  }

  /** Component-wise difference of two quaternions. */
  function QSub(p: Quat, q: Quat): Quat {
    Quat(p.w - q.w, p.x - q.x, p.y - q.y, p.z - q.z)
  }

  const Identity: Quat := Quat(1.0, 0.0, 0.0, 0.0)

  /** The pure quaternion (0, v): `(0.0,) + v1` in `qv_mult`. */
  function Pure(v: Vec3): Quat {
    Quat(0.0, v.x, v.y, v.z)
  }

  /** The vector part (x, y, z): the `[1:]` slice in `qv_mult`. */
  function VectorPart(q: Quat): Vec3 {
    Vec3(q.x, q.y, q.z)
  }

  /** The Hamilton product p * q (q_mult). */
  function Mult(p: Quat, q: Quat): Quat
  {
    Quat(p.w * q.w - p.x * q.x - p.y * q.y - p.z * q.z,
         p.w * q.x + p.x * q.w + p.y * q.z - p.z * q.y,
         p.w * q.y + p.y * q.w + p.z * q.x - p.x * q.z,
         p.w * q.z + p.z * q.w + p.x * q.y - p.y * q.x)
  }

  /** The conjugate (q_conjugate). */
  function Conjugate(q: Quat): Quat
  {
    Quat(q.w, -q.x, -q.y, -q.z)
  }

  /** The vector v rotated by q (qv_mult): the vector part of q * (0, v) * conj(q). */
  function Rotate(q: Quat, v: Vec3): Vec3 {
    VectorPart(Mult(Mult(q, Pure(v)), Conjugate(q)))
  }

  /** The rotation by angle theta about the axis v (axisangle_to_q). */
  function AxisAngle(trig: Trig, v: Vec3, theta: real): Quat {
    var half := theta / 2.0;
    Quat(trig.cos(half), v.x * trig.sin(half), v.y * trig.sin(half), v.z * trig.sin(half))
  }

  /** Norm2 of a product, written out as a polynomial in the components. */
  lemma NormOfMult(p: Quat, q: Quat)
    ensures Norm2(Mult(p, q)) ==
      (p.w * q.w - p.x * q.x - p.y * q.y - p.z * q.z) * (p.w * q.w - p.x * q.x - p.y * q.y - p.z * q.z) +
      (p.w * q.x + p.x * q.w + p.y * q.z - p.z * q.y) * (p.w * q.x + p.x * q.w + p.y * q.z - p.z * q.y) +
      (p.w * q.y + p.y * q.w + p.z * q.x - p.x * q.z) * (p.w * q.y + p.y * q.w + p.z * q.x - p.x * q.z) +
      (p.w * q.z + p.z * q.w + p.x * q.y - p.y * q.x) * (p.w * q.z + p.z * q.w + p.x * q.y - p.y * q.x)
  {
  }

  /** The product of two norms, written out as a polynomial in the components. */
  lemma NormTimesNorm(p: Quat, q: Quat)
    ensures Norm2(p) * Norm2(q) ==
      (p.w * p.w + p.x * p.x + p.y * p.y + p.z * p.z) * (q.w * q.w + q.x * q.x + q.y * q.y + q.z * q.z)
  {
  }

  /** The norm of a product is the product of the norms (Euler's four-square
      identity), so a product of unit quaternions is a unit quaternion. */
  lemma MultNorm(p: Quat, q: Quat)
    ensures Norm2(Mult(p, q)) == Norm2(p) * Norm2(q)
  {
    NormOfMult(p, q);
    NormTimesNorm(p, q);
  }

  /** A product of unit quaternions is a unit quaternion. */
  lemma MultUnit(p: Quat, q: Quat)
    requires Norm2(p) == 1.0 && Norm2(q) == 1.0
    ensures Norm2(Mult(p, q)) == 1.0
  {
    MultNorm(p, q);
  }

  /** (1, 0, 0, 0) is a two-sided unit of the Hamilton product. */
  lemma MultIdentity(q: Quat)
    ensures Mult(Identity, q) == q && Mult(q, Identity) == q
  {
  }

  /** Conjugation is an involution that never changes the w component. */
  lemma ConjugateInvolution(q: Quat)
    ensures Conjugate(Conjugate(q)) == q
    ensures Conjugate(q).w == q.w
    ensures Norm2(Conjugate(q)) == Norm2(q)
  {
  }

  /** Multiplying by the conjugate on either side leaves the real number
      Norm2(q): for a unit quaternion the conjugate is the inverse. */
  lemma ConjugateIsInverse(q: Quat)
    ensures Mult(q, Conjugate(q)) == Quat(Norm2(q), 0.0, 0.0, 0.0)
    ensures Mult(Conjugate(q), q) == Quat(Norm2(q), 0.0, 0.0, 0.0)
  {
  }

  /** q * (0, v) * conj(q) is again a pure quaternion. */
  lemma SandwichIsPure(q: Quat, v: Vec3)
    ensures Mult(Mult(q, Pure(v)), Conjugate(q)) == Pure(Rotate(q, v))
  {
  }

  /** Rotating by the identity quaternion changes nothing. */
  lemma RotateIdentity(v: Vec3)
    ensures Rotate(Identity, v) == v
  {
    var x := Pure(v);
    assert Mult(Identity, x) == x;
    assert Conjugate(Identity) == Identity;
    assert Mult(x, Identity) == x;
  }

  /** Rotation scales squared length by Norm2(q)^2; a unit quaternion keeps
      every length. */
  lemma RotateLength(q: Quat, v: Vec3)
    ensures Length2(Rotate(q, v)) == Norm2(q) * Norm2(q) * Length2(v)
  {
    var s := Mult(Mult(q, Pure(v)), Conjugate(q));
    SandwichIsPure(q, v);
    MultNorm(q, Pure(v));
    MultNorm(Mult(q, Pure(v)), Conjugate(q));
    assert Norm2(s) == Norm2(q) * Length2(v) * Norm2(q);
    assert Length2(Rotate(q, v)) == Norm2(s);
  }

  /** A unit quaternion keeps every length. */
  lemma RotateUnitLength(q: Quat, v: Vec3)
    requires Norm2(q) == 1.0
    ensures Length2(Rotate(q, v)) == Length2(v)
  {
    RotateLength(q, v);
  }

  /** With cos(0) = 1 and sin(0) = 0, a zero angle gives the identity rotation
      about any axis. */
  lemma AxisAngleZero(trig: Trig, v: Vec3)
    requires FixesZero(trig)
    ensures AxisAngle(trig, v, 0.0) == Identity
  {
  }

  /** A unit axis gives a unit quaternion. */
  lemma AxisAngleUnit(trig: Trig, v: Vec3, theta: real)
    requires Length2(v) == 1.0
    requires PythagoreanAt(trig, theta / 2.0)
    ensures Norm2(AxisAngle(trig, v, theta)) == 1.0
  {
    var c, s := trig.cos(theta / 2.0), trig.sin(theta / 2.0);
    assert Norm2(AxisAngle(trig, v, theta)) == c * c + s * s * Length2(v);
  }

  /** (c, s v) * (0, v) for an axis v, written out. */
  lemma AxisQuatTimesAxis(c: real, s: real, v: Vec3)
    ensures Mult(Quat(c, v.x * s, v.y * s, v.z * s), Pure(v))
         == Quat(-(s * Length2(v)), c * v.x, c * v.y, c * v.z)
  {
  }

  /** The real part of (-s, c v) * conj(c, s v) vanishes for a unit v. */
  lemma AxisSandwichReal(c: real, s: real, x: real, y: real, z: real)
    requires x * x + y * y + z * z == 1.0
    ensures (-s) * c - (c * x) * (-(x * s)) - (c * y) * (-(y * s)) - (c * z) * (-(z * s)) == 0.0
  {
    assert (c * x) * (-(x * s)) + (c * y) * (-(y * s)) + (c * z) * (-(z * s))
        == -(c * s) * (x * x + y * y + z * z);
  }

  /** One vector component of (-s, c v) * conj(c, s v) is that of v when c^2 + s^2 = 1. */
  lemma AxisSandwichComponent(c: real, s: real, x: real, y: real, z: real)
    requires c * c + s * s == 1.0
    ensures (-s) * (-(x * s)) + (c * x) * c + (c * y) * (-(z * s)) - (c * z) * (-(y * s)) == x
  {
    assert (-s) * (-(x * s)) + (c * x) * c == (c * c + s * s) * x;
  }

  /** (-s, c v) * conj(c, s v) = (0, v) for a unit v and c^2 + s^2 = 1. */
  lemma AxisSandwich(c: real, s: real, v: Vec3)
    requires Length2(v) == 1.0 && c * c + s * s == 1.0
    ensures Mult(Quat(-s, c * v.x, c * v.y, c * v.z), Conjugate(Quat(c, v.x * s, v.y * s, v.z * s))) == Pure(v)
  {
    var p := Quat(-s, c * v.x, c * v.y, c * v.z);
    var q := Conjugate(Quat(c, v.x * s, v.y * s, v.z * s));
    assert q == Quat(c, -(v.x * s), -(v.y * s), -(v.z * s));
    var r := Mult(p, q);
    assert r.w == (-s) * c - (c * v.x) * (-(v.x * s)) - (c * v.y) * (-(v.y * s)) - (c * v.z) * (-(v.z * s));
    assert r.x == (-s) * (-(v.x * s)) + (c * v.x) * c + (c * v.y) * (-(v.z * s)) - (c * v.z) * (-(v.y * s));
    assert r.y == (-s) * (-(v.y * s)) + (c * v.y) * c + (c * v.z) * (-(v.x * s)) - (c * v.x) * (-(v.z * s));
    assert r.z == (-s) * (-(v.z * s)) + (c * v.z) * c + (c * v.x) * (-(v.y * s)) - (c * v.y) * (-(v.x * s));
    AxisSandwichReal(c, s, v.x, v.y, v.z);
    AxisSandwichComponent(c, s, v.x, v.y, v.z);
    AxisSandwichComponent(c, s, v.y, v.z, v.x);
    AxisSandwichComponent(c, s, v.z, v.x, v.y);
  }

  /** Rotating a unit axis by any angle about itself leaves it where it is. */
  lemma AxisAngleFixesAxis(trig: Trig, v: Vec3, theta: real)
    requires Length2(v) == 1.0
    requires PythagoreanAt(trig, theta / 2.0)
    ensures Rotate(AxisAngle(trig, v, theta), v) == v
  {
    var c, s := trig.cos(theta / 2.0), trig.sin(theta / 2.0);
    var a := Quat(c, v.x * s, v.y * s, v.z * s);
    assert AxisAngle(trig, v, theta) == a;
    AxisQuatTimesAxis(c, s, v);
    var m := Quat(-s, c * v.x, c * v.y, c * v.z);
    assert -(s * Length2(v)) == -s;
    assert Mult(a, Pure(v)) == m;
    AxisSandwich(c, s, v);
    assert Rotate(a, v) == VectorPart(Mult(m, Conjugate(a)));
  }

  /** The Hamilton product distributes over differences on the right. */
  lemma MultSubRight(a: Quat, p: Quat, q: Quat)
    ensures Mult(a, QSub(p, q)) == QSub(Mult(a, p), Mult(a, q))
  {
  }

  /** The Hamilton product distributes over differences on the left. */
  lemma MultSubLeft(p: Quat, q: Quat, c: Quat)
    ensures Mult(QSub(p, q), c) == QSub(Mult(p, c), Mult(q, c))
  {
  }

  /** Rotation by a fixed quaternion is linear: it maps differences to differences. */
  lemma RotateSub(q: Quat, w: Vec3, v: Vec3)
    ensures Rotate(q, Sub(w, v)) == Sub(Rotate(q, w), Rotate(q, v))
  {
    assert Pure(Sub(w, v)) == QSub(Pure(w), Pure(v));
    MultSubRight(q, Pure(w), Pure(v));
    MultSubLeft(Mult(q, Pure(w)), Mult(q, Pure(v)), Conjugate(q));
  }

  /** The dot product recovered from squared lengths. */
  lemma Polarize(a: Vec3, b: Vec3)
    ensures 2.0 * Dot(a, b) == Length2(a) + Length2(b) - Length2(Sub(a, b))
  {
  }

  /** A unit quaternion preserves dot products, hence angles as well as lengths. */
  lemma RotateUnitDot(q: Quat, w: Vec3, v: Vec3)
    requires Norm2(q) == 1.0
    ensures Dot(Rotate(q, w), Rotate(q, v)) == Dot(w, v)
  {
    RotateSub(q, w, v);
    RotateUnitLength(q, w);
    RotateUnitLength(q, v);
    RotateUnitLength(q, Sub(w, v));
    Polarize(Rotate(q, w), Rotate(q, v));
    Polarize(w, v);
  }
}
