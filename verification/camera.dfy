/** The camera gestures of the interactive viewer: orbit about the look-at
    point, pan of eye and look-at together, and zoom of the view height.
    The camera's (right, direction, up) basis is derived by the camera module,
    which is not part of this model: every gesture receives it as a value. */
module CameraControl {
  import opened QuaternionMath

  /** The camera's orthonormal frame (r, d, u): right, view direction, up. */
  datatype Basis = Basis(r: Vec3, d: Vec3, u: Vec3)

  /** The four camera attributes the gestures read and write. */
  datatype CameraState = CameraState(position: Vec3, lookAt: Vec3, up: Vec3, height: real)

  /** Default orbit sensitivity, in radians per pixel. */
  const DefaultOrbitFactor: real := -0.0025

  /** Zoom sensitivity per wheel unit. */
  const ZoomSensitivity: real := 0.0015

  /** The `slight` (fine adjustment) flag scales a sensitivity by 0.1. */
  function Slight(k: real, slight: bool): real {
    if slight then k * 0.1 else k
  }

  /** The offset from the look-at point to the eye. */
  function Offset(s: CameraState): Vec3 {
    Sub(s.position, s.lookAt)
  }

  // ---------------------------------------------------------------- orbit

  /** The composed orbit rotation for the effective factor f: yaw about u,
      pitch about r, roll about d, multiplied as (yaw * pitch) * roll. */
  function OrbitRotation(trig: Trig, b: Basis, yaw: real, pitch: real, roll: real, f: real): Quat
  {
    Mult(Mult(AxisAngle(trig, b.u, f * yaw), AxisAngle(trig, b.r, f * pitch)),
         AxisAngle(trig, b.d, f * roll))
  }

  /** With a unit basis and cos^2 + sin^2 = 1 at the three half-angles, the
      orbit rotation is a unit quaternion. */
  lemma OrbitRotationUnit(trig: Trig, b: Basis, yaw: real, pitch: real, roll: real, f: real)
    requires Length2(b.r) == 1.0 && Length2(b.d) == 1.0 && Length2(b.u) == 1.0
    requires PythagoreanAt(trig, f * yaw / 2.0)
    requires PythagoreanAt(trig, f * pitch / 2.0)
    requires PythagoreanAt(trig, f * roll / 2.0)
    ensures Norm2(OrbitRotation(trig, b, yaw, pitch, roll, f)) == 1.0
  {
    AxisAngleUnit(trig, b.u, f * yaw);
    AxisAngleUnit(trig, b.r, f * pitch);
    AxisAngleUnit(trig, b.d, f * roll);
    var q1 := AxisAngle(trig, b.u, f * yaw);
    var q2 := AxisAngle(trig, b.r, f * pitch);
    var q3 := AxisAngle(trig, b.d, f * roll);
    MultUnit(q1, q2);
    MultUnit(Mult(q1, q2), q3);
  }

  /** The camera after an orbit: the look-at point and height stay, the offset
      to the eye is rotated, and the new up is the basis up rotated. */
  function Orbited(s: CameraState, trig: Trig, b: Basis, yaw: real, pitch: real, roll: real,
                   factor: real, slight: bool): (r: CameraState)
    ensures r.lookAt == s.lookAt && r.height == s.height
    ensures Offset(r) == Rotate(OrbitRotation(trig, b, yaw, pitch, roll, Slight(factor, slight)), Offset(s))
    ensures r.up == Rotate(OrbitRotation(trig, b, yaw, pitch, roll, Slight(factor, slight)), b.u)
  {
    var q := OrbitRotation(trig, b, yaw, pitch, roll, Slight(factor, slight));
    CameraState(Add(Rotate(q, Sub(s.position, s.lookAt)), s.lookAt), s.lookAt, Rotate(q, b.u), s.height)
  }

  /** Orbiting by zero angles leaves the eye where it is; up becomes the basis up. */
  lemma OrbitZero(s: CameraState, trig: Trig, b: Basis, factor: real, slight: bool)
    requires FixesZero(trig)
    ensures Orbited(s, trig, b, 0.0, 0.0, 0.0, factor, slight) == s.(up := b.u)
  {
    AxisAngleZero(trig, b.u);
    AxisAngleZero(trig, b.r);
    AxisAngleZero(trig, b.d);
    assert OrbitRotation(trig, b, 0.0, 0.0, 0.0, Slight(factor, slight)) == Identity by {
      MultIdentity(Identity);
    }
    RotateIdentity(Offset(s));
    RotateIdentity(b.u);
  }

  /** With a unit basis and cos^2 + sin^2 = 1 at the three half-angles, orbit
      keeps the distance between eye and look-at point, and the new up is a
      unit vector. */
  lemma OrbitKeepsDistance(s: CameraState, trig: Trig, b: Basis, yaw: real, pitch: real, roll: real,
                           factor: real, slight: bool)
    requires Length2(b.r) == 1.0 && Length2(b.d) == 1.0 && Length2(b.u) == 1.0
    requires PythagoreanAt(trig, Slight(factor, slight) * yaw / 2.0)
    requires PythagoreanAt(trig, Slight(factor, slight) * pitch / 2.0)
    requires PythagoreanAt(trig, Slight(factor, slight) * roll / 2.0)
    ensures Length2(Offset(Orbited(s, trig, b, yaw, pitch, roll, factor, slight))) == Length2(Offset(s))
    ensures Length2(Orbited(s, trig, b, yaw, pitch, roll, factor, slight).up) == 1.0
  {
    var q := OrbitRotation(trig, b, yaw, pitch, roll, Slight(factor, slight));
    OrbitRotationUnit(trig, b, yaw, pitch, roll, Slight(factor, slight));
    RotateUnitLength(q, Offset(s));
    RotateUnitLength(q, b.u);
  }

  /** A pure yaw turns about the basis up, so the new up is the basis up itself. */
  lemma OrbitYawKeepsUp(s: CameraState, trig: Trig, b: Basis, yaw: real, factor: real, slight: bool)
    requires FixesZero(trig)
    requires Length2(b.u) == 1.0
    requires PythagoreanAt(trig, Slight(factor, slight) * yaw / 2.0)
    ensures Orbited(s, trig, b, yaw, 0.0, 0.0, factor, slight).up == b.u
  {
    var q1 := AxisAngle(trig, b.u, Slight(factor, slight) * yaw);
    AxisAngleZero(trig, b.r);
    AxisAngleZero(trig, b.d);
    MultIdentity(q1);
    assert OrbitRotation(trig, b, yaw, 0.0, 0.0, Slight(factor, slight)) == q1;
    AxisAngleFixesAxis(trig, b.u, Slight(factor, slight) * yaw);
  }

  /** A pure yaw keeps the eye's height along the basis up: the eye circles
      the look-at point in the plane through it perpendicular to up. */
  lemma OrbitYawKeepsHeight(s: CameraState, trig: Trig, b: Basis, yaw: real, factor: real, slight: bool)
    requires FixesZero(trig)
    requires Length2(b.u) == 1.0
    requires PythagoreanAt(trig, Slight(factor, slight) * yaw / 2.0)
    ensures Dot(Offset(Orbited(s, trig, b, yaw, 0.0, 0.0, factor, slight)), b.u) == Dot(Offset(s), b.u)
  {
    var q1 := AxisAngle(trig, b.u, Slight(factor, slight) * yaw);
    AxisAngleZero(trig, b.r);
    AxisAngleZero(trig, b.d);
    MultIdentity(q1);
    assert OrbitRotation(trig, b, yaw, 0.0, 0.0, Slight(factor, slight)) == q1;
    AxisAngleUnit(trig, b.u, Slight(factor, slight) * yaw);
    AxisAngleFixesAxis(trig, b.u, Slight(factor, slight) * yaw);
    RotateUnitDot(q1, Offset(s), b.u);
  }

  /** Under `slight` the orbit is the one with a tenth of the sensitivity. */
  lemma OrbitSlight(s: CameraState, trig: Trig, b: Basis, yaw: real, pitch: real, roll: real, factor: real)
    ensures Orbited(s, trig, b, yaw, pitch, roll, factor, true)
         == Orbited(s, trig, b, yaw, pitch, roll, 0.1 * factor, false)
  {
    assert Slight(factor, true) == Slight(0.1 * factor, false);
  }

  // ---------------------------------------------------------------- pan

  /** The translation of a pan: height * (x * r + y * u), a tenth of it when slight. */
  function PanDelta(height: real, b: Basis, x: real, y: real, slight: bool): Vec3 {
    var f := Slight(height, slight);
    Vec3(f * (x * b.r.x + y * b.u.x), f * (x * b.r.y + y * b.u.y), f * (x * b.r.z + y * b.u.z))
  }

  /** The camera after a pan: eye and look-at move together, so the offset
      between them, the up vector and the height are unchanged. */
  function Panned(s: CameraState, b: Basis, x: real, y: real, slight: bool): (r: CameraState)
    ensures Offset(r) == Offset(s)
    ensures r.up == s.up && r.height == s.height
  {
    var delta := PanDelta(s.height, b, x, y, slight);
    CameraState(Add(s.position, delta), Add(s.lookAt, delta), s.up, s.height)
  }

  /** Eye and look-at both move by the same vector, height * (x * r + y * u)
      scaled by 0.1 when slight. */
  lemma PanMovesBoth(s: CameraState, b: Basis, x: real, y: real, slight: bool)
    ensures var r := Panned(s, b, x, y, slight);
      var delta := Scale(Slight(s.height, slight), Add(Scale(x, b.r), Scale(y, b.u)));
      Sub(r.position, s.position) == delta && Sub(r.lookAt, s.lookAt) == delta
  {
  }

  /** A slight pan moves a tenth as far as a normal one. */
  lemma PanSlight(s: CameraState, b: Basis, x: real, y: real)
    ensures Sub(Panned(s, b, x, y, true).position, s.position)
         == Scale(0.1, Sub(Panned(s, b, x, y, false).position, s.position))
  {
    var h := s.height;
    assert PanDelta(h, b, x, y, true) == Scale(0.1, PanDelta(h, b, x, y, false));
  }

  /** Panning back by (-x, -y) undoes a pan by (x, y). */
  lemma PanUndo(s: CameraState, b: Basis, x: real, y: real, slight: bool)
    ensures Panned(Panned(s, b, x, y, slight), b, -x, -y, slight) == s
  {
    var d := PanDelta(s.height, b, x, y, slight);
    assert PanDelta(s.height, b, -x, -y, slight) == Scale(-1.0, d);
  }

  // ---------------------------------------------------------------- zoom

  /** The zoom sensitivity in effect: 0.0015, or 0.00015 when slight. */
  function ZoomFactor(slight: bool): (k: real)
    ensures k == if slight then 0.00015 else 0.0015
  {
    Slight(ZoomSensitivity, slight)
  }

  /** The camera after a zoom: only the height changes. */
  function Zoomed(s: CameraState, amount: real, slight: bool): (r: CameraState)
    ensures r.position == s.position && r.lookAt == s.lookAt && r.up == s.up
  {
    s.(height := s.height * (1.0 - amount * ZoomFactor(slight)))
  }

  /** A zero amount is a no-op. */
  lemma ZoomZero(s: CameraState, slight: bool)
    ensures Zoomed(s, 0.0, slight) == s
  {
  }

  /** The height stays positive exactly when amount * factor is below 1: no
      clamping protects it from a large zoom-in. */
  lemma ZoomPositiveIff(s: CameraState, amount: real, slight: bool)
    requires s.height > 0.0
    ensures Zoomed(s, amount, slight).height > 0.0 <==> amount * ZoomFactor(slight) < 1.0
  {
    var m := 1.0 - amount * ZoomFactor(slight);
    assert Zoomed(s, amount, slight).height == s.height * m;
    if m > 0.0 {
      assert s.height * m > 0.0;
    } else {
      assert s.height * m <= 0.0;
    }
  }

  /** For a positive height, a positive amount strictly shrinks it (and keeps
      it positive while amount * factor < 1); a negative amount strictly grows it. */
  lemma ZoomDirection(s: CameraState, amount: real, slight: bool)
    requires s.height > 0.0
    ensures amount > 0.0 ==> Zoomed(s, amount, slight).height < s.height
    ensures 0.0 < amount && amount * ZoomFactor(slight) < 1.0 ==> 0.0 < Zoomed(s, amount, slight).height
    ensures amount < 0.0 ==> Zoomed(s, amount, slight).height > s.height
  {
    ZoomPositiveIff(s, amount, slight);
    var k := amount * ZoomFactor(slight);
    assert Zoomed(s, amount, slight).height == s.height - s.height * k;
    if 0.0 < amount {
      assert 0.0 < k;
      assert s.height * k > 0.0;
    } else if amount < 0.0 {
      assert k < 0.0;
      assert s.height * k < 0.0;
    }
  }

  /** A slight zoom changes the height by a tenth of what a normal zoom does. */
  lemma ZoomSlight(s: CameraState, amount: real)
    ensures s.height - Zoomed(s, amount, true).height
         == 0.1 * (s.height - Zoomed(s, amount, false).height)
  {
  }

  // ---------------------------------------------------------------- objects

  /** The camera record the controller updates in place. */
  class Camera {
    var position: Vec3
    var lookAt: Vec3
    var up: Vec3
    var height: real

    constructor (position: Vec3, lookAt: Vec3, up: Vec3, height: real)
      ensures State() == CameraState(position, lookAt, up, height)
    {
      this.position := position;
      this.lookAt := lookAt;
      this.up := up;
      this.height := height;
    }

    function State(): CameraState
      reads this
    {
      CameraState(position, lookAt, up, height)
    }
  }

  /** Drives one bound camera with orbit, pan and zoom gestures. */
  class CameraController3D {
    const camera: Camera

    constructor (camera: Camera)
      ensures this.camera == camera
    {
      this.camera := camera;
    }

    /** Rotate the eye about the look-at point. */
    method Orbit(trig: Trig, basis: Basis, yaw: real, pitch: real, roll: real, factor: real, slight: bool)
      modifies camera
      ensures camera.State() == Orbited(old(camera.State()), trig, basis, yaw, pitch, roll, factor, slight)
    {
      var f := factor;
      if slight {
        f := f * 0.1;
      }
      var q1 := AxisAngle(trig, basis.u, f * yaw);
      var q2 := AxisAngle(trig, basis.r, f * pitch);
      var q3 := AxisAngle(trig, basis.d, f * roll);
      var q := Mult(q1, q2);
      q := Mult(q, q3);
      assert q == OrbitRotation(trig, basis, yaw, pitch, roll, f);
      assert f == Slight(factor, slight);
      var v := Sub(camera.position, camera.lookAt);
      camera.position := Add(Rotate(q, v), camera.lookAt);
      camera.up := Rotate(q, basis.u);
    }

    /** Move the eye and the look-at point together. */
    method Pan(basis: Basis, x: real, y: real, slight: bool)
      modifies camera
      ensures camera.State() == Panned(old(camera.State()), basis, x, y, slight)
    {
      var f := camera.height;
      if slight {
        f := f * 0.1;
      }
      var delta := Vec3(f * (x * basis.r.x + y * basis.u.x),
                        f * (x * basis.r.y + y * basis.u.y),
                        f * (x * basis.r.z + y * basis.u.z));
      assert f == Slight(camera.height, slight);
      assert delta == PanDelta(camera.height, basis, x, y, slight);
      camera.position := Add(camera.position, delta);
      camera.lookAt := Add(camera.lookAt, delta);
    }

    /** Scale the view height. */
    method Zoom(amount: real, slight: bool)
      modifies camera
      ensures camera.State() == Zoomed(old(camera.State()), amount, slight)
    {
      var f := ZoomSensitivity;
      if slight {
        f := f * 0.1;
      }
      camera.height := camera.height * (1.0 - amount * f);
    }
  }
}
