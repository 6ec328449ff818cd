# fresnel interactive viewer: camera gestures, input state and device selection

This project models, in Dafny, the core of fresnel's interactive viewer and
the mode selection of a fresnel `Device`:

- `QuaternionMath` (`quaternion.dfy`) covers the quaternion helpers the viewer
  uses to rotate the camera: the Hamilton product, the conjugate, rotation of
  a vector by a quaternion, and the quaternion for an axis and an angle.
  Components are exact reals. The cosine and sine are a `Trig` value that the
  caller supplies.
- `CameraControl` (`camera.dfy`) covers `CameraController3D`. It drives a
  camera whose position, look-at point, up vector and height it updates in
  place, with three gestures:
  - orbit about the look-at point;
  - pan of the eye and the look-at point together;
  - zoom of the view height.

  Each gesture is a method on the controller. The method is proved equal to a
  pure function on a `CameraState` value (`Orbited`, `Panned`, `Zoomed`). The
  properties are proved about those functions. The camera's
  (right, direction, up) basis is computed by the camera module and enters as
  a `Basis` argument.
- `SceneViewInput` (`scene_view.dfy`) covers the input state of the
  `SceneView` widget:
  - the drag mode, set by a press of the left, right or middle button and
    cleared by a release;
  - the dispatch of mouse moves and wheel turns to the controller;
  - the ring of the last 100 frame times.

  Each call into the path tracer's `reset` is counted in `tracerResets`.
- `DeviceSelection` (`device.dfy`) covers the decision of `Device.__init__`
  between GPU and CPU mode, with its exact errors. Its inputs are the
  requested mode string, whether the CPU module imported, and the GPU
  module's import outcome together with its device count.
- `Wrappers` (`wrappers.dfy`) holds `Option` and `Result`.

Two facts about the code are worth stating up front:
- Zoom does not clamp the height to a positive minimum.
  `ZoomPositiveIff` states exactly when the height stays positive.
- Pan scales by the camera height, and by 0.1 when slight, with no other
  sensitivity constant.

## Model

| member | source | states |
|---|---|---|
| QuaternionMath.Mult | fresnel/interact/qt5.py:12-19 | the definition: the Hamilton product, component for component as q_mult (its properties are the lemmas below) |
| QuaternionMath.Conjugate | fresnel/interact/qt5.py:21-23 | the definition: w kept and x, y, z negated, as q_conjugate |
| QuaternionMath.Rotate | fresnel/interact/qt5.py:25-27 | the definition: the vector part of q * (0, v) * conj(q), as qv_mult |
| QuaternionMath.AxisAngle | fresnel/interact/qt5.py:29-36 | the definition: (cos(theta/2), v * sin(theta/2)), as axisangle_to_q, with the caller's cos and sin |
| QuaternionMath.MultNorm | fresnel/interact/qt5.py:12-19 | the norm of a Hamilton product is the product of the norms (four-square identity) |
| QuaternionMath.MultUnit | fresnel/interact/qt5.py:12-19 | the product of two unit quaternions is a unit quaternion |
| QuaternionMath.MultIdentity | fresnel/interact/qt5.py:12-19 | (1, 0, 0, 0) multiplied on either side returns the other operand unchanged |
| QuaternionMath.ConjugateInvolution | fresnel/interact/qt5.py:21-23 | conjugating twice gives back the quaternion; the w component and the norm never change |
| QuaternionMath.ConjugateIsInverse | fresnel/interact/qt5.py:12-23 | q times its conjugate, on either side, is the real quaternion (norm, 0, 0, 0), so for unit q the conjugate is the inverse |
| QuaternionMath.MultSubRight | fresnel/interact/qt5.py:12-19 | the Hamilton product distributes over differences in its right operand |
| QuaternionMath.MultSubLeft | fresnel/interact/qt5.py:12-19 | the Hamilton product distributes over differences in its left operand |
| QuaternionMath.SandwichIsPure | fresnel/interact/qt5.py:25-27 | q * (0, v) * conj(q) has w = 0, so dropping w in qv_mult loses nothing |
| QuaternionMath.RotateIdentity | fresnel/interact/qt5.py:25-27 | qv_mult by the identity quaternion returns the vector unchanged |
| QuaternionMath.RotateLength | fresnel/interact/qt5.py:25-27 | qv_mult scales squared length by the square of the quaternion's norm |
| QuaternionMath.RotateUnitLength | fresnel/interact/qt5.py:25-27 | qv_mult by a unit quaternion preserves length |
| QuaternionMath.RotateSub | fresnel/interact/qt5.py:25-27 | qv_mult by a fixed quaternion is linear: it maps the difference of two vectors to the difference of their images |
| QuaternionMath.RotateUnitDot | fresnel/interact/qt5.py:25-27 | qv_mult by a unit quaternion preserves dot products, so angles as well as lengths |
| QuaternionMath.AxisAngleZero | fresnel/interact/qt5.py:29-36 | a zero angle gives the identity quaternion about any axis |
| QuaternionMath.AxisAngleUnit | fresnel/interact/qt5.py:29-36 | a unit axis gives a unit quaternion (when cos^2 + sin^2 = 1 at the half-angle) |
| QuaternionMath.AxisAngleFixesAxis | fresnel/interact/qt5.py:25-36 | rotating a unit axis about itself, by any angle, leaves it unchanged (when cos^2 + sin^2 = 1 at the half-angle) |
| CameraControl.OrbitRotation | fresnel/interact/qt5.py:51-57 | the definition: (q_yaw * q_pitch) * q_roll, about u, r and d, for the effective factor |
| CameraControl.Orbited | fresnel/interact/qt5.py:42-65 | orbit keeps look-at and height; the new offset from look-at to eye is the old offset rotated by q = (q_yaw * q_pitch) * q_roll, and the new up is the basis up rotated by q |
| CameraControl.OrbitZero | fresnel/interact/qt5.py:42-65 | orbit by zero angles leaves position, look-at and height unchanged, and up becomes the basis up |
| CameraControl.OrbitRotationUnit | fresnel/interact/qt5.py:51-57 | with a unit basis, the composed orbit quaternion is a unit quaternion |
| CameraControl.OrbitKeepsDistance | fresnel/interact/qt5.py:51-65 | with a unit basis, orbit preserves the distance from eye to look-at point and leaves a unit up vector |
| CameraControl.OrbitYawKeepsUp | fresnel/interact/qt5.py:42-65 | an orbit by yaw alone sets up to the basis up exactly |
| CameraControl.OrbitYawKeepsHeight | fresnel/interact/qt5.py:42-65 | an orbit by yaw alone keeps the eye's component along the basis up, so the eye circles the look-at point in the plane perpendicular to up |
| CameraControl.OrbitSlight | fresnel/interact/qt5.py:48-55 | under slight, orbit is exactly the orbit with 0.1 * factor for all three axes |
| CameraControl.PanDelta | fresnel/interact/qt5.py:74-83 | the definition: the pan translation factor * (x * r + y * u), factor the height or a tenth of it when slight |
| CameraControl.Panned | fresnel/interact/qt5.py:67-89 | pan keeps the offset between eye and look-at, the up vector and the height |
| CameraControl.PanMovesBoth | fresnel/interact/qt5.py:74-89 | eye and look-at both move by the same delta, height * (x * r + y * u), scaled by 0.1 when slight |
| CameraControl.PanSlight | fresnel/interact/qt5.py:74-83 | a slight pan moves a tenth as far as a normal one |
| CameraControl.PanUndo | fresnel/interact/qt5.py:67-89 | panning by (-x, -y) after (x, y) restores the camera |
| CameraControl.ZoomFactor | fresnel/interact/qt5.py:94-97 | the zoom sensitivity is 0.0015, or 0.00015 when slight |
| CameraControl.Zoomed | fresnel/interact/qt5.py:91-100 | zoom leaves position, look-at and up unchanged |
| CameraControl.ZoomZero | fresnel/interact/qt5.py:91-100 | a zero zoom is a no-op |
| CameraControl.ZoomDirection | fresnel/interact/qt5.py:91-100 | for a positive height, a positive amount strictly shrinks it (staying positive while amount * factor < 1), and a negative amount strictly grows it |
| CameraControl.ZoomPositiveIff | fresnel/interact/qt5.py:91-100 | a positive height stays positive exactly when amount * factor < 1; nothing clamps it |
| CameraControl.ZoomSlight | fresnel/interact/qt5.py:94-100 | a slight zoom changes the height by a tenth of what a normal zoom does |
| CameraControl.Camera.constructor | fresnel/interact/qt5.py:59-65 | the camera record holds the position, look-at, up and height that the gestures read and write |
| CameraControl.CameraController3D.constructor | fresnel/interact/qt5.py:39-40 | the controller is bound to the given camera |
| CameraControl.CameraController3D.Orbit | fresnel/interact/qt5.py:42-65 | updates the camera in place to Orbited of its old state |
| CameraControl.CameraController3D.Pan | fresnel/interact/qt5.py:67-89 | updates the camera in place to Panned of its old state |
| CameraControl.CameraController3D.Zoom | fresnel/interact/qt5.py:91-100 | updates the camera in place to Zoomed of its old state |
| SceneViewInput.PressMode | fresnel/interact/qt5.py:189-194 | another button leaves the drag mode as it was; left, right and middle always start a drag |
| SceneViewInput.PressIdempotent | fresnel/interact/qt5.py:189-194 | pressing the same button again does not change the mode |
| SceneViewInput.PressModesDistinct | fresnel/interact/qt5.py:189-194 | left, right and middle select three different modes |
| SceneViewInput.Step | fresnel/interact/qt5.py:185-199 | the definition: a press sets the mode as PressMode, a release clears it |
| SceneViewInput.Replay | fresnel/interact/qt5.py:185-199 | the definition: the mode after a sequence of presses and releases applied in order |
| SceneViewInput.ReplayIgnoresOtherPresses | fresnel/interact/qt5.py:185-199 | over any sequence of presses and releases, removing the presses of other buttons does not change the resulting mode |
| SceneViewInput.ReplayIdleAfterRelease | fresnel/interact/qt5.py:196-199 | after a release followed only by presses of other buttons, no drag is in progress |
| SceneViewInput.ReplayModeNeedsPress | fresnel/interact/qt5.py:185-199 | starting idle, a drag mode is only entered through a press of the left, right or middle button |
| SceneViewInput.LastN | fresnel/interact/qt5.py:121 | the last n items of a history: min(length, n) items, a suffix of the history |
| SceneViewInput.DequeAppend | fresnel/interact/qt5.py:147 | appending to a deque with maxlen never exceeds maxlen, and the new item is last |
| SceneViewInput.DequeAppendLastN | fresnel/interact/qt5.py:121 | a deque holding the last n items of a history, after one append, holds the last n items of the extended history |
| SceneViewInput.AppendAll | fresnel/interact/qt5.py:147 | appending items one by one never exceeds maxlen |
| SceneViewInput.AppendAllLastN | fresnel/interact/qt5.py:121 | after any run of appends, the deque holds the last n items of the whole history, in order |
| SceneViewInput.FrameTimesKeepMostRecent | fresnel/interact/qt5.py:121 | starting empty, after at least 100 frames exactly the 100 most recent times are kept, oldest first |
| SceneViewInput.AppendAllFromEmpty | fresnel/interact/qt5.py:121 | for any maxlen n, a deque that starts empty holds exactly the last n items after at least n appends |
| SceneViewInput.Moved | fresnel/interact/qt5.py:160-177 | a mouse move orbits or pans by the pixel delta for the drag mode: no drag changes nothing, orbits keep look-at, pans keep the eye offset and up, and only a pan in a 0-pixel-high widget fails |
| SceneViewInput.DragKeepsDistance | fresnel/interact/qt5.py:164-171 | a pitch/yaw or roll drag keeps the eye's distance from the look-at point (with a unit basis and cos^2 + sin^2 = 1 at the half-angles of that drag) |
| SceneViewInput.SceneView.constructor | fresnel/interact/qt5.py:111-143 | a new view has no drag mode, no recorded position, no frame times and is bound to the given camera |
| SceneViewInput.SceneView.Paint | fresnel/interact/qt5.py:145-147 | records the frame time in the bounded deque, which always holds the last 100 frame times |
| SceneViewInput.SceneView.MousePress | fresnel/interact/qt5.py:185-194 | records the position and sets the mode by the button |
| SceneViewInput.SceneView.MouseRelease | fresnel/interact/qt5.py:196-199 | the mode is always cleared; accept() is called exactly when a drag was in progress |
| SceneViewInput.SceneView.MouseMove | fresnel/interact/qt5.py:160-182 | fails before any press with nothing changed; otherwise records the new position, applies Moved to the camera and resets the tracer once, or fails on a zero-height pan leaving the camera unchanged |
| SceneViewInput.SceneView.Wheel | fresnel/interact/qt5.py:201-205 | zooms by the vertical wheel delta, then resets the tracer once |
| DeviceSelection.SelectMode | fresnel/__init__.py:47-83 | the full decision table: auto picks the GPU when it reports devices, otherwise the CPU, otherwise a RuntimeError; gpu needs the module and a nonzero count; cpu needs the module; any other mode is a ValueError ("Invalid mode"); a missing GPU module counts as zero GPUs; success never names a missing module |

## Left out

- Floating point: every component is an exact real, so rounding is not modelled.
- `math.cos` and `math.sin` are the caller's `Trig` value. Properties that need them assume the facts they use: cos 0 = 1, sin 0 = 0, and cos^2 + sin^2 = 1 at the half-angles involved.
- The camera module (basis derivation, `fit` for an 'auto' camera) is not part of this model. The basis is an argument, and a plain `Camera` class holds the four attributes the gestures use.
- Associativity of the Hamilton product is not proved. Neither is the fact that rotating by a product is rotating by each factor in turn. The orbit properties go through the norm, linearity and the fixed axis instead.
- Painting: rendering, `QImage`, `QPainter` and buffer map/unmap are left out. `Paint` only records the frame time.
- The path tracer's `render`, `reset` and `resize` are foreign calls. Only the number of `reset` calls is kept.
- The repaint and FPS timers, the `update()` repaint requests and the resize debounce (`resizeEvent`, `resize_done`) are toolkit plumbing with no logic of their own.
- `print_fps` is left out: it writes to the console and divides by the time span of the ring.
- Event acceptance: only the value `MouseRelease` reports is modelled. The other handlers always accept.
- `Scene` and its properties, and the native `Device` construction and module imports, are left out. The imports enter `SelectMode` as their outcomes.
