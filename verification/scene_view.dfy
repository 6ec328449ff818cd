/** The input state of the real-time scene view widget: the drag mode set by
    a mouse press and cleared by a release, the dispatch of mouse moves and
    wheel turns to the camera controller, and the bounded ring of frame
    times kept for the frames-per-second report.  Rendering, painting and
    timers are not modelled; each call into the path tracer's reset is
    counted. */
module SceneViewInput {
  import opened Wrappers
  import opened QuaternionMath
  import opened CameraControl

  /** The mouse buttons the view distinguishes; every other button is `OtherButton`. */
  datatype MouseButton = LeftButton | RightButton | MiddleButton | OtherButton

  /** The drag mode: none, 'pitch/yaw', 'roll' or 'pan'. */
  datatype UpdateMode = NoUpdate | PitchYaw | Roll | PanMode

  /** A widget position in pixels. */
  datatype Point = Point(x: int, y: int)

  /** The exceptions a mouse move can raise: a move before any press
      subtracts from a missing position, and a pan in a widget of height 0
      divides by zero. */
  datatype MoveError = NoInitialPosition | ZeroHeight

  /** The capacity of the frame-time ring. */
  const MaxFrameTimes: nat := 100

  // ---------------------------------------------------------------- drag mode

  /** The mode after pressing `button`. */
  function PressMode(mode: UpdateMode, button: MouseButton): (r: UpdateMode)
    ensures button == OtherButton ==> r == mode
    ensures button != OtherButton ==> r != NoUpdate
  {
    match button
    case LeftButton => PitchYaw
    case RightButton => Roll
    case MiddleButton => PanMode
    case OtherButton => mode
  }

  /** Pressing the same button twice is the same as pressing it once. */
  lemma PressIdempotent(mode: UpdateMode, button: MouseButton)
    ensures PressMode(PressMode(mode, button), button) == PressMode(mode, button)
  {
  }

  /** Left, right and middle select three different modes, whatever the mode was. */
  lemma PressModesDistinct(m1: UpdateMode, m2: UpdateMode, b1: MouseButton, b2: MouseButton)
    requires b1 != OtherButton && b2 != OtherButton
    ensures PressMode(m1, b1) == PressMode(m2, b2) <==> b1 == b2
  {
  }

  /** A mouse press or release, as seen by the drag-mode state machine. */
  datatype MouseEvent = Press(button: MouseButton) | Release

  /** The mode after one event. */
  function Step(mode: UpdateMode, e: MouseEvent): UpdateMode {
    match e
    case Press(b) => PressMode(mode, b)
    case Release => NoUpdate
  }

  /** The mode after a sequence of events, applied in order. */
  function Replay(mode: UpdateMode, events: seq<MouseEvent>): UpdateMode
    decreases |events|
  {
    if events == [] then mode
    else Step(Replay(mode, events[..|events| - 1]), events[|events| - 1])
  }

  /** The events with every press of an unrecognised button removed. */
  function WithoutOtherPresses(events: seq<MouseEvent>): (r: seq<MouseEvent>)
    ensures |r| <= |events|
    ensures Press(OtherButton) !in r
    decreases |events|
  {
    if events == [] then []
    else
      var last := events[|events| - 1];
      var rest := WithoutOtherPresses(events[..|events| - 1]);
      if last == Press(OtherButton) then rest else rest + [last]
  }

  /** Presses of unrecognised buttons have no effect on the drag mode. */
  lemma {:induction false} ReplayIgnoresOtherPresses(mode: UpdateMode, events: seq<MouseEvent>)
    ensures Replay(mode, events) == Replay(mode, WithoutOtherPresses(events))
    decreases |events|
  {
    if events != [] {
      var init, last := events[..|events| - 1], events[|events| - 1];
      var rest := WithoutOtherPresses(init);
      ReplayIgnoresOtherPresses(mode, init);
      if last != Press(OtherButton) {
        assert (rest + [last])[..|rest + [last]| - 1] == rest;
      }
    }
  }

  /** After a release, and after nothing but presses of unrecognised buttons
      since, no drag is in progress. */
  lemma {:induction false} ReplayIdleAfterRelease(mode: UpdateMode, events: seq<MouseEvent>, i: nat)
    requires i < |events| && events[i] == Release
    requires forall j :: i < j < |events| ==> events[j] == Press(OtherButton)
    ensures Replay(mode, events) == NoUpdate
    decreases |events|
  {
    var init := events[..|events| - 1];
    if i < |events| - 1 {
      ReplayIdleAfterRelease(mode, init, i);
    }
  }

  /** A drag mode is only ever entered by a press of the left, right or
      middle button. */
  lemma {:induction false} ReplayModeNeedsPress(events: seq<MouseEvent>)
    ensures Replay(NoUpdate, events) != NoUpdate ==>
      exists i :: 0 <= i < |events| && events[i].Press? && events[i].button != OtherButton
    decreases |events|
  {
    if events != [] {
      var init, last := events[..|events| - 1], events[|events| - 1];
      ReplayModeNeedsPress(init);
      if Replay(NoUpdate, events) != NoUpdate && !(last.Press? && last.button != OtherButton) {
        var i :| 0 <= i < |init| && init[i].Press? && init[i].button != OtherButton;
        assert events[i] == init[i];
      }
    }
  }

  // ---------------------------------------------------------------- frame times

  /** The last `n` elements of `h` (all of `h` when it is shorter). */
  function LastN<T>(h: seq<T>, n: nat): (r: seq<T>)
    ensures |r| == if |h| < n then |h| else n
    ensures r == h[|h| - |r|..]
  {
    if |h| <= n then h else h[|h| - n..]
  }

  /** Appending to a double-ended queue bounded by `maxlen`: when full, the
      oldest element is dropped from the front. */
  function DequeAppend<T>(q: seq<T>, x: T, maxlen: nat): (r: seq<T>)
    requires |q| <= maxlen
    ensures |r| <= maxlen
    ensures maxlen > 0 ==> |r| > 0 && r[|r| - 1] == x
  {
    if |q| < maxlen then q + [x]
    else if maxlen == 0 then []
    else q[1..] + [x]
  }

  /** A bounded deque holding the last `n` items of a history, appended to,
      holds the last `n` items of the extended history. */
  lemma DequeAppendLastN<T>(h: seq<T>, x: T, n: nat)
    ensures DequeAppend(LastN(h, n), x, n) == LastN(h + [x], n)
  {
    var q := LastN(h, n);
    var hx := h + [x];
    if |h| < n {
      assert q == h;
    } else if n > 0 {
      assert q == h[|h| - n..];
      assert q[1..] + [x] == hx[|hx| - n..];
    }
  }

  /** Appending every element of `xs` in turn to a bounded deque. */
  function AppendAll<T>(q: seq<T>, xs: seq<T>, maxlen: nat): (r: seq<T>)
    requires |q| <= maxlen
    ensures |r| <= maxlen
    decreases |xs|
  {
    if xs == [] then q
    else DequeAppend(AppendAll(q, xs[..|xs| - 1], maxlen), xs[|xs| - 1], maxlen)
  }

  /** Appending a run of items to a deque that holds the last `n` items of a
      history leaves the last `n` items of the history extended by the run. */
  lemma {:induction false} AppendAllLastN<T>(h: seq<T>, xs: seq<T>, n: nat)
    ensures AppendAll(LastN(h, n), xs, n) == LastN(h + xs, n)
    decreases |xs|
  {
    if xs != [] {
      var init, last := xs[..|xs| - 1], xs[|xs| - 1];
      var hi := h + init;
      assert h + xs == hi + [last];
      AppendAllLastN(h, init, n);
      DequeAppendLastN(hi, last, n);
    }
  }

  /** Starting empty, after at least 100 frames exactly the 100 most recent
      frame times are kept, oldest first. */
  lemma FrameTimesKeepMostRecent(ts: seq<real>)
    requires |ts| >= MaxFrameTimes
    ensures AppendAll([], ts, MaxFrameTimes) == ts[|ts| - MaxFrameTimes..]
  {
    AppendAllFromEmpty(ts, MaxFrameTimes);
  }

  /** Starting from an empty deque, at least `n` appends leave the last `n`. */
  lemma AppendAllFromEmpty<T>(ts: seq<T>, n: nat)
    requires |ts| >= n
    ensures AppendAll([], ts, n) == ts[|ts| - n..]
  {
    var empty: seq<T> := [];
    AppendAllLastN(empty, ts, n);
    assert empty + ts == ts;
    var r := LastN(ts, n);
    assert |r| == n;
  }

  // ---------------------------------------------------------------- dispatch

  /** The camera after a mouse move by (dx, dy) pixels in mode `mode`, in a
      widget `widgetHeight` pixels high; None when the pan divides by zero. */
  function Moved(s: CameraState, mode: UpdateMode, trig: Trig, basis: Basis, dx: int, dy: int,
                 slight: bool, widgetHeight: int): (r: Option<CameraState>)
    ensures r.None? <==> mode == PanMode && widgetHeight == 0
    ensures mode == NoUpdate ==> r == Some(s)
    ensures r.Some? ==> r.value.height == s.height
    ensures r.Some? && mode != PanMode ==> r.value.lookAt == s.lookAt
    ensures r.Some? && mode == PanMode ==> Offset(r.value) == Offset(s) && r.value.up == s.up
  {
    match mode
    case NoUpdate => Some(s)
    case PitchYaw => Some(Orbited(s, trig, basis, dx as real, dy as real, 0.0, DefaultOrbitFactor, slight))
    case Roll => Some(Orbited(s, trig, basis, 0.0, 0.0, dx as real, DefaultOrbitFactor, slight))
    case PanMode =>
      if widgetHeight == 0 then None
      else Some(Panned(s, basis, -(dx as real) / (widgetHeight as real), (dy as real) / (widgetHeight as real), slight))
  }

  /** A pitch/yaw or roll drag keeps the distance between the eye and the
      look-at point when the basis is orthonormal enough to be unit length
      and cos^2 + sin^2 = 1 at the half-angles the drag uses. */
  lemma DragKeepsDistance(s: CameraState, mode: UpdateMode, trig: Trig, basis: Basis, dx: int, dy: int,
                          slight: bool, widgetHeight: int)
    requires mode == PitchYaw || mode == Roll
    requires Length2(basis.r) == 1.0 && Length2(basis.d) == 1.0 && Length2(basis.u) == 1.0
    requires PythagoreanAt(trig, Slight(DefaultOrbitFactor, slight) * (dx as real) / 2.0)
    requires mode == PitchYaw ==> PythagoreanAt(trig, Slight(DefaultOrbitFactor, slight) * (dy as real) / 2.0)
    requires PythagoreanAt(trig, 0.0)
    ensures Moved(s, mode, trig, basis, dx, dy, slight, widgetHeight).Some?
    ensures Length2(Offset(Moved(s, mode, trig, basis, dx, dy, slight, widgetHeight).value)) == Length2(Offset(s))
  {
    if mode == PitchYaw {
      OrbitKeepsDistance(s, trig, basis, dx as real, dy as real, 0.0, DefaultOrbitFactor, slight);
    } else {
      OrbitKeepsDistance(s, trig, basis, 0.0, 0.0, dx as real, DefaultOrbitFactor, slight);
    }
  }

  // ---------------------------------------------------------------- widget

  /** The scene view's input state and the controller of its camera. */
  class SceneView {
    const controller: CameraController3D
    var cameraUpdateMode: UpdateMode
    var mouseInitialPos: Option<Point>
    var times: seq<real>
    /** Every frame time ever recorded, oldest first. */
    ghost var frameHistory: seq<real>
    /** How many times the tracer's accumulated samples have been reset. */
    var tracerResets: nat

    /** The frame-time ring holds exactly the most recent frame times. */
    ghost predicate Valid()
      reads this
    {
      times == LastN(frameHistory, MaxFrameTimes)
    }

    constructor (camera: Camera)
      ensures Valid()
      ensures controller.camera == camera
      ensures cameraUpdateMode == NoUpdate && mouseInitialPos == None
      ensures times == [] && tracerResets == 0
    {
      controller := new CameraController3D(camera);
      cameraUpdateMode := NoUpdate;
      mouseInitialPos := None;
      times := [];
      frameHistory := [];
      tracerResets := 0;
    }

    /** Record the time of a painted frame. */
    method Paint(now: real)
      requires Valid()
      modifies this
      ensures Valid()
      ensures frameHistory == old(frameHistory) + [now]
      ensures times == DequeAppend(old(times), now, MaxFrameTimes)
      ensures |times| <= MaxFrameTimes && times[|times| - 1] == now
      ensures cameraUpdateMode == old(cameraUpdateMode) && mouseInitialPos == old(mouseInitialPos)
      ensures tracerResets == old(tracerResets)
    {
      DequeAppendLastN(frameHistory, now, MaxFrameTimes);
      times := DequeAppend(times, now, MaxFrameTimes);
      frameHistory := frameHistory + [now];
    }

    /** A press records the position and picks the drag mode from the button. */
    method MousePress(button: MouseButton, pos: Point)
      modifies this
      ensures mouseInitialPos == Some(pos)
      ensures cameraUpdateMode == PressMode(old(cameraUpdateMode), button)
      ensures times == old(times) && frameHistory == old(frameHistory) && tracerResets == old(tracerResets)
    {
      mouseInitialPos := Some(pos);
      if button == LeftButton {
        cameraUpdateMode := PitchYaw;
      } else if button == RightButton {
        cameraUpdateMode := Roll;
      } else if button == MiddleButton {
        cameraUpdateMode := PanMode;
      }
    }

    /** A release ends any drag; `accept()` is called on the event only when
        one was in progress. */
    method MouseRelease() returns (acceptCalled: bool)
      modifies this
      ensures cameraUpdateMode == NoUpdate
      ensures acceptCalled <==> old(cameraUpdateMode) != NoUpdate
      ensures mouseInitialPos == old(mouseInitialPos)
      ensures times == old(times) && frameHistory == old(frameHistory) && tracerResets == old(tracerResets)
    {
      acceptCalled := false;
      if cameraUpdateMode != NoUpdate {
        cameraUpdateMode := NoUpdate;
        acceptCalled := true;
      }
    }

    /** A move to `pos` drives the camera by the distance moved since the
        last recorded position, according to the drag mode, then resets the
        tracer.  `widgetHeight` is the widget's height in pixels. */
    method MouseMove(trig: Trig, basis: Basis, pos: Point, slight: bool, widgetHeight: int)
      returns (error: Option<MoveError>)
      modifies this, controller.camera
      ensures old(mouseInitialPos) == None ==>
        error == Some(NoInitialPosition) && mouseInitialPos == None &&
        controller.camera.State() == old(controller.camera.State()) && tracerResets == old(tracerResets)
      ensures old(mouseInitialPos) != None ==>
        var start := old(mouseInitialPos).value;
        var moved := Moved(old(controller.camera.State()), old(cameraUpdateMode), trig, basis,
                           pos.x - start.x, pos.y - start.y, slight, widgetHeight);
        mouseInitialPos == Some(pos) &&
        (moved.None? ==>
           (error == Some(ZeroHeight) &&
            controller.camera.State() == old(controller.camera.State()) && tracerResets == old(tracerResets))) &&
        (moved.Some? ==>
           (error == None && controller.camera.State() == moved.value && tracerResets == old(tracerResets) + 1))
      ensures cameraUpdateMode == old(cameraUpdateMode)
      ensures times == old(times) && frameHistory == old(frameHistory)
    {
      if mouseInitialPos == None {
        return Some(NoInitialPosition);
      }
      var dx := pos.x - mouseInitialPos.value.x;
      var dy := pos.y - mouseInitialPos.value.y;
      mouseInitialPos := Some(pos);

      if cameraUpdateMode == PitchYaw {
        controller.Orbit(trig, basis, dx as real, dy as real, 0.0, DefaultOrbitFactor, slight);
      } else if cameraUpdateMode == Roll {
        controller.Orbit(trig, basis, 0.0, 0.0, dx as real, DefaultOrbitFactor, slight);
      } else if cameraUpdateMode == PanMode {
        var h := widgetHeight;
        if h == 0 {
          return Some(ZeroHeight);
        }
        controller.Pan(basis, -(dx as real) / (h as real), (dy as real) / (h as real), slight);
      }

      tracerResets := tracerResets + 1;
      error := None;
    }

    /** A wheel turn zooms by the vertical angle delta, then resets the tracer. */
    method Wheel(angleDeltaY: int, slight: bool)
      modifies this, controller.camera
      ensures controller.camera.State() == Zoomed(old(controller.camera.State()), angleDeltaY as real, slight)
      ensures tracerResets == old(tracerResets) + 1
      ensures cameraUpdateMode == old(cameraUpdateMode) && mouseInitialPos == old(mouseInitialPos)
      ensures times == old(times) && frameHistory == old(frameHistory)
    {
      controller.Zoom(angleDeltaY as real, slight);
      tracerResets := tracerResets + 1;
    }
  }
}
