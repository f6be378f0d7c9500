/**
 * The `Mandachord` component: the disc's rotation, the current-note marker's
 * rotation, the drag gesture that turns the disc while playback is paused,
 * the fit-to-container scale, and the window listeners it registers.
 * Angles, timestamps, pointer positions and sizes are exact reals.
 */
module Component {
  import opened Wrappers

  const VirtualW: real := 500.0
  const VirtualH: real := 400.0
  const NumSteps: nat := 64

  /** Degrees the disc turns per 100 ms of playback. */
  const DegreesPer100Ms: real := 4.5

  /** Degrees the disc turns per pixel of horizontal drag. */
  const DragSpeed: real := 0.1

  // ---------------------------------------------------------------------------
  // Window listeners

  datatype EventName = Resize | MouseUp | TouchEnd | MouseMove | TouchMove

  /**
   * The functions handed to `addEventListener`. Each call of `startDragging`
   * creates a fresh pair of closures, told apart by the number of that call.
   */
  datatype Handler = ResizeHandler | UpHandler(gesture: nat) | MoveHandler(gesture: nat)

  datatype Listener = Listener(event: EventName, handler: Handler)

  const ResizeListener := Listener(Resize, ResizeHandler)

  /** The four registrations made by drag gesture `g`. */
  function DragListeners(g: nat): set<Listener> {
    {Listener(MouseUp, UpHandler(g)), Listener(TouchEnd, UpHandler(g)),
     Listener(MouseMove, MoveHandler(g)), Listener(TouchMove, MoveHandler(g))}
  }

  /** A set of registrations none of which belongs to a drag gesture. */
  predicate NoDragListeners(ls: set<Listener>) {
    forall l | l in ls :: l == ResizeListener
  }

  /**
   * A move event the window delivers. A `MouseEvent` carries `screenX`; a
   * `TouchEvent` has no such property, so reading it gives `undefined`.
   */
  datatype MoveEvent = MouseMoveAt(x: real) | TouchMoveEvent

  function MoveEventName(e: MoveEvent): EventName {
    if e.MouseMoveAt? then MouseMove else TouchMove
  }

  /** `e.screenX`, with `None` for `undefined`. */
  function ScreenX(e: MoveEvent): Option<real> {
    if e.MouseMoveAt? then Some(e.x) else None
  }

  // ---------------------------------------------------------------------------
  // JavaScript numbers that may have become NaN

  /** A number as the disc's angle holds it: a real, or NaN once `undefined` entered the arithmetic. */
  datatype Number = Num(value: real) | NaN

  /** `a + r`: NaN absorbs every addition. */
  function Plus(a: Number, r: real): (b: Number)
    ensures b.NaN? <==> a.NaN?
    ensures a.Num? ==> b.value - a.value == r
  {
    if a.NaN? then NaN else Num(a.value + r)
  }

  // ---------------------------------------------------------------------------
  // Pure geometry and timing

  /** `Math.min(w / virtualW, h / virtualH)`: the largest scale at which the virtual canvas fits. */
  function FitScale(w: real, h: real): (s: real)
    ensures VirtualW * s <= w && VirtualH * s <= h
    ensures VirtualW * s == w || VirtualH * s == h
  {
    var sw, sh := w / VirtualW, h / VirtualH;
    if sw <= sh then sw else sh
  }

  /** Scaling the container scales the fit, so the aspect ratio is preserved. */
  lemma FitScaleHomogeneous(w: real, h: real, k: real)
    requires k > 0.0
    ensures FitScale(k * w, k * h) == k * FitScale(w, h)
  {
    assert (k * w) / VirtualW == k * (w / VirtualW);
    assert (k * h) / VirtualH == k * (h / VirtualH);
  }

  /** `-1 * (delta / 100) * 4.5`: the turn of one animation frame lasting `delta` ms. */
  function FrameRotation(delta: real): (rot: real)
    ensures delta >= 0.0 ==> rot <= 0.0
    ensures rot * 100.0 == -DegreesPer100Ms * delta
  {
    -1.0 * (delta / 100.0) * DegreesPer100Ms
  }

  /** The last of `x0, xs[0], ..., xs[|xs|-1]`. */
  function Last(x0: real, xs: seq<real>): real {
    if xs == [] then x0 else xs[|xs| - 1]
  }

  /** Sum of the frame rotations of the frames ending at timestamps `ts`, the first starting at `t0`. */
  function FramesRotation(t0: real, ts: seq<real>): real
    decreases |ts|
  {
    if ts == [] then 0.0
    else
      var init := ts[..|ts| - 1];
      FramesRotation(t0, init) + FrameRotation(ts[|ts| - 1] - Last(t0, init))
  }

  /** The turn over many frames depends only on the time elapsed, not on the frame rate. */
  lemma {:induction false} FramesTelescope(t0: real, ts: seq<real>)
    ensures FramesRotation(t0, ts) == FrameRotation(Last(t0, ts) - t0)
    decreases |ts|
  {
    if ts != [] {
      FramesTelescope(t0, ts[..|ts| - 1]);
    }
  }

  /** Sum of the drag rotations of the move events at `xs`, the gesture starting at `x0`. */
  function DragRotation(x0: real, xs: seq<real>): real
    decreases |xs|
  {
    if xs == [] then 0.0
    else
      var init := xs[..|xs| - 1];
      DragRotation(x0, init) + DragSpeed * (xs[|xs| - 1] - Last(x0, init))
  }

  /** A drag turns the disc by 0.1 degree per pixel between where it starts and where it ends. */
  lemma {:induction false} DragTelescopes(x0: real, xs: seq<real>)
    ensures DragRotation(x0, xs) == DragSpeed * (Last(x0, xs) - x0)
    decreases |xs|
  {
    if xs != [] {
      DragTelescopes(x0, xs[..|xs| - 1]);
    }
  }

  /** Where `renderSteps` puts a step: its key, its rotation in degrees and its `pos` prop. */
  datatype StepPlacement = StepPlacement(key: nat, rotation: real, pos: nat)

  /** `renderSteps`: the 64 steps evenly around the full circle, step 0 at 0 degrees. */
  function RenderSteps(): (steps: seq<StepPlacement>)
    ensures |steps| == NumSteps
    ensures forall i :: 0 <= i < NumSteps ==>
      steps[i].key == i && steps[i].pos == i && 0.0 <= steps[i].rotation < 360.0
    ensures steps[0].rotation == 0.0
    ensures forall i :: 0 < i < NumSteps ==>
      steps[i].rotation - steps[i - 1].rotation == 360.0 / NumSteps as real
  {
    seq(NumSteps, i requires 0 <= i < NumSteps => StepPlacement(i, i as real * (360.0 / NumSteps as real), i))
  }

  // ---------------------------------------------------------------------------
  // The component

  class Mandachord {
    var stageWidth: real
    var stageHeight: real
    var stageScale: real
    var stageRot: Number
    var currentNoteRot: real
    var isDragging: bool
    /** The window's registrations that belong to this component. */
    var windowListeners: set<Listener>
    /** The number of the latest `startDragging` that got past its guard. */
    var gesture: nat
    /** The `lastX` captured by that gesture's closures; `None` once a touch move made it `undefined`. */
    var lastX: Option<real>

    /**
     * Besides the resize listener, the window holds the four listeners of the
     * current gesture while a drag is under way, and nothing else.
     */
    ghost predicate Valid()
      reads this
    {
      windowListeners - {ResizeListener} == if isDragging then DragListeners(gesture) else {}
    }

    /** The constructor's initial state. */
    constructor ()
      ensures Valid()
      ensures stageWidth == 0.0 && stageHeight == 0.0 && stageScale == 1.0
      ensures stageRot == Num(0.0) && currentNoteRot == 0.0 && !isDragging
      ensures windowListeners == {}
    {
      stageWidth, stageHeight, stageScale := 0.0, 0.0, 1.0;
      stageRot, currentNoteRot := Num(0.0), 0.0;
      isDragging := false;
      windowListeners := {};
      gesture, lastX := 0, None;
    }

    /** `resizeMandachord`, for a container of `w` by `h` pixels. */
    method ResizeMandachord(w: real, h: real)
      modifies this`stageWidth, this`stageHeight, this`stageScale
      ensures stageWidth == w && stageHeight == h && stageScale == FitScale(w, h)
    {
      var s := FitScale(w, h);
      stageWidth, stageHeight, stageScale := w, h, s;
    }

    /** `componentDidMount`: fit to the container, then listen for window resizes. */
    method ComponentDidMount(w: real, h: real)
      requires Valid()
      modifies this`stageWidth, this`stageHeight, this`stageScale, this`windowListeners
      ensures Valid()
      ensures stageWidth == w && stageHeight == h && stageScale == FitScale(w, h)
      ensures windowListeners == old(windowListeners) + {ResizeListener}
    {
      ResizeMandachord(w, h);
      windowListeners := windowListeners + {ResizeListener};
    }

    /** `componentWillUnmount`: stop listening for window resizes; a drag's listeners stay. */
    method ComponentWillUnmount()
      requires Valid()
      modifies this`windowListeners
      ensures Valid()
      ensures windowListeners == old(windowListeners) - {ResizeListener}
    {
      windowListeners := windowListeners - {ResizeListener};
    }

    /**
     * `onAnimationFrame`: while paused nothing happens; otherwise both angles
     * turn by the frame's rotation and `updatePlaybackTime(delta)` is dispatched,
     * which is returned here.
     */
    method OnAnimationFrame(isPaused: bool, timestamp: real, lastTimestamp: real) returns (dispatched: Option<real>)
      modifies this`stageRot, this`currentNoteRot
      ensures isPaused ==> dispatched == None && stageRot == old(stageRot) && currentNoteRot == old(currentNoteRot)
      ensures !isPaused ==> dispatched == Some(timestamp - lastTimestamp)
      ensures !isPaused ==>
        && stageRot == Plus(old(stageRot), FrameRotation(timestamp - lastTimestamp))
        && currentNoteRot == old(currentNoteRot) + FrameRotation(timestamp - lastTimestamp)
    {
      if isPaused {
        return None;
      }
      var delta := timestamp - lastTimestamp;
      var rot := FrameRotation(delta);
      stageRot, currentNoteRot := Plus(stageRot, rot), currentNoteRot + rot;
      dispatched := Some(delta);
    }

    /**
     * `startDragging` for a mouse press at `screenX`: refused while a drag is
     * under way or playback runs; otherwise a new gesture starts and its four
     * window listeners are registered.
     */
    method StartDragging(isPaused: bool, screenX: real)
      requires Valid()
      modifies this`isDragging, this`windowListeners, this`gesture, this`lastX
      ensures Valid()
      ensures old(isDragging) || !isPaused ==>
        isDragging == old(isDragging) && windowListeners == old(windowListeners)
        && gesture == old(gesture) && lastX == old(lastX)
      ensures !old(isDragging) && isPaused ==>
        && isDragging && gesture == old(gesture) + 1 && lastX == Some(screenX)
        && windowListeners == old(windowListeners) + DragListeners(gesture)
    {
      if isDragging || !isPaused {
        return;
      }
      gesture := gesture + 1;
      lastX := Some(screenX);
      isDragging := true;
      windowListeners := windowListeners + DragListeners(gesture);
    }

    /**
     * `moveListener`: turns the disc by the pointer's move since the last
     * event, then records the new position. A missing coordinate, now or at
     * the last event, makes the turn NaN, and NaN stays in the angle.
     */
    method MoveListener(screenX: Option<real>)
      requires Valid() && isDragging
      modifies this`stageRot, this`lastX
      ensures Valid()
      ensures lastX == screenX
      ensures screenX.Some? && old(lastX).Some? ==>
        stageRot == Plus(old(stageRot), DragSpeed * (screenX.value - old(lastX).value))
      ensures screenX.None? || old(lastX).None? ==> stageRot == NaN
    {
      if screenX.Some? && lastX.Some? {
        var rot := DragSpeed * (screenX.value - lastX.value);
        stageRot := Plus(stageRot, rot);
      } else {
        stageRot := NaN;
      }
      lastX := screenX;
    }

    /** `mouseUpListener`: ends the drag and removes the gesture's four listeners. */
    method MouseUpListener()
      requires Valid() && isDragging
      modifies this`isDragging, this`windowListeners
      ensures Valid() && !isDragging
      ensures windowListeners == old(windowListeners) - DragListeners(gesture)
      ensures NoDragListeners(windowListeners)
    {
      isDragging := false;
      windowListeners := windowListeners - DragListeners(gesture);
      forall l | l in windowListeners ensures l == ResizeListener {
        assert l !in old(windowListeners) - {ResizeListener};
      }
    }

    /** The window delivering a `mousemove` or `touchmove` to whatever listens for it. */
    method DispatchMove(e: MoveEvent)
      requires Valid()
      modifies this`stageRot, this`lastX
      ensures Valid()
      ensures isDragging ==> lastX == ScreenX(e)
      ensures isDragging && e.MouseMoveAt? && old(lastX).Some? ==>
        stageRot == Plus(old(stageRot), DragSpeed * (e.x - old(lastX).value))
      ensures isDragging && (e.TouchMoveEvent? || old(lastX).None?) ==> stageRot == NaN
      ensures !isDragging ==> stageRot == old(stageRot) && lastX == old(lastX)
    {
      var l := Listener(MoveEventName(e), MoveHandler(gesture));
      assert isDragging ==> l in DragListeners(gesture);
      if l in windowListeners {
        assert l in windowListeners - {ResizeListener};
        MoveListener(ScreenX(e));
      }
    }

    /** The window delivering a `mouseup` or `touchend`; a second one finds nothing to do. */
    method DispatchUp(event: EventName)
      requires Valid() && (event == MouseUp || event == TouchEnd)
      modifies this`isDragging, this`windowListeners
      ensures Valid() && !isDragging && NoDragListeners(windowListeners)
      ensures windowListeners == old(windowListeners) - DragListeners(gesture)
    {
      var l := Listener(event, UpHandler(gesture));
      assert isDragging ==> l in DragListeners(gesture);
      if l in windowListeners {
        assert l in windowListeners - {ResizeListener};
        MouseUpListener();
      } else {
        forall l' | l' in windowListeners ensures l' == ResizeListener {
          assert l' !in windowListeners - {ResizeListener};
        }
      }
    }
  }

  /**
   * A whole mouse drag while paused: press at `x0`, move through `xs`,
   * release. The disc turns by 0.1 degree per pixel from `x0` to the last
   * position, the marker does not move, and the window is left with the
   * listeners it had.
   */
  method DragGesture(m: Mandachord, x0: real, xs: seq<real>)
    requires m.Valid() && !m.isDragging
    modifies m`stageRot, m`isDragging, m`windowListeners, m`gesture, m`lastX
    ensures m.Valid() && !m.isDragging
    ensures m.stageRot == Plus(old(m.stageRot), DragSpeed * (Last(x0, xs) - x0))
    ensures m.currentNoteRot == old(m.currentNoteRot)
    ensures m.windowListeners == old(m.windowListeners)
  {
    m.StartDragging(true, x0);
    for k := 0 to |xs|
      invariant m.Valid() && m.isDragging
      invariant m.windowListeners == old(m.windowListeners) + DragListeners(m.gesture)
      invariant m.gesture == old(m.gesture) + 1
      invariant m.lastX == Some(Last(x0, xs[..k]))
      invariant m.stageRot == Plus(old(m.stageRot), DragRotation(x0, xs[..k]))
    {
      assert xs[..k + 1][..k] == xs[..k];
      m.DispatchMove(MouseMoveAt(xs[k]));
    }
    m.DispatchUp(MouseUp);
    assert xs[..|xs|] == xs;
    DragTelescopes(x0, xs);
    assert old(m.windowListeners) !! DragListeners(m.gesture);
  }

  /**
   * A paused drag pressed with the mouse at `x0` whose moves may come from
   * touch: once a touch move arrives, the disc's angle is NaN for good, and
   * the release still removes the gesture's listeners.
   */
  method DragWithMoves(m: Mandachord, x0: real, moves: seq<MoveEvent>)
    requires m.Valid() && !m.isDragging
    modifies m`stageRot, m`isDragging, m`windowListeners, m`gesture, m`lastX
    ensures m.Valid() && !m.isDragging
    ensures (exists k :: 0 <= k < |moves| && moves[k].TouchMoveEvent?) ==> m.stageRot == NaN
    ensures m.windowListeners == old(m.windowListeners)
  {
    m.StartDragging(true, x0);
    for k := 0 to |moves|
      invariant m.Valid() && m.isDragging
      invariant m.windowListeners == old(m.windowListeners) + DragListeners(m.gesture)
      invariant (exists j :: 0 <= j < k && moves[j].TouchMoveEvent?) ==> m.stageRot == NaN
    {
      m.DispatchMove(moves[k]);
    }
    m.DispatchUp(MouseUp);
    assert old(m.windowListeners) !! DragListeners(m.gesture);
  }

  /**
   * Animation frames ending at timestamps `ts`, the first starting at `t0`:
   * while paused nothing turns; while running both angles turn by the
   * rotation of the whole elapsed time.
   */
  method PlayFrames(m: Mandachord, isPaused: bool, t0: real, ts: seq<real>)
    modifies m`stageRot, m`currentNoteRot
    ensures isPaused ==> m.stageRot == old(m.stageRot) && m.currentNoteRot == old(m.currentNoteRot)
    ensures !isPaused ==>
      && m.stageRot == Plus(old(m.stageRot), FrameRotation(Last(t0, ts) - t0))
      && m.currentNoteRot == old(m.currentNoteRot) + FrameRotation(Last(t0, ts) - t0)
  {
    for k := 0 to |ts|
      invariant isPaused ==> m.stageRot == old(m.stageRot) && m.currentNoteRot == old(m.currentNoteRot)
      invariant !isPaused ==>
        && m.stageRot == Plus(old(m.stageRot), FramesRotation(t0, ts[..k]))
        && m.currentNoteRot == old(m.currentNoteRot) + FramesRotation(t0, ts[..k])
    {
      assert ts[..k + 1][..k] == ts[..k];
      var _ := m.OnAnimationFrame(isPaused, ts[k], Last(t0, ts[..k]));
    }
    assert ts[..|ts|] == ts;
    FramesTelescope(t0, ts);
  }
}
