/**
 * The pan controller of the perspective grid: pointer dragging, momentum
 * after release, and wheel panning, all moving one scroll offset.
 *
 * The handlers are specified by functions on a `PanState` value; the class
 * `GridPan` holds the same state in fields and its methods are proved to
 * perform exactly those transitions. One animation frame of momentum is one
 * call of `ApplyMomentum`, and `RunMomentum` runs frames until the momentum
 * loop stops scheduling itself.
 */
module PanController {
  import opened GridGeometry

  /** Share of a pointer movement that becomes scrolling. */
  const DragGain: real := 0.5
  /** Share of a pointer movement that becomes velocity. */
  const VelocityGain: real := 0.1
  /** Velocity kept from one momentum frame to the next. */
  const Friction: real := 0.95
  /** Momentum continues while some velocity component exceeds this. */
  const RestThreshold: real := 0.1
  /** Share of a wheel delta that becomes scrolling. */
  const WheelGain: real := 0.5

  /** The grid's interaction state; `framePending` says a momentum frame is scheduled. */
  datatype PanState = PanState(
    scrollPosition: Point,
    isDragging: bool,
    dragStart: Point,
    velocity: Point,
    framePending: bool)

  /** The state when the grid is first shown. */
  const InitialState: PanState := PanState(Origin, false, Origin, Origin, false)

  function Add(p: Point, q: Point): Point { Point(p.x + q.x, p.y + q.y) }

  function Sub(p: Point, q: Point): Point { Point(p.x - q.x, p.y - q.y) }

  function Scale(k: real, p: Point): Point { Point(k * p.x, k * p.y) }

  /** Some velocity component is still above the rest threshold. */
  predicate IsMoving(v: Point)
  {
    Abs(v.x) > RestThreshold || Abs(v.y) > RestThreshold
  }

  /**
   * A momentum frame is only ever scheduled while the grid is still moving,
   * and never during a drag.
   */
  predicate Valid(s: PanState)
  {
    s.framePending ==> IsMoving(s.velocity) && !s.isDragging
  }

  /** Pointer pressed: start dragging from the pointer, drop all velocity, cancel any momentum frame. */
  function PointerDown(s: PanState, pointer: Point): PanState
  {
    s.(isDragging := true, dragStart := pointer, velocity := Origin, framePending := false)
  }

  /** Pointer moved: while dragging, scroll against half the movement and keep a tenth of it as velocity. */
  function PointerMove(s: PanState, pointer: Point): PanState
  {
    if !s.isDragging then s
    else
      var delta := Sub(pointer, s.dragStart);
      s.(scrollPosition := Sub(s.scrollPosition, Scale(DragGain, delta)),
         dragStart := pointer,
         velocity := Scale(-VelocityGain, delta))
  }

  /** One momentum frame: slow down by the friction, and keep moving only while above the rest threshold. */
  function MomentumStep(s: PanState): PanState
  {
    var v := Scale(Friction, s.velocity);
    if IsMoving(v) then s.(velocity := v, scrollPosition := Add(s.scrollPosition, v), framePending := true)
    else s.(velocity := v, framePending := false)
  }

  /** Pointer released (or left): stop dragging, and run a first momentum frame if the grid was moving. */
  function PointerUp(s: PanState): PanState
  {
    var released := s.(isDragging := false);
    if IsMoving(s.velocity) then MomentumStep(released) else released
  }

  /** Wheel turned: scroll by half the wheel delta, nothing else changes. */
  function Wheel(s: PanState, delta: Point): PanState
  {
    s.(scrollPosition := Add(s.scrollPosition, Scale(WheelGain, delta)))
  }

  /** Every handler keeps a momentum frame scheduled only while the grid is moving. */
  lemma HandlersKeepValid(s: PanState, pointer: Point, delta: Point)
    requires Valid(s)
    ensures Valid(PointerDown(s, pointer)) && Valid(PointerMove(s, pointer))
    ensures Valid(PointerUp(s)) && Valid(Wheel(s, delta))
    ensures !s.isDragging ==> Valid(MomentumStep(s))
  {
  }

  /** A termination measure for momentum: the summed speed, in units of 1/200 pixel per frame. */
  function CoastMeasure(v: Point): (m: nat)
    ensures m as real <= 200.0 * (Abs(v.x) + Abs(v.y)) < m as real + 1.0
  {
    (200.0 * (Abs(v.x) + Abs(v.y))).Floor
  }

  /** While the grid is moving, a frame of friction lowers the measure by at least one. */
  lemma MomentumFrameShrinksMeasure(v: Point)
    requires IsMoving(v)
    ensures CoastMeasure(Scale(Friction, v)) < CoastMeasure(v)
  {
    var w := Scale(Friction, v);
    assert Abs(w.x) == Friction * Abs(v.x) && Abs(w.y) == Friction * Abs(v.y);
    assert 200.0 * (Abs(w.x) + Abs(w.y)) < 200.0 * (Abs(v.x) + Abs(v.y)) - 1.0;
  }

  /**
   * The momentum loop run to its end: frames follow one another until one
   * finds the grid at rest. It always ends, with no frame pending, and when a
   * frame was pending at the start, the final velocity is at rest.
   */
  function Coast(s: PanState): (r: PanState)
    requires Valid(s)
    ensures !r.framePending && Valid(r)
    ensures s.framePending ==> !IsMoving(r.velocity)
    ensures !s.framePending ==> r == s
    ensures r.isDragging == s.isDragging && r.dragStart == s.dragStart
    decreases CoastMeasure(s.velocity)
  {
    if s.framePending then
      MomentumFrameShrinksMeasure(s.velocity);
      Coast(MomentumStep(s))
    else s
  }

  /** How many frames the momentum loop runs before it stops. */
  function CoastFrames(s: PanState): nat
    requires Valid(s)
    decreases CoastMeasure(s.velocity)
  {
    if s.framePending then
      MomentumFrameShrinksMeasure(s.velocity);
      1 + CoastFrames(MomentumStep(s))
    else 0
  }

  /** `r` raised to the `n`th power. */
  function Pow(r: real, n: nat): real
  {
    if n == 0 then 1.0 else r * Pow(r, n - 1)
  }

  /** The momentum loop runs no more frames than its starting measure. */
  lemma {:induction false} CoastFramesBounded(s: PanState)
    requires Valid(s)
    ensures CoastFrames(s) <= CoastMeasure(s.velocity)
    decreases CoastMeasure(s.velocity)
  {
    if s.framePending {
      MomentumFrameShrinksMeasure(s.velocity);
      CoastFramesBounded(MomentumStep(s));
    }
  }

  /** Friction applied once more: f^n * (f * v) == f^(n+1) * v, on both axes. */
  lemma PowStep(n: nat, v: Point)
    ensures Scale(Pow(Friction, n), Scale(Friction, v)) == Scale(Pow(Friction, n + 1), v)
  {
    var p := Pow(Friction, n);
    assert Pow(Friction, n + 1) == Friction * p;
    assert p * (Friction * v.x) == (Friction * p) * v.x;
    assert p * (Friction * v.y) == (Friction * p) * v.y;
  }

  /**
   * After the momentum loop the velocity is the starting velocity times the
   * friction once per frame.
   */
  lemma {:induction false} CoastDecaysGeometrically(s: PanState)
    requires Valid(s)
    ensures Coast(s).velocity == Scale(Pow(Friction, CoastFrames(s)), s.velocity)
    decreases CoastMeasure(s.velocity)
  {
    if s.framePending {
      MomentumFrameShrinksMeasure(s.velocity);
      var next := MomentumStep(s);
      assert next.velocity == Scale(Friction, s.velocity);
      CoastDecaysGeometrically(next);
      var n := CoastFrames(next);
      assert CoastFrames(s) == n + 1 && Coast(s) == Coast(next);
      PowStep(n, s.velocity);
    }
  }

  /** How far one axis coasts with velocity component `v` is bounded by the geometric series: at most 19 |v|, in the direction of `v`. */
  predicate WithinCoastBound(displacement: real, v: real)
  {
    if v >= 0.0 then 0.0 <= displacement <= 19.0 * v else 19.0 * v <= displacement <= 0.0
  }

  /**
   * The momentum loop moves the scroll offset in the direction of the
   * starting velocity, by at most 0.95 / (1 - 0.95) = 19 times it on each axis.
   */
  lemma {:induction false} CoastDistanceBounded(s: PanState)
    requires Valid(s)
    ensures WithinCoastBound(Coast(s).scrollPosition.x - s.scrollPosition.x, s.velocity.x)
    ensures WithinCoastBound(Coast(s).scrollPosition.y - s.scrollPosition.y, s.velocity.y)
    decreases CoastMeasure(s.velocity)
  {
    if s.framePending {
      MomentumFrameShrinksMeasure(s.velocity);
      var next := MomentumStep(s);
      CoastDistanceBounded(next);
    }
  }

  /**
   * Releasing a drag and letting the momentum loop run out moves the scroll
   * offset, from where the drag left it, in the direction of the drag's last
   * velocity and by at most 19 times that velocity on each axis: the first
   * frame run on release plus the frames coasting after it.
   */
  lemma ReleaseDriftBounded(s: PanState)
    requires Valid(s)
    ensures Valid(PointerUp(s))
    ensures var r := Coast(PointerUp(s));
      && !r.isDragging && !r.framePending
      && WithinCoastBound(r.scrollPosition.x - s.scrollPosition.x, s.velocity.x)
      && WithinCoastBound(r.scrollPosition.y - s.scrollPosition.y, s.velocity.y)
  {
    var u := PointerUp(s);
    assert Valid(u);
    CoastDistanceBounded(u);
    if IsMoving(s.velocity) {
      var v1 := Scale(Friction, s.velocity);
      assert u.velocity == v1;
      assert u.scrollPosition == s.scrollPosition || u.scrollPosition == Add(s.scrollPosition, v1);
    }
  }

  /** Pointer movement is ignored unless a drag is in progress. */
  lemma PointerMoveNeedsDrag(s: PanState, pointer: Point)
    requires !s.isDragging
    ensures PointerMove(s, pointer) == s
  {
  }

  /** A drag from (100, 100) to (150, 120) scrolls by (-25, -10) and leaves velocity (-5, -2). */
  lemma DragScenario(s: PanState)
    requires s.isDragging && s.dragStart == Point(100.0, 100.0)
    ensures var r := PointerMove(s, Point(150.0, 120.0));
      && r.scrollPosition == Point(s.scrollPosition.x - 25.0, s.scrollPosition.y - 10.0)
      && r.velocity == Point(-5.0, -2.0)
      && r.dragStart == Point(150.0, 120.0)
  {
  }

  /** The state after a drag through the given pointer positions. */
  function DragThrough(s: PanState, pointers: seq<Point>): PanState
    decreases |pointers|
  {
    if pointers == [] then s else DragThrough(PointerMove(s, pointers[0]), pointers[1..])
  }

  /**
   * However a drag is split into pointer moves, it scrolls by half the
   * distance from its anchor to the last pointer position, against it.
   */
  lemma {:induction false} DragScrollTelescopes(s: PanState, pointers: seq<Point>)
    requires s.isDragging && pointers != []
    ensures var r := DragThrough(s, pointers);
      && r.scrollPosition == Sub(s.scrollPosition, Scale(DragGain, Sub(pointers[|pointers| - 1], s.dragStart)))
      && r.dragStart == pointers[|pointers| - 1]
      && r.isDragging
    decreases |pointers|
  {
    var next := PointerMove(s, pointers[0]);
    if |pointers| > 1 {
      DragScrollTelescopes(next, pointers[1..]);
    }
  }

  /** Pressing and releasing without moving neither pans the grid nor starts momentum. */
  lemma ClickDoesNotPan(s: PanState, pointer: Point)
    ensures var r := PointerUp(PointerDown(s, pointer));
      && r.scrollPosition == s.scrollPosition && !r.isDragging && !r.framePending
      && r.velocity == Origin
  {
  }

  /** Releasing a slow drag stops it with no momentum; releasing a fast one coasts at once. */
  lemma ReleaseStartsMomentumOnlyWhenMoving(s: PanState)
    ensures var r := PointerUp(s);
      && !r.isDragging
      && (!IsMoving(s.velocity) ==> r == s.(isDragging := false))
      && (IsMoving(s.velocity) ==> r.velocity == Scale(Friction, s.velocity))
  {
  }

  /** A wheel delta of (10, 0) scrolls 5 pixels right and changes nothing else. */
  lemma WheelScenario(s: PanState)
    ensures Wheel(s, Point(10.0, 0.0)) == s.(scrollPosition := Point(s.scrollPosition.x + 5.0, s.scrollPosition.y))
  {
  }

  /** Wheel panning and a momentum frame do not interfere: either order gives the same state. */
  lemma WheelCommutesWithMomentum(s: PanState, delta: Point)
    ensures MomentumStep(Wheel(s, delta)) == Wheel(MomentumStep(s), delta)
  {
  }

  /** The grid's pan state, held in fields that the event handlers update in place. */
  class GridPan {
    var scrollPosition: Point
    var isDragging: bool
    var dragStart: Point
    var velocity: Point
    var framePending: bool

    /** The fields as one value. */
    function State(): PanState
      reads this
    {
      PanState(scrollPosition, isDragging, dragStart, velocity, framePending)
    }

    constructor ()
      ensures State() == InitialState
    {
      scrollPosition, isDragging, dragStart, velocity, framePending := Origin, false, Origin, Origin, false;
    }

    method HandlePointerDown(pointer: Point)
      modifies this
      ensures State() == PointerDown(old(State()), pointer)
    {
      isDragging := true;
      dragStart := pointer;
      velocity := Origin;
      framePending := false;
    }

    method HandlePointerMove(pointer: Point)
      modifies this
      ensures State() == PointerMove(old(State()), pointer)
    {
      if !isDragging {
        return;
      }
      var deltaX := pointer.x - dragStart.x;
      var deltaY := pointer.y - dragStart.y;
      scrollPosition := Point(scrollPosition.x - deltaX * DragGain, scrollPosition.y - deltaY * DragGain);
      dragStart := pointer;
      velocity := Point(-deltaX * VelocityGain, -deltaY * VelocityGain);
    }

    /** One momentum frame. */
    method ApplyMomentum()
      modifies this
      ensures State() == MomentumStep(old(State()))
    {
      var newVelocity := Point(velocity.x * Friction, velocity.y * Friction);
      if Abs(newVelocity.x) > RestThreshold || Abs(newVelocity.y) > RestThreshold {
        scrollPosition := Point(scrollPosition.x + newVelocity.x, scrollPosition.y + newVelocity.y);
        framePending := true;
      } else {
        framePending := false;
      }
      velocity := newVelocity;
    }

    method HandlePointerUp()
      modifies this
      ensures State() == PointerUp(old(State()))
    {
      isDragging := false;
      if Abs(velocity.x) > RestThreshold || Abs(velocity.y) > RestThreshold {
        ApplyMomentum();
      }
    }

    method HandleWheel(delta: Point)
      modifies this
      ensures State() == Wheel(old(State()), delta)
    {
      scrollPosition := Point(scrollPosition.x + delta.x * WheelGain, scrollPosition.y + delta.y * WheelGain);
    }

    /** Runs momentum frames until none is scheduled; returns how many ran. */
    method RunMomentum() returns (frames: nat)
      requires Valid(State())
      modifies this
      ensures State() == Coast(old(State()))
      ensures frames == CoastFrames(old(State()))
    {
      frames := 0;
      while framePending
        invariant Valid(State())
        invariant Coast(State()) == Coast(old(State()))
        invariant frames + CoastFrames(State()) == CoastFrames(old(State()))
        decreases CoastMeasure(velocity)
      {
        MomentumFrameShrinksMeasure(velocity);
        ApplyMomentum();
        frames := frames + 1;
      }
    }
  }
}
