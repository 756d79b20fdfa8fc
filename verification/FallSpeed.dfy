/** How fast blocks fall: short frames never move anything by more than a cell, and every fall ends. */
module FallSpeed {
  import opened Geometry
  import opened Connectivity
  import opened BlockStates
  import opened Falling

  /** A frame of at most a fiftieth of a unit of time is a short one. */
  const SHORT := 0.02

  predicate AllShort(dts: seq<real>) {
    forall k :: 0 <= k < |dts| ==> 0.0 <= dts[k] <= SHORT
  }

  /** Where a falling block has started from: its own row, or the place above the board where new
      ice is made. */
  function StartY(b: Body): real {
    RowY(if b.registered then b.y else BOARD_Y_COUNT - 1 + b.y)
  }

  function Square(v: real): real {
    v * v
  }

  function Gain(a: real, t: real): real {
    a * t
  }

  /** What a block of acceleration `a` can have made of its way in short frames. */
  function Earned(a: real, way: real): real {
    2.0 * ((SHORT * a) * way)
  }

  /** A block that has been falling from rest for the time `t` in short frames: it is at least as fast
      as its acceleration has made it, and no faster than the way it has come allows. */
  ghost predicate Driven(b: Body, t: real) {
    b.state == DownMoving ==>
      && 0 <= b.y < BOARD_Y_COUNT && 0.0 <= t && 0.0 <= b.velocity && Gain(Acceleration(b), t) <= b.velocity
      && Square(b.velocity) <= Earned(Acceleration(b), b.posY - StartY(b))
  }

  /** The first `n` blocks have already moved in this frame. */
  ghost predicate AllDriven(s: FallState, n: int, t: real, t': real) {
    forall i :: 0 <= i < |s.bodies| ==> Driven(s.bodies[i], if i < n then t' else t)
  }

  lemma {:induction false} AccelerationBounds(b: Body)
    requires 0 <= b.y < BOARD_Y_COUNT
    ensures b.kind == Ice ==> 0.1 <= Acceleration(b) <= 1.3
    ensures b.kind != Ice ==> 51.0 <= Acceleration(b) <= 63.0
    ensures b.kind != Ice && b.y >= 7 ==> Acceleration(b) <= 56.0
  {
  }

  lemma {:induction false} Times(a: real, b: real, t: real)
    requires a <= b && 0.0 <= t
    ensures a * t <= b * t && t * a <= t * b
  {
  }

  lemma {:induction false} SpeedWay(k: real, g: real, v: real, way: real)
    requires 0.0 <= g <= k && 0.0 <= v && v * v <= 2.0 * (k * way)
    ensures (v + g) * (v + g) <= 2.0 * (k * (way + (v + g)))
  {
    Times(g, k, v);
    Times(g, k, g);
    assert (v + g) * (v + g) == v * v + 2.0 * (g * v) + g * g;
    assert k * (way + (v + g)) == k * way + k * v + k * g;
    assert 0.0 <= k * g;
  }

  /** The speed gained in a short frame is paid for by the way that the frame adds. */
  lemma {:induction false} SpeedForWay(a: real, v: real, dt: real, way: real)
    requires 0.0 <= a && 0.0 <= dt <= SHORT && 0.0 <= v && Square(v) <= Earned(a, way)
    ensures 0.0 <= Gain(a, dt) && Square(v + Gain(a, dt)) <= Earned(a, way + (v + Gain(a, dt)))
  {
    Times(0.0, a, dt);
    Times(dt, SHORT, a);
    SpeedWay(SHORT * a, a * dt, v, way);
  }

  lemma {:induction false} GainMore(a: real, t: real, dt: real)
    ensures Gain(a, t + dt) == Gain(a, t) + Gain(a, dt)
  {
  }

  lemma {:induction false} VelocityIs(b: Body, dt: real)
    ensures Velocity(b, dt) == b.velocity + Gain(Acceleration(b), dt)
  {
  }

  lemma {:induction false} SameFall(b: Body, c: Body)
    requires b.kind == c.kind && b.y == c.y && b.registered == c.registered
    ensures Acceleration(c) == Acceleration(b) && StartY(c) == StartY(b)
  {
  }

  /** A block that falls on stays driven. */
  lemma {:induction false} DrivenOn(b: Body, t: real, dt: real)
    requires Driven(b, t) && b.state == DownMoving && 0.0 <= dt <= SHORT
    ensures Driven(b.(posY := b.posY + Velocity(b, dt), velocity := Velocity(b, dt)), t + dt)
  {
    AccelerationBounds(b);
    VelocityIs(b, dt);
    var c := b.(posY := b.posY + Velocity(b, dt), velocity := Velocity(b, dt));
    SameFall(b, c);
    hide Acceleration, Velocity, StartY, Gain, Square, Earned;
    SpeedForWay(Acceleration(b), b.velocity, dt, b.posY - StartY(b));
    GainMore(Acceleration(b), t, dt);
    assert c.posY - StartY(c) == b.posY - StartY(b) + (b.velocity + Gain(Acceleration(b), dt));
  }

  lemma {:induction false} DrivenStep(s: FallState, n: int, t: real, dt: real)
    requires 0 <= n < |s.bodies| && AllDriven(s, n, t, t + dt) && 0.0 <= dt <= SHORT
    ensures |StepBody(s, n, dt).bodies| == |s.bodies| && AllDriven(StepBody(s, n, dt), n + 1, t, t + dt)
  {
    var b, s' := s.bodies[n], StepBody(s, n, dt);
    if b.state == DownMoving { DrivenOn(b, t, dt); }
    assert Driven(s'.bodies[n], t + dt) by {
      hide Driven, Outcome, Velocity, LandingRow;
      if s'.bodies[n].state != DownMoving { NotFalling(s'.bodies[n], t + dt); }
    }
    hide Driven, Outcome, Velocity, LandingRow;
  }

  lemma {:induction false} NotFalling(b: Body, t: real)
    requires b.state != DownMoving
    ensures Driven(b, t)
  {
  }

  lemma {:induction false} DrivenFrame(s: FallState, n: nat, t: real, dt: real)
    requires n <= |s.bodies| && AllDriven(s, n, t, t + dt) && 0.0 <= dt <= SHORT
    ensures AllDriven(Frame(s, n, dt), |s.bodies|, t, t + dt)
    decreases |s.bodies| - n
  {
    hide AllDriven, StepBody;
    if n < |s.bodies| {
      DrivenStep(s, n, t, dt);
      DrivenFrame(StepBody(s, n, dt), n + 1, t, dt);
    }
  }

  // ---------------------------------------------------------------- short frames are slow enough

  /** How far a block can have come while its column still has a free row. */
  lemma {:induction false} WayBound(b: Body, h: int)
    requires 0 <= b.y < BOARD_Y_COUNT && 0 <= h < BOARD_Y_COUNT && b.posY < RowY(h) + 1.0 && (b.kind != Ice ==> b.registered)
    ensures b.posY - StartY(b) < 31.0 * (if b.kind != Ice then b.y else BOARD_Y_COUNT - 1 + b.y) as real + 1.0
  {
  }

  lemma {:induction false} Bounded(k: real, k': real, w: real, w': real)
    requires 0.0 <= k <= k' && w <= w' && 0.0 <= w'
    ensures k * w <= k' * w'
  {
    Times(w, w', k);
    Times(k, k', w');
  }

  /** Such a way does not earn the speed of a cell a frame. */
  lemma {:induction false} WayIsShort(b: Body, way: real)
    requires 0 <= b.y < BOARD_Y_COUNT && way < 31.0 * (if b.kind != Ice then b.y else BOARD_Y_COUNT - 1 + b.y) as real + 1.0
    ensures Earned(Acceleration(b), way + SIZE) < SIZE * SIZE && 0.0 < Acceleration(b) <= 63.0
  {
    AccelerationBounds(b);
    var k := SHORT * Acceleration(b);
    hide Acceleration;
    if b.kind == Ice {
      Bounded(k, 0.026, way + SIZE, 776.0);
    } else if b.y >= 7 {
      Bounded(k, 1.12, way + SIZE, 404.0);
    } else {
      Bounded(k, 1.26, way + SIZE, 218.0);
    }
  }

  lemma {:induction false} SquareBelow(v: real, a: real, way: real)
    requires 0.0 <= v && 0.0 < a <= 63.0 && Square(v) <= Earned(a, way + v) && Earned(a, way + SIZE) < SIZE * SIZE
    ensures v < SIZE
  {
    var k, d := SHORT * a, v - SIZE;
    assert k * (way + v) == k * (way + SIZE) + k * d;
    assert v * v == SIZE * SIZE + 2.0 * SIZE * d + d * d;
    if d >= 0.0 {
      Times(k, 1.26, d);
      Times(0.0, d, d);
    }
  }

  /** A driven block moves by less than a cell in the next short frame, and is slower than that now. */
  lemma {:induction false} DrivenIsSlow(b: Body, t: real, dt: real, h: int)
    requires Driven(b, t) && b.state == DownMoving && 0.0 <= dt <= SHORT && 0 <= h < BOARD_Y_COUNT
    requires b.posY < RowY(h) + 1.0 && (b.kind != Ice ==> b.registered)
    ensures Velocity(b, dt) < SIZE && Gain(Acceleration(b), t) < SIZE
  {
    AccelerationBounds(b);
    VelocityIs(b, dt);
    WayBound(b, h);
    var way := b.posY - StartY(b);
    WayIsShort(b, way);
    hide RowY, Acceleration, Velocity, StartY, Gain, Square, Earned;
    SpeedForWay(Acceleration(b), b.velocity, dt, way);
    SquareBelow(b.velocity + Gain(Acceleration(b), dt), Acceleration(b), way);
  }

  lemma {:induction false} DrivenIsPaced(s: FallState, hs: seq<int>, t: real, dt: real)
    requires FallInvariant(s, hs, 0, 0.0) && |hs| == BOARD_X_COUNT && Room(s, hs) && AllDriven(s, 0, t, t)
    requires 0.0 <= dt <= SHORT && ColoursRegistered(s)
    ensures Paced(s, 0, dt)
    ensures forall i :: 0 <= i < |s.bodies| && s.bodies[i].state == DownMoving ==> Gain(Acceleration(s.bodies[i]), t) < SIZE
  {
    hide FallInvariant, Room, Driven, Velocity, Acceleration, RowY;
    forall i | 0 <= i < |s.bodies| && s.bodies[i].state == DownMoving
      ensures Velocity(s.bodies[i], dt) <= SIZE && Gain(Acceleration(s.bodies[i]), t) < SIZE
    {
      FreeRow(s, hs, i);
      UnderHeight(s, hs, i);
      DrivenIsSlow(s.bodies[i], t, dt, hs[s.bodies[i].x]);
    }
  }

  lemma {:induction false} FreeRow(s: FallState, hs: seq<int>, i: int)
    requires FallInvariant(s, hs, 0, 0.0) && |hs| == BOARD_X_COUNT && Room(s, hs)
    requires 0 <= i < |s.bodies| && s.bodies[i].state == DownMoving
    ensures 0 <= s.bodies[i].x < BOARD_X_COUNT && hs[s.bodies[i].x] < BOARD_Y_COUNT
  {
    OpenFall(s, hs);
    ColumnHeights(s, hs);
    assert i in FallingIn(s, s.bodies[i].x);
    CardinalityOrder({i}, FallingIn(s, s.bodies[i].x));
    hide RowY, Consistent, WellFormed, Stacked, Ordered, Apart;
  }

  /** Only ice can be on its way to its first cell. */
  ghost predicate ColoursRegistered(s: FallState) {
    forall i :: 0 <= i < |s.bodies| && s.bodies[i].kind != Ice ==> s.bodies[i].registered
  }

  lemma {:induction false} UnderHeight(s: FallState, hs: seq<int>, i: int)
    requires FallInvariant(s, hs, 0, 0.0) && 0 <= i < |s.bodies| && s.bodies[i].state == DownMoving
    requires 0 <= s.bodies[i].x < |hs| == BOARD_X_COUNT && hs[s.bodies[i].x] < BOARD_Y_COUNT
    ensures 0 <= hs[s.bodies[i].x] && s.bodies[i].posY < RowY(hs[s.bodies[i].x]) + 1.0
  {
    OpenFall(s, hs);
    hide RowY, Consistent, WellFormed, Stacked, Ordered, Apart;
  }

  // ---------------------------------------------------------------- every fall ends

  /** After 310 units of time nothing falls any more; coloured blocks have landed long before. */
  lemma {:induction false} FallIsOver(s: FallState, hs: seq<int>, t: real)
    requires FallInvariant(s, hs, 0, 0.0) && |hs| == BOARD_X_COUNT && Room(s, hs) && AllDriven(s, 0, t, t) && ColoursRegistered(s)
    ensures t >= 310.0 ==> AllRest(s)
    ensures 51.0 * t >= SIZE ==> forall i :: 0 <= i < |s.bodies| && s.bodies[i].kind != Ice ==> s.bodies[i].state == Stationary
  {
    DrivenIsPaced(s, hs, t, 0.0);
    OpenFall(s, hs);
    hide FallInvariant, Room, Gain, Square, Earned, StartY, Acceleration, RowY, Stacked, Consistent, Ordered, Airborne, Apart, Paced;
    forall i | 0 <= i < |s.bodies| && s.bodies[i].state == DownMoving
      ensures t < 310.0 && (s.bodies[i].kind != Ice ==> 51.0 * t < SIZE)
    {
      assert Driven(s.bodies[i], t);
      SoonOver(s.bodies[i], t);
    }
  }

  lemma {:induction false} SoonOver(b: Body, t: real)
    requires 0 <= b.y < BOARD_Y_COUNT && 0.0 <= t && Gain(Acceleration(b), t) < SIZE
    ensures t < 310.0 && (b.kind != Ice ==> 51.0 * t < SIZE)
  {
    AccelerationBounds(b);
    hide Acceleration, Gain;
    if b.kind == Ice {
      GainAtLeast(0.1, Acceleration(b), t);
    } else {
      GainAtLeast(51.0, Acceleration(b), t);
    }
  }

  lemma {:induction false} GainAtLeast(low: real, a: real, t: real)
    requires low <= a && 0.0 <= t && Gain(a, t) < SIZE
    ensures low * t < SIZE
  {
    Times(low, a, t);
  }

  /** A fall from rest in short frames: no frame moves anything by more than a cell, and it ends. */
  lemma {:induction false} ShortFallEnds(s: FallState, hs: seq<int>, dts: seq<real>, t: real) returns (hs': seq<int>)
    requires FallInvariant(s, hs, 0, 0.0) && |hs| == BOARD_X_COUNT && NoPuyoOverIce(s) && Room(s, hs)
    requires AllDriven(s, 0, t, t) && ColoursRegistered(s) && AllShort(dts)
    ensures PacedRun(s, dts) && FallInvariant(Run(s, dts), hs', 0, 0.0) && AllMoved(s, Run(s, dts))
    ensures t + Total(dts) >= 310.0 ==> AllRest(Run(s, dts))
    decreases |dts|
  {
    hide *;
    if dts == [] {
      NoFrames(s);
      FallIsOver(s, hs, t);
      hs' := hs;
      AllMovedRefl(s);
    } else {
      var dt := dts[0];
      FirstFrame(s, dts);
      DrivenIsPaced(s, hs, t, dt);
      OrderPreserving(s, hs, 0, 0.0);
      FallInvariantAnyTime(s, hs, dt);
      CloseFrame(s, hs, 0, dt);
      var s1 := Frame(s, 0, dt);
      var hs1 := FrameKeeps(s, hs, 0, dt);
      OpenFrame(s1, hs1, |s.bodies|, dt);
      NextFrame(s1, hs1, dt, 0.0);
      OrderPreserving(s1, hs1, 0, 0.0);
      NextDriven(s, t, dt);
      StillColours(s, s1);
      hs' := ShortFallEnds(s1, hs1, dts[1..], t + dt);
      AllMovedTrans(s, s1, Run(s1, dts[1..]));
    }
  }

  lemma {:induction false} NoFrames(s: FallState)
    ensures Run(s, []) == s && PacedRun(s, []) && Total([]) == 0.0
  {
  }

  lemma {:induction false} FirstFrame(s: FallState, dts: seq<real>)
    requires dts != [] && AllShort(dts)
    ensures 0.0 <= dts[0] <= SHORT && AllShort(dts[1..]) && Total(dts) == dts[0] + Total(dts[1..])
    ensures Run(s, dts) == Run(Frame(s, 0, dts[0]), dts[1..])
    ensures PacedRun(s, dts) <==> Paced(s, 0, dts[0]) && PacedRun(Frame(s, 0, dts[0]), dts[1..])
  {
    TotalFirst(dts);
    hide Frame, Paced, Total;
  }

  lemma {:induction false} NextDriven(s: FallState, t: real, dt: real)
    requires AllDriven(s, 0, t, t) && 0.0 <= dt <= SHORT
    ensures AllDriven(Frame(s, 0, dt), 0, t + dt, t + dt)
  {
    hide Driven, Frame;
    DrivenFrame(s, 0, t, dt);
    assert |Frame(s, 0, dt).bodies| == |s.bodies|;
  }

  lemma {:induction false} StillColours(s: FallState, s': FallState)
    requires AllMoved(s, s') && ColoursRegistered(s)
    ensures ColoursRegistered(s')
  {
    forall i | 0 <= i < |s'.bodies| && s'.bodies[i].kind != Ice
      ensures s'.bodies[i].registered
    {
      assert Moved(s.bodies[i], s'.bodies[i]);
    }
  }

  /** What has not moved yet is driven. */
  lemma {:induction false} StartDriven(b: Body)
    requires 0 <= b.y < BOARD_Y_COUNT && b.velocity == 0.0 && b.posY == StartY(b)
    ensures Driven(b, 0.0)
  {
    hide Acceleration, StartY;
  }
}
