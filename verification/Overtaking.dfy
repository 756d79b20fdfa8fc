/** How far list and board go on agreeing when coloured blocks overtake falling ice: as long as there are
    not more of them than freed cells below the ice. */
module Overtaking {
  import opened Geometry
  import opened Connectivity
  import opened BlockStates
  import opened Matching
  import opened Falling
  import opened FallSpeed
  import opened Settling
  import opened Smoothness

  // ---------------------------------------------------------------- who can come to rest first

  /** What can come to rest in its column before block `k`: everything listed before it, and if it is ice
      every coloured block. */
  ghost function Ahead(s: FallState, k: int): set<int>
    requires 0 <= k < |s.bodies|
  {
    set j | 0 <= j < |s.bodies| && InFront(s, j, k)
  }

  ghost predicate InFront(s: FallState, j: int, k: int)
    requires 0 <= j < |s.bodies| && 0 <= k < |s.bodies|
  {
    j != k && s.bodies[j].x == s.bodies[k].x && (j < k || (s.bodies[k].kind == Ice && s.bodies[j].kind != Ice))
  }

  /** No falling block can find its own row taken, with `spare` rows left. */
  ghost predicate RoomBelow(s: FallState, spare: nat) {
    forall k :: 0 <= k < |s.bodies| && s.bodies[k].state == DownMoving ==> |Ahead(s, k)| + spare <= s.bodies[k].y
  }

  // ---------------------------------------------------------------- blocks on one clock

  /** What a unit of acceleration has made in the frames so far: speed, and way. */
  datatype Clock = Clock(speed: real, way: real)

  function After(c: Clock, dt: real): Clock {
    Clock(c.speed + dt, c.way + (c.speed + dt))
  }

  /** A falling block is where its acceleration alone has taken it. */
  ghost predicate OnClock(b: Body, c: Clock) {
    b.state == DownMoving ==>
      && b.registered && 0 <= b.y < BOARD_Y_COUNT
      && b.velocity == Gain(Acceleration(b), c.speed) && b.posY == RowY(b.y) + Gain(Acceleration(b), c.way)
  }

  ghost predicate AllOnClock(s: FallState, n: int, c: Clock, c': Clock) {
    forall i :: 0 <= i < |s.bodies| ==> OnClock(s.bodies[i], if i < n then c' else c)
  }

  /** How deep a falling block may have come into the stack: ice without a spare row twelve pixels. */
  function Depth(b: Body, spare: nat): real {
    if b.kind == Ice && spare == 0 then 12.0 else 1.0
  }

  ghost predicate AboveStack(s: FallState, hs: seq<int>, spare: nat)
    requires |hs| == BOARD_X_COUNT
  {
    forall k :: 0 <= k < |s.bodies| && s.bodies[k].state == DownMoving && 0 <= s.bodies[k].x < BOARD_X_COUNT ==>
      s.bodies[k].posY < RowY(hs[s.bodies[k].x]) + Depth(s.bodies[k], spare)
  }

  /** Only blocks that may be in front of a falling one have come to rest. */
  ghost predicate InTurn(s: FallState) {
    forall j, k ::
      (0 <= j < |s.bodies| && 0 <= k < |s.bodies| && s.bodies[j].state == Stationary && s.bodies[k].state == DownMoving
       && s.bodies[j].x == s.bodies[k].x) ==> InFront(s, j, k)
  }

  /** Falling blocks are listed in the order of the rows they come from. */
  ghost predicate RowsRise(s: FallState) {
    forall i, j :: FallTogether(s, i, j) ==> s.bodies[i].y < s.bodies[j].y
  }

  ghost predicate Wide(s: FallState, hs: seq<int>, n: int, c: Clock, dt: real, spare: nat) {
    && Consistent(s) && WellFormed(s) && Stacked(s, hs) && |hs| == BOARD_X_COUNT
    && AllOnClock(s, n, c, After(c, dt)) && AboveStack(s, hs, spare) && InTurn(s) && RowsRise(s) && RoomBelow(s, spare)
    && 0.0 <= c.speed && 0.0 <= c.way && 0.0 <= dt
  }

  /** From block `n` on nothing moves by more than a cell, and ice without a spare row by at most twenty pixels. */
  ghost predicate WidePaced(s: FallState, n: int, dt: real, spare: nat) {
    forall i :: 0 <= n <= i < |s.bodies| && s.bodies[i].state == DownMoving ==>
      Velocity(s.bodies[i], dt) <= if s.bodies[i].kind == Ice && spare == 0 then 20.0 else SIZE
  }

  lemma {:induction false} OpenWide(s: FallState, hs: seq<int>, n: int, c: Clock, dt: real, spare: nat)
    requires Wide(s, hs, n, c, dt, spare)
    ensures Consistent(s) && WellFormed(s) && Stacked(s, hs) && |hs| == BOARD_X_COUNT
    ensures AllOnClock(s, n, c, After(c, dt)) && AboveStack(s, hs, spare) && InTurn(s) && RowsRise(s) && RoomBelow(s, spare)
    ensures 0.0 <= c.speed && 0.0 <= c.way && 0.0 <= dt
  {
  }

  lemma {:induction false} CloseWide(s: FallState, hs: seq<int>, n: int, c: Clock, dt: real, spare: nat)
    requires Consistent(s) && WellFormed(s) && Stacked(s, hs) && |hs| == BOARD_X_COUNT
    requires AllOnClock(s, n, c, After(c, dt)) && AboveStack(s, hs, spare) && InTurn(s) && RowsRise(s) && RoomBelow(s, spare)
    requires 0.0 <= c.speed && 0.0 <= c.way && 0.0 <= dt
    ensures Wide(s, hs, n, c, dt, spare)
  {
  }

  // ---------------------------------------------------------------- heights

  /** While block `k` falls the stack has not reached its row, and `more` blocks in front of it that fall
      still leave as many rows. */
  lemma {:induction false} StackBelowRow(s: FallState, hs: seq<int>, spare: nat, k: int, more: set<int>)
    requires Consistent(s) && WellFormed(s) && Stacked(s, hs) && InTurn(s) && RoomBelow(s, spare)
    requires 0 <= k < |s.bodies| && s.bodies[k].state == DownMoving
    requires forall j :: j in more ==> 0 <= j < |s.bodies| && s.bodies[j].state == DownMoving && InFront(s, j, k)
    ensures 0 <= s.bodies[k].x < BOARD_X_COUNT == |hs| && 0 <= hs[s.bodies[k].x]
    ensures hs[s.bodies[k].x] + |more| + spare <= s.bodies[k].y < BOARD_Y_COUNT
  {
    ColumnHeights(s, hs);
    var x := s.bodies[k].x;
    HeightCounts(s, hs, x);
    var rest := RestingIn(s, x);
    assert s.bodies[k].y < BOARD_Y_COUNT;
    hide Consistent, WellFormed, Stacked;
    assert rest !! more;
    assert rest + more <= Ahead(s, k);
    CardinalityOrder(rest + more, Ahead(s, k));
  }

  /** Where a block ends up whose move does not take it through the top block of the stack. */
  lemma {:induction false} WideOutcome(s: FallState, hs: seq<int>, n: int, y: real)
    requires Consistent(s) && WellFormed(s) && Stacked(s, hs) && 0 <= n < |s.bodies| && s.bodies[n].state == DownMoving
    requires |hs| == BOARD_X_COUNT && 0 <= s.bodies[n].x < BOARD_X_COUNT && 0 <= hs[s.bodies[n].x] < BOARD_Y_COUNT
    requires y < RowY(hs[s.bodies[n].x]) + 32.0
    ensures
      var h := hs[s.bodies[n].x];
      match Outcome(s, n, s.bodies[n].x, y)
      case Lands(posY) => posY == RowY(h) <= y
      case Falls => y < RowY(h) + 1.0
  {
    hide Consistent, WellFormed, FirstHit, Trunc, RowY, Stacked;
    var x := s.bodies[n].x;
    var h := hs[x];
    RowPixel(h);
    RowPixel(h - 1);
    RowPixel(0);
    TruncBound(y, Pixel(h));
    TruncBound(y, Pixel(h - 1));
    if Trunc(y) <= Pixel(h) {
      NothingHit(s, hs, n, x, y);
    } else if h > 0 {
      TopRowHit(s, hs, n, x, y, h);
      LandsOnTop(s, n, x, y, h);
    } else {
      NothingOnFloor(s, hs, n, x, y);
    }
  }

  // ---------------------------------------------------------------- two blocks of a column

  /** `i` is below `j` in the list and does not accelerate less. */
  lemma {:induction false} LowerIsAhead(s: FallState, i: int, j: int, way: real)
    requires WellFormed(s) && RowsRise(s) && FallTogether(s, i, j) && !InFront(s, j, i) && 0.0 <= way
    ensures RowY(s.bodies[i].y) + Gain(Acceleration(s.bodies[i]), way) >= RowY(s.bodies[j].y) + Gain(Acceleration(s.bodies[j]), way) + SIZE
  {
    hide Gain, RowY, Acceleration;
    assert s.bodies[i].y < s.bodies[j].y;
    LowerAccelerates(s.bodies[i], s.bodies[j]);
    GainOrder(Acceleration(s.bodies[j]), Acceleration(s.bodies[i]), way);
    HigherRowY(s.bodies[i].y, s.bodies[j].y);
  }

  lemma {:induction false} GainOrder(a: real, b: real, t: real)
    requires a <= b && 0.0 <= t
    ensures Gain(a, t) <= Gain(b, t)
  {
    Times(a, b, t);
  }

  lemma {:induction false} LowerAccelerates(a: Body, b: Body)
    requires a.y < b.y < BOARD_Y_COUNT && 0 <= a.y && (a.kind == Ice ==> b.kind == Ice)
    ensures Acceleration(a) >= Acceleration(b)
  {
  }

  lemma {:induction false} HigherRowY(a: int, b: int)
    requires a < b
    ensures RowY(a) >= RowY(b) + SIZE && RowY(a) == RowY(a + 1) + SIZE
  {
  }

  /** While a coloured block is falling, ice has hardly sunk. */
  lemma {:induction false} IceHardlySinks(ice: Body, puyo: Body, c: Clock, dt: real, h: int)
    requires ice.kind == Ice && 1 <= ice.y < BOARD_Y_COUNT && puyo.kind != Ice && 0 <= puyo.y < BOARD_Y_COUNT && 0 <= h
    requires OnClock(puyo, c) && puyo.state == DownMoving && puyo.posY < RowY(h) + 1.0
    requires Gain(Acceleration(puyo), After(c, dt).speed) <= SIZE && 0.0 <= c.way && 0.0 <= c.speed && 0.0 <= dt
    ensures 0.0 <= Gain(Acceleration(ice), After(c, dt).way) < 12.0
  {
    AccelerationBounds(puyo);
    IceAcceleration(ice);
    PuyoWay(puyo, c, h);
    var a, b, w, v := Acceleration(puyo), Acceleration(ice), c.way, c.speed + dt;
    GainMore(a, w, v);
    hide Acceleration, RowY;
    WayBounds(a, b, w + v);
  }

  lemma {:induction false} IceAcceleration(ice: Body)
    requires ice.kind == Ice && 1 <= ice.y < BOARD_Y_COUNT
    ensures 0.1 <= Acceleration(ice) <= 1.2
  {
  }

  lemma {:induction false} PuyoWay(puyo: Body, c: Clock, h: int)
    requires puyo.kind != Ice && 0 <= puyo.y < BOARD_Y_COUNT && 0 <= h
    requires OnClock(puyo, c) && puyo.state == DownMoving && puyo.posY < RowY(h) + 1.0
    ensures Gain(Acceleration(puyo), c.way) < 373.0
  {
    hide Gain, Acceleration;
  }

  lemma {:induction false} WayBounds(a: real, b: real, way: real)
    requires 51.0 <= a && 0.0 <= b <= 1.2 && 0.0 <= way && Gain(a, way) < 404.0
    ensures 0.0 <= Gain(b, way) < 12.0
  {
    GainOrder(51.0, a, way);
    GainOrder(0.0, b, way);
    GainOrder(b, 1.2, way);
    FixedGains(way);
    hide Gain;
  }

  lemma {:induction false} FixedGains(t: real)
    ensures Gain(51.0, t) == 51.0 * t && Gain(1.2, t) == 1.2 * t && Gain(0.0, t) == 0.0
  {
  }

  // ---------------------------------------------------------------- one update

  lemma {:induction false} ClockAt(s: FallState, n: int, c: Clock, c': Clock, k: int)
    requires AllOnClock(s, n, c, c') && 0 <= k < |s.bodies|
    ensures OnClock(s.bodies[k], if k < n then c' else c)
  {
  }

  lemma {:induction false} ClockIs(b: Body, c: Clock)
    requires OnClock(b, c) && b.state == DownMoving
    ensures b.registered && 0 <= b.y < BOARD_Y_COUNT
    ensures b.velocity == Gain(Acceleration(b), c.speed) && b.posY == RowY(b.y) + Gain(Acceleration(b), c.way)
  {
  }

  /** What an update does to the speed and the place of a falling block. */
  lemma {:induction false} NextOnClock(b: Body, c: Clock, dt: real)
    requires OnClock(b, c) && b.state == DownMoving
    ensures Velocity(b, dt) == Gain(Acceleration(b), After(c, dt).speed)
    ensures b.posY + Velocity(b, dt) == RowY(b.y) + Gain(Acceleration(b), After(c, dt).way)
    ensures OnClock(b.(posY := b.posY + Velocity(b, dt), velocity := Velocity(b, dt)), After(c, dt))
  {
    VelocityIs(b, dt);
    GainMore(Acceleration(b), c.speed, dt);
    GainMore(Acceleration(b), c.way, c.speed + dt);
    SameFall(b, b.(posY := b.posY + Velocity(b, dt), velocity := Velocity(b, dt)));
    hide Acceleration, Velocity, Gain, RowY;
  }

  /** Kinds and columns are as they were. */
  ghost predicate SameShape(s: FallState, s': FallState) {
    |s.bodies| == |s'.bodies| && forall i :: 0 <= i < |s.bodies| ==> s'.bodies[i].kind == s.bodies[i].kind && s'.bodies[i].x == s.bodies[i].x
  }

  lemma {:induction false} SameAhead(s: FallState, s': FallState, k: int)
    requires SameShape(s, s') && 0 <= k < |s.bodies|
    ensures Ahead(s', k) == Ahead(s, k)
  {
  }

  /** What has not landed is as it was, in kind, column and row. */
  lemma {:induction false} ShapeKeeps(s: FallState, s': FallState, spare: nat)
    requires SameShape(s, s') && RoomBelow(s, spare) && RowsRise(s)
    requires forall i :: 0 <= i < |s.bodies| && s'.bodies[i].state == DownMoving ==> s.bodies[i].state == DownMoving && s'.bodies[i].y == s.bodies[i].y
    ensures RoomBelow(s', spare) && RowsRise(s')
  {
    forall k | 0 <= k < |s'.bodies| && s'.bodies[k].state == DownMoving
      ensures |Ahead(s', k)| + spare <= s'.bodies[k].y
    {
      SameAhead(s, s', k);
    }
    forall i, j | FallTogether(s', i, j)
      ensures s'.bodies[i].y < s'.bodies[j].y
    {
      assert FallTogether(s, i, j);
    }
    hide Ahead;
  }

  lemma {:induction false} StillWide(s: FallState, hs: seq<int>, n: int, c: Clock, dt: real, spare: nat)
    requires Wide(s, hs, n, c, dt, spare) && WidePaced(s, n, dt, spare) && 0 <= n < |s.bodies| && s.bodies[n].state != DownMoving
    ensures Wide(s, hs, n + 1, c, dt, spare) && WidePaced(s, n + 1, dt, spare)
  {
    hide Consistent, WellFormed, Stacked, AboveStack, InTurn, RowsRise, RoomBelow, Velocity, Acceleration, Gain, RowY;
  }

  // a block that falls on

  lemma {:induction false} FlownWide(s: FallState, hs: seq<int>, n: int, c: Clock, dt: real, spare: nat)
    requires Wide(s, hs, n, c, dt, spare) && WidePaced(s, n, dt, spare) && 0 <= n < |s.bodies| && s.bodies[n].state == DownMoving
    requires 0 <= s.bodies[n].x < BOARD_X_COUNT == |hs| && s.bodies[n].posY + Velocity(s.bodies[n], dt) < RowY(hs[s.bodies[n].x]) + 1.0
    ensures Wide(Flown(s, n, dt), hs, n + 1, c, dt, spare) && WidePaced(Flown(s, n, dt), n + 1, dt, spare)
  {
    hide *;
    OpenWide(s, hs, n, c, dt, spare);
    FlownOnlyMoved(s, n, dt);
    var s' := Flown(s, n, dt);
    ClockAt(s, n, c, After(c, dt), n);
    NextOnClock(s.bodies[n], c, dt);
    MovedShape(s, n, s');
    MovedConsistent(s, n, s');
    MovedWide(s, hs, n, s', c, dt, spare);
    FlownIs(s, n, dt);
    MovedClock(s, n, s', c, After(c, dt));
    MovedPaced(s, n, s', dt, spare);
    ShapeKeeps(s, s', spare);
    CloseWide(s', hs, n + 1, c, dt, spare);
  }

  lemma {:induction false} FlownIs(s: FallState, n: int, dt: real)
    requires 0 <= n < |s.bodies|
    ensures |Flown(s, n, dt).bodies| == |s.bodies|
    ensures Flown(s, n, dt).bodies[n] == s.bodies[n].(posY := s.bodies[n].posY + Velocity(s.bodies[n], dt), velocity := Velocity(s.bodies[n], dt))
  {
    hide Velocity;
  }

  lemma {:induction false} MovedShape(s: FallState, n: int, s': FallState)
    requires OnlyMoved(s, n, s') && s'.bodies[n].kind == s.bodies[n].kind
    ensures SameShape(s, s')
    ensures forall i :: 0 <= i < |s.bodies| && s'.bodies[i].state == DownMoving ==> s.bodies[i].state == DownMoving && s'.bodies[i].y == s.bodies[i].y
  {
  }

  lemma {:induction false} MovedWide(s: FallState, hs: seq<int>, n: int, s': FallState, c: Clock, dt: real, spare: nat)
    requires OnlyMoved(s, n, s') && s'.bodies[n].kind == s.bodies[n].kind && WellFormed(s) && Stacked(s, hs) && InTurn(s)
    requires |hs| == BOARD_X_COUNT && AboveStack(s, hs, spare) && 0 <= s.bodies[n].x < BOARD_X_COUNT
    requires s'.bodies[n].posY < RowY(hs[s.bodies[n].x]) + 1.0
    ensures WellFormed(s') && Stacked(s', hs) && InTurn(s') && AboveStack(s', hs, spare)
  {
    hide RowY;
  }

  lemma {:induction false} MovedClock(s: FallState, n: int, s': FallState, c: Clock, c': Clock)
    requires OnlyMoved(s, n, s') && AllOnClock(s, n, c, c') && OnClock(s'.bodies[n], c')
    ensures AllOnClock(s', n + 1, c, c')
  {
    hide OnClock;
  }

  lemma {:induction false} MovedPaced(s: FallState, n: int, s': FallState, dt: real, spare: nat)
    requires OnlyMoved(s, n, s') && WidePaced(s, n, dt, spare)
    ensures WidePaced(s', n + 1, dt, spare)
  {
    hide Velocity;
  }

  // a block that lands

  /** Nothing lands before its turn. */
  lemma {:induction false} LandsInTurn(s: FallState, hs: seq<int>, n: int, c: Clock, dt: real, spare: nat, k: int)
    requires Wide(s, hs, n, c, dt, spare) && 0 <= n < |s.bodies| && s.bodies[n].state == DownMoving
    requires 0 <= k < |s.bodies| && k != n && s.bodies[k].state == DownMoving && s.bodies[k].x == s.bodies[n].x
    requires 0 <= s.bodies[n].x < BOARD_X_COUNT == |hs| && RowY(hs[s.bodies[n].x]) <= s.bodies[n].posY + Velocity(s.bodies[n], dt)
    ensures InFront(s, n, k)
  {
    hide Acceleration, RowY, Velocity, Gain, Consistent, Stacked, RoomBelow, InTurn;
    if !InFront(s, n, k) {
      assert FallTogether(s, k, n);
      ClockAt(s, n, c, After(c, dt), n);
      ClockAt(s, n, c, After(c, dt), k);
      NextOnClock(s.bodies[n], c, dt);
      LowerIsAhead(s, k, n, After(c, dt).way);
      assert false;
    }
  }

  /** What goes on falling when block `n` lands is far enough above the new top of the stack. */
  lemma {:induction false} StaysAbove(s: FallState, hs: seq<int>, n: int, c: Clock, dt: real, spare: nat, k: int)
    requires Wide(s, hs, n, c, dt, spare) && WidePaced(s, n, dt, spare) && 0 <= n < |s.bodies| && s.bodies[n].state == DownMoving
    requires 0 <= k < |s.bodies| && k != n && s.bodies[k].state == DownMoving && s.bodies[k].x == s.bodies[n].x
    requires 0 <= s.bodies[n].x < BOARD_X_COUNT == |hs| && RowY(hs[s.bodies[n].x]) <= s.bodies[n].posY + Velocity(s.bodies[n], dt)
    ensures s.bodies[k].posY < RowY(hs[s.bodies[n].x] + 1) + Depth(s.bodies[k], spare)
  {
    hide *;
    LandsInTurn(s, hs, n, c, dt, spare, k);
    TurnIs(s, n, k);
    if n < k {
      LaterStaysAbove(s, hs, n, c, dt, spare, k);
    } else {
      IceStaysAbove(s, hs, n, c, dt, spare, k);
    }
  }

  lemma {:induction false} TurnIs(s: FallState, j: int, k: int)
    requires 0 <= j < |s.bodies| && 0 <= k < |s.bodies|
    ensures InFront(s, j, k) <==> j != k && s.bodies[j].x == s.bodies[k].x && (j < k || (s.bodies[k].kind == Ice && s.bodies[j].kind != Ice))
  {
  }

  lemma {:induction false} AboveAt(s: FallState, hs: seq<int>, spare: nat, k: int)
    requires |hs| == BOARD_X_COUNT && AboveStack(s, hs, spare) && 0 <= k < |s.bodies| && s.bodies[k].state == DownMoving
    requires 0 <= s.bodies[k].x < BOARD_X_COUNT
    ensures s.bodies[k].posY < RowY(hs[s.bodies[k].x]) + Depth(s.bodies[k], spare)
    ensures Depth(s.bodies[k], spare) == if s.bodies[k].kind == Ice && spare == 0 then 12.0 else 1.0
  {
    hide RowY;
  }

  lemma {:induction false} PacedAt(s: FallState, n: int, dt: real, spare: nat, k: int)
    requires WidePaced(s, n, dt, spare) && 0 <= n <= k < |s.bodies| && s.bodies[k].state == DownMoving
    ensures Velocity(s.bodies[k], dt) <= SIZE == 31.0
    ensures s.bodies[k].kind == Ice && spare == 0 ==> Velocity(s.bodies[k], dt) <= 20.0
  {
    hide Velocity;
  }

  /** The two blocks of a pair that may not be swapped: the one after in the list stays above. */
  lemma {:induction false} LaterStaysAbove(s: FallState, hs: seq<int>, n: int, c: Clock, dt: real, spare: nat, k: int)
    requires Wide(s, hs, n, c, dt, spare) && WidePaced(s, n, dt, spare) && 0 <= n < k < |s.bodies|
    requires s.bodies[n].state == DownMoving && s.bodies[k].state == DownMoving && s.bodies[k].x == s.bodies[n].x
    requires 0 <= s.bodies[n].x < BOARD_X_COUNT == |hs| && RowY(hs[s.bodies[n].x]) <= s.bodies[n].posY + Velocity(s.bodies[n], dt)
    ensures s.bodies[k].posY < RowY(hs[s.bodies[n].x] + 1) + Depth(s.bodies[k], spare)
  {
    hide *;
    OpenWide(s, hs, n, c, dt, spare);
    var h := hs[s.bodies[n].x];
    HigherRowY(h, h + 1);
    ClockAt(s, n, c, After(c, dt), n);
    ClockAt(s, n, c, After(c, dt), k);
    ClockIs(s.bodies[n], c);
    ClockIs(s.bodies[k], c);
    AboveAt(s, hs, spare, n);
    AboveAt(s, hs, spare, k);
    Together(s, n, k);
    TurnIs(s, k, n);
    if InFront(s, k, n) {
      IceLandsLast(s, hs, n, c, dt, spare, k);
    } else {
      LowerIsAhead(s, n, k, c.way);
    }
  }

  lemma {:induction false} Together(s: FallState, i: int, j: int)
    ensures FallTogether(s, i, j) <==>
      0 <= i < j < |s.bodies| && s.bodies[i].x == s.bodies[j].x && s.bodies[i].state == DownMoving && s.bodies[j].state == DownMoving
  {
  }

  /** Ice does not land while a coloured block above it is still falling. */
  lemma {:induction false} IceLandsLast(s: FallState, hs: seq<int>, n: int, c: Clock, dt: real, spare: nat, k: int)
    requires Wide(s, hs, n, c, dt, spare) && WidePaced(s, n, dt, spare) && 0 <= n < k < |s.bodies|
    requires s.bodies[n].state == DownMoving && s.bodies[k].state == DownMoving && s.bodies[k].x == s.bodies[n].x
    requires s.bodies[n].kind == Ice && s.bodies[k].kind != Ice
    requires 0 <= s.bodies[n].x < BOARD_X_COUNT == |hs|
    ensures s.bodies[n].posY + Velocity(s.bodies[n], dt) < RowY(hs[s.bodies[n].x])
  {
    hide *;
    OpenWide(s, hs, n, c, dt, spare);
    var h := hs[s.bodies[n].x];
    TurnIs(s, k, n);
    StackBelowRow(s, hs, spare, n, {k});
    ClockAt(s, n, c, After(c, dt), n);
    ClockAt(s, n, c, After(c, dt), k);
    NextOnClock(s.bodies[n], c, dt);
    NextOnClock(s.bodies[k], c, dt);
    AboveAt(s, hs, spare, k);
    PacedAt(s, n, dt, spare, k);
    ClockIs(s.bodies[k], c);
    IceHardlySinks(s.bodies[n], s.bodies[k], c, dt, h);
    HigherRowY(h, s.bodies[n].y);
  }

  /** Ice that a coloured block has overtaken and that now lands below it. */
  lemma {:induction false} IceStaysAbove(s: FallState, hs: seq<int>, n: int, c: Clock, dt: real, spare: nat, k: int)
    requires Wide(s, hs, n, c, dt, spare) && WidePaced(s, n, dt, spare) && 0 <= k < n < |s.bodies| && s.bodies[n].state == DownMoving
    requires s.bodies[k].state == DownMoving && s.bodies[k].x == s.bodies[n].x && s.bodies[k].kind == Ice && s.bodies[n].kind != Ice
    requires 0 <= s.bodies[n].x < BOARD_X_COUNT == |hs|
    ensures s.bodies[k].posY < RowY(hs[s.bodies[n].x] + 1) + Depth(s.bodies[k], spare)
  {
    hide *;
    OpenWide(s, hs, n, c, dt, spare);
    var h := hs[s.bodies[n].x];
    TurnIs(s, n, k);
    StackBelowRow(s, hs, spare, k, {n});
    ClockAt(s, n, c, After(c, dt), n);
    ClockAt(s, n, c, After(c, dt), k);
    NextOnClock(s.bodies[n], c, dt);
    ClockIs(s.bodies[k], After(c, dt));
    ClockIs(s.bodies[n], c);
    AboveAt(s, hs, spare, n);
    AboveAt(s, hs, spare, k);
    PacedAt(s, n, dt, spare, n);
    IceHardlySinks(s.bodies[k], s.bodies[n], c, dt, h);
    if h + 1 < s.bodies[k].y {
      HigherRowY(h + 1, s.bodies[k].y);
    }
  }

  /** The landing cell is free: no block that falls on comes from it. */
  lemma {:induction false} WideCellFree(s: FallState, hs: seq<int>, n: int, c: Clock, dt: real, spare: nat)
    requires Wide(s, hs, n, c, dt, spare) && 0 <= n < |s.bodies| && s.bodies[n].state == DownMoving
    requires 0 <= s.bodies[n].x < BOARD_X_COUNT == |hs| && RowY(hs[s.bodies[n].x]) <= s.bodies[n].posY + Velocity(s.bodies[n], dt)
    ensures var d := Cell(s.bodies[n].x, hs[s.bodies[n].x]); d in s.cells ==> s.cells[d] == n
  {
    hide *;
    OpenWide(s, hs, n, c, dt, spare);
    var x, h := s.bodies[n].x, hs[s.bodies[n].x];
    var d := Cell(x, h);
    if d in s.cells && s.cells[d] != n {
      var k := s.cells[d];
      OwnerAt(s, hs, d);
      LandsInTurn(s, hs, n, c, dt, spare, k);
      StackBelowRow(s, hs, spare, k, {n});
      assert false;
    }
  }

  /** A cell just above the stack can only belong to a falling block. */
  lemma {:induction false} OwnerAt(s: FallState, hs: seq<int>, d: Cell)
    requires Consistent(s) && WellFormed(s) && Stacked(s, hs) && |hs| == BOARD_X_COUNT && d in s.cells && 0 <= d.x < BOARD_X_COUNT && d.y == hs[d.x]
    ensures 0 <= s.cells[d] < |s.bodies| && s.bodies[s.cells[d]].state == DownMoving
    ensures s.bodies[s.cells[d]].x == d.x && s.bodies[s.cells[d]].y == d.y
  {
    hide RowY;
  }

  lemma {:induction false} LandedWide(s: FallState, hs: seq<int>, n: int, c: Clock, dt: real, spare: nat)
    requires Wide(s, hs, n, c, dt, spare) && WidePaced(s, n, dt, spare) && 0 <= n < |s.bodies| && s.bodies[n].state == DownMoving
    requires 0 <= s.bodies[n].x < BOARD_X_COUNT == |hs| && RowY(hs[s.bodies[n].x]) <= s.bodies[n].posY + Velocity(s.bodies[n], dt)
    ensures
      var x, h := s.bodies[n].x, hs[s.bodies[n].x];
      Wide(Landed(s, n, h), hs[x := h + 1], n + 1, c, dt, spare) && WidePaced(Landed(s, n, h), n + 1, dt, spare)
  {
    hide *;
    OpenWide(s, hs, n, c, dt, spare);
    ColumnHeights(s, hs);
    var x, h := s.bodies[n].x, hs[s.bodies[n].x];
    var s', hs' := Landed(s, n, h), hs[x := h + 1];
    StackBelowRow(s, hs, spare, n, {});
    WideCellFree(s, hs, n, c, dt, spare);
    LandedAtIs(s, n, h);
    LandedConsistent(s, n, h, s');
    LandedWellFormed(s, n, h, s');
    WideStacked(s, hs, n, s');
    forall k | 0 <= k < |s.bodies| && k != n && s.bodies[k].state == DownMoving && s.bodies[k].x == x
      ensures InFront(s, n, k) && s.bodies[k].posY < RowY(h + 1) + Depth(s.bodies[k], spare)
    {
      LandsInTurn(s, hs, n, c, dt, spare, k);
      StaysAbove(s, hs, n, c, dt, spare, k);
    }
    LandedShape(s, n, h, s');
    LandedTurn(s, n, h, s');
    LandedAbove(s, hs, n, s', spare);
    LandedClock(s, n, h, s', c, After(c, dt));
    LandedPace(s, n, h, s', dt, spare);
    ShapeKeeps(s, s', spare);
    CloseWide(s', hs', n + 1, c, dt, spare);
  }

  lemma {:induction false} LandedShape(s: FallState, n: int, h: int, s': FallState)
    requires OnlyLanded(s, n, h, s')
    ensures SameShape(s, s')
    ensures forall i :: 0 <= i < |s.bodies| && s'.bodies[i].state == DownMoving ==> s.bodies[i].state == DownMoving && s'.bodies[i].y == s.bodies[i].y
  {
    hide RowY;
  }

  lemma {:induction false} WideStacked(s: FallState, hs: seq<int>, n: int, s': FallState)
    requires Stacked(s, hs) && |hs| == BOARD_X_COUNT && 0 <= n < |s.bodies| && s.bodies[n].state == DownMoving
    requires 0 <= s.bodies[n].x < BOARD_X_COUNT && hs[s.bodies[n].x] <= s.bodies[n].y < BOARD_Y_COUNT
    requires OnlyLanded(s, n, hs[s.bodies[n].x], s')
    ensures Stacked(s', hs[s.bodies[n].x := hs[s.bodies[n].x] + 1])
  {
    var hs' := hs[s.bodies[n].x := hs[s.bodies[n].x] + 1];
    hide RowY;
    forall c: Cell | 0 <= c.x < BOARD_X_COUNT && 0 <= c.y < hs'[c.x]
      ensures c in s'.cells && 0 <= s'.cells[c] < |s'.bodies| && s'.bodies[s'.cells[c]].state == Stationary
    {
      LandedCell(s, hs, n, s', c);
    }
    LandedHeights(s, hs, n, s');
  }

  lemma {:induction false} LandedTurn(s: FallState, n: int, h: int, s': FallState)
    requires OnlyLanded(s, n, h, s') && InTurn(s)
    requires forall k :: 0 <= k < |s.bodies| && k != n && s.bodies[k].state == DownMoving && s.bodies[k].x == s.bodies[n].x ==> InFront(s, n, k)
    ensures InTurn(s')
  {
    hide RowY;
    forall j, k | 0 <= j < |s'.bodies| && 0 <= k < |s'.bodies| && s'.bodies[j].state == Stationary && s'.bodies[k].state == DownMoving
                  && s'.bodies[j].x == s'.bodies[k].x
      ensures InFront(s', j, k)
    {
      assert InFront(s, j, k);
    }
  }

  lemma {:induction false} LandedAbove(s: FallState, hs: seq<int>, n: int, s': FallState, spare: nat)
    requires |hs| == BOARD_X_COUNT && AboveStack(s, hs, spare) && 0 <= n < |s.bodies| && 0 <= s.bodies[n].x < BOARD_X_COUNT
    requires OnlyLanded(s, n, hs[s.bodies[n].x], s')
    requires forall k :: 0 <= k < |s.bodies| && k != n && s.bodies[k].state == DownMoving && s.bodies[k].x == s.bodies[n].x ==>
      s.bodies[k].posY < RowY(hs[s.bodies[n].x] + 1) + Depth(s.bodies[k], spare)
    ensures AboveStack(s', hs[s.bodies[n].x := hs[s.bodies[n].x] + 1], spare)
  {
    hide RowY, Depth;
  }

  lemma {:induction false} LandedClock(s: FallState, n: int, h: int, s': FallState, c: Clock, c': Clock)
    requires OnlyLanded(s, n, h, s') && AllOnClock(s, n, c, c')
    ensures AllOnClock(s', n + 1, c, c')
  {
    hide RowY, Gain, Acceleration;
  }

  lemma {:induction false} LandedPace(s: FallState, n: int, h: int, s': FallState, dt: real, spare: nat)
    requires OnlyLanded(s, n, h, s') && WidePaced(s, n, dt, spare)
    ensures WidePaced(s', n + 1, dt, spare)
  {
    hide Velocity, RowY;
  }

  // ---------------------------------------------------------------- frames and runs

  /** One update of the next block in the list. */
  lemma {:induction false} WideStep(s: FallState, hs: seq<int>, n: int, c: Clock, dt: real, spare: nat) returns (hs': seq<int>)
    requires Wide(s, hs, n, c, dt, spare) && WidePaced(s, n, dt, spare) && 0 <= n < |s.bodies|
    ensures Wide(StepBody(s, n, dt), hs', n + 1, c, dt, spare) && WidePaced(StepBody(s, n, dt), n + 1, dt, spare)
    ensures |StepBody(s, n, dt).bodies| == |s.bodies|
  {
    hide *;
    FrameUnfold(s, n, dt);
    StepLength(s, n, dt);
    if s.bodies[n].state != DownMoving {
      StillWide(s, hs, n, c, dt, spare);
      hs' := hs;
    } else {
      OpenWide(s, hs, n, c, dt, spare);
      StackBelowRow(s, hs, spare, n, {});
      BoardRows();
      AboveAt(s, hs, spare, n);
      PacedAt(s, n, dt, spare, n);
      var b, h := s.bodies[n], hs[s.bodies[n].x];
      var y := b.posY + Velocity(b, dt);
      WideOutcome(s, hs, n, y);
      StepFrom(s, n, dt, h);
      match Outcome(s, n, b.x, y) {
        case Lands(_) =>
          LandedWide(s, hs, n, c, dt, spare);
          hs' := hs[b.x := h + 1];
        case Falls =>
          FlownWide(s, hs, n, c, dt, spare);
          hs' := hs;
      }
    }
  }

  lemma {:induction false} StepLength(s: FallState, n: int, dt: real)
    requires 0 <= n < |s.bodies|
    ensures |StepBody(s, n, dt).bodies| == |s.bodies|
  {
    hide Outcome, Velocity, LandingRow;
  }

  lemma {:induction false} BoardRows()
    ensures BOARD_Y_COUNT == 13 && BOARD_X_COUNT == 6 && SIZE == 31.0
  {
  }

  lemma {:induction false} WideFrame(s: FallState, hs: seq<int>, n: nat, c: Clock, dt: real, spare: nat) returns (hs': seq<int>)
    requires n <= |s.bodies| && Wide(s, hs, n, c, dt, spare) && WidePaced(s, n, dt, spare)
    ensures Wide(Frame(s, n, dt), hs', |s.bodies|, c, dt, spare)
    decreases |s.bodies| - n
  {
    hide *;
    if n == |s.bodies| {
      FrameDone(s, dt);
      hs' := hs;
    } else {
      FrameUnfold(s, n, dt);
      StepLength(s, n, dt);
      var hs1 := WideStep(s, hs, n, c, dt, spare);
      hs' := WideFrame(StepBody(s, n, dt), hs1, n + 1, c, dt, spare);
    }
  }

  /** A finished frame is the start of the next one, on the clock that has gone on. */
  lemma {:induction false} WideNext(s: FallState, hs: seq<int>, c: Clock, dt: real, dt': real, spare: nat)
    requires Wide(s, hs, |s.bodies|, c, dt, spare) && 0.0 <= dt'
    ensures Wide(s, hs, 0, After(c, dt), dt', spare)
  {
    hide Consistent, WellFormed, Stacked, AboveStack, InTurn, RowsRise, RoomBelow, OnClock;
  }

  /** No frame of the run moves anything too far. */
  ghost predicate WidePacedRun(s: FallState, dts: seq<real>, spare: nat)
    decreases |dts|
  {
    dts != [] ==> dts[0] >= 0.0 && WidePaced(s, 0, dts[0], spare) && WidePacedRun(Frame(s, 0, dts[0]), dts[1..], spare)
  }

  lemma {:induction false} WideRun(s: FallState, hs: seq<int>, dts: seq<real>, c: Clock, spare: nat) returns (hs': seq<int>, c': Clock)
    requires Wide(s, hs, 0, c, 0.0, spare) && WidePacedRun(s, dts, spare)
    ensures Wide(Run(s, dts), hs', 0, c', 0.0, spare)
    decreases |dts|
  {
    hide *;
    if dts == [] {
      NoFrames(s);
      hs', c' := hs, c;
    } else {
      var dt := dts[0];
      OpenWideRun(s, dts, spare);
      WideAnyTime(s, hs, c, dt, spare);
      var hs1 := WideFrame(s, hs, 0, c, dt, spare);
      FrameSize(s, dt);
      WideNext(Frame(s, 0, dt), hs1, c, dt, 0.0, spare);
      hs', c' := WideRun(Frame(s, 0, dt), hs1, dts[1..], After(c, dt), spare);
    }
  }

  lemma {:induction false} FrameSize(s: FallState, dt: real)
    ensures |Frame(s, 0, dt).bodies| == |s.bodies|
  {
  }

  lemma {:induction false} OpenWideRun(s: FallState, dts: seq<real>, spare: nat)
    requires WidePacedRun(s, dts, spare) && dts != []
    ensures dts[0] >= 0.0 && WidePaced(s, 0, dts[0], spare) && WidePacedRun(Frame(s, 0, dts[0]), dts[1..], spare)
    ensures Run(s, dts) == Run(Frame(s, 0, dts[0]), dts[1..])
  {
    hide Frame, WidePaced;
  }

  lemma {:induction false} WideAnyTime(s: FallState, hs: seq<int>, c: Clock, dt: real, spare: nat)
    requires Wide(s, hs, 0, c, 0.0, spare) && 0.0 <= dt
    ensures Wide(s, hs, 0, c, dt, spare)
  {
    hide Consistent, WellFormed, Stacked, AboveStack, InTurn, RowsRise, RoomBelow, OnClock;
  }

  // ---------------------------------------------------------------- list and board agree

  /** List and board agree, and what rests fills every column from the floor. */
  ghost predicate Agrees(s: FallState) {
    Consistent(s) && exists hs :: Stacked(s, hs)
  }

  lemma {:induction false} WideAgrees(s: FallState, hs: seq<int>, c: Clock, spare: nat)
    requires Wide(s, hs, 0, c, 0.0, spare)
    ensures Agrees(s)
  {
    OpenWide(s, hs, 0, c, 0.0, spare);
    hide Wide, Consistent, Stacked;
  }

  lemma {:induction false} WideStarts(s: FallState, spare: nat)
    requires AboutToFall(s) && RoomBelow(s, spare)
    ensures Wide(s, Heights(s), 0, Clock(0.0, 0.0), 0.0, spare)
  {
    StartStacked(s);
    StartOrdered(s);
    StartAirborne(s);
    hide Heights, Climb, Stacked, RoomBelow;
    StartAbove(s, Heights(s), spare);
    StartClock(s);
    StartTurn(s);
    hide AboutToFall, AboveStack, AllOnClock, InTurn, RowsRise;
    CloseStart(s);
    CloseWide(s, Heights(s), 0, Clock(0.0, 0.0), 0.0, spare);
  }

  lemma {:induction false} CloseStart(s: FallState)
    requires AboutToFall(s)
    ensures Consistent(s) && WellFormed(s)
  {
    hide Consistent, WellFormed;
  }

  lemma {:induction false} StartAbove(s: FallState, hs: seq<int>, spare: nat)
    requires AboutToFall(s) && |hs| == BOARD_X_COUNT && Airborne(s, hs) && forall x :: 0 <= x < BOARD_X_COUNT ==> hs[x] <= BOARD_Y_COUNT
    ensures AboveStack(s, hs, spare)
  {
    hide Consistent;
    forall k | 0 <= k < |s.bodies| && s.bodies[k].state == DownMoving && 0 <= s.bodies[k].x < BOARD_X_COUNT
      ensures s.bodies[k].posY < RowY(hs[s.bodies[k].x]) + Depth(s.bodies[k], spare)
    {
      assert s.bodies[k].y >= hs[s.bodies[k].x];
    }
  }

  lemma {:induction false} StartClock(s: FallState)
    requires AboutToFall(s)
    ensures AllOnClock(s, 0, Clock(0.0, 0.0), After(Clock(0.0, 0.0), 0.0))
  {
    hide Consistent, RowY, Acceleration, Gain, Stacked;
    forall i | 0 <= i < |s.bodies|
      ensures OnClock(s.bodies[i], Clock(0.0, 0.0))
    {
      NoTime(Acceleration(s.bodies[i]));
    }
    hide OnClock;
  }

  lemma {:induction false} StartTurn(s: FallState)
    requires AboutToFall(s) && Ordered(s)
    ensures InTurn(s) && RowsRise(s)
  {
    hide Consistent, RowY;
  }

  lemma {:induction false} SpareIsPaced(s: FallState, dts: seq<real>, spare: nat)
    requires PacedRun(s, dts) && spare > 0
    ensures WidePacedRun(s, dts, spare)
    decreases |dts|
  {
    hide Frame, Velocity;
    if dts != [] { SpareIsPaced(Frame(s, 0, dts[0]), dts[1..], spare); }
  }

  /** A fall from rest in which no block can find its own row taken: list and board agree after every run, if
      no frame moves anything by more than a cell and ice without a spare row not by more than twenty pixels. */
  lemma {:induction false} BoardAgrees(s: FallState, dts: seq<real>, spare: nat)
    requires AboutToFall(s) && RoomBelow(s, spare) && WidePacedRun(s, dts, spare)
    ensures Agrees(Run(s, dts))
  {
    hide *;
    WideStarts(s, spare);
    var hs', c' := WideRun(s, Heights(s), dts, Clock(0.0, 0.0), spare);
    WideAgrees(Run(s, dts), hs', c', spare);
  }

  /** With a spare row for all falling ice, any run without a step over a cell will do. */
  lemma {:induction false} BoardAgreesWithSpare(s: FallState, dts: seq<real>)
    requires AboutToFall(s) && RoomBelow(s, 1) && PacedRun(s, dts)
    ensures Agrees(Run(s, dts))
  {
    hide *;
    SpareIsPaced(s, dts, 1);
    BoardAgrees(s, dts, 1);
  }

  // ---------------------------------------------------------------- short frames

  /** Falling ice is slow in short frames, however deep it has come. */
  lemma {:induction false} IceIsSlow(b: Body, t: real, dt: real, h: int)
    requires Driven(b, t) && b.state == DownMoving && b.kind == Ice && b.registered && 0.0 <= dt <= SHORT
    requires 0 <= h < BOARD_Y_COUNT && b.posY < RowY(h) + 12.0
    ensures Velocity(b, dt) <= 20.0 && Gain(Acceleration(b), t) <= 20.0
  {
    NextIceIsSlow(b, t, dt, h);
    NextIceIsSlow(b, t, 0.0, h);
    VelocityIs(b, 0.0);
    hide Acceleration, Velocity, RowY, StartY, Square, Earned;
    NoTime(Acceleration(b));
  }

  lemma {:induction false} NoTime(a: real)
    ensures Gain(a, 0.0) == 0.0
  {
  }

  lemma {:induction false} NextIceIsSlow(b: Body, t: real, dt: real, h: int)
    requires Driven(b, t) && b.state == DownMoving && b.kind == Ice && b.registered && 0.0 <= dt <= SHORT
    requires 0 <= h < BOARD_Y_COUNT && b.posY < RowY(h) + 12.0
    ensures Velocity(b, dt) <= 20.0
  {
    AccelerationBounds(b);
    VelocityIs(b, dt);
    DeepWay(b, h);
    var way := b.posY - StartY(b);
    hide RowY, Acceleration, Velocity, StartY, Gain, Square, Earned;
    SpeedForWay(Acceleration(b), b.velocity, dt, way);
    SlowSquare(b.velocity + Gain(Acceleration(b), dt), Acceleration(b), way);
  }

  lemma {:induction false} DeepWay(b: Body, h: int)
    requires 0 <= b.y < BOARD_Y_COUNT && 0 <= h && b.registered && b.posY < RowY(h) + 12.0
    ensures b.posY - StartY(b) < 384.0
  {
  }

  lemma {:induction false} SlowSquare(v: real, a: real, way: real)
    requires 0.0 <= v && 0.0 < a <= 1.3 && way < 384.0 && Square(v) <= Earned(a, way + v)
    ensures v <= 20.0
  {
    var k := SHORT * a;
    Bounded(k, 0.026, way + v, 384.0 + v);
    if v > 20.0 {
      Times(20.0, v, v);
    }
  }

  lemma {:induction false} ShortIsWidePaced(s: FallState, hs: seq<int>, c: Clock, t: real, dt: real)
    requires Wide(s, hs, 0, c, 0.0, 0) && AllDriven(s, 0, t, t) && 0.0 <= dt <= SHORT
    ensures WidePaced(s, 0, dt, 0) && Paced(s, 0, dt)
    ensures t >= 310.0 ==> AllRest(s)
  {
    hide *;
    OpenWide(s, hs, 0, c, 0.0, 0);
    BoardRows();
    forall i | 0 <= i < |s.bodies| && s.bodies[i].state == DownMoving
      ensures Velocity(s.bodies[i], dt) <= (if s.bodies[i].kind == Ice then 20.0 else SIZE) && t < 310.0
    {
      StackBelowRow(s, hs, 0, i, {});
      ClockAt(s, 0, c, After(c, 0.0), i);
      ClockIs(s.bodies[i], c);
      AboveAt(s, hs, 0, i);
      DrivenAt(s, t, i);
      if s.bodies[i].kind == Ice {
        IceIsSlow(s.bodies[i], t, dt, hs[s.bodies[i].x]);
      } else {
        DrivenIsSlow(s.bodies[i], t, dt, hs[s.bodies[i].x]);
      }
      SoonOver(s.bodies[i], t);
    }
    ClosePace(s, dt);
    if t >= 310.0 { NoneFalls(s); }
  }

  lemma {:induction false} DrivenAt(s: FallState, t: real, i: int)
    requires AllDriven(s, 0, t, t) && 0 <= i < |s.bodies| && s.bodies[i].state == DownMoving
    ensures Driven(s.bodies[i], t) && 0.0 <= t
  {
    hide Gain, Square, Earned, Acceleration, StartY;
  }

  lemma {:induction false} ClosePace(s: FallState, dt: real)
    requires forall i :: 0 <= i < |s.bodies| && s.bodies[i].state == DownMoving ==>
      Velocity(s.bodies[i], dt) <= if s.bodies[i].kind == Ice then 20.0 else SIZE
    ensures WidePaced(s, 0, dt, 0) && Paced(s, 0, dt)
  {
    hide Velocity;
  }

  lemma {:induction false} NoneFalls(s: FallState)
    requires WellFormed(s) && forall i :: 0 <= i < |s.bodies| ==> s.bodies[i].state != DownMoving
    ensures AllRest(s)
  {
    hide RowY;
  }

  lemma {:induction false} ShortWideRun(s: FallState, hs: seq<int>, dts: seq<real>, c: Clock, t: real) returns (hs': seq<int>, c': Clock)
    requires Wide(s, hs, 0, c, 0.0, 0) && AllDriven(s, 0, t, t) && AllShort(dts)
    ensures PacedRun(s, dts) && Wide(Run(s, dts), hs', 0, c', 0.0, 0)
    ensures t + Total(dts) >= 310.0 ==> AllRest(Run(s, dts))
    decreases |dts|
  {
    hide *;
    ZeroIsShort();
    if dts == [] {
      NoFrames(s);
      ShortIsWidePaced(s, hs, c, t, 0.0);
      hs', c' := hs, c;
    } else {
      var dt := dts[0];
      FirstFrame(s, dts);
      ShortIsWidePaced(s, hs, c, t, dt);
      WideAnyTime(s, hs, c, dt, 0);
      var hs1 := WideFrame(s, hs, 0, c, dt, 0);
      FrameSize(s, dt);
      WideNext(Frame(s, 0, dt), hs1, c, dt, 0.0, 0);
      NextDriven(s, t, dt);
      hs', c' := ShortWideRun(Frame(s, 0, dt), hs1, dts[1..], After(c, dt), t + dt);
    }
  }

  lemma {:induction false} ZeroIsShort()
    ensures 0.0 <= SHORT
  {
  }

  /** In short frames list and board agree whenever no falling block can find its own row taken, and after 310
      units of time everything rests in packed columns. */
  lemma {:induction false} ShortBoardAgrees(s: FallState, dts: seq<real>)
    requires AboutToFall(s) && RoomBelow(s, 0) && AllShort(dts)
    ensures PacedRun(s, dts) && Agrees(Run(s, dts)) && (Total(dts) >= 310.0 ==> AllRest(Run(s, dts)))
  {
    hide *;
    WideStarts(s, 0);
    StartsDriven(s);
    var hs', c' := ShortWideRun(s, Heights(s), dts, Clock(0.0, 0.0), 0.0);
    WideAgrees(Run(s, dts), hs', c', 0);
  }

  lemma {:induction false} StartsDriven(s: FallState)
    requires AboutToFall(s)
    ensures AllDriven(s, 0, 0.0, 0.0)
  {
    hide Consistent, RowY, Driven;
    forall i | 0 <= i < |s.bodies|
      ensures Driven(s.bodies[i], 0.0)
    {
      StartDriven(s.bodies[i]);
    }
  }
}
