/** How blocks fall and land (Block::UpdateDownMoving and IceBlock::UpdateDownMoving),
    on values; pixel positions are exact reals. */
module Falling {
  import opened Geometry
  import opened Connectivity
  import opened BlockStates
  import opened Matching

  const SIZE := 31.0
  const HEIGHT := 372.0

  /** What falling can see of a block; `registered` says that it owns a cell of the board. */
  datatype Body = Body(kind: BlockType, state: BlockState, x: int, y: int, posY: real, velocity: real, registered: bool)

  /** The list of blocks in update order, and the board as indices into that list. */
  datatype FallState = FallState(bodies: seq<Body>, cells: map<Cell, int>)

  /** C++ conversion of a float to an int drops the fraction, towards zero. */
  function Trunc(r: real): int {
    if r >= 0.0 then r.Floor else -((-r).Floor)
  }

  /** The pixel position of a block resting in row `y`. */
  function RowY(y: int): real {
    SIZE * (BOARD_Y_COUNT - 2 - y) as real
  }

  /** Speed gained per unit of time; ice accelerates far slower than coloured blocks. */
  function Acceleration(b: Body): real {
    if b.kind == Ice then (BOARD_Y_COUNT - b.y) as real * 0.1 else (BOARD_Y_COUNT + 50 - b.y) as real
  }

  /** Do the two blocks' rectangles, cut to whole pixels, overlap vertically? */
  predicate Overlaps(a: int, b: int) {
    a < b + 31 && b < a + 31
  }

  predicate Blocks(s: FallState, n: int, c: Cell, y: real) {
    && c in s.cells && s.cells[c] != n && 0 <= s.cells[c] < |s.bodies|
    && s.bodies[s.cells[c]].state == Stationary
    && Overlaps(Trunc(y), Trunc(s.bodies[s.cells[c]].posY))
  }

  /** The first row from `row` upwards whose resting block is hit; 13 when there is none. */
  function FirstHit(s: FallState, n: int, x: int, y: real, row: int): (r: int)
    requires 0 <= row <= BOARD_Y_COUNT
    ensures row <= r <= BOARD_Y_COUNT
    ensures r < BOARD_Y_COUNT ==> Blocks(s, n, Cell(x, r), y)
    ensures forall k :: row <= k < r ==> !Blocks(s, n, Cell(x, k), y)
    decreases BOARD_Y_COUNT - row
  {
    if row == BOARD_Y_COUNT || Blocks(s, n, Cell(x, row), y) then row else FirstHit(s, n, x, y, row + 1)
  }

  function Max(a: int, b: int): int {
    if a > b then a else b
  }

  datatype Landing = Falls | Lands(posY: real)

  /** Where the move to `y` ends: on a block, on the floor, or still in the air. */
  function Outcome(s: FallState, n: int, x: int, y: real): Landing {
    var r := FirstHit(s, n, x, y, 0);
    if r < BOARD_Y_COUNT then
      Lands(Max(Trunc(y), Trunc(s.bodies[s.cells[Cell(x, r)]].posY)) as real - SIZE)
    else if y + SIZE >= HEIGHT then Lands(HEIGHT - SIZE)
    else Falls
  }

  /** The row of a landed block; only ice has its row forced onto the board. */
  function LandingRow(kind: BlockType, posY: real): int {
    var row := BOARD_Y_COUNT - 2 - Trunc(posY / SIZE);
    if kind != Ice then row else if row < 0 then 0 else if row > BOARD_Y_COUNT - 1 then BOARD_Y_COUNT - 1 else row
  }

  function Velocity(b: Body, dt: real): real {
    b.velocity + Acceleration(b) * dt
  }

  /** One update of block `n`. */
  function StepBody(s: FallState, n: int, dt: real): FallState
    requires 0 <= n < |s.bodies|
  {
    var b := s.bodies[n];
    if b.state != DownMoving then s else
    var v := Velocity(b, dt);
    match Outcome(s, n, b.x, b.posY + v)
    case Falls => s.(bodies := s.bodies[n := b.(posY := b.posY + v, velocity := v)])
    case Lands(posY) =>
      LandedAt(s, n, LandingRow(b.kind, posY), posY)
  }

  /** Block `n` at rest in `row`: it has given up the cell it had and owns the new one. */
  function LandedAt(s: FallState, n: int, row: int, posY: real): FallState
    requires 0 <= n < |s.bodies|
  {
    var b := s.bodies[n];
    var left := if b.registered then s.cells - {Cell(b.x, b.y)} else s.cells;
    FallState(s.bodies[n := Body(b.kind, Stationary, b.x, row, posY, 0.0, true)], left[Cell(b.x, row) := n])
  }

  /** One frame: blocks `n`, `n + 1`, ... are updated in list order. */
  function Frame(s: FallState, n: nat, dt: real): (s': FallState)
    requires n <= |s.bodies|
    ensures |s'.bodies| == |s.bodies|
    decreases |s.bodies| - n
  {
    if n == |s.bodies| then s else Frame(StepBody(s, n, dt), n + 1, dt)
  }

  lemma {:induction false} FrameUnfold(s: FallState, n: int, dt: real)
    requires 0 <= n < |s.bodies|
    ensures Frame(s, n, dt) == Frame(StepBody(s, n, dt), n + 1, dt)
    ensures s.bodies[n].state != DownMoving ==> StepBody(s, n, dt) == s
  {
  }

  lemma {:induction false} FrameDone(s: FallState, dt: real)
    ensures Frame(s, |s.bodies|, dt) == s
  {
  }

  // ---------------------------------------------------------------- the invariant of a fall

  /** Board and list agree. */
  ghost predicate Consistent(s: FallState) {
    && (forall i :: 0 <= i < |s.bodies| && s.bodies[i].registered ==>
          var c := Cell(s.bodies[i].x, s.bodies[i].y); InBoard(c) && c in s.cells && s.cells[c] == i)
    && (forall c :: c in s.cells ==>
          var i := s.cells[c]; 0 <= i < |s.bodies| && s.bodies[i].registered && c == Cell(s.bodies[i].x, s.bodies[i].y))
  }

  ghost predicate WellFormed(s: FallState) {
    forall i :: 0 <= i < |s.bodies| ==>
      var b := s.bodies[i];
      && 0 <= b.x < BOARD_X_COUNT && 0 <= b.y < BOARD_Y_COUNT
      && (b.state == Stationary || b.state == DownMoving)
      && (b.state == Stationary ==> b.registered && b.posY == RowY(b.y) && b.velocity == 0.0)
  }

  /** `hs[x]` is the height of column `x`: its resting blocks fill rows 0 .. hs[x] - 1. */
  ghost predicate Stacked(s: FallState, hs: seq<int>) {
    && |hs| == BOARD_X_COUNT
    && (forall x :: 0 <= x < BOARD_X_COUNT ==> 0 <= hs[x] <= BOARD_Y_COUNT)
    && (forall i :: 0 <= i < |s.bodies| && s.bodies[i].state == Stationary && 0 <= s.bodies[i].x < BOARD_X_COUNT ==>
          s.bodies[i].y < hs[s.bodies[i].x])
    && (forall c: Cell :: 0 <= c.x < BOARD_X_COUNT && 0 <= c.y < hs[c.x] ==>
          c in s.cells && 0 <= s.cells[c] < |s.bodies| && s.bodies[s.cells[c]].state == Stationary)
  }

  /** List order is bottom-up order in every column. */
  ghost predicate Ordered(s: FallState) {
    forall i, j :: 0 <= i < j < |s.bodies| && s.bodies[i].x == s.bodies[j].x ==>
      && (s.bodies[i].state == DownMoving ==> s.bodies[j].state == DownMoving)
      && (s.bodies[i].state == s.bodies[j].state ==> s.bodies[i].y < s.bodies[j].y)
      && (s.bodies[j].registered ==> s.bodies[i].registered)
  }

  /** A falling block is above the resting stack of its column, in rows and, while there is
      a row left to land in, in pixels. */
  ghost predicate Airborne(s: FallState, hs: seq<int>)
    requires |hs| == BOARD_X_COUNT
  {
    forall i :: 0 <= i < |s.bodies| && s.bodies[i].state == DownMoving && 0 <= s.bodies[i].x < BOARD_X_COUNT ==>
      && (hs[s.bodies[i].x] < BOARD_Y_COUNT ==> s.bodies[i].posY < RowY(hs[s.bodies[i].x]) + 1.0)
      && s.bodies[i].velocity >= 0.0
      && (s.bodies[i].registered ==> s.bodies[i].y >= hs[s.bodies[i].x])
  }

  /** `i` and `j` are falling in one column, `i` below `j`. */
  ghost predicate FallTogether(s: FallState, i: int, j: int) {
    && 0 <= i < j < |s.bodies| && s.bodies[i].x == s.bodies[j].x
    && s.bodies[i].state == DownMoving && s.bodies[j].state == DownMoving
  }

  /** Two falling blocks of a column are at least one block apart and the lower one is at
      least as fast; blocks before `n` have already moved in this frame. */
  ghost predicate Apart(s: FallState, n: int, dt: real) {
    forall i, j :: FallTogether(s, i, j) ==>
      if i < n <= j then
        && s.bodies[i].posY >= s.bodies[j].posY + SIZE + Velocity(s.bodies[j], dt)
        && s.bodies[i].velocity >= Velocity(s.bodies[j], dt)
      else
        && s.bodies[i].posY >= s.bodies[j].posY + SIZE
        && s.bodies[i].velocity >= s.bodies[j].velocity
  }

  ghost predicate FallInvariant(s: FallState, hs: seq<int>, n: int, dt: real) {
    Consistent(s) && WellFormed(s) && Stacked(s, hs) && Ordered(s) && Airborne(s, hs) && Apart(s, n, dt)
  }

  lemma {:induction false} OpenFall(s: FallState, hs: seq<int>)
    requires FallInvariant(s, hs, 0, 0.0)
    ensures Consistent(s) && WellFormed(s) && Stacked(s, hs) && Ordered(s)
    ensures |hs| == BOARD_X_COUNT && forall x :: 0 <= x < BOARD_X_COUNT ==> 0 <= hs[x] <= BOARD_Y_COUNT
    ensures Airborne(s, hs) && Apart(s, 0, 0.0)
  {
    hide Velocity, Acceleration, RowY;
  }

  lemma {:induction false} CloseFall(s: FallState, hs: seq<int>)
    requires Consistent(s) && WellFormed(s) && Stacked(s, hs) && Ordered(s)
    requires |hs| == BOARD_X_COUNT && Airborne(s, hs) && Apart(s, 0, 0.0)
    ensures FallInvariant(s, hs, 0, 0.0)
  {
  }

  /** No coloured block falls above a falling ice block of its column. */
  ghost predicate NoPuyoOverIce(s: FallState) {
    forall i, j :: FallTogether(s, i, j) && s.bodies[i].kind == Ice ==> s.bodies[j].kind == Ice
  }

  ghost predicate LowerIsFaster(s: FallState) {
    forall i, j :: FallTogether(s, i, j) ==>
      Acceleration(s.bodies[i]) >= Acceleration(s.bodies[j])
  }

  /** The lower of two falling blocks accelerates at least as much as the upper one
      exactly when no coloured block falls above ice. */
  lemma {:induction false} LowerIsFasterIff(s: FallState)
    requires WellFormed(s) && Ordered(s)
    ensures LowerIsFaster(s) <==> NoPuyoOverIce(s)
  {
  }

  /** Pixel row of a resting block as an integer. */
  function Pixel(y: int): int {
    31 * (BOARD_Y_COUNT - 2 - y)
  }

  lemma {:induction false} RowPixel(y: int)
    ensures RowY(y) == Pixel(y) as real && Trunc(RowY(y)) == Pixel(y)
    ensures Trunc(RowY(y) / SIZE) == BOARD_Y_COUNT - 2 - y
  {
    assert RowY(y) / SIZE == (BOARD_Y_COUNT - 2 - y) as real;
  }

  lemma {:induction false} TruncBound(r: real, n: int)
    ensures Trunc(r) <= n ==> r < n as real + 1.0
    ensures r < n as real + 1.0 && 0 <= n ==> Trunc(r) <= n
    ensures r <= n as real ==> Trunc(r) <= n
  {
  }

  /** Only resting blocks of the stack can be hit, each at its own row. */
  lemma {:induction false} BlocksInStack(s: FallState, hs: seq<int>, n: int, c: Cell, y: real)
    requires Consistent(s) && WellFormed(s) && Stacked(s, hs) && Blocks(s, n, c, y)
    ensures InBoard(c) && c.y < hs[c.x] && Overlaps(Trunc(y), Pixel(c.y))
  {
    RowPixel(c.y);
  }

  /** A block whose pixel row is at or above the top of the stack hits nothing. */
  lemma {:induction false} NothingHit(s: FallState, hs: seq<int>, n: int, x: int, y: real)
    requires Consistent(s) && WellFormed(s) && Stacked(s, hs) && 0 <= x < BOARD_X_COUNT
    requires Trunc(y) <= Pixel(hs[x])
    ensures FirstHit(s, n, x, y, 0) == BOARD_Y_COUNT
  {
    var r := FirstHit(s, n, x, y, 0);
    if r < BOARD_Y_COUNT { BlocksInStack(s, hs, n, Cell(x, r), y); }
  }

  lemma {:induction false} StackTop(s: FallState, hs: seq<int>, x: int)
    requires Consistent(s) && WellFormed(s) && Stacked(s, hs) && 0 <= x < BOARD_X_COUNT && 0 < hs[x]
    ensures
      var c := Cell(x, hs[x] - 1);
      && c in s.cells && 0 <= s.cells[c] < |s.bodies|
      && s.bodies[s.cells[c]].state == Stationary && s.bodies[s.cells[c]].posY == RowY(hs[x] - 1)
  {
    var c := Cell(x, hs[x] - 1);
    assert s.bodies[s.cells[c]].y == c.y;
  }

  /** A block that has sunk less than one cell into the stack hits its top block ... */
  lemma {:induction false} TopRowHit(s: FallState, hs: seq<int>, n: int, x: int, y: real, h: int)
    requires Consistent(s) && WellFormed(s) && Stacked(s, hs) && 0 <= x < BOARD_X_COUNT && hs[x] == h
    requires 0 <= n < |s.bodies| && s.bodies[n].state == DownMoving
    requires 0 < h <= BOARD_Y_COUNT && Pixel(h) < Trunc(y) <= Pixel(h - 1)
    ensures FirstHit(s, n, x, y, 0) == h - 1
    ensures Cell(x, h - 1) in s.cells && 0 <= s.cells[Cell(x, h - 1)] < |s.bodies|
    ensures Trunc(s.bodies[s.cells[Cell(x, h - 1)]].posY) == Pixel(h - 1)
  {
    hide Consistent, WellFormed, Stacked, Trunc, RowY, FirstHit;
    var r := FirstHit(s, n, x, y, 0);
    StackTop(s, hs, x);
    RowPixel(h - 1);
    assert Blocks(s, n, Cell(x, h - 1), y);
    BlocksInStack(s, hs, n, Cell(x, r), y);
  }

  /** ... and is put exactly on top of it. */
  lemma {:induction false} LandsOnTop(s: FallState, n: int, x: int, y: real, h: int)
    requires 0 < h <= BOARD_Y_COUNT && FirstHit(s, n, x, y, 0) == h - 1
    requires Trunc(s.bodies[s.cells[Cell(x, h - 1)]].posY) == Pixel(h - 1) && Trunc(y) <= Pixel(h - 1)
    ensures Outcome(s, n, x, y) == Lands(RowY(h))
  {
    hide Blocks, Trunc;
    assert Pixel(h - 1) as real - SIZE == RowY(h);
  }

  ghost predicate Lowest(s: FallState, n: int)
    requires 0 <= n < |s.bodies|
  {
    forall i :: 0 <= i < n && s.bodies[i].x == s.bodies[n].x ==> s.bodies[i].state != DownMoving
  }

  /** Where a falling block ends up in one update: it comes to rest exactly on top of the
      stack or keeps falling, and only the lowest falling block of a column can land. */
  lemma {:induction false} OutcomeIs(s: FallState, hs: seq<int>, n: int, dt: real)
    requires FallInvariant(s, hs, n, dt) && 0 <= n < |s.bodies| && s.bodies[n].state == DownMoving
    requires dt >= 0.0 && Velocity(s.bodies[n], dt) <= SIZE && hs[s.bodies[n].x] < BOARD_Y_COUNT
    ensures
      var b := s.bodies[n];
      var y := b.posY + Velocity(b, dt);
      match Outcome(s, n, b.x, y)
      case Lands(posY) => posY == RowY(hs[b.x]) <= y && Lowest(s, n)
      case Falls => y < RowY(hs[b.x]) + 1.0
  {
    hide Consistent, WellFormed, Ordered, FirstHit, Trunc, RowY, Velocity, Acceleration, Stacked;
    var b := s.bodies[n];
    var y := b.posY + Velocity(b, dt);
    ColumnHeights(s, hs);
    var h := hs[b.x];
    RowPixel(h);
    RowPixel(h - 1);
    RowPixel(0);
    TruncBound(y, Pixel(h));
    TruncBound(y, Pixel(h - 1));
    if Lowest(s, n) {
      if Trunc(y) <= Pixel(h) {
        NothingHit(s, hs, n, b.x, y);
      } else if h > 0 {
        TopRowHit(s, hs, n, b.x, y, h);
        LandsOnTop(s, n, b.x, y, h);
      } else {
        NothingOnFloor(s, hs, n, b.x, y);
      }
    } else {
      var i :| 0 <= i < n && s.bodies[i].x == b.x && s.bodies[i].state == DownMoving;
      assert FallTogether(s, i, n);
      NothingHit(s, hs, n, b.x, y);
    }
  }

  lemma {:induction false} ColumnHeights(s: FallState, hs: seq<int>)
    requires WellFormed(s) && Stacked(s, hs)
    ensures |hs| == BOARD_X_COUNT
    ensures forall n :: 0 <= n < |s.bodies| ==>
      0 <= s.bodies[n].x < BOARD_X_COUNT && 0 <= hs[s.bodies[n].x] <= BOARD_Y_COUNT
  {
  }

  lemma {:induction false} NothingOnFloor(s: FallState, hs: seq<int>, n: int, x: int, y: real)
    requires Consistent(s) && WellFormed(s) && Stacked(s, hs) && 0 <= x < BOARD_X_COUNT && hs[x] == 0
    ensures FirstHit(s, n, x, y, 0) == BOARD_Y_COUNT
  {
    var r := FirstHit(s, n, x, y, 0);
    if r < BOARD_Y_COUNT { BlocksInStack(s, hs, n, Cell(x, r), y); }
  }

  // ---------------------------------------------------------------- one update keeps the invariant

  /** Block `n` after a move that leaves it in the air, and after one that lands it in row `h`. */
  function Flown(s: FallState, n: int, dt: real): FallState
    requires 0 <= n < |s.bodies|
  {
    var b := s.bodies[n];
    s.(bodies := s.bodies[n := b.(posY := b.posY + Velocity(b, dt), velocity := Velocity(b, dt))])
  }

  function Landed(s: FallState, n: int, h: int): FallState
    requires 0 <= n < |s.bodies|
  {
    LandedAt(s, n, h, RowY(h))
  }

  lemma {:induction false} StepIs(s: FallState, hs: seq<int>, n: int, dt: real)
    requires FallInvariant(s, hs, n, dt) && 0 <= n < |s.bodies| && s.bodies[n].state == DownMoving
    requires dt >= 0.0 && Velocity(s.bodies[n], dt) <= SIZE && hs[s.bodies[n].x] < BOARD_Y_COUNT
    ensures
      var b := s.bodies[n];
      var h := hs[b.x];
      || (StepBody(s, n, dt) == Landed(s, n, h) && Lowest(s, n) && RowY(h) <= b.posY + Velocity(b, dt))
      || (StepBody(s, n, dt) == Flown(s, n, dt) && b.posY + Velocity(b, dt) < RowY(h) + 1.0)
  {
    hide *;
    OutcomeIs(s, hs, n, dt);
    HeightOf(s, hs, n, dt);
    StepFrom(s, n, dt, hs[s.bodies[n].x]);
  }

  lemma {:induction false} HeightOf(s: FallState, hs: seq<int>, n: int, dt: real)
    requires FallInvariant(s, hs, n, dt) && 0 <= n < |s.bodies|
    ensures 0 <= s.bodies[n].x < |hs| == BOARD_X_COUNT == 6 && 0 <= hs[s.bodies[n].x] <= BOARD_Y_COUNT == 13
  {
    ColumnHeights(s, hs);
  }

  lemma {:induction false} StepFrom(s: FallState, n: int, dt: real, h: int)
    requires 0 <= n < |s.bodies| && s.bodies[n].state == DownMoving && 0 <= h < BOARD_Y_COUNT
    requires
      match Outcome(s, n, s.bodies[n].x, s.bodies[n].posY + Velocity(s.bodies[n], dt))
      case Lands(posY) => posY == RowY(h)
      case Falls => true
    ensures
      match Outcome(s, n, s.bodies[n].x, s.bodies[n].posY + Velocity(s.bodies[n], dt))
      case Lands(_) => StepBody(s, n, dt) == Landed(s, n, h)
      case Falls => StepBody(s, n, dt) == Flown(s, n, dt)
  {
    hide Outcome, Velocity, RowY, LandingRow, LandedAt;
    LandingRowOf(s.bodies[n].kind, h);
  }

  lemma {:induction false} LandingRowOf(kind: BlockType, h: int)
    requires 0 <= h < BOARD_Y_COUNT
    ensures LandingRow(kind, RowY(h)) == h
  {
    RowPixel(h);
  }

  lemma {:induction false} ProductOrder(a: real, b: real, t: real)
    requires a >= b && t >= 0.0
    ensures a * t >= b * t
  {
  }

  lemma {:induction false} VelocityOrder(s: FallState, i: int, j: int, dt: real)
    requires FallTogether(s, i, j) && LowerIsFaster(s) && dt >= 0.0
    requires s.bodies[i].velocity >= s.bodies[j].velocity
    ensures Velocity(s.bodies[i], dt) >= Velocity(s.bodies[j], dt)
  {
    ProductOrder(Acceleration(s.bodies[i]), Acceleration(s.bodies[j]), dt);
  }

  lemma {:induction false} OpenFallAt(s: FallState, hs: seq<int>, n: int, dt: real)
    requires FallInvariant(s, hs, n, dt)
    ensures Consistent(s) && WellFormed(s) && Stacked(s, hs) && Ordered(s)
    ensures |hs| == BOARD_X_COUNT && Airborne(s, hs) && Apart(s, n, dt)
  {
  }

  lemma {:induction false} CloseFallAt(s: FallState, hs: seq<int>, n: int, dt: real)
    requires Consistent(s) && WellFormed(s) && Stacked(s, hs) && Ordered(s)
    requires |hs| == BOARD_X_COUNT && Airborne(s, hs) && Apart(s, n, dt)
    ensures FallInvariant(s, hs, n, dt)
  {
  }

  /** Block `n` of `s'` has moved; everything else is as in `s`. */
  ghost predicate OnlyMoved(s: FallState, n: int, s': FallState) {
    && 0 <= n < |s.bodies| == |s'.bodies| && s'.cells == s.cells
    && (forall i :: 0 <= i < |s.bodies| && i != n ==> s'.bodies[i] == s.bodies[i])
    && s.bodies[n].state == s'.bodies[n].state == DownMoving
    && s'.bodies[n].x == s.bodies[n].x && s'.bodies[n].y == s.bodies[n].y && s'.bodies[n].registered == s.bodies[n].registered
  }

  lemma {:induction false} FlownOnlyMoved(s: FallState, n: int, dt: real)
    requires 0 <= n < |s.bodies| && s.bodies[n].state == DownMoving
    ensures OnlyMoved(s, n, Flown(s, n, dt))
    ensures Flown(s, n, dt).bodies[n].posY == s.bodies[n].posY + Velocity(s.bodies[n], dt)
    ensures Flown(s, n, dt).bodies[n].velocity == Velocity(s.bodies[n], dt) && Flown(s, n, dt).bodies[n].kind == s.bodies[n].kind
  {
    hide Velocity;
  }

  lemma {:induction false} MovedConsistent(s: FallState, n: int, s': FallState)
    requires OnlyMoved(s, n, s') && Consistent(s)
    ensures Consistent(s')
  {
  }

  lemma {:induction false} MovedStacked(s: FallState, hs: seq<int>, n: int, s': FallState)
    requires OnlyMoved(s, n, s') && WellFormed(s) && Stacked(s, hs) && Ordered(s)
    ensures WellFormed(s') && Stacked(s', hs) && Ordered(s')
  {
    hide RowY;
  }

  lemma {:induction false} MovedAirborne(s: FallState, hs: seq<int>, n: int, s': FallState)
    requires OnlyMoved(s, n, s') && |hs| == BOARD_X_COUNT && Airborne(s, hs) && 0 <= s.bodies[n].x < BOARD_X_COUNT
    requires s'.bodies[n].posY < RowY(hs[s.bodies[n].x]) + 1.0 && s'.bodies[n].velocity >= 0.0
    ensures Airborne(s', hs)
  {
    hide RowY;
  }

  lemma {:induction false} FlownKeeps(s: FallState, hs: seq<int>, n: int, dt: real)
    requires FallInvariant(s, hs, n, dt) && 0 <= n < |s.bodies| && s.bodies[n].state == DownMoving
    requires dt >= 0.0 && LowerIsFaster(s)
    requires s.bodies[n].posY + Velocity(s.bodies[n], dt) < RowY(hs[s.bodies[n].x]) + 1.0
    ensures FallInvariant(Flown(s, n, dt), hs, n + 1, dt)
  {
    hide *;
    OpenFallAt(s, hs, n, dt);
    ColumnHeights(s, hs);
    BodySpeed(s, hs, n);
    VelocityNonNegative(s.bodies[n], dt);
    FlownApart(s, hs, n, dt);
    var s' := Flown(s, n, dt);
    FlownOnlyMoved(s, n, dt);
    MovedConsistent(s, n, s');
    MovedStacked(s, hs, n, s');
    MovedAirborne(s, hs, n, s');
    CloseFallAt(s', hs, n + 1, dt);
  }

  lemma {:induction false} BodySpeed(s: FallState, hs: seq<int>, n: int)
    requires WellFormed(s) && |hs| == BOARD_X_COUNT && Airborne(s, hs) && 0 <= n < |s.bodies| && s.bodies[n].state == DownMoving
    ensures s.bodies[n].velocity >= 0.0 && 0 <= s.bodies[n].y < BOARD_Y_COUNT && 0 <= s.bodies[n].x < BOARD_X_COUNT
  {
    hide RowY;
  }

  lemma {:induction false} VelocityNonNegative(b: Body, dt: real)
    requires b.velocity >= 0.0 && dt >= 0.0 && 0 <= b.y < BOARD_Y_COUNT
    ensures Velocity(b, dt) >= 0.0
  {
    ProductOrder(Acceleration(b), 0.0, dt);
  }

  lemma {:induction false} FlownApart(s: FallState, hs: seq<int>, n: int, dt: real)
    requires FallInvariant(s, hs, n, dt) && 0 <= n < |s.bodies| && s.bodies[n].state == DownMoving
    requires dt >= 0.0 && LowerIsFaster(s)
    ensures Apart(Flown(s, n, dt), n + 1, dt)
  {
    assert Apart(s, n, dt);
    hide FallInvariant, LowerIsFaster, Acceleration;
    var s' := Flown(s, n, dt);
    forall i, j | FallTogether(s', i, j)
      ensures
        if i < n + 1 <= j then
          && s'.bodies[i].posY >= s'.bodies[j].posY + SIZE + Velocity(s'.bodies[j], dt)
          && s'.bodies[i].velocity >= Velocity(s'.bodies[j], dt)
        else
          && s'.bodies[i].posY >= s'.bodies[j].posY + SIZE
          && s'.bodies[i].velocity >= s'.bodies[j].velocity
    {
      assert FallTogether(s, i, j);
      if i == n { VelocityOrder(s, i, j, dt); }
    }
  }

  lemma {:induction false} LandedKeeps(s: FallState, hs: seq<int>, n: int, dt: real)
    requires FallInvariant(s, hs, n, dt) && 0 <= n < |s.bodies| && s.bodies[n].state == DownMoving
    requires hs[s.bodies[n].x] < BOARD_Y_COUNT && Lowest(s, n)
    ensures
      var x, h := s.bodies[n].x, hs[s.bodies[n].x];
      FallInvariant(Landed(s, n, h), hs[x := h + 1], n + 1, dt)
  {
    hide *;
    OpenFallAt(s, hs, n, dt);
    ColumnHeights(s, hs);
    var x, h := s.bodies[n].x, hs[s.bodies[n].x];
    var s' := Landed(s, n, h);
    LandingCellFree(s, hs, n);
    LandedAtIs(s, n, h);
    LandedConsistent(s, n, h, s');
    LandedWellFormed(s, n, h, s');
    LandedStacked(s, hs, n, s');
    LandedOrdered(s, hs, n, s');
    LandedAirborne(s, hs, n, dt, s');
    LandedApart(s, n, h, dt, s');
    CloseFallAt(s', hs[x := h + 1], n + 1, dt);
  }

  /** Block `n` of `s'` has come to rest in row `h`; everything else is as in `s`. */
  ghost predicate OnlyLanded(s: FallState, n: int, h: int, s': FallState) {
    && 0 <= n < |s.bodies| == |s'.bodies|
    && (forall i :: 0 <= i < |s.bodies| && i != n ==> s'.bodies[i] == s.bodies[i])
    && s.bodies[n].state == DownMoving
    && s'.bodies[n] == Body(s.bodies[n].kind, Stationary, s.bodies[n].x, h, RowY(h), 0.0, true)
    && var c := Cell(s.bodies[n].x, h);
       && c in s'.cells && s'.cells[c] == n
       && (forall d :: d in s'.cells && d != c ==> d in s.cells && s'.cells[d] == s.cells[d])
       && (forall d :: d in s'.cells && d != c && s.bodies[n].registered ==> d != Cell(s.bodies[n].x, s.bodies[n].y))
       && (forall d :: d in s.cells && d != c && (s.bodies[n].registered ==> d != Cell(s.bodies[n].x, s.bodies[n].y)) ==> d in s'.cells)
  }

  lemma {:induction false} LandedAtIs(s: FallState, n: int, h: int)
    requires 0 <= n < |s.bodies| && s.bodies[n].state == DownMoving
    ensures OnlyLanded(s, n, h, Landed(s, n, h))
  {
    hide RowY;
  }

  /** The landing cell is free: no other block, resting or falling, owns it. */
  lemma {:induction false} LandingCellFree(s: FallState, hs: seq<int>, n: int)
    requires Consistent(s) && WellFormed(s) && Stacked(s, hs) && Ordered(s) && |hs| == BOARD_X_COUNT && Airborne(s, hs)
    requires 0 <= n < |s.bodies| && s.bodies[n].state == DownMoving && Lowest(s, n) && 0 <= s.bodies[n].x < BOARD_X_COUNT
    ensures var c := Cell(s.bodies[n].x, hs[s.bodies[n].x]); c in s.cells ==> s.cells[c] == n
  {
    hide RowY;
  }

  lemma {:induction false} LandedConsistent(s: FallState, n: int, h: int, s': FallState)
    requires Consistent(s) && OnlyLanded(s, n, h, s') && 0 <= h < BOARD_Y_COUNT && 0 <= s.bodies[n].x < BOARD_X_COUNT
    requires var c := Cell(s.bodies[n].x, h); c in s.cells ==> s.cells[c] == n
    ensures Consistent(s')
  {
    hide RowY;
    forall i | 0 <= i < |s'.bodies| && s'.bodies[i].registered
      ensures var c := Cell(s'.bodies[i].x, s'.bodies[i].y); InBoard(c) && c in s'.cells && s'.cells[c] == i
    {
      if i != n { LandedCellKept(s, n, h, s', i); }
    }
    forall c | c in s'.cells
      ensures var i := s'.cells[c]; 0 <= i < |s'.bodies| && s'.bodies[i].registered && c == Cell(s'.bodies[i].x, s'.bodies[i].y)
    {
      if c != Cell(s.bodies[n].x, h) {
        assert c in s.cells && s.cells[c] != n;
      }
    }
  }

  lemma {:induction false} LandedCellKept(s: FallState, n: int, h: int, s': FallState, i: int)
    requires Consistent(s) && OnlyLanded(s, n, h, s') && 0 <= i < |s.bodies| && i != n && s.bodies[i].registered
    requires var c := Cell(s.bodies[n].x, h); c in s.cells ==> s.cells[c] == n
    ensures var c := Cell(s.bodies[i].x, s.bodies[i].y); InBoard(c) && c in s'.cells && s'.cells[c] == i
  {
    hide RowY;
  }

  lemma {:induction false} LandedWellFormed(s: FallState, n: int, h: int, s': FallState)
    requires WellFormed(s) && OnlyLanded(s, n, h, s') && 0 <= h < BOARD_Y_COUNT
    ensures WellFormed(s')
  {
    hide RowY;
  }

  /** The cells of the resting stack stay, and the landing cell joins them. */
  lemma {:induction false} LandedCell(s: FallState, hs: seq<int>, n: int, s': FallState, c: Cell)
    requires Stacked(s, hs) && 0 <= n < |s.bodies| && s.bodies[n].state == DownMoving
    requires 0 <= s.bodies[n].x < BOARD_X_COUNT && OnlyLanded(s, n, hs[s.bodies[n].x], s')
    requires s.bodies[n].registered ==> s.bodies[n].y >= hs[s.bodies[n].x]
    requires 0 <= c.x < BOARD_X_COUNT && 0 <= c.y < hs[s.bodies[n].x := hs[s.bodies[n].x] + 1][c.x]
    ensures c in s'.cells && 0 <= s'.cells[c] < |s'.bodies| && s'.bodies[s'.cells[c]].state == Stationary
  {
    hide RowY;
    if c != Cell(s.bodies[n].x, hs[s.bodies[n].x]) {
      assert c in s.cells && s.cells[c] != n;
    }
  }

  lemma {:induction false} LandedStacked(s: FallState, hs: seq<int>, n: int, s': FallState)
    requires Stacked(s, hs) && |hs| == BOARD_X_COUNT && Airborne(s, hs) && 0 <= n < |s.bodies| && s.bodies[n].state == DownMoving
    requires 0 <= s.bodies[n].x < BOARD_X_COUNT && hs[s.bodies[n].x] < BOARD_Y_COUNT && OnlyLanded(s, n, hs[s.bodies[n].x], s')
    ensures Stacked(s', hs[s.bodies[n].x := hs[s.bodies[n].x] + 1])
  {
    var hs' := hs[s.bodies[n].x := hs[s.bodies[n].x] + 1];
    assert s.bodies[n].registered ==> s.bodies[n].y >= hs[s.bodies[n].x];
    hide RowY, Airborne;
    forall c: Cell | 0 <= c.x < BOARD_X_COUNT && 0 <= c.y < hs'[c.x]
      ensures c in s'.cells && 0 <= s'.cells[c] < |s'.bodies| && s'.bodies[s'.cells[c]].state == Stationary
    {
      LandedCell(s, hs, n, s', c);
    }
    LandedHeights(s, hs, n, s');
  }

  lemma {:induction false} LandedHeights(s: FallState, hs: seq<int>, n: int, s': FallState)
    requires Stacked(s, hs) && |hs| == BOARD_X_COUNT && 0 <= n < |s.bodies| && s.bodies[n].state == DownMoving
    requires 0 <= s.bodies[n].x < BOARD_X_COUNT && OnlyLanded(s, n, hs[s.bodies[n].x], s')
    ensures forall i :: 0 <= i < |s'.bodies| && s'.bodies[i].state == Stationary && 0 <= s'.bodies[i].x < BOARD_X_COUNT ==>
      s'.bodies[i].y < hs[s.bodies[n].x := hs[s.bodies[n].x] + 1][s'.bodies[i].x]
  {
    hide RowY;
  }

  lemma {:induction false} LandedOrdered(s: FallState, hs: seq<int>, n: int, s': FallState)
    requires WellFormed(s) && Stacked(s, hs) && Ordered(s) && |hs| == BOARD_X_COUNT && 0 <= n < |s.bodies| && Lowest(s, n)
    requires 0 <= s.bodies[n].x < BOARD_X_COUNT && OnlyLanded(s, n, hs[s.bodies[n].x], s')
    ensures Ordered(s')
  {
    hide RowY;
  }

  lemma {:induction false} LandedAirborne(s: FallState, hs: seq<int>, n: int, dt: real, s': FallState)
    requires WellFormed(s) && Ordered(s) && |hs| == BOARD_X_COUNT && Airborne(s, hs) && Apart(s, n, dt)
    requires 0 <= n < |s.bodies| && s.bodies[n].state == DownMoving && Lowest(s, n)
    requires 0 <= s.bodies[n].x < BOARD_X_COUNT && hs[s.bodies[n].x] < BOARD_Y_COUNT && OnlyLanded(s, n, hs[s.bodies[n].x], s')
    ensures Airborne(s', hs[s.bodies[n].x := hs[s.bodies[n].x] + 1])
  {
    var x, h := s.bodies[n].x, hs[s.bodies[n].x];
    assert RowY(h + 1) == RowY(h) - SIZE;
    hide RowY, Acceleration;
    forall j | 0 <= j < |s'.bodies| && s'.bodies[j].state == DownMoving && s'.bodies[j].x == x
      ensures (h + 1 < BOARD_Y_COUNT ==> s'.bodies[j].posY < RowY(h + 1) + 1.0) && (s'.bodies[j].registered ==> s'.bodies[j].y >= h + 1)
    {
      assert FallTogether(s, n, j);
    }
  }

  lemma {:induction false} LandedApart(s: FallState, n: int, h: int, dt: real, s': FallState)
    requires Apart(s, n, dt) && OnlyLanded(s, n, h, s')
    ensures Apart(s', n + 1, dt)
  {
    hide RowY, Acceleration, Velocity;
    forall i, j | FallTogether(s', i, j)
      ensures FallTogether(s, i, j) && s'.bodies[i] == s.bodies[i] && s'.bodies[j] == s.bodies[j]
    {
    }
  }

  // ---------------------------------------------------------------- whole frames and whole falls

  ghost function FallingIn(s: FallState, x: int): set<int> {
    set i | 0 <= i < |s.bodies| && s.bodies[i].state == DownMoving && s.bodies[i].x == x
  }

  /** Every column into which new ice falls has a row for each block that falls in it. */
  ghost predicate Room(s: FallState, hs: seq<int>)
    requires |hs| == BOARD_X_COUNT
  {
    forall i :: 0 <= i < |s.bodies| && s.bodies[i].state == DownMoving && !s.bodies[i].registered
                && 0 <= s.bodies[i].x < BOARD_X_COUNT ==>
      hs[s.bodies[i].x] + |FallingIn(s, s.bodies[i].x)| <= BOARD_Y_COUNT
  }

  /** From block `n` on, nothing moves by more than one cell in this frame. */
  ghost predicate Paced(s: FallState, n: int, dt: real) {
    forall i :: 0 <= n <= i < |s.bodies| && s.bodies[i].state == DownMoving ==> Velocity(s.bodies[i], dt) <= SIZE
  }

  ghost predicate FrameReady(s: FallState, hs: seq<int>, n: int, dt: real) {
    FallInvariant(s, hs, n, dt) && |hs| == BOARD_X_COUNT && LowerIsFaster(s) && Room(s, hs) && Paced(s, n, dt) && dt >= 0.0
  }

  /** What one or more updates may do to a block: fall on, or land, or nothing at all. */
  ghost predicate Moved(a: Body, b: Body) {
    && a.kind == b.kind && a.x == b.x && (a.registered ==> b.registered)
    && (a.state == Stationary ==> a == b)
    && (b.state == DownMoving ==> a.state == DownMoving && a.y == b.y && a.registered == b.registered)
    && (b.state == a.state || b.state == Stationary)
  }

  ghost predicate AllMoved(s: FallState, s': FallState) {
    |s.bodies| == |s'.bodies| && forall i :: 0 <= i < |s.bodies| ==> Moved(s.bodies[i], s'.bodies[i])
  }

  function HeightsAfter(s: FallState, hs: seq<int>, n: int, dt: real): seq<int>
    requires 0 <= n < |s.bodies| && (0 <= s.bodies[n].x < |hs|)
  {
    var x := s.bodies[n].x;
    if s.bodies[n].state == DownMoving && StepBody(s, n, dt).bodies[n].state == Stationary then hs[x := hs[x] + 1] else hs
  }

  lemma {:induction false} RoomToLand(s: FallState, hs: seq<int>, n: int, dt: real)
    requires FallInvariant(s, hs, n, dt) && |hs| == BOARD_X_COUNT && Room(s, hs)
    requires 0 <= n < |s.bodies| && s.bodies[n].state == DownMoving
    ensures 0 <= s.bodies[n].x < BOARD_X_COUNT && hs[s.bodies[n].x] < BOARD_Y_COUNT
  {
    ColumnHeights(s, hs);
    if !s.bodies[n].registered {
      assert FallingIn(s, s.bodies[n].x) >= {n};
      CardinalityOrder({n}, FallingIn(s, s.bodies[n].x));
    }
  }

  lemma {:induction false} CardinalityOrder<T>(a: set<T>, b: set<T>)
    requires a <= b
    ensures |a| <= |b|
  {
    assert b == a + (b - a);
  }

  /** One update of the next block in the list keeps everything the frame relies on. */
  lemma {:induction false} StepKeeps(s: FallState, hs: seq<int>, n: int, dt: real)
    requires FrameReady(s, hs, n, dt) && 0 <= n < |s.bodies|
    ensures 0 <= s.bodies[n].x < |hs|
    ensures FrameReady(StepBody(s, n, dt), HeightsAfter(s, hs, n, dt), n + 1, dt)
    ensures AllMoved(s, StepBody(s, n, dt))
  {
    ColumnOf(s, hs, n, dt);
    if s.bodies[n].state != DownMoving {
      StillKeeps(s, hs, n, dt);
      AllMovedRefl(s);
    } else {
      RoomToLand(s, hs, n, dt);
      StepIs(s, hs, n, dt);
      var x, h := s.bodies[n].x, hs[s.bodies[n].x];
      hide FallInvariant, LowerIsFaster, Room, Paced, Lowest, FrameReady, AllMoved, Velocity, Acceleration;
      if StepBody(s, n, dt) == Landed(s, n, h) && Lowest(s, n) {
        LandedReady(s, hs, n, dt);
      } else {
        FlownReady(s, hs, n, dt);
      }
    }
  }

  lemma {:induction false} ColumnOf(s: FallState, hs: seq<int>, n: int, dt: real)
    requires FrameReady(s, hs, n, dt) && 0 <= n < |s.bodies|
    ensures 0 <= s.bodies[n].x < |hs| == BOARD_X_COUNT
    ensures FallInvariant(s, hs, n, dt) && Room(s, hs) && dt >= 0.0
    ensures s.bodies[n].state == DownMoving ==> Velocity(s.bodies[n], dt) <= SIZE
  {
    ColumnHeights(s, hs);
    hide Velocity, FallInvariant, Room, LowerIsFaster;
  }

  lemma {:induction false} StillKeeps(s: FallState, hs: seq<int>, n: int, dt: real)
    requires FrameReady(s, hs, n, dt) && 0 <= n < |s.bodies| && s.bodies[n].state != DownMoving
    ensures FrameReady(s, hs, n + 1, dt)
  {
    hide Velocity, Acceleration, RowY, Consistent, Stacked, Ordered, Airborne, WellFormed, Room, LowerIsFaster;
  }

  lemma {:induction false} LandedReady(s: FallState, hs: seq<int>, n: int, dt: real)
    requires FrameReady(s, hs, n, dt) && 0 <= n < |s.bodies| && s.bodies[n].state == DownMoving
    requires 0 <= s.bodies[n].x < |hs| && hs[s.bodies[n].x] < BOARD_Y_COUNT && Lowest(s, n)
    ensures
      var x, h := s.bodies[n].x, hs[s.bodies[n].x];
      FrameReady(Landed(s, n, h), hs[x := h + 1], n + 1, dt) && AllMoved(s, Landed(s, n, h))
  {
    hide *;
    OpenFrame(s, hs, n, dt);
    LandedKeeps(s, hs, n, dt);
    LandedRoom(s, hs, n);
    var x, h := s.bodies[n].x, hs[s.bodies[n].x];
    var s' := Landed(s, n, h);
    LandedAtIs(s, n, h);
    LandedPaced(s, n, h, dt, s');
    CloseFrame(s', hs[x := h + 1], n + 1, dt);
  }

  lemma {:induction false} OpenFrame(s: FallState, hs: seq<int>, n: int, dt: real)
    requires FrameReady(s, hs, n, dt)
    ensures FallInvariant(s, hs, n, dt) && |hs| == BOARD_X_COUNT && LowerIsFaster(s) && Room(s, hs) && Paced(s, n, dt) && dt >= 0.0
  {
  }

  lemma {:induction false} CloseFrame(s: FallState, hs: seq<int>, n: int, dt: real)
    requires FallInvariant(s, hs, n, dt) && |hs| == BOARD_X_COUNT && LowerIsFaster(s) && Room(s, hs) && Paced(s, n, dt) && dt >= 0.0
    ensures FrameReady(s, hs, n, dt)
  {
  }

  lemma {:induction false} LandedPaced(s: FallState, n: int, h: int, dt: real, s': FallState)
    requires LowerIsFaster(s) && Paced(s, n, dt) && OnlyLanded(s, n, h, s')
    ensures LowerIsFaster(s') && Paced(s', n + 1, dt) && AllMoved(s, s')
  {
    hide RowY, Acceleration, Velocity;
    forall i, j | FallTogether(s', i, j)
      ensures Acceleration(s'.bodies[i]) >= Acceleration(s'.bodies[j])
    {
      assert FallTogether(s, i, j);
    }
  }

  lemma {:induction false} FlownPaced(s: FallState, n: int, dt: real, s': FallState)
    requires LowerIsFaster(s) && Paced(s, n, dt) && OnlyMoved(s, n, s') && s'.bodies[n].kind == s.bodies[n].kind
    ensures LowerIsFaster(s') && Paced(s', n + 1, dt) && AllMoved(s, s')
  {
    assert forall i :: 0 <= i < |s.bodies| ==> Acceleration(s'.bodies[i]) == Acceleration(s.bodies[i]);
    hide RowY, Acceleration, Velocity;
    forall i, j | FallTogether(s', i, j)
      ensures Acceleration(s'.bodies[i]) >= Acceleration(s'.bodies[j])
    {
      assert FallTogether(s, i, j);
    }
  }

  lemma {:induction false} LandedRoom(s: FallState, hs: seq<int>, n: int)
    requires |hs| == BOARD_X_COUNT && Room(s, hs) && 0 <= n < |s.bodies| && s.bodies[n].state == DownMoving
    requires 0 <= s.bodies[n].x < |hs|
    ensures var x, h := s.bodies[n].x, hs[s.bodies[n].x]; Room(Landed(s, n, h), hs[x := h + 1])
  {
    var x, h := s.bodies[n].x, hs[s.bodies[n].x];
    var s' := Landed(s, n, h);
    hide RowY;
    assert FallingIn(s', x) == FallingIn(s, x) - {n};
    forall x' | x' != x
      ensures FallingIn(s', x') == FallingIn(s, x')
    {
    }
  }

  lemma {:induction false} FlownReady(s: FallState, hs: seq<int>, n: int, dt: real)
    requires FrameReady(s, hs, n, dt) && 0 <= n < |s.bodies| && s.bodies[n].state == DownMoving
    requires 0 <= s.bodies[n].x < |hs| && s.bodies[n].posY + Velocity(s.bodies[n], dt) < RowY(hs[s.bodies[n].x]) + 1.0
    ensures FrameReady(Flown(s, n, dt), hs, n + 1, dt) && AllMoved(s, Flown(s, n, dt))
  {
    hide *;
    OpenFrame(s, hs, n, dt);
    FlownKeeps(s, hs, n, dt);
    FlownRoom(s, hs, n, dt);
    FlownOnlyMoved(s, n, dt);
    FlownPaced(s, n, dt, Flown(s, n, dt));
    CloseFrame(Flown(s, n, dt), hs, n + 1, dt);
  }

  lemma {:induction false} FlownRoom(s: FallState, hs: seq<int>, n: int, dt: real)
    requires |hs| == BOARD_X_COUNT && Room(s, hs) && 0 <= n < |s.bodies| && s.bodies[n].state == DownMoving
    ensures Room(Flown(s, n, dt), hs)
  {
    var s' := Flown(s, n, dt);
    hide Velocity;
    forall x
      ensures FallingIn(s', x) == FallingIn(s, x)
    {
    }
  }

  /** A finished frame is the start of the next one, whatever its duration. */
  lemma {:induction false} NextFrame(s: FallState, hs: seq<int>, dt: real, dt': real)
    requires FallInvariant(s, hs, |s.bodies|, dt)
    ensures FallInvariant(s, hs, 0, dt')
  {
    hide Velocity, Acceleration, RowY, Consistent, Stacked, Ordered, Airborne, WellFormed;
  }

  /** A frame keeps the invariant: order and distances hold, and whatever lands, lands
      exactly on its stack. */
  lemma {:induction false} FrameKeeps(s: FallState, hs: seq<int>, n: nat, dt: real) returns (hs': seq<int>)
    requires n <= |s.bodies| && FrameReady(s, hs, n, dt)
    ensures FrameReady(Frame(s, n, dt), hs', |s.bodies|, dt) && AllMoved(s, Frame(s, n, dt))
    decreases |s.bodies| - n
  {
    hide FrameReady, Moved, StepBody;
    if n == |s.bodies| {
      hs' := hs;
      AllMovedRefl(s);
    } else {
      StepKeeps(s, hs, n, dt);
      var s1 := StepBody(s, n, dt);
      assert |s1.bodies| == |s.bodies| by { AllMovedSize(s, s1); }
      hs' := FrameKeeps(s1, HeightsAfter(s, hs, n, dt), n + 1, dt);
      AllMovedTrans(s, s1, Frame(s1, n + 1, dt));
    }
  }

  /** No two blocks that still fall together have come closer to each other. */
  ghost predicate GapsGrow(s: FallState, s': FallState) {
    |s.bodies| == |s'.bodies| && forall i, j :: FallTogether(s', i, j) ==>
      FallTogether(s, i, j) && s'.bodies[i].posY - s'.bodies[j].posY >= s.bodies[i].posY - s.bodies[j].posY
  }

  /** What one block does in a frame, if it is still falling afterwards, depends on itself alone. */
  lemma {:induction false} StillFalling(s: FallState, n: nat, dt: real, i: int)
    requires n <= |s.bodies| && 0 <= i < |s.bodies| && Frame(s, n, dt).bodies[i].state == DownMoving
    ensures s.bodies[i].state == DownMoving
    ensures Frame(s, n, dt).bodies[i] == if i < n then s.bodies[i] else Flown(s, i, dt).bodies[i]
    decreases |s.bodies| - n
  {
    if n < |s.bodies| {
      StillFalling(StepBody(s, n, dt), n + 1, dt, i);
      StepFalling(s, n, dt, i);
    }
    hide StepBody, Velocity;
  }

  lemma {:induction false} StepFalling(s: FallState, n: int, dt: real, i: int)
    requires 0 <= n < |s.bodies| && 0 <= i < |s.bodies| && |StepBody(s, n, dt).bodies| == |s.bodies|
    requires StepBody(s, n, dt).bodies[i].state == DownMoving
    ensures s.bodies[i].state == DownMoving
    ensures StepBody(s, n, dt).bodies[i] == if i != n then s.bodies[i] else Flown(s, i, dt).bodies[i]
  {
    hide Outcome, Velocity, LandingRow;
  }

  lemma {:induction false} FrameGaps(s: FallState, hs: seq<int>, dt: real)
    requires FrameReady(s, hs, 0, dt)
    ensures GapsGrow(s, Frame(s, 0, dt))
  {
    OpenFrame(s, hs, 0, dt);
    OpenFallAt(s, hs, 0, dt);
    var s' := Frame(s, 0, dt);
    hide FrameReady, FallInvariant, LowerIsFaster, Frame, Velocity, RowY, Consistent, WellFormed, Stacked, Ordered, Airborne, Room, Paced;
    forall i, j | FallTogether(s', i, j)
      ensures FallTogether(s, i, j) && s'.bodies[i].posY - s'.bodies[j].posY >= s.bodies[i].posY - s.bodies[j].posY
    {
      StillFalling(s, 0, dt, i);
      StillFalling(s, 0, dt, j);
      assert FallTogether(s, i, j);
      VelocityOrder(s, i, j, dt);
    }
  }

  lemma {:induction false} GapsStay(s: FallState)
    ensures GapsGrow(s, s)
  {
  }

  lemma {:induction false} GapsGrowTrans(s0: FallState, s1: FallState, s2: FallState)
    requires GapsGrow(s0, s1) && GapsGrow(s1, s2)
    ensures GapsGrow(s0, s2)
  {
    forall i, j | FallTogether(s2, i, j)
      ensures FallTogether(s0, i, j) && s2.bodies[i].posY - s2.bodies[j].posY >= s0.bodies[i].posY - s0.bodies[j].posY
    {
      assert FallTogether(s1, i, j);
    }
  }

  lemma {:induction false} AllMovedSize(s: FallState, s': FallState)
    requires AllMoved(s, s')
    ensures |s.bodies| == |s'.bodies|
  {
  }

  lemma {:induction false} AllMovedRefl(s: FallState)
    ensures AllMoved(s, s)
  {
  }

  lemma {:induction false} AllMovedTrans(s0: FallState, s1: FallState, s2: FallState)
    requires AllMoved(s0, s1) && AllMoved(s1, s2)
    ensures AllMoved(s0, s2)
  {
    forall i | 0 <= i < |s0.bodies|
      ensures Moved(s0.bodies[i], s2.bodies[i])
    {
      assert Moved(s0.bodies[i], s1.bodies[i]) && Moved(s1.bodies[i], s2.bodies[i]);
    }
  }

  function Run(s: FallState, dts: seq<real>): (s': FallState)
    ensures |s'.bodies| == |s.bodies|
    decreases |dts|
  {
    if dts == [] then s else Run(Frame(s, 0, dts[0]), dts[1..])
  }

  /** The time that a sequence of frames takes. */
  function Total(dts: seq<real>): real {
    if dts == [] then 0.0 else Total(dts[..|dts| - 1]) + dts[|dts| - 1]
  }

  lemma {:induction false} TotalFirst(dts: seq<real>)
    requires dts != []
    ensures Total(dts) == dts[0] + Total(dts[1..])
    decreases |dts|
  {
    var front := dts[..|dts| - 1];
    if front != [] {
      TotalFirst(front);
      assert dts[1..][..|dts| - 2] == front[1..];
    }
  }

  lemma {:induction false} TotalMonotone(dts: seq<real>, n: int)
    requires 0 <= n <= |dts| && forall k :: 0 <= k < |dts| ==> dts[k] >= 0.0
    ensures 0.0 <= Total(dts[..n]) <= Total(dts)
    decreases |dts|
  {
    assert dts[..|dts|] == dts;
    if n < |dts| {
      TotalMonotone(dts[..|dts| - 1], n);
      assert dts[..|dts| - 1][..n] == dts[..n];
    } else if n > 0 {
      TotalMonotone(dts[..n - 1], n - 1);
      assert dts[..n - 1][..n - 1] == dts[..n][..n - 1];
    }
  }

  lemma {:induction false} TotalStart(dts: seq<real>)
    ensures Total(dts[..0]) == 0.0 && dts[..|dts|] == dts
  {
  }

  lemma {:induction false} TotalNext(dts: seq<real>, n: int)
    requires 0 <= n < |dts|
    ensures Total(dts[..n + 1]) == Total(dts[..n]) + dts[n]
  {
    assert dts[..n + 1][..n] == dts[..n];
  }

  /** No frame of the run moves anything by more than one cell. */
  ghost predicate PacedRun(s: FallState, dts: seq<real>)
    decreases |dts|
  {
    dts != [] ==> dts[0] >= 0.0 && Paced(s, 0, dts[0]) && PacedRun(Frame(s, 0, dts[0]), dts[1..])
  }

  /** In a run that starts in order, list and board go on agreeing, whatever lands does so exactly on its
      stack, order is kept, and distances never shrink while both blocks fall. */
  lemma {:induction false} RunKeeps(s: FallState, hs: seq<int>, dts: seq<real>) returns (hs': seq<int>)
    requires FallInvariant(s, hs, 0, 0.0) && |hs| == BOARD_X_COUNT && NoPuyoOverIce(s) && Room(s, hs) && PacedRun(s, dts)
    ensures FallInvariant(Run(s, dts), hs', 0, 0.0) && AllMoved(s, Run(s, dts)) && GapsGrow(s, Run(s, dts))
    decreases |dts|
  {
    hide FallInvariant, NoPuyoOverIce, LowerIsFaster, Room, Paced, Frame, AllMoved, GapsGrow;
    if dts == [] {
      hs' := hs;
      AllMovedRefl(s);
      GapsStay(s);
    } else {
      OrderPreserving(s, hs, 0, 0.0);
      FallInvariantAnyTime(s, hs, dts[0]);
      assert FrameReady(s, hs, 0, dts[0]);
      var s1 := Frame(s, 0, dts[0]);
      var hs1 := FrameKeeps(s, hs, 0, dts[0]);
      NextFrame(s1, hs1, dts[0], 0.0);
      OrderPreserving(s1, hs1, 0, 0.0);
      FrameGaps(s, hs, dts[0]);
      hs' := RunKeeps(s1, hs1, dts[1..]);
      AllMovedTrans(s, s1, Run(s1, dts[1..]));
      GapsGrowTrans(s, s1, Run(s1, dts[1..]));
    }
  }

  lemma {:induction false} OrderPreserving(s: FallState, hs: seq<int>, n: int, dt: real)
    requires FallInvariant(s, hs, n, dt)
    ensures LowerIsFaster(s) <==> NoPuyoOverIce(s)
    ensures |hs| == BOARD_X_COUNT
  {
    LowerIsFasterIff(s);
  }

  lemma {:induction false} FallInvariantAnyTime(s: FallState, hs: seq<int>, dt: real)
    requires FallInvariant(s, hs, 0, 0.0)
    ensures FallInvariant(s, hs, 0, dt)
  {
    hide Velocity, Acceleration, RowY, Consistent, Stacked, Ordered, Airborne, WellFormed;
  }

  // ---------------------------------------------------------------- where everything ends up

  /** The number of blocks listed before `n` in the column of `n`. */
  ghost function Rank(bodies: seq<Body>, n: int): nat
    requires 0 <= n < |bodies|
  {
    |set k | 0 <= k < n && bodies[k].x == bodies[n].x|
  }

  ghost predicate AllRest(s: FallState) {
    forall i :: 0 <= i < |s.bodies| ==> s.bodies[i].state == Stationary
  }

  /** Each resting block lies in the row that its place in the list gives it: the resting part of
      every column is packed, in list order. */
  lemma {:induction false} RestIsCompact(s: FallState, hs: seq<int>, n: int)
    requires FallInvariant(s, hs, 0, 0.0) && 0 <= n < |s.bodies| && s.bodies[n].state == Stationary
    ensures s.bodies[n].y == Rank(s.bodies, n)
  {
    OpenFall(s, hs);
    hide FallInvariant, Velocity, Acceleration, RowY, Apart, Airborne;
    var x, y := s.bodies[n].x, s.bodies[n].y;
    ColumnHeights(s, hs);
    assert y < hs[x];
    var below := seq(y, r requires 0 <= r < y => s.cells[Cell(x, r)]);
    forall r | 0 <= r < y
      ensures 0 <= below[r] < n && s.bodies[below[r]].x == x && s.bodies[below[r]].y == r
    {
      var c := Cell(x, r);
      assert c in s.cells;
    }
    var earlier := set k | 0 <= k < n && s.bodies[k].x == x;
    forall k | k in earlier
      ensures k in below
    {
      assert s.bodies[k].state == Stationary && s.bodies[k].y < y;
      assert below[s.bodies[k].y] == k;
    }
    assert earlier == set k | k in below;
    DistinctSize(below);
  }

  /** The result of a whole fall: whenever a run that starts in order has brought everything
      to rest, list order has become vertical order without a gap. */
  lemma {:induction false} FallCompacts(s: FallState, hs: seq<int>, dts: seq<real>, n: int)
    requires FallInvariant(s, hs, 0, 0.0) && |hs| == BOARD_X_COUNT && NoPuyoOverIce(s) && Room(s, hs) && PacedRun(s, dts)
    requires 0 <= n < |s.bodies|
    requires AllRest(Run(s, dts))
    ensures Run(s, dts).bodies[n].kind == s.bodies[n].kind && Run(s, dts).bodies[n].x == s.bodies[n].x
    ensures Run(s, dts).bodies[n].y == Rank(s.bodies, n)
  {
    hide FallInvariant, NoPuyoOverIce, Room, PacedRun, Run;
    var s' := Run(s, dts);
    var hs' := RunKeeps(s, hs, dts);
    RestIsCompact(s', hs', n);
    assert Moved(s.bodies[n], s'.bodies[n]);
    assert (set k | 0 <= k < n && s.bodies[k].x == s.bodies[n].x) == set k | 0 <= k < n && s'.bodies[k].x == s'.bodies[n].x by {
      assert forall k :: 0 <= k < |s.bodies| ==> Moved(s.bodies[k], s'.bodies[k]);
    }
  }
}
