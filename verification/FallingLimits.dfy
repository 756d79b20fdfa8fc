/** Where the order of a fall breaks: coloured blocks accelerate much faster than ice, so
    one that starts above a falling ice block runs through it. */
module FallingLimits {
  import opened Geometry
  import opened Connectivity
  import opened BlockStates
  import opened Falling

  /** In a frame of length `dt` that starts from rest, no two falling blocks of a column
      come closer to each other. */
  ghost predicate GapsKept(s: FallState, dt: real) {
    forall i, j :: FallTogether(s, i, j) ==>
      (s.bodies[i].posY + Velocity(s.bodies[i], dt)) - (s.bodies[j].posY + Velocity(s.bodies[j], dt))
      >= s.bodies[i].posY - s.bodies[j].posY
  }

  /** From rest, a frame of any positive length keeps the distances exactly when no coloured
      block starts above falling ice. */
  lemma {:induction false} GapsKeptIff(s: FallState, dt: real)
    requires WellFormed(s) && Ordered(s) && dt > 0.0
    requires forall i :: 0 <= i < |s.bodies| && s.bodies[i].state == DownMoving ==> s.bodies[i].velocity == 0.0
    ensures GapsKept(s, dt) <==> NoPuyoOverIce(s)
  {
    LowerIsFasterIff(s);
    hide WellFormed, Ordered, NoPuyoOverIce, Velocity, Acceleration;
    forall i, j | FallTogether(s, i, j)
      ensures Velocity(s.bodies[i], dt) >= Velocity(s.bodies[j], dt) <==> Acceleration(s.bodies[i]) >= Acceleration(s.bodies[j])
    {
      FromRest(s.bodies[i], s.bodies[j], dt);
    }
  }

  lemma {:induction false} FromRest(a: Body, b: Body, dt: real)
    requires a.velocity == 0.0 && b.velocity == 0.0 && dt > 0.0
    ensures Velocity(a, dt) >= Velocity(b, dt) <==> Acceleration(a) >= Acceleration(b)
  {
    ProductOrderIff(Acceleration(a), Acceleration(b), dt);
  }

  lemma {:induction false} ProductOrderIff(a: real, b: real, t: real)
    requires t > 0.0
    ensures a * t >= b * t <==> a >= b
  {
    if a < b { assert (b - a) * t > 0.0; }
  }

  // ---------------------------------------------------------------- ice under two coloured blocks

  function Puyo(y: int, posY: real, velocity: real): Body {
    Body(Red, DownMoving, 0, y, posY, velocity, true)
  }

  function IceBody(posY: real, velocity: real): Body {
    Body(Ice, DownMoving, 0, 2, posY, velocity, true)
  }

  function Resting(kind: BlockType, y: int): Body {
    Body(kind, Stationary, 0, y, RowY(y), 0.0, true)
  }

  function Column(b0: Body, b1: Body, b2: Body, b3: Body, cells: map<Cell, int>): FallState {
    FallState([b0, b1, b2, b3], cells)
  }

  function StartOwners(): map<Cell, int> {
    map[Cell(0, 1) := 0, Cell(0, 2) := 1, Cell(0, 3) := 2, Cell(0, 4) := 3]
  }

  /** Block `n` gives up row `from` and takes over row `to`. */
  function Reowned(cells: map<Cell, int>, from: int, to: int, n: int): map<Cell, int> {
    (cells - {Cell(0, from)})[Cell(0, to) := n]
  }

  /** The floor cell has just been cleared; above it a coloured block, ice, and two coloured blocks. */
  function BuriedIce(): FallState {
    Column(Puyo(1, RowY(1), 0.0), IceBody(RowY(2), 0.0), Puyo(3, RowY(3), 0.0), Puyo(4, RowY(4), 0.0), StartOwners())
  }

  /** A move that hits nothing. */
  lemma {:induction false} Flies(s: FallState, n: int, dt: real, v: real, y: real)
    requires 0 <= n < |s.bodies| && s.bodies[n].state == DownMoving
    requires v == Velocity(s.bodies[n], dt) && y == s.bodies[n].posY + v && y + SIZE < HEIGHT
    requires forall k :: 0 <= k < BOARD_Y_COUNT ==> !Blocks(s, n, Cell(s.bodies[n].x, k), y)
    ensures StepBody(s, n, dt) == s.(bodies := s.bodies[n := s.bodies[n].(posY := y, velocity := v)])
  {
    hide Blocks, Velocity;
  }

  /** A move that is known to end in row `r`. */
  lemma {:induction false} Lands(s: FallState, n: int, dt: real, r: int)
    requires 0 <= n < |s.bodies| && s.bodies[n].state == DownMoving && 0 <= r < BOARD_Y_COUNT
    requires Outcome(s, n, s.bodies[n].x, s.bodies[n].posY + Velocity(s.bodies[n], dt)) == Landing.Lands(RowY(r))
    ensures StepBody(s, n, dt) == Landed(s, n, r)
  {
    hide Outcome, Velocity, LandingRow, RowY;
    LandingRowOf(s.bodies[n].kind, r);
  }

  lemma {:induction false} OnFloor(s: FallState, n: int, x: int, y: real)
    requires y + SIZE >= HEIGHT && forall k :: 0 <= k < BOARD_Y_COUNT ==> !Blocks(s, n, Cell(x, k), y)
    ensures Outcome(s, n, x, y) == Landing.Lands(RowY(0))
  {
    hide Blocks;
  }

  lemma {:induction false} OnBlock(s: FallState, n: int, x: int, y: real, r: int)
    requires 0 < r < BOARD_Y_COUNT && Blocks(s, n, Cell(x, r - 1), y) && Trunc(y) <= Pixel(r - 1)
    requires s.bodies[s.cells[Cell(x, r - 1)]].posY == RowY(r - 1)
    requires forall k :: 0 <= k < r - 1 ==> !Blocks(s, n, Cell(x, k), y)
    ensures Outcome(s, n, x, y) == Landing.Lands(RowY(r))
  {
    RowPixel(r - 1);
    LandsOnTop(s, n, x, y, r);
  }

  lemma {:induction false} FrameOf4(s0: FallState, s1: FallState, s2: FallState, s3: FallState, s4: FallState, dt: real)
    requires |s0.bodies| == |s1.bodies| == |s2.bodies| == |s3.bodies| == |s4.bodies| == 4
    requires StepBody(s0, 0, dt) == s1 && StepBody(s1, 1, dt) == s2 && StepBody(s2, 2, dt) == s3 && StepBody(s3, 3, dt) == s4
    ensures Frame(s0, 0, dt) == s4
  {
    hide StepBody;
    assert Frame(s4, 4, dt) == s4;
    assert Frame(s3, 3, dt) == s4;
    assert Frame(s2, 2, dt) == s4;
    assert Frame(s1, 1, dt) == s4;
  }

  /** After one frame of length 0.48 nothing has landed yet. */
  function After1(): FallState {
    Column(Puyo(1, 339.76, 29.76), IceBody(279.528, 0.528), Puyo(3, 276.8, 28.8), Puyo(4, 245.32, 28.32), StartOwners())
  }

  /** In the next one, of length 0.01, the lowest block lands; the ice has hardly moved. */
  function After2(): FallState {
    Column(Resting(Red, 0), IceBody(280.067, 0.539), Puyo(3, 306.2, 29.4), Puyo(4, 274.23, 28.91), Reowned(StartOwners(), 1, 0, 0))
  }

  /** Both upper blocks run through the ice and land, the second one in the ice's own cell. */
  function After3(): FallState {
    Column(Resting(Red, 0), IceBody(280.617, 0.55), Resting(Red, 1), Resting(Red, 2), Reowned(Reowned(Reowned(StartOwners(), 1, 0, 0), 3, 1, 2), 4, 2, 3))
  }

  /** The ice lands on the first of them, in the row of the second, whose cell it takes over. */
  function After4(): FallState {
    Column(Resting(Red, 0), Resting(Ice, 2), Resting(Red, 1), Resting(Red, 2), Reowned(Reowned(Reowned(Reowned(StartOwners(), 1, 0, 0), 3, 1, 2), 4, 2, 3), 2, 2, 1))
  }

  /** The states within the first frame. */
  function Start1(): FallState {
    Column(Puyo(1, 339.76, 29.76), IceBody(RowY(2), 0.0), Puyo(3, RowY(3), 0.0), Puyo(4, RowY(4), 0.0), StartOwners())
  }

  function Start2(): FallState {
    Column(Puyo(1, 339.76, 29.76), IceBody(279.528, 0.528), Puyo(3, RowY(3), 0.0), Puyo(4, RowY(4), 0.0), StartOwners())
  }

  function Start3(): FallState {
    Column(Puyo(1, 339.76, 29.76), IceBody(279.528, 0.528), Puyo(3, 276.8, 28.8), Puyo(4, RowY(4), 0.0), StartOwners())
  }

  lemma {:induction false} BuriedStep1a()
    ensures StepBody(BuriedIce(), 0, 0.48) == Start1()
  {
    Flies(BuriedIce(), 0, 0.48, 29.76, 339.76);
  }

  lemma {:induction false} BuriedStep1b()
    ensures StepBody(Start1(), 1, 0.48) == Start2()
  {
    Flies(Start1(), 1, 0.48, 0.528, 279.528);
  }

  lemma {:induction false} BuriedStep1c()
    ensures StepBody(Start2(), 2, 0.48) == Start3()
  {
    Flies(Start2(), 2, 0.48, 28.8, 276.8);
  }

  lemma {:induction false} BuriedStep1d()
    ensures StepBody(Start3(), 3, 0.48) == After1()
  {
    Flies(Start3(), 3, 0.48, 28.32, 245.32);
  }

  lemma {:induction false} BuriedFrame1()
    ensures Frame(BuriedIce(), 0, 0.48) == After1()
  {
    hide StepBody;
    BuriedStep1a();
    BuriedStep1b();
    BuriedStep1c();
    BuriedStep1d();
    FrameOf4(BuriedIce(), Start1(), Start2(), Start3(), After1(), 0.48);
  }

  function After1a(): FallState {
    Column(Resting(Red, 0), IceBody(279.528, 0.528), Puyo(3, 276.8, 28.8), Puyo(4, 245.32, 28.32), Reowned(StartOwners(), 1, 0, 0))
  }

  lemma {:induction false} BuriedStep2()
    ensures StepBody(After1(), 0, 0.01) == After1a()
  {
    NothingBelow();
    FirstSpeed();
    hide Blocks, Velocity, Acceleration, Outcome, StepBody, Landed, RowY;
    OnFloor(After1(), 0, 0, 370.14);
    Lands(After1(), 0, 0.01, 0);
    FirstLanded();
  }

  lemma {:induction false} NothingBelow()
    ensures forall k :: 0 <= k < BOARD_Y_COUNT ==> !Blocks(After1(), 0, Cell(0, k), 370.14)
  {
  }

  lemma {:induction false} FirstSpeed()
    ensures After1().bodies[0].posY + Velocity(After1().bodies[0], 0.01) == 370.14
  {
  }

  lemma {:induction false} FirstLanded()
    ensures Landed(After1(), 0, 0) == After1a()
  {
  }

  /** The other three fall on. */
  lemma {:induction false} BuriedStep2b()
    ensures
      var s2 := StepBody(After1a(), 1, 0.01);
      var s3 := StepBody(s2, 2, 0.01);
      |s2.bodies| == |s3.bodies| == 4 && StepBody(s3, 3, 0.01) == After2()
  {
    var s1 := After1a();
    Flies(s1, 1, 0.01, 0.539, 280.067);
    var s2 := StepBody(s1, 1, 0.01);
    Flies(s2, 2, 0.01, 29.4, 306.2);
    var s3 := StepBody(s2, 2, 0.01);
    Flies(s3, 3, 0.01, 28.91, 274.23);
  }

  lemma {:induction false} BuriedFrame2()
    ensures Frame(After1(), 0, 0.01) == After2()
  {
    BuriedStep2();
    BuriedStep2b();
    var s2 := StepBody(After1a(), 1, 0.01);
    hide StepBody;
    FrameOf4(After1(), After1a(), s2, StepBody(s2, 2, 0.01), After2(), 0.01);
  }

  function After2a(): FallState {
    Column(Resting(Red, 0), IceBody(280.617, 0.55), Puyo(3, 306.2, 29.4), Puyo(4, 274.23, 28.91), Reowned(StartOwners(), 1, 0, 0))
  }

  function After2b(): FallState {
    Column(Resting(Red, 0), IceBody(280.617, 0.55), Resting(Red, 1), Puyo(4, 274.23, 28.91), Reowned(Reowned(StartOwners(), 1, 0, 0), 3, 1, 2))
  }

  lemma {:induction false} BuriedStep3a()
    ensures StepBody(After2(), 1, 0.01) == After2a()
  {
    Flies(After2(), 1, 0.01, 0.55, 280.617);
  }

  lemma {:induction false} BuriedStep3b()
    ensures StepBody(After2a(), 2, 0.01) == After2b()
  {
    OnBlock(After2a(), 2, 0, 336.2, 1);
    Lands(After2a(), 2, 0.01, 1);
  }

  lemma {:induction false} BuriedStep3c()
    ensures StepBody(After2b(), 3, 0.01) == After3()
  {
    OnBlock(After2b(), 3, 0, 303.73, 2);
    Lands(After2b(), 3, 0.01, 2);
  }

  lemma {:induction false} BuriedFrame3()
    ensures Frame(After2(), 0, 0.01) == After3()
  {
    BuriedStep3a();
    BuriedStep3b();
    BuriedStep3c();
    FrameOf4(After2(), After2(), After2a(), After2b(), After3(), 0.01);
  }

  lemma {:induction false} BuriedFrame4()
    ensures Frame(After3(), 0, 0.01) == After4()
  {
    OnBlock(After3(), 1, 0, 281.178, 2);
    Lands(After3(), 1, 0.01, 2);
    FrameOf4(After3(), After3(), After4(), After4(), After4(), 0.01);
  }

  lemma {:induction false} BuriedConsistent()
    ensures Consistent(BuriedIce()) && Room(BuriedIce(), [0, 0, 0, 0, 0, 0])
  {
    var s := BuriedIce();
    assert forall i :: 0 <= i < |s.bodies| ==> s.bodies[i].registered;
  }

  lemma {:induction false} BuriedStacked()
    ensures WellFormed(BuriedIce()) && Stacked(BuriedIce(), [0, 0, 0, 0, 0, 0])
  {
  }

  lemma {:induction false} BuriedAirborne()
    ensures Ordered(BuriedIce()) && Airborne(BuriedIce(), [0, 0, 0, 0, 0, 0])
  {
  }

  /** A legal start, ... */
  lemma {:induction false} BuriedIceStart()
    ensures FallInvariant(BuriedIce(), [0, 0, 0, 0, 0, 0], 0, 0.0) && Room(BuriedIce(), [0, 0, 0, 0, 0, 0])
    ensures !NoPuyoOverIce(BuriedIce())
  {
    BuriedConsistent();
    BuriedStacked();
    BuriedAirborne();
    BuriedApart();
    BuriedOutOfOrder();
    hide Consistent, WellFormed, Stacked, Ordered, Airborne, Apart, Room, NoPuyoOverIce, BuriedIce;
  }

  lemma {:induction false} BuriedOutOfOrder()
    ensures !NoPuyoOverIce(BuriedIce())
  {
    assert FallTogether(BuriedIce(), 1, 2);
  }

  lemma {:induction false} BuriedApart()
    ensures Apart(BuriedIce(), 0, 0.0)
  {
    hide Velocity, Acceleration;
  }

  lemma {:induction false} BuriedPaced()
    ensures Paced(BuriedIce(), 0, 0.48) && Paced(After1(), 0, 0.01) && Paced(After2(), 0, 0.01) && Paced(After3(), 0, 0.01)
  {
  }

  /** ... at no frame faster than one cell, ends with a resting block that is listed in row 2
      while the board holds the ice there: list and board have come apart. */
  lemma {:induction false} BuriedIceIsLost()
    ensures PacedRun(BuriedIce(), [0.48, 0.01, 0.01, 0.01])
    ensures Run(BuriedIce(), [0.48, 0.01, 0.01, 0.01]) == After4()
    ensures After4().bodies[3] == Resting(Red, 2) && After4().cells[Cell(0, 2)] == 1 && !Consistent(After4())
  {
    assert !Consistent(After4()) by { assert After4().bodies[3].registered; }
    hide Frame, Paced, After1, After2, After3, BuriedIce, Run, PacedRun;
    BuriedFrame1();
    BuriedFrame2();
    BuriedFrame3();
    BuriedFrame4();
    BuriedPaced();
    RunOf4(BuriedIce(), After1(), After2(), After3(), After4());
  }

  lemma {:induction false} RunOf4(s0: FallState, s1: FallState, s2: FallState, s3: FallState, s4: FallState)
    requires Frame(s0, 0, 0.48) == s1 && Frame(s1, 0, 0.01) == s2 && Frame(s2, 0, 0.01) == s3 && Frame(s3, 0, 0.01) == s4
    requires Paced(s0, 0, 0.48) && Paced(s1, 0, 0.01) && Paced(s2, 0, 0.01) && Paced(s3, 0, 0.01)
    ensures Run(s0, [0.48, 0.01, 0.01, 0.01]) == s4 && PacedRun(s0, [0.48, 0.01, 0.01, 0.01])
  {
    hide Frame, Paced;
    var d := [0.48, 0.01, 0.01, 0.01];
    assert d[1..] == [0.01, 0.01, 0.01] && d[1..][1..] == [0.01, 0.01] && d[1..][1..][1..] == [0.01] && d[1..][1..][1..][1..] == [];
    assert PacedRun(s4, []);
    assert PacedRun(s3, [0.01]) && Run(s3, [0.01]) == s4;
    assert PacedRun(s2, [0.01, 0.01]) && Run(s2, [0.01, 0.01]) == s4;
    assert PacedRun(s1, [0.01, 0.01, 0.01]) && Run(s1, [0.01, 0.01, 0.01]) == s4;
  }
}
