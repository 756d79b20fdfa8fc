/** Where list and board come apart: one coloured block too many above falling ice, or none to spare and a
    frame that is too long. */
module OvertakingLimits {
  import opened Geometry
  import opened Connectivity
  import opened BlockStates
  import opened Matching
  import opened Falling
  import opened FallingLimits
  import opened FallSpeed
  import opened FallingOrder
  import opened Settling
  import opened Overtaking

  /** A move past resting blocks that are all lower. */
  lemma {:induction false} FliesFree(s: FallState, n: int, dt: real, v: real, y: real)
    requires 0 <= n < |s.bodies| && s.bodies[n].state == DownMoving
    requires v == Velocity(s.bodies[n], dt) && y == s.bodies[n].posY + v && y + SIZE < HEIGHT
    requires forall k :: 0 <= k < |s.bodies| && s.bodies[k].state == Stationary ==> s.bodies[k].posY >= y.Floor as real + SIZE
    requires 0.0 <= y
    ensures StepBody(s, n, dt) == s.(bodies := s.bodies[n := s.bodies[n].(posY := y, velocity := v)])
  {
    forall k | 0 <= k < BOARD_Y_COUNT
      ensures !Blocks(s, n, Cell(s.bodies[n].x, k), y)
    {
    }
    hide Blocks, Velocity;
    Flies(s, n, dt, v, y);
  }

  /** A block of column 0 that has been falling from row `y` since the clock started. */
  function Rider(kind: BlockType, y: int, c: Clock): Body {
    var a := Acceleration(Body(kind, DownMoving, 0, y, 0.0, 0.0, true));
    Body(kind, DownMoving, 0, y, RowY(y) + Gain(a, c.way), Gain(a, c.speed), true)
  }

  /** A move that ends above everything that rests in the column. */
  lemma {:induction false} RiderFlies(s: FallState, n: int, kind: BlockType, y: int, c: Clock, dt: real)
    requires 0 <= n < |s.bodies| && s.bodies[n] == Rider(kind, y, c)
    requires 0.0 <= Rider(kind, y, After(c, dt)).posY < HEIGHT - SIZE
    requires forall k :: 0 <= k < |s.bodies| && s.bodies[k].state == Stationary ==>
      s.bodies[k].posY >= Rider(kind, y, After(c, dt)).posY.Floor as real + SIZE
    ensures StepBody(s, n, dt) == s.(bodies := s.bodies[n := Rider(kind, y, After(c, dt))])
  {
    RiderMoves(kind, y, c, dt);
    var r := Rider(kind, y, After(c, dt));
    hide Rider, After, Velocity, StepBody;
    FliesFree(s, n, dt, r.velocity, r.posY);
  }

  lemma {:induction false} RiderMoves(kind: BlockType, y: int, c: Clock, dt: real)
    ensures
      var b, r := Rider(kind, y, c), Rider(kind, y, After(c, dt));
      && b.state == DownMoving && r.velocity == Velocity(b, dt) && r.posY == b.posY + r.velocity
      && r == b.(posY := r.posY, velocity := r.velocity)
  {
    var b := Rider(kind, y, c);
    var a := Acceleration(b);
    SameFall(b, Body(kind, DownMoving, 0, y, 0.0, 0.0, true));
    VelocityIs(b, dt);
    GainMore(a, c.speed, dt);
    GainMore(a, c.way, c.speed + dt);
    hide Acceleration, Velocity, Gain, RowY;
  }

  lemma {:induction false} RiderIs(c: Clock)
    ensures Rider(Red, 1, c) == Puyo(1, 310.0 + 62.0 * c.way, 62.0 * c.speed)
    ensures Rider(Ice, 2, c) == IceBody(279.0 + 1.1 * c.way, 1.1 * c.speed)
    ensures Rider(Red, 3, c) == Puyo(3, 248.0 + 60.0 * c.way, 60.0 * c.speed)
    ensures Rider(Red, 4, c) == Puyo(4, 217.0 + 59.0 * c.way, 59.0 * c.speed)
  {
  }

  lemma {:induction false} RowZero()
    ensures RowY(0) == 341.0 && HEIGHT == 372.0 && SIZE == 31.0
  {
  }

  // ---------------------------------------------------------------- a block, ice, and two blocks above it

  /** The three upper blocks on clocks of their own. */
  function Trio(b: Body, c1: Clock, c2: Clock, c3: Clock, cells: map<Cell, int>): FallState {
    Column(b, Rider(Ice, 2, c1), Rider(Red, 3, c2), Rider(Red, 4, c3), cells)
  }

  ghost predicate OutOfTheWay(b: Body) {
    b.state == Stationary ==> b.posY == RowY(0)
  }

  lemma {:induction false} IceFlies(b: Body, c: Clock, c2: Clock, c3: Clock, cells: map<Cell, int>, dt: real)
    requires OutOfTheWay(b) && 0.0 <= After(c, dt).way <= 1.1
    ensures StepBody(Trio(b, c, c2, c3, cells), 1, dt) == Trio(b, After(c, dt), c2, c3, cells)
  {
    RiderIs(After(c, dt));
    RowZero();
    hide After, StepBody, RowY;
    RiderFlies(Trio(b, c, c2, c3, cells), 1, Ice, 2, c, dt);
  }

  lemma {:induction false} LowerFlies(b: Body, c1: Clock, c: Clock, c3: Clock, cells: map<Cell, int>, dt: real)
    requires OutOfTheWay(b) && 0.0 <= After(c, dt).way <= 1.0
    ensures StepBody(Trio(b, c1, c, c3, cells), 2, dt) == Trio(b, c1, After(c, dt), c3, cells)
  {
    RiderIs(After(c, dt));
    RowZero();
    hide After, StepBody, RowY;
    RiderFlies(Trio(b, c1, c, c3, cells), 2, Red, 3, c, dt);
  }

  lemma {:induction false} UpperFlies(b: Body, c1: Clock, c2: Clock, c: Clock, cells: map<Cell, int>, dt: real)
    requires OutOfTheWay(b) && 0.0 <= After(c, dt).way <= 1.0
    ensures StepBody(Trio(b, c1, c2, c, cells), 3, dt) == Trio(b, c1, c2, After(c, dt), cells)
  {
    RiderIs(After(c, dt));
    RowZero();
    hide After, StepBody, RowY;
    RiderFlies(Trio(b, c1, c2, c, cells), 3, Red, 4, c, dt);
  }

  /** A frame in which all three fall on. */
  lemma {:induction false} TrioFlies(b: Body, c: Clock, cells: map<Cell, int>, dt: real)
    requires OutOfTheWay(b) && 0.0 <= After(c, dt).way <= 1.0
    ensures Frame(Trio(b, c, c, c, cells), 1, dt) == Trio(b, After(c, dt), After(c, dt), After(c, dt), cells)
  {
    var d := After(c, dt);
    IceFlies(b, c, c, c, cells, dt);
    LowerFlies(b, d, c, c, cells, dt);
    UpperFlies(b, d, d, c, cells, dt);
    TrioSize(b, c, c, c, cells);
    TrioSize(b, d, c, c, cells);
    TrioSize(b, d, d, c, cells);
    TrioSize(b, d, d, d, cells);
    hide *;
    FrameUnfold(Trio(b, c, c, c, cells), 1, dt);
    FrameUnfold(Trio(b, d, c, c, cells), 2, dt);
    FrameUnfold(Trio(b, d, d, c, cells), 3, dt);
    FrameDone(Trio(b, d, d, d, cells), dt);
  }

  lemma {:induction false} TrioSize(b: Body, c1: Clock, c2: Clock, c3: Clock, cells: map<Cell, int>)
    ensures |Trio(b, c1, c2, c3, cells).bodies| == 4
  {
  }

  // ---------------------------------------------------------------- short frames and one block too many

  const TICK := 0.02

  /** The clock after `k` frames of that length. */
  function Tick(k: nat): Clock {
    Clock(TICK * k as real, (k * (k + 1)) as real * 0.01)
  }

  lemma {:induction false} NextTick(k: nat)
    ensures After(Tick(k), TICK) == Tick(k + 1)
  {
    assert (k + 1) * (k + 2) == k * (k + 1) + 2 * (k + 1);
  }

  lemma {:induction false} TickBounds(k: nat)
    ensures k <= 6 ==> 0.0 <= Tick(k).way <= 0.42
    ensures k <= 9 ==> 0.0 <= Tick(k).way <= 0.9
    ensures 0.0 <= Tick(k).speed && (k <= 10 ==> Tick(k).speed <= 0.2)
  {
    if k <= 6 { assert k * (k + 1) <= 6 * 7; }
    if k <= 9 { assert k * (k + 1) <= 9 * 10; }
  }

  /** All four blocks are falling. */
  function Air(c: Clock): FallState {
    Trio(Rider(Red, 1, c), c, c, c, StartOwners())
  }

  /** The lowest one has landed. */
  function Fallen(c: Clock): FallState {
    Trio(FallingLimits.Resting(Red, 0), c, c, c, Reowned(StartOwners(), 1, 0, 0))
  }

  lemma {:induction false} AirIsPaced(c: Clock)
    requires 0.0 <= c.speed <= 0.2
    ensures Paced(Air(c), 0, TICK) && Paced(Fallen(c), 0, TICK)
  {
    RiderPaced(c);
    hide Rider, Velocity;
  }

  lemma {:induction false} RiderPaced(c: Clock)
    requires 0.0 <= c.speed <= 0.2
    ensures Velocity(Rider(Red, 1, c), TICK) <= SIZE && Velocity(Rider(Ice, 2, c), TICK) <= SIZE
    ensures Velocity(Rider(Red, 3, c), TICK) <= SIZE && Velocity(Rider(Red, 4, c), TICK) <= SIZE
  {
    RiderIs(c);
    hide Rider;
  }

  lemma {:induction false} LowestFlies(c: Clock)
    requires 0.0 <= After(c, TICK).way <= 0.42
    ensures StepBody(Air(c), 0, TICK) == Trio(Rider(Red, 1, After(c, TICK)), c, c, c, StartOwners())
  {
    RiderIs(After(c, TICK));
    RowZero();
    hide After, StepBody, RowY;
    RiderFlies(Air(c), 0, Red, 1, c, TICK);
  }

  lemma {:induction false} AirFrame(k: nat)
    requires k < 6
    ensures Frame(Air(Tick(k)), 0, TICK) == Air(Tick(k + 1)) && Paced(Air(Tick(k)), 0, TICK)
  {
    var c, d := Tick(k), Tick(k + 1);
    TickBounds(k);
    TickBounds(k + 1);
    NextTick(k);
    AirIsPaced(c);
    LowestFlies(c);
    TrioFlies(Rider(Red, 1, d), c, StartOwners(), TICK);
    FrameFromAir(c);
  }

  lemma {:induction false} FrameFromAir(c: Clock)
    ensures Frame(Air(c), 0, TICK) == Frame(StepBody(Air(c), 0, TICK), 1, TICK)
  {
    FrameUnfold(Air(c), 0, TICK);
    hide Frame, StepBody, Rider;
  }

  /** In the seventh frame the lowest block lands. */
  lemma {:induction false} LowestLands()
    ensures StepBody(Air(Tick(6)), 0, TICK) == Fallen(Tick(6))
  {
    NothingRests();
    LowestMoves();
    LowestLanded();
    hide Blocks, Velocity, Acceleration, Outcome, StepBody, Landed, RowY, Air, Fallen;
    OnFloor(Air(Tick(6)), 0, 0, 344.72);
    FallingLimits.Lands(Air(Tick(6)), 0, TICK, 0);
  }

  lemma {:induction false} LowestMoves()
    ensures Air(Tick(6)).bodies[0].posY + Velocity(Air(Tick(6)).bodies[0], TICK) == 344.72
    ensures Air(Tick(6)).bodies[0].state == DownMoving && Air(Tick(6)).bodies[0].x == 0
  {
    RiderIs(Tick(6));
    hide Rider;
  }

  lemma {:induction false} NothingRests()
    ensures |Air(Tick(6)).bodies| == 4 && forall k :: 0 <= k < BOARD_Y_COUNT ==> !Blocks(Air(Tick(6)), 0, Cell(0, k), 344.72)
  {
  }

  lemma {:induction false} LowestLanded()
    ensures |Air(Tick(6)).bodies| == 4 && Landed(Air(Tick(6)), 0, 0) == Fallen(Tick(6))
  {
    hide Rider;
    var c := Tick(6);
    assert Rider(Red, 1, c).kind == Red && Rider(Red, 1, c).x == 0 && Rider(Red, 1, c).y == 1 && Rider(Red, 1, c).registered by {
      RiderIs(c);
    }
  }

  /** With the lowest block at rest the other three fall on. */
  lemma {:induction false} UpperFall(k: nat)
    requires k < 9
    ensures Frame(Fallen(Tick(k)), 1, TICK) == Fallen(Tick(k + 1))
  {
    TickBounds(k);
    TickBounds(k + 1);
    NextTick(k);
    TrioFlies(FallingLimits.Resting(Red, 0), Tick(k), Reowned(StartOwners(), 1, 0, 0), TICK);
    hide Frame, Tick, After, Trio;
  }

  lemma {:induction false} LandingFrame()
    ensures Frame(Air(Tick(6)), 0, TICK) == Fallen(Tick(7)) && Paced(Air(Tick(6)), 0, TICK)
  {
    hide *;
    TickBounds(6);
    AirIsPaced(Tick(6));
    LowestLands();
    FrameFromAir(Tick(6));
    UpperFall(6);
  }

  lemma {:induction false} FallenFrame(k: nat)
    requires k < 9
    ensures Frame(Fallen(Tick(k)), 0, TICK) == Fallen(Tick(k + 1)) && Paced(Fallen(Tick(k)), 0, TICK)
  {
    hide *;
    TickBounds(k);
    AirIsPaced(Tick(k));
    FrameFromFallen(Tick(k));
    UpperFall(k);
  }

  lemma {:induction false} FrameFromFallen(c: Clock)
    ensures Frame(Fallen(c), 0, TICK) == Frame(Fallen(c), 1, TICK)
  {
    FrameUnfold(Fallen(c), 0, TICK);
    hide Frame, StepBody, Rider;
  }

  /** In the tenth frame two of them land, the second one in the ice's cell. */
  function PastIce(): FallState {
    Column(FallingLimits.Resting(Red, 0), IceBody(280.21, 0.22), FallingLimits.Resting(Red, 1), Rider(Red, 4, Tick(9)),
           Reowned(Reowned(StartOwners(), 1, 0, 0), 3, 1, 2))
  }

  function Lost(): FallState {
    Column(FallingLimits.Resting(Red, 0), IceBody(280.21, 0.22), FallingLimits.Resting(Red, 1), FallingLimits.Resting(Red, 2),
           Reowned(Reowned(Reowned(StartOwners(), 1, 0, 0), 3, 1, 2), 4, 2, 3))
  }

  function Passing(): FallState {
    Trio(FallingLimits.Resting(Red, 0), Tick(10), Tick(9), Tick(9), Reowned(StartOwners(), 1, 0, 0))
  }

  lemma {:induction false} PassingIs()
    ensures Passing() == Column(FallingLimits.Resting(Red, 0), IceBody(280.21, 0.22), Puyo(3, 302.0, 10.8), Puyo(4, 270.1, 10.62),
                                Reowned(StartOwners(), 1, 0, 0))
    ensures Rider(Red, 4, Tick(9)) == Puyo(4, 270.1, 10.62)
  {
    RiderIs(Tick(9));
    RiderIs(Tick(10));
    hide Rider;
  }

  lemma {:induction false} LowerLands()
    ensures StepBody(Passing(), 2, TICK) == PastIce()
  {
    PassingIs();
    hide Rider, Passing;
    var s := Passing();
    OnBlock(s, 2, 0, 314.0, 1);
    FallingLimits.Lands(s, 2, TICK, 1);
  }

  lemma {:induction false} UpperLands()
    ensures StepBody(PastIce(), 3, TICK) == Lost()
  {
    PassingIs();
    hide Rider, Passing;
    var s := PastIce();
    OnBlock(s, 3, 0, 281.9, 2);
    FallingLimits.Lands(s, 3, TICK, 2);
  }

  lemma {:induction false} IceSinks()
    ensures StepBody(Fallen(Tick(9)), 1, TICK) == Passing()
  {
    TickBounds(9);
    NextTick(9);
    TenthWay();
    IceFlies(FallingLimits.Resting(Red, 0), Tick(9), Tick(9), Tick(9), Reowned(StartOwners(), 1, 0, 0), TICK);
    hide StepBody, Tick, After, Trio;
  }

  lemma {:induction false} TenthWay()
    ensures Tick(10).way == 1.1
  {
  }

  lemma {:induction false} LastSizes()
    ensures |Fallen(Tick(9)).bodies| == |Passing().bodies| == |PastIce().bodies| == |Lost().bodies| == 4
  {
    hide Rider, Tick;
  }

  lemma {:induction false} LastFrame()
    ensures Frame(Fallen(Tick(9)), 0, TICK) == Lost() && Paced(Fallen(Tick(9)), 0, TICK)
  {
    hide *;
    TickBounds(9);
    AirIsPaced(Tick(9));
    FrameFromFallen(Tick(9));
    IceSinks();
    LowerLands();
    UpperLands();
    LastSizes();
    FrameUnfold(Fallen(Tick(9)), 1, TICK);
    FrameUnfold(Passing(), 2, TICK);
    FrameUnfold(PastIce(), 3, TICK);
    FrameDone(Lost(), TICK);
  }

  // the whole run

  function ShortFrames(m: nat): seq<real> {
    if m == 0 then [] else [TICK] + ShortFrames(m - 1)
  }

  lemma {:induction false} NextState(s: FallState, s': FallState, m: nat)
    requires Frame(s, 0, TICK) == s' && Paced(s, 0, TICK)
    ensures Run(s, ShortFrames(m + 1)) == Run(s', ShortFrames(m)) && (PacedRun(s', ShortFrames(m)) ==> PacedRun(s, ShortFrames(m + 1)))
  {
    FirstOf(s, TICK, ShortFrames(m));
    hide Frame, Paced, Run, PacedRun;
  }

  lemma {:induction false} AirRun(k: nat)
    requires k <= 6
    ensures Run(Air(Tick(k)), ShortFrames(10 - k)) == Lost() && PacedRun(Air(Tick(k)), ShortFrames(10 - k))
    decreases 6 - k
  {
    hide *;
    if k < 6 {
      AirFrame(k);
      AirRun(k + 1);
      NextState(Air(Tick(k)), Air(Tick(k + 1)), 9 - k);
    } else {
      LandingFrame();
      FallenRun(7);
      NextState(Air(Tick(6)), Fallen(Tick(7)), 3);
    }
  }

  lemma {:induction false} FallenRun(k: nat)
    requires 7 <= k <= 9
    ensures Run(Fallen(Tick(k)), ShortFrames(10 - k)) == Lost() && PacedRun(Fallen(Tick(k)), ShortFrames(10 - k))
    decreases 9 - k
  {
    hide *;
    if k < 9 {
      FallenFrame(k);
      FallenRun(k + 1);
      NextState(Fallen(Tick(k)), Fallen(Tick(k + 1)), 9 - k);
    } else {
      LastFrame();
      NoTicks(Lost());
      NextState(Fallen(Tick(9)), Lost(), 0);
    }
  }

  lemma {:induction false} NoTicks(s: FallState)
    ensures Run(s, ShortFrames(0)) == s && PacedRun(s, ShortFrames(0)) && ShortFrames(0) == []
  {
  }

  lemma {:induction false} ShortFramesAre(m: nat)
    ensures AllShort(ShortFrames(m)) && |ShortFrames(m)| == m
    decreases m
  {
    if m > 0 { ShortFramesAre(m - 1); }
  }

  lemma {:induction false} LowRows()
    ensures RowY(1) == 310.0 && RowY(2) == 279.0 && RowY(3) == 248.0 && RowY(4) == 217.0
    ensures Tick(0) == Clock(0.0, 0.0)
  {
  }

  lemma {:induction false} BuriedIsAir()
    ensures Air(Tick(0)) == BuriedIce()
  {
    LowRows();
    RiderIs(Tick(0));
    hide Rider, RowY, Tick, StartOwners;
  }

  lemma {:induction false} LostIsLost()
    ensures Lost().bodies[1].registered && Lost().bodies[1].y == 2 && Lost().cells[Cell(0, 2)] == 3 && !Consistent(Lost())
  {
  }

  /** Two coloured blocks above ice over one freed cell are one too many in short frames as well: in the tenth
      frame of 1/50 the second of them takes the cell that the ice still has. */
  lemma {:induction false} BuriedIceIsLostInShortFrames()
    ensures AllShort(ShortFrames(10)) && |ShortFrames(10)| == 10 && PacedRun(BuriedIce(), ShortFrames(10))
    ensures Run(BuriedIce(), ShortFrames(10)) == Lost() && !Consistent(Lost())
  {
    hide *;
    BuriedIsAir();
    LostIsLost();
    ShortFramesAre(10);
    AirRun(0);
  }

  /** What breaks there is the room: the ice has three blocks that can come to rest before it and two rows. */
  lemma {:induction false} BuriedIceHasNoRoom()
    ensures AboutToFall(BuriedIce()) && !RoomBelow(BuriedIce(), 0)
  {
    BuriedStart();
    BuriedAhead();
    hide AboutToFall, Ahead;
  }

  lemma {:induction false} BuriedAhead()
    ensures |BuriedIce().bodies| == 4 && Ahead(BuriedIce(), 1) == {0, 2, 3} && BuriedIce().bodies[1].y == 2
  {
    hide RowY;
  }

  lemma {:induction false} BuriedStart()
    ensures AboutToFall(BuriedIce())
  {
    BuriedConsistent();
    BuriedStacked();
    BuriedBodies();
    CloseAbout(BuriedIce());
  }

  lemma {:induction false} BuriedBodies()
    ensures FreshColumn(BuriedIce()) && forall c :: !RestsAt(BuriedIce(), c)
  {
    hide RowY;
  }

  /** Everything starts from its row and without speed, listed in the order of the rows. */
  ghost predicate FreshColumn(s: FallState) {
    && (forall i :: 0 <= i < |s.bodies| ==>
          s.bodies[i].registered && s.bodies[i].posY == RowY(s.bodies[i].y) && s.bodies[i].velocity == 0.0)
    && (forall i, j :: 0 <= i < j < |s.bodies| ==> s.bodies[i].y < s.bodies[j].y)
  }

  lemma {:induction false} CloseAbout(s: FallState)
    requires Consistent(s) && WellFormed(s) && FreshColumn(s) && forall c :: RestsAt(s, c) ==> c.y <= 0
    ensures AboutToFall(s)
  {
    hide Consistent, WellFormed, RowY, RestsAt;
  }

  // ---------------------------------------------------------------- none to spare, and a long frame

  function Floor(): Body {
    FallingLimits.Resting(Red, 0)
  }

  function Cells3(ice: int, puyo: int): map<Cell, int> {
    map[Cell(0, 0) := 0, Cell(0, ice) := 1, Cell(0, puyo) := 2]
  }

  /** The cell above the lowest block has been cleared; above it ice, and one coloured block. */
  function Tight(): FallState {
    FallState([Floor(), IceBody(RowY(2), 0.0), Puyo(3, RowY(3), 0.0)], Cells3(2, 3))
  }

  lemma {:induction false} TightConsistent()
    ensures Consistent(Tight()) && WellFormed(Tight())
  {
    hide RowY;
  }

  lemma {:induction false} TightBodies()
    ensures FreshColumn(Tight()) && forall c :: RestsAt(Tight(), c) ==> c.y <= 0
  {
    hide RowY;
  }

  lemma {:induction false} TightAhead()
    ensures |Tight().bodies| == 3 && Ahead(Tight(), 1) == {0, 2} && Ahead(Tight(), 2) == {0, 1}
  {
    hide RowY;
  }

  lemma {:induction false} TightRows()
    ensures |Tight().bodies| == 3 && Tight().bodies[0].state == Stationary && Tight().bodies[1].y == 2 && Tight().bodies[2].y == 3
    ensures Tight().bodies[1].state == DownMoving
  {
    hide RowY;
  }

  lemma {:induction false} TightRoom()
    ensures RoomBelow(Tight(), 0) && !RoomBelow(Tight(), 1)
  {
    TightAhead();
    TightRows();
    hide Tight, Ahead;
  }

  /** Here nothing can find its row taken, but there is no row to spare. */
  lemma {:induction false} TightStart()
    ensures AboutToFall(Tight()) && RoomBelow(Tight(), 0) && !RoomBelow(Tight(), 1)
  {
    hide *;
    TightConsistent();
    TightBodies();
    CloseAbout(Tight());
    TightRoom();
  }

  /** The two on clocks of their own. */
  function Duo(c1: Clock, c2: Clock): FallState {
    FallState([Floor(), Rider(Ice, 2, c1), Rider(Red, 3, c2)], Cells3(2, 3))
  }

  lemma {:induction false} DuoIce(c: Clock, c2: Clock, dt: real)
    requires 0.0 <= After(c, dt).way <= 2.0
    ensures StepBody(Duo(c, c2), 1, dt) == Duo(After(c, dt), c2)
  {
    RiderIs(After(c, dt));
    RowZero();
    hide After, StepBody, RowY;
    RiderFlies(Duo(c, c2), 1, Ice, 2, c, dt);
  }

  lemma {:induction false} DuoPuyo(c1: Clock, c: Clock, dt: real)
    requires 0.0 <= After(c, dt).way <= 1.0
    ensures StepBody(Duo(c1, c), 2, dt) == Duo(c1, After(c, dt))
  {
    RiderIs(After(c, dt));
    RowZero();
    hide After, StepBody, RowY;
    RiderFlies(Duo(c1, c), 2, Red, 3, c, dt);
  }

  lemma {:induction false} DuoSize(c1: Clock, c2: Clock)
    ensures |Duo(c1, c2).bodies| == 3 && Duo(c1, c2).bodies[0].state == Stationary
  {
  }

  lemma {:induction false} DuoPaced(c: Clock, dt: real)
    requires 0.0 <= c.speed && 0.0 <= dt && c.speed + dt <= 0.5
    ensures Paced(Duo(c, c), 0, dt)
  {
    RiderIs(c);
    hide Rider;
  }

  lemma {:induction false} DuoFrame(c: Clock, dt: real)
    requires 0.0 <= c.way && c.way + c.speed + dt <= 1.0 && 0.0 <= c.speed && 0.0 <= dt && c.speed + dt <= 0.5
    ensures Frame(Duo(c, c), 0, dt) == Duo(After(c, dt), After(c, dt)) && Paced(Duo(c, c), 0, dt)
  {
    var d := After(c, dt);
    DuoPaced(c, dt);
    DuoIce(c, c, dt);
    DuoPuyo(d, c, dt);
    DuoSize(c, c);
    DuoSize(d, c);
    DuoSize(d, d);
    hide *;
    FrameUnfold(Duo(c, c), 0, dt);
    FrameUnfold(Duo(c, c), 1, dt);
    FrameUnfold(Duo(d, c), 2, dt);
    FrameDone(Duo(d, d), dt);
  }

  lemma {:induction false} TightIsDuo()
    ensures Duo(Clock(0.0, 0.0), Clock(0.0, 0.0)) == Tight()
  {
    LowRows();
    RiderIs(Clock(0.0, 0.0));
    hide Rider, RowY, Cells3;
  }

  /** In the third frame the coloured block runs past the ice. */
  function NextToIce(): FallState {
    FallState([Floor(), IceBody(280.584, 0.528), Puyo(3, 305.6, 28.8)], Cells3(2, 3))
  }

  function Beneath(): FallState {
    FallState([Floor(), IceBody(280.584, 0.528), FallingLimits.Resting(Red, 1)], Reowned(Cells3(2, 3), 3, 1, 2))
  }

  /** In a frame of 27.5 the ice comes as far as the lower half of the block on which it should rest, hits
      the block below first, and takes over the cell above that. */
  function Crushed(): FallState {
    FallState([Floor(), FallingLimits.Resting(Ice, 1), FallingLimits.Resting(Red, 1)], Reowned(Reowned(Cells3(2, 3), 3, 1, 2), 2, 1, 1))
  }

  lemma {:induction false} BesideIs()
    ensures Duo(Clock(0.48, 1.44), Clock(0.48, 0.96)) == NextToIce()
  {
    RiderIs(Clock(0.48, 1.44));
    RiderIs(Clock(0.48, 0.96));
    hide Rider, Cells3;
  }

  lemma {:induction false} PuyoLands()
    ensures StepBody(NextToIce(), 2, 0.0) == Beneath()
  {
    OnBlock(NextToIce(), 2, 0, 334.4, 1);
    FallingLimits.Lands(NextToIce(), 2, 0.0, 1);
  }

  lemma {:induction false} IceLands()
    ensures StepBody(Beneath(), 1, 27.5) == Crushed()
  {
    OnBlock(Beneath(), 1, 0, 311.362, 1);
    FallingLimits.Lands(Beneath(), 1, 27.5, 1);
  }

  lemma {:induction false} BesideSizes()
    ensures |Beneath().bodies| == |NextToIce().bodies| == |Crushed().bodies| == 3
    ensures Beneath().bodies[0].state == Stationary && Crushed().bodies[2].state == Stationary
  {
  }

  lemma {:induction false} ThirdFrame()
    ensures
      var c := Clock(0.48, 0.96);
      Frame(Duo(c, c), 0, 0.0) == Beneath() && Paced(Duo(c, c), 0, 0.0)
  {
    var c := Clock(0.48, 0.96);
    assert After(c, 0.0) == Clock(0.48, 1.44);
    DuoIce(c, c, 0.0);
    DuoPaced(c, 0.0);
    hide *;
    BesideIs();
    PuyoLands();
    DuoSize(c, c);
    BesideSizes();
    FrameUnfold(Duo(c, c), 0, 0.0);
    FrameUnfold(Duo(c, c), 1, 0.0);
    FrameUnfold(NextToIce(), 2, 0.0);
    FrameDone(Beneath(), 0.0);
  }

  lemma {:induction false} LongIsPaced()
    ensures Paced(Beneath(), 0, 27.5)
  {
  }

  lemma {:induction false} LongFrame()
    ensures Frame(Beneath(), 0, 27.5) == Crushed() && Paced(Beneath(), 0, 27.5)
  {
    hide *;
    LongIsPaced();
    IceLands();
    BesideSizes();
    FrameUnfold(Beneath(), 0, 27.5);
    FrameUnfold(Beneath(), 1, 27.5);
    FrameUnfold(Crushed(), 2, 27.5);
    FrameDone(Crushed(), 27.5);
  }

  lemma {:induction false} CrushedIsLost()
    ensures !Consistent(Crushed())
  {
    assert Crushed().bodies[2].registered && Crushed().cells[Cell(0, 1)] == 1;
  }

  lemma {:induction false} RunOf(s0: FallState, s1: FallState, s2: FallState, s3: FallState, s4: FallState, d: seq<real>)
    requires |d| == 4 && d[0] >= 0.0 && d[1] >= 0.0 && d[2] >= 0.0 && d[3] >= 0.0
    requires Frame(s0, 0, d[0]) == s1 && Frame(s1, 0, d[1]) == s2 && Frame(s2, 0, d[2]) == s3 && Frame(s3, 0, d[3]) == s4
    requires Paced(s0, 0, d[0]) && Paced(s1, 0, d[1]) && Paced(s2, 0, d[2]) && Paced(s3, 0, d[3])
    ensures Run(s0, d) == s4 && PacedRun(s0, d)
  {
    assert d == [d[0]] + ([d[1]] + ([d[2]] + ([d[3]] + [])));
    NoTicks(s4);
    hide *;
    FirstOf(s3, d[3], []);
    FirstOf(s2, d[2], [d[3]] + []);
    FirstOf(s1, d[1], [d[2]] + ([d[3]] + []));
    FirstOf(s0, d[0], [d[1]] + ([d[2]] + ([d[3]] + [])));
  }

  lemma {:induction false} NextClock(speed: real, way: real, dt: real, speed': real, way': real)
    requires speed' == speed + dt && way' == way + speed'
    ensures After(Clock(speed, way), dt) == Clock(speed', way')
  {
  }

  lemma {:induction false} FirstFrames()
    ensures
      var c0, c1, c2 := Clock(0.0, 0.0), Clock(0.48, 0.48), Clock(0.48, 0.96);
      && Frame(Duo(c0, c0), 0, 0.48) == Duo(c1, c1) && Paced(Duo(c0, c0), 0, 0.48)
      && Frame(Duo(c1, c1), 0, 0.0) == Duo(c2, c2) && Paced(Duo(c1, c1), 0, 0.0)
  {
    hide *;
    NextClock(0.0, 0.0, 0.48, 0.48, 0.48);
    NextClock(0.48, 0.48, 0.0, 0.48, 0.96);
    DuoFrame(Clock(0.0, 0.0), 0.48);
    DuoFrame(Clock(0.48, 0.48), 0.0);
  }

  /** With no row to spare, frames that move nothing by more than a cell are not enough: in the last one the
      ice takes the cell of the block that has come to rest below it. */
  lemma {:induction false} TightIceIsLost()
    ensures PacedRun(Tight(), [0.48, 0.0, 0.0, 27.5]) && Run(Tight(), [0.48, 0.0, 0.0, 27.5]) == Crushed() && !Consistent(Crushed())
  {
    hide *;
    FirstFrames();
    TightIsDuo();
    ThirdFrame();
    LongFrame();
    CrushedIsLost();
    var c1, c2 := Clock(0.48, 0.48), Clock(0.48, 0.96);
    RunOf(Tight(), Duo(c1, c1), Duo(c2, c2), Beneath(), Crushed(), [0.48, 0.0, 0.0, 27.5]);
  }
}
