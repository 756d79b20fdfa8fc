/** Exactly when a fall keeps the blocks of every column in order: with a coloured block above falling
    ice some run of slow frames breaks it, otherwise none does. */
module FallingOrder {
  import opened Geometry
  import opened Connectivity
  import opened BlockStates
  import opened Matching
  import opened Falling
  import opened FallSpeed
  import opened Settling
  import opened Resting

  /** No falling block of a column is overtaken: what is above it still falls too, at least a
      block away. */
  ghost predicate InOrder(s: FallState) {
    forall i, j :: 0 <= i < j < |s.bodies| && s.bodies[i].x == s.bodies[j].x && s.bodies[i].state == DownMoving ==>
      s.bodies[j].state == DownMoving && s.bodies[i].posY >= s.bodies[j].posY + SIZE
  }

  /** Whatever the frames, as long as none moves anything by more than a cell, no block is
      overtaken and no distance shrinks. */
  ghost predicate OrderKept(s: FallState) {
    forall dts :: PacedRun(s, dts) ==> InOrder(Run(s, dts)) && GapsGrow(s, Run(s, dts))
  }

  /** Every falling block has a free row somewhere below it. */
  ghost predicate Lifted(s: FallState) {
    forall i :: 0 <= i < |s.bodies| && s.bodies[i].state == DownMoving ==> Rank(s.bodies, i) < s.bodies[i].y
  }

  lemma {:induction false} FallIsInOrder(s: FallState, hs: seq<int>)
    requires FallInvariant(s, hs, 0, 0.0)
    ensures InOrder(s)
  {
    OpenFall(s, hs);
    hide FallInvariant, Consistent, WellFormed, Stacked, Airborne, Velocity, RowY;
    forall i, j | 0 <= i < j < |s.bodies| && s.bodies[i].x == s.bodies[j].x && s.bodies[i].state == DownMoving
      ensures s.bodies[j].state == DownMoving && s.bodies[i].posY >= s.bodies[j].posY + SIZE
    {
      assert FallTogether(s, i, j);
    }
  }

  lemma {:induction false} OrderIsKept(s: FallState)
    requires AboutToFall(s) && NoPuyoOverIce(s)
    ensures OrderKept(s)
  {
    FallStarts(s);
    StartRoom(s);
    hide *;
    HeightsSix(s);
    forall dts | PacedRun(s, dts)
      ensures InOrder(Run(s, dts)) && GapsGrow(s, Run(s, dts))
    {
      var hs' := RunKeeps(s, Heights(s), dts);
      FallIsInOrder(Run(s, dts), hs');
    }
    CloseKept(s);
  }

  lemma {:induction false} CloseKept(s: FallState)
    requires forall dts :: PacedRun(s, dts) ==> InOrder(Run(s, dts)) && GapsGrow(s, Run(s, dts))
    ensures OrderKept(s)
  {
    hide PacedRun, Run, InOrder, GapsGrow;
  }

  lemma {:induction false} HeightsSix(s: FallState)
    ensures |Heights(s)| == BOARD_X_COUNT
  {
  }

  lemma {:induction false} StartRoom(s: FallState)
    requires AboutToFall(s)
    ensures Room(s, Heights(s))
  {
    hide Consistent, WellFormed, RowY, Heights;
  }

  // ---------------------------------------------------------------- one column of a fall

  /** The same fall with everything turned to ice but what column `x` lists up to block `i`. */
  function Tamed(s: FallState, x: int, i: int): (t: FallState)
    ensures |t.bodies| == |s.bodies| && t.cells == s.cells
    ensures forall k :: 0 <= k < |s.bodies| ==> t.bodies[k] == TamedBody(s.bodies[k], s.bodies[k].x == x && k <= i)
  {
    s.(bodies := seq(|s.bodies|, k requires 0 <= k < |s.bodies| => TamedBody(s.bodies[k], s.bodies[k].x == x && k <= i)))
  }

  function TamedBody(b: Body, keep: bool): Body {
    if keep then b else b.(kind := Ice)
  }

  /** Two falls that go alike in column `x` up to block `i`, while everything above it falls. */
  ghost predicate Coupled(s: FallState, t: FallState, x: int, i: int) {
    && |s.bodies| == |t.bodies|
    && (forall k :: 0 <= k < |s.bodies| ==> s.bodies[k].x == t.bodies[k].x)
    && (forall k :: 0 <= k < |s.bodies| && k <= i && s.bodies[k].x == x ==> s.bodies[k] == t.bodies[k])
    && (forall k :: 0 <= k < |s.bodies| && i < k && s.bodies[k].x == x ==> s.bodies[k].state == t.bodies[k].state == DownMoving)
    && (forall c: Cell :: c.x == x ==> (c in s.cells <==> c in t.cells))
    && (forall c: Cell :: c.x == x && c in s.cells ==>
          s.cells[c] == t.cells[c] && (0 <= s.cells[c] < |s.bodies| ==> s.bodies[s.cells[c]].x == x))
  }

  lemma {:induction false} SameBlocks(s: FallState, t: FallState, x: int, i: int, n: int, c: Cell, y: real)
    requires Coupled(s, t, x, i) && c.x == x
    ensures Blocks(s, n, c, y) <==> Blocks(t, n, c, y)
    ensures Blocks(s, n, c, y) ==> s.bodies[s.cells[c]] == t.bodies[t.cells[c]]
  {
    hide Trunc;
  }

  lemma {:induction false} SameHit(s: FallState, t: FallState, x: int, i: int, n: int, y: real, row: int)
    requires Coupled(s, t, x, i) && 0 <= row <= BOARD_Y_COUNT
    ensures FirstHit(s, n, x, y, row) == FirstHit(t, n, x, y, row)
    decreases BOARD_Y_COUNT - row
  {
    if row < BOARD_Y_COUNT {
      SameBlocks(s, t, x, i, n, Cell(x, row), y);
      SameHit(s, t, x, i, n, y, row + 1);
    }
    hide Blocks, Coupled;
  }

  lemma {:induction false} SameOutcome(s: FallState, t: FallState, x: int, i: int, n: int, y: real)
    requires Coupled(s, t, x, i)
    ensures Outcome(s, n, x, y) == Outcome(t, n, x, y)
  {
    SameHit(s, t, x, i, n, y, 0);
    var r := FirstHit(s, n, x, y, 0);
    if r < BOARD_Y_COUNT { SameBlocks(s, t, x, i, n, Cell(x, r), y); }
    hide Coupled, Trunc, Blocks;
  }

  /** Block `n` alone has changed, and it stays in its column. */
  ghost predicate OnlyBody(s: FallState, n: int, s': FallState) {
    && 0 <= n < |s.bodies| == |s'.bodies| && s'.bodies[n].x == s.bodies[n].x
    && forall k :: 0 <= k < |s.bodies| && k != n ==> s'.bodies[k] == s.bodies[k]
  }

  /** The cells of column `x` are as they were, except perhaps for what belongs to block `n` now. */
  ghost predicate SameCells(s: FallState, s': FallState, x: int) {
    forall c: Cell :: c.x == x ==> (c in s'.cells <==> c in s.cells) && (c in s.cells ==> s'.cells[c] == s.cells[c])
  }

  /** What a block of another column does. */
  lemma {:induction false} OtherColumn(s: FallState, n: int, dt: real, x: int)
    requires 0 <= n < |s.bodies| && s.bodies[n].x != x
    ensures OnlyBody(s, n, StepBody(s, n, dt)) && SameCells(s, StepBody(s, n, dt), x)
  {
    hide Outcome, Velocity, LandingRow;
  }

  lemma {:induction false} CoupledAside(s: FallState, t: FallState, n: int, s': FallState, t': FallState, x: int, i: int)
    requires Coupled(s, t, x, i) && 0 <= n < |s.bodies| && s.bodies[n].x != x
    requires OnlyBody(s, n, s') && SameCells(s, s', x) && OnlyBody(t, n, t') && SameCells(t, t', x)
    ensures Coupled(s', t', x, i)
  {
    forall c: Cell | c.x == x && c in s'.cells
      ensures s'.cells[c] == t'.cells[c] && (0 <= s'.cells[c] < |s'.bodies| ==> s'.bodies[s'.cells[c]].x == x)
    {
      assert c in s.cells;
    }
  }

  /** An update as a change of one body and of the cells. */
  lemma {:induction false} StepForm(s: FallState, n: int, dt: real)
    requires 0 <= n < |s.bodies|
    ensures
      var b := s.bodies[n];
      var s' := StepBody(s, n, dt);
      if b.state != DownMoving then s' == s
      else match Outcome(s, n, b.x, b.posY + Velocity(b, dt))
           case Falls => s' == FallState(s.bodies[n := b.(posY := b.posY + Velocity(b, dt), velocity := Velocity(b, dt))], s.cells)
           case Lands(posY) =>
             var c := Cell(b.x, LandingRow(b.kind, posY));
             s' == FallState(s.bodies[n := Body(b.kind, Stationary, b.x, c.y, posY, 0.0, true)], (s.cells - OldCell(b))[c := n])
  {
    hide Outcome, Velocity, LandingRow;
    assert s.cells - {} == s.cells;
  }

  function OldCell(b: Body): set<Cell> {
    if b.registered then {Cell(b.x, b.y)} else {}
  }

  lemma {:induction false} CoupledLands(s: FallState, t: FallState, n: int, dt: real, x: int, i: int, posY: real)
    requires Coupled(s, t, x, i) && 0 <= n < |s.bodies| == |t.bodies| && s.bodies[n].x == x && n <= i && s.bodies[n] == t.bodies[n]
    requires s.bodies[n].state == DownMoving
    requires Outcome(s, n, x, s.bodies[n].posY + Velocity(s.bodies[n], dt)) == Lands(posY)
    requires Outcome(t, n, x, s.bodies[n].posY + Velocity(s.bodies[n], dt)) == Lands(posY)
    ensures Coupled(StepBody(s, n, dt), StepBody(t, n, dt), x, i)
  {
    hide *;
    StepForm(s, n, dt);
    StepForm(t, n, dt);
    var b := s.bodies[n];
    var c := Cell(b.x, LandingRow(b.kind, posY));
    CoupledCells(s, t, n, x, i, OldCell(b), c);
    CoupledWith(s, t, n, Body(b.kind, Stationary, b.x, c.y, posY, 0.0, true), x, i,
                (s.cells - OldCell(b))[c := n], (t.cells - OldCell(b))[c := n]);
  }

  lemma {:induction false} CoupledFlies(s: FallState, t: FallState, n: int, dt: real, x: int, i: int)
    requires Coupled(s, t, x, i) && 0 <= n < |s.bodies| == |t.bodies| && s.bodies[n].x == x && n <= i && s.bodies[n] == t.bodies[n]
    requires s.bodies[n].state == DownMoving ==>
      && Outcome(s, n, x, s.bodies[n].posY + Velocity(s.bodies[n], dt)) == Falls
      && Outcome(t, n, x, s.bodies[n].posY + Velocity(s.bodies[n], dt)) == Falls
    ensures Coupled(StepBody(s, n, dt), StepBody(t, n, dt), x, i)
  {
    hide *;
    StepForm(s, n, dt);
    StepForm(t, n, dt);
    var b := s.bodies[n];
    if b.state == DownMoving {
      CoupledCells(s, t, n, x, i, {}, Cell(x, 0));
      CoupledWith(s, t, n, b.(posY := b.posY + Velocity(b, dt), velocity := Velocity(b, dt)), x, i, s.cells, t.cells);
    }
  }

  /** Both falls give block `n`, in column `x`, the same look and perhaps the same new cell. */
  lemma {:induction false} CoupledBelow(s: FallState, t: FallState, n: int, dt: real, x: int, i: int)
    requires Coupled(s, t, x, i) && 0 <= n < |s.bodies| && s.bodies[n].x == x && n <= i
    ensures Coupled(StepBody(s, n, dt), StepBody(t, n, dt), x, i)
  {
    hide *;
    CoupledAt(s, t, x, i, n);
    var y := s.bodies[n].posY + Velocity(s.bodies[n], dt);
    SameOutcome(s, t, x, i, n, y);
    if s.bodies[n].state == DownMoving && Outcome(s, n, x, y).Lands? {
      CoupledLands(s, t, n, dt, x, i, Outcome(s, n, x, y).posY);
    } else {
      CoupledFlies(s, t, n, dt, x, i);
    }
  }

  /** In column `x` the cells belong to blocks of the column, the same ones in both falls. */
  ghost predicate CoupledMaps(s: FallState, x: int, m: map<Cell, int>, m': map<Cell, int>) {
    forall c: Cell :: c.x == x ==>
      && (c in m <==> c in m')
      && (c in m ==> m[c] == m'[c] && (0 <= m[c] < |s.bodies| ==> s.bodies[m[c]].x == x))
  }

  lemma {:induction false} CoupledCells(s: FallState, t: FallState, n: int, x: int, i: int, gone: set<Cell>, c: Cell)
    requires Coupled(s, t, x, i) && 0 <= n < |s.bodies| && s.bodies[n].x == x
    ensures CoupledMaps(s, x, (s.cells - gone)[c := n], (t.cells - gone)[c := n])
    ensures CoupledMaps(s, x, s.cells, t.cells)
  {
  }

  lemma {:induction false} CoupledWith(s: FallState, t: FallState, n: int, b: Body, x: int, i: int, m: map<Cell, int>, m': map<Cell, int>)
    requires Coupled(s, t, x, i) && 0 <= n < |s.bodies| && s.bodies[n].x == b.x == x && n <= i
    requires CoupledMaps(s, x, m, m')
    ensures Coupled(FallState(s.bodies[n := b], m), FallState(t.bodies[n := b], m'), x, i)
  {
    var s', t' := FallState(s.bodies[n := b], m), FallState(t.bodies[n := b], m');
    forall c: Cell | c.x == x && c in s'.cells
      ensures s'.cells[c] == t'.cells[c] && (0 <= s'.cells[c] < |s'.bodies| ==> s'.bodies[s'.cells[c]].x == x)
    {
      assert c in m;
    }
  }

  /** A block above `i` that goes on falling changes nothing below. */
  lemma {:induction false} CoupledAbove(s: FallState, t: FallState, n: int, dt: real, x: int, i: int)
    requires Coupled(s, t, x, i) && 0 <= n < |s.bodies| && s.bodies[n].x == x && i < n
    requires |StepBody(s, n, dt).bodies| == |StepBody(t, n, dt).bodies| == |s.bodies|
    requires StepBody(s, n, dt).bodies[n].state == StepBody(t, n, dt).bodies[n].state == DownMoving
    ensures Coupled(StepBody(s, n, dt), StepBody(t, n, dt), x, i)
  {
    hide Outcome, Velocity, LandingRow;
  }

  lemma {:induction false} AlreadyMoved(s: FallState, n: nat, dt: real, i: int)
    requires 0 <= i < n <= |s.bodies|
    ensures Frame(s, n, dt).bodies[i] == s.bodies[i]
    decreases |s.bodies| - n
  {
    if n < |s.bodies| {
      AlreadyMoved(StepBody(s, n, dt), n + 1, dt, i);
      StepOthers(s, n, dt);
    }
    hide StepBody;
  }

  lemma {:induction false} StepOthers(s: FallState, n: int, dt: real)
    requires 0 <= n < |s.bodies|
    ensures |StepBody(s, n, dt).bodies| == |s.bodies|
    ensures forall k :: 0 <= k < |s.bodies| && k != n ==> StepBody(s, n, dt).bodies[k] == s.bodies[k]
  {
    hide Outcome, Velocity, LandingRow;
  }

  /** Everything above `i` in column `x` falls. */
  ghost predicate FallsAbove(s: FallState, x: int, i: int) {
    forall k :: 0 <= k < |s.bodies| && i < k && s.bodies[k].x == x ==> s.bodies[k].state == DownMoving
  }

  lemma {:induction false} StepColumns(s: FallState, n: int, dt: real)
    requires 0 <= n < |s.bodies|
    ensures |StepBody(s, n, dt).bodies| == |s.bodies| && StepBody(s, n, dt).bodies[n].x == s.bodies[n].x
  {
    hide Outcome, Velocity, LandingRow;
  }

  lemma {:induction false} FrameColumns(s: FallState, n: nat, dt: real, k: int)
    requires n <= |s.bodies| && 0 <= k < |s.bodies|
    ensures Frame(s, n, dt).bodies[k].x == s.bodies[k].x
    decreases |s.bodies| - n
  {
    if n < |s.bodies| {
      FrameColumns(StepBody(s, n, dt), n + 1, dt, k);
      StepOthers(s, n, dt);
      StepColumns(s, n, dt);
    }
    hide StepBody;
  }

  /** What is above `i` after the frame was falling all the time. */
  lemma {:induction false} AboveAllAlong(s: FallState, n: int, dt: real, x: int, i: int)
    requires 0 <= n < |s.bodies| && i < n && s.bodies[n].x == x && FallsAbove(Frame(s, n, dt), x, i)
    ensures |StepBody(s, n, dt).bodies| == |s.bodies| && StepBody(s, n, dt).bodies[n].state == DownMoving
  {
    StepOthers(s, n, dt);
    FrameColumns(s, n, dt, n);
    assert Frame(s, n, dt) == Frame(StepBody(s, n, dt), n + 1, dt);
    hide StepBody, Frame;
    AlreadyMoved(StepBody(s, n, dt), n + 1, dt, n);
  }

  lemma {:induction false} AboveGoesOn(s: FallState, t: FallState, n: int, dt: real, x: int, i: int)
    requires Coupled(s, t, x, i) && 0 <= n < |s.bodies| == |t.bodies| && i < n && s.bodies[n].x == t.bodies[n].x == x
    requires FallsAbove(Frame(s, n, dt), x, i) && FallsAbove(Frame(t, n, dt), x, i)
    ensures Coupled(StepBody(s, n, dt), StepBody(t, n, dt), x, i)
  {
    hide *;
    AboveAllAlong(s, n, dt, x, i);
    AboveAllAlong(t, n, dt, x, i);
    CoupledAbove(s, t, n, dt, x, i);
  }

  /** A frame takes block `i` the same way in both falls, and leaves them coupled if what is above
      it goes on falling. */
  lemma {:induction false} CoupledFrame(s: FallState, t: FallState, n: nat, dt: real, x: int, i: int)
    requires Coupled(s, t, x, i) && n <= |s.bodies| && 0 <= i < |s.bodies| && s.bodies[i].x == x
    ensures Frame(s, n, dt).bodies[i] == Frame(t, n, dt).bodies[i]
    ensures FallsAbove(Frame(s, n, dt), x, i) && FallsAbove(Frame(t, n, dt), x, i) ==> Coupled(Frame(s, n, dt), Frame(t, n, dt), x, i)
    decreases |s.bodies| - n
  {
    hide *;
    CoupledAt(s, t, x, i, i);
    if n == |s.bodies| {
      FrameDone(s, dt);
      FrameDone(t, dt);
    } else {
      CoupledAt(s, t, x, i, n);
      FrameUnfold(s, n, dt);
      FrameUnfold(t, n, dt);
      StepOthers(s, n, dt);
      StepColumns(s, n, dt);
      if s.bodies[n].x == x && i < n {
        AlreadyMoved(s, n, dt, i);
        AlreadyMoved(t, n, dt, i);
        if FallsAbove(Frame(s, n, dt), x, i) && FallsAbove(Frame(t, n, dt), x, i) {
          AboveGoesOn(s, t, n, dt, x, i);
          CoupledFrame(StepBody(s, n, dt), StepBody(t, n, dt), n + 1, dt, x, i);
        }
      } else {
        CoupledStep(s, t, n, dt, x, i);
        CoupledFrame(StepBody(s, n, dt), StepBody(t, n, dt), n + 1, dt, x, i);
      }
    }
  }

  lemma {:induction false} CoupledStep(s: FallState, t: FallState, n: int, dt: real, x: int, i: int)
    requires Coupled(s, t, x, i) && 0 <= n < |s.bodies| == |t.bodies| && s.bodies[n].x == t.bodies[n].x && (s.bodies[n].x == x ==> n <= i)
    ensures Coupled(StepBody(s, n, dt), StepBody(t, n, dt), x, i)
  {
    hide *;
    if s.bodies[n].x != x {
      OtherColumn(s, n, dt, x);
      OtherColumn(t, n, dt, x);
      CoupledAside(s, t, n, StepBody(s, n, dt), StepBody(t, n, dt), x, i);
    } else {
      CoupledBelow(s, t, n, dt, x, i);
    }
  }

  lemma {:induction false} CoupledAt(s: FallState, t: FallState, x: int, i: int, k: int)
    requires Coupled(s, t, x, i) && 0 <= k < |s.bodies|
    ensures |s.bodies| == |t.bodies| && s.bodies[k].x == t.bodies[k].x
    ensures k <= i && s.bodies[k].x == x ==> s.bodies[k] == t.bodies[k]
  {
  }

  // ---------------------------------------------------------------- slow frames, and ice that stays up

  /** Falling blocks are not faster than `v`, the first `n` of them not faster than `v'`. */
  ghost predicate Slow(s: FallState, n: int, v: real, v': real) {
    forall i :: 0 <= i < |s.bodies| && s.bodies[i].state == DownMoving ==>
      0 <= s.bodies[i].y < BOARD_Y_COUNT && s.bodies[i].velocity <= if i < n then v' else v
  }

  /** No block gains more than 63 units of speed per unit of time. */
  lemma {:induction false} SpeedGain(b: Body, dt: real)
    requires 0 <= b.y < BOARD_Y_COUNT && dt >= 0.0
    ensures Velocity(b, dt) <= b.velocity + 63.0 * dt
  {
    ProductOrder(63.0, Acceleration(b), dt);
  }

  lemma {:induction false} SlowFrame(s: FallState, n: nat, dt: real, v: real)
    requires n <= |s.bodies| && Slow(s, n, v, v + 63.0 * dt) && dt >= 0.0
    ensures Slow(Frame(s, n, dt), |s.bodies|, v, v + 63.0 * dt)
    decreases |s.bodies| - n
  {
    if n == |s.bodies| {
      FrameDone(s, dt);
    } else {
      FrameUnfold(s, n, dt);
      SlowStep(s, n, dt, v);
      SlowFrame(StepBody(s, n, dt), n + 1, dt, v);
    }
    hide Slow, StepBody, Frame;
  }

  lemma {:induction false} SlowStep(s: FallState, n: int, dt: real, v: real)
    requires 0 <= n < |s.bodies| && Slow(s, n, v, v + 63.0 * dt) && dt >= 0.0
    ensures |StepBody(s, n, dt).bodies| == |s.bodies| && Slow(StepBody(s, n, dt), n + 1, v, v + 63.0 * dt)
  {
    if s.bodies[n].state == DownMoving { SpeedGain(s.bodies[n], dt); }
    hide Outcome, Acceleration, LandingRow;
  }

  lemma {:induction false} SlowIsPaced(s: FallState, dt: real, v: real)
    requires Slow(s, 0, v, v) && dt >= 0.0 && v + 63.0 * dt <= SIZE
    ensures Paced(s, 0, dt) && Slow(Frame(s, 0, dt), 0, v + 63.0 * dt, v + 63.0 * dt)
  {
    SlowFrame(s, 0, dt, v);
    assert |Frame(s, 0, dt).bodies| == |s.bodies|;
    forall i | 0 <= i < |s.bodies| && s.bodies[i].state == DownMoving
      ensures Velocity(s.bodies[i], dt) <= SIZE
    {
      SpeedGain(s.bodies[i], dt);
    }
    hide Velocity, Acceleration, Frame;
  }

  /** No block gets further down in a frame than its speed takes it. */
  lemma {:induction false} FrameReach(s: FallState, hs: seq<int>, n: nat, dt: real, i: int)
    requires n <= |s.bodies| && FrameReady(s, hs, n, dt) && 0 <= i < |s.bodies| && n <= i && s.bodies[i].state == DownMoving
    ensures Frame(s, n, dt).bodies[i].posY <= s.bodies[i].posY + Velocity(s.bodies[i], dt)
    decreases |s.bodies| - n
  {
    hide *;
    FrameUnfold(s, n, dt);
    StepOthers(s, n, dt);
    if n == i {
      StepReach(s, hs, n, dt);
      AlreadyMoved(StepBody(s, n, dt), n + 1, dt, i);
    } else {
      StepKeeps(s, hs, n, dt);
      FrameReach(StepBody(s, n, dt), HeightsAfter(s, hs, n, dt), n + 1, dt, i);
    }
  }

  lemma {:induction false} StepReach(s: FallState, hs: seq<int>, n: int, dt: real)
    requires FrameReady(s, hs, n, dt) && 0 <= n < |s.bodies| && s.bodies[n].state == DownMoving
    ensures |StepBody(s, n, dt).bodies| == |s.bodies|
    ensures StepBody(s, n, dt).bodies[n].posY <= s.bodies[n].posY + Velocity(s.bodies[n], dt)
  {
    ColumnOf(s, hs, n, dt);
    RoomToLand(s, hs, n, dt);
    StepIs(s, hs, n, dt);
    hide FallInvariant, Room, FrameReady, StepBody, Velocity, RowY;
  }

  /** Ice that cannot reach the row of its place in the list in this frame goes on falling. */
  lemma {:induction false} StaysUp(t: FallState, hs: seq<int>, hs': seq<int>, dt: real, i: int)
    requires FrameReady(t, hs, 0, dt) && FallInvariant(Frame(t, 0, dt), hs', 0, 0.0) && AllMoved(t, Frame(t, 0, dt))
    requires 0 <= i < |t.bodies| && t.bodies[i].state == DownMoving
    requires t.bodies[i].posY + Velocity(t.bodies[i], dt) < RowY(Rank(t.bodies, i))
    ensures Frame(t, 0, dt).bodies[i].state == DownMoving
  {
    hide *;
    var t' := Frame(t, 0, dt);
    FrameReach(t, hs, 0, dt, i);
    RankKept(t, t', i);
    MovedAt(t, t', i);
    if t'.bodies[i].state != DownMoving {
      RestIsCompact(t', hs', i);
      RestingPlace(t', hs', i);
    }
  }

  lemma {:induction false} RestingPlace(s: FallState, hs: seq<int>, i: int)
    requires FallInvariant(s, hs, 0, 0.0) && 0 <= i < |s.bodies| && s.bodies[i].state == Stationary
    ensures s.bodies[i].posY == RowY(s.bodies[i].y)
  {
    hide RowY;
  }

  lemma {:induction false} MovedAt(s: FallState, s': FallState, i: int)
    requires AllMoved(s, s') && 0 <= i < |s.bodies|
    ensures |s'.bodies| == |s.bodies| && Moved(s.bodies[i], s'.bodies[i])
    ensures s'.bodies[i].x == s.bodies[i].x && (s'.bodies[i].state == s.bodies[i].state || s'.bodies[i].state == Stationary)
    ensures s'.bodies[i].state == DownMoving ==> s'.bodies[i].y == s.bodies[i].y
  {
  }

  lemma {:induction false} RankKept(s: FallState, s': FallState, i: int)
    requires AllMoved(s, s') && 0 <= i < |s.bodies|
    ensures |s'.bodies| == |s.bodies| && Rank(s'.bodies, i) == Rank(s.bodies, i)
  {
    assert forall k :: 0 <= k < |s.bodies| ==> Moved(s.bodies[k], s'.bodies[k]);
    assert (set k | 0 <= k < i && s.bodies[k].x == s.bodies[i].x) == set k | 0 <= k < i && s'.bodies[k].x == s'.bodies[i].x;
  }

  // ---------------------------------------------------------------- a coloured block overtakes ice

  /** After `k` frames the ice `i` has hardly sunk and block `j` above it has come down fast. */
  ghost predicate Race(s: FallState, x: int, i: int, j: int, k: int) {
    && 0 <= i < j < |s.bodies| && s.bodies[i].x == s.bodies[j].x == x
    && s.bodies[i].state == s.bodies[j].state == DownMoving
    && 1 <= s.bodies[i].y < BOARD_Y_COUNT && 0 <= s.bodies[j].y < BOARD_Y_COUNT
    && s.bodies[i].posY <= RowY(s.bodies[i].y) + 0.6 * k as real
    && s.bodies[j].posY >= RowY(s.bodies[j].y) + 24.0 * k as real
  }

  /** A fall in order in which the ice `i` has a free row below it. */
  ghost predicate Tame(t: FallState, hs: seq<int>, i: int) {
    && FallInvariant(t, hs, 0, 0.0) && |hs| == BOARD_X_COUNT && NoPuyoOverIce(t) && Room(t, hs)
    && 0 <= i < |t.bodies| && Rank(t.bodies, i) < t.bodies[i].y
  }

  lemma {:induction false} OpenTame(t: FallState, hs: seq<int>, i: int)
    requires Tame(t, hs, i)
    ensures FallInvariant(t, hs, 0, 0.0) && |hs| == BOARD_X_COUNT && NoPuyoOverIce(t) && Room(t, hs)
    ensures 0 <= i < |t.bodies| && Rank(t.bodies, i) < t.bodies[i].y
  {
  }

  lemma {:induction false} CloseTame(t: FallState, hs: seq<int>, i: int)
    requires FallInvariant(t, hs, 0, 0.0) && |hs| == BOARD_X_COUNT && NoPuyoOverIce(t) && Room(t, hs)
    requires 0 <= i < |t.bodies| && Rank(t.bodies, i) < t.bodies[i].y
    ensures Tame(t, hs, i)
  {
  }

  /** One frame of the tame fall. */
  lemma {:induction false} TameFrame(t: FallState, hs: seq<int>, i: int, dt: real) returns (hs': seq<int>)
    requires Tame(t, hs, i) && t.bodies[i].state == DownMoving && dt >= 0.0 && Paced(t, 0, dt)
    requires t.bodies[i].posY + Velocity(t.bodies[i], dt) < RowY(t.bodies[i].y - 1)
    ensures Tame(Frame(t, 0, dt), hs', i) && Frame(t, 0, dt).bodies[i].state == DownMoving
    ensures Frame(t, 0, dt).bodies[i].y == t.bodies[i].y
  {
    hide *;
    OpenTame(t, hs, i);
    OrderPreserving(t, hs, 0, 0.0);
    FallInvariantAnyTime(t, hs, dt);
    CloseFrame(t, hs, 0, dt);
    var t' := Frame(t, 0, dt);
    hs' := FrameKeeps(t, hs, 0, dt);
    OpenFrame(t', hs', |t.bodies|, dt);
    MovedAt(t, t', i);
    NextFrame(t', hs', dt, 0.0);
    OrderPreserving(t', hs', 0, 0.0);
    HigherRow(Rank(t.bodies, i), t.bodies[i].y - 1);
    StaysUp(t, hs, hs', dt, i);
    RankKept(t, t', i);
    CloseTame(t', hs', i);
  }

  lemma {:induction false} HigherRow(a: int, b: int)
    requires a <= b
    ensures RowY(a) >= RowY(b) && RowY(b) == RowY(b + 1) + SIZE
  {
  }

  lemma {:induction false} OrderAbove(s: FallState, x: int, i: int)
    requires InOrder(s) && 0 <= i < |s.bodies| && s.bodies[i].x == x && s.bodies[i].state == DownMoving
    ensures FallsAbove(s, x, i)
  {
  }

  /** One frame of the race, if it leaves the fall in order. */
  lemma {:induction false} RaceFrame(s: FallState, t: FallState, hs: seq<int>, x: int, i: int, j: int, k: int, dt: real)
    returns (hs': seq<int>)
    requires Race(s, x, i, j, k) && Coupled(s, t, x, i) && Tame(t, hs, i) && 0 <= k < 14 && dt >= 0.0
    requires Velocity(s.bodies[i], dt) <= 0.6 && 24.0 <= Velocity(s.bodies[j], dt)
    requires Paced(t, 0, dt) && InOrder(Frame(s, 0, dt))
    ensures
      var s' := Frame(s, 0, dt);
      && Race(s', x, i, j, k + 1) && Coupled(s', Frame(t, 0, dt), x, i) && Tame(Frame(t, 0, dt), hs', i)
      && s'.bodies[i].velocity == Velocity(s.bodies[i], dt) && s'.bodies[j].velocity == Velocity(s.bodies[j], dt)
  {
    hide *;
    OpenRace(s, x, i, j, k);
    CoupledAt(s, t, x, i, i);
    hs' := TameFrame(t, hs, i, dt);
    CoupledFrame(s, t, 0, dt, x, i);
    var s', t' := Frame(s, 0, dt), Frame(t, 0, dt);
    FrameColumns(s, 0, dt, i);
    FrameColumns(t, 0, dt, i);
    OrderAbove(s', x, i);
    OpenTame(t', hs', i);
    FallIsInOrder(t', hs');
    OrderAbove(t', x, i);
    FrameColumns(s, 0, dt, j);
    InOrderAt(s', i, j);
    StillFalling(s, 0, dt, i);
    StillFalling(s, 0, dt, j);
    FlownAt(s, i, dt);
    FlownAt(s, j, dt);
    CloseRace(s, s', x, i, j, k);
  }

  lemma {:induction false} InOrderAt(s: FallState, i: int, j: int)
    requires InOrder(s) && 0 <= i < j < |s.bodies| && s.bodies[i].x == s.bodies[j].x && s.bodies[i].state == DownMoving
    ensures s.bodies[j].state == DownMoving && s.bodies[i].posY >= s.bodies[j].posY + SIZE
  {
  }

  lemma {:induction false} FlownAt(s: FallState, i: int, dt: real)
    requires 0 <= i < |s.bodies|
    ensures
      var b := Flown(s, i, dt).bodies[i];
      && b.posY == s.bodies[i].posY + Velocity(s.bodies[i], dt) && b.velocity == Velocity(s.bodies[i], dt)
      && b.y == s.bodies[i].y && b.x == s.bodies[i].x && b.state == s.bodies[i].state
  {
    hide Velocity;
  }

  lemma {:induction false} OpenRace(s: FallState, x: int, i: int, j: int, k: int)
    requires Race(s, x, i, j, k)
    ensures 0 <= i < j < |s.bodies| && s.bodies[i].x == s.bodies[j].x == x
    ensures s.bodies[i].state == s.bodies[j].state == DownMoving
    ensures 0 <= k < 14 ==> s.bodies[i].posY + 0.6 < RowY(s.bodies[i].y - 1)
  {
  }

  lemma {:induction false} CloseRace(s: FallState, s': FallState, x: int, i: int, j: int, k: int)
    requires Race(s, x, i, j, k) && |s'.bodies| == |s.bodies|
    requires s'.bodies[i].x == s'.bodies[j].x == x && s'.bodies[i].state == s'.bodies[j].state == DownMoving
    requires s'.bodies[i].y == s.bodies[i].y && s'.bodies[j].y == s.bodies[j].y
    requires s'.bodies[i].posY <= s.bodies[i].posY + 0.6 && s.bodies[j].posY + 24.0 <= s'.bodies[j].posY
    ensures Race(s', x, i, j, k + 1)
  {
    hide RowY;
  }

  /** After fourteen frames the race is lost. */
  lemma {:induction false} RaceLost(s: FallState, x: int, i: int, j: int)
    requires Race(s, x, i, j, 14)
    ensures !InOrder(s)
  {
    if InOrder(s) { InOrderAt(s, i, j); }
  }

  function Zeros(m: nat): (dts: seq<real>)
    ensures |dts| == m && forall k :: 0 <= k < m ==> dts[k] == 0.0
  {
    seq(m, k => 0.0)
  }

  lemma {:induction false} RunZeros(s: FallState, m: nat)
    ensures m == 0 ==> Run(s, Zeros(m)) == s && PacedRun(s, Zeros(m))
    ensures m > 0 ==> Run(s, Zeros(m)) == Run(Frame(s, 0, 0.0), Zeros(m - 1))
    ensures m > 0 ==> (PacedRun(s, Zeros(m)) <==> Paced(s, 0, 0.0) && PacedRun(Frame(s, 0, 0.0), Zeros(m - 1)))
  {
    if m > 0 { assert Zeros(m)[1..] == Zeros(m - 1); }
    hide Frame, Paced;
  }

  lemma {:induction false} NoGain(b: Body)
    ensures Velocity(b, 0.0) == b.velocity
  {
    hide Acceleration;
  }

  /** Once the blocks have their speeds, frames of no length at all are enough. */
  lemma {:induction false} RaceOn(s: FallState, t: FallState, hs: seq<int>, x: int, i: int, j: int, k: int) returns (m: nat)
    requires Race(s, x, i, j, k) && Coupled(s, t, x, i) && Tame(t, hs, i) && 1 <= k <= 14
    requires s.bodies[i].velocity <= 0.6 && 24.0 <= s.bodies[j].velocity
    requires Slow(s, 0, 30.24, 30.24) && Slow(t, 0, 30.24, 30.24)
    ensures PacedRun(s, Zeros(m)) && !InOrder(Run(s, Zeros(m)))
    decreases 14 - k
  {
    hide *;
    SlowEnough();
    if k == 14 {
      RaceLost(s, x, i, j);
      m := 0;
      RunZeros(s, m);
    } else {
      var s', t' := Frame(s, 0, 0.0), Frame(t, 0, 0.0);
      OpenRace(s, x, i, j, k);
      SlowIsPaced(s, 0.0, 30.24);
      SlowIsPaced(t, 0.0, 30.24);
      NoGain(s.bodies[i]);
      NoGain(s.bodies[j]);
      if InOrder(s') {
        var hs' := RaceFrame(s, t, hs, x, i, j, k, 0.0);
        m := RaceOn(s', t', hs', x, i, j, k + 1);
        m := m + 1;
      } else {
        m := 1;
        RunZeros(s', 0);
      }
      RunZeros(s, m);
    }
  }

  lemma {:induction false} SlowEnough()
    ensures 30.24 + 63.0 * 0.0 == 30.24 <= SIZE && 0.0 + 63.0 * 0.48 == 30.24
  {
  }

  // ---------------------------------------------------------------- the start of the race

  lemma {:induction false} TamedFalls(s: FallState, x: int, i: int)
    requires AboutToFall(s)
    ensures AboutToFall(Tamed(s, x, i))
  {
    assert Consistent(s) && WellFormed(s) by { hide Consistent, WellFormed; }
    hide *;
    TamedKind(s, x, i);
    KindKeepsBoard(s, Tamed(s, x, i));
    KindKeepsStart(s, Tamed(s, x, i));
  }

  /** The two falls differ in kinds only. */
  ghost predicate SameButKind(s: FallState, t: FallState) {
    && |s.bodies| == |t.bodies| && s.cells == t.cells
    && forall k :: 0 <= k < |s.bodies| ==> t.bodies[k] == s.bodies[k].(kind := t.bodies[k].kind)
  }

  lemma {:induction false} TamedKind(s: FallState, x: int, i: int)
    ensures SameButKind(s, Tamed(s, x, i))
  {
    hide Tamed;
  }

  lemma {:induction false} KindKeepsBoard(s: FallState, t: FallState)
    requires SameButKind(s, t) && Consistent(s) && WellFormed(s)
    ensures Consistent(t) && WellFormed(t)
  {
    hide RowY;
  }

  lemma {:induction false} KindKeepsRest(s: FallState, t: FallState, c: Cell)
    requires SameButKind(s, t)
    ensures RestsAt(t, c) <==> RestsAt(s, c)
  {
  }

  lemma {:induction false} KindKeepsStart(s: FallState, t: FallState)
    requires AboutToFall(s) && SameButKind(s, t) && Consistent(t) && WellFormed(t)
    ensures AboutToFall(t)
  {
    hide RowY, Consistent, WellFormed, RestsAt;
    forall c | RestsAt(t, c) && c.y > 0
      ensures RestsAt(t, Neighbour(c, Bottom))
    {
      KindKeepsRest(s, t, c);
      KindKeepsRest(s, t, Neighbour(c, Bottom));
    }
  }

  lemma {:induction false} TamedOrder(s: FallState, x: int, i: int)
    requires forall k :: 0 <= k < i && k < |s.bodies| && s.bodies[k].x == x && s.bodies[k].state == DownMoving ==> s.bodies[k].kind != Ice
    ensures NoPuyoOverIce(Tamed(s, x, i))
  {
    var t := Tamed(s, x, i);
    hide Tamed;
    forall a, b | FallTogether(t, a, b) && t.bodies[a].kind == Ice
      ensures t.bodies[b].kind == Ice
    {
    }
  }

  lemma {:induction false} TamedCoupled(s: FallState, x: int, i: int)
    requires Consistent(s) && Ordered(s) && 0 <= i < |s.bodies| && s.bodies[i].x == x && s.bodies[i].state == DownMoving
    ensures Coupled(s, Tamed(s, x, i), x, i)
  {
    var t := Tamed(s, x, i);
    hide Tamed;
    forall k | 0 <= k < |s.bodies| && i < k && s.bodies[k].x == x
      ensures s.bodies[k].state == t.bodies[k].state == DownMoving
    {
    }
    forall c: Cell | c.x == x && c in s.cells
      ensures s.cells[c] == t.cells[c] && (0 <= s.cells[c] < |s.bodies| ==> s.bodies[s.cells[c]].x == x)
    {
    }
  }

  lemma {:induction false} TamedRank(s: FallState, x: int, i: int)
    requires 0 <= i < |s.bodies| && s.bodies[i].x == x
    ensures Rank(Tamed(s, x, i).bodies, i) == Rank(s.bodies, i) && Tamed(s, x, i).bodies[i] == s.bodies[i]
  {
    var t := Tamed(s, x, i);
    hide Tamed;
    assert (set k | 0 <= k < i && s.bodies[k].x == s.bodies[i].x) == set k | 0 <= k < i && t.bodies[k].x == t.bodies[i].x;
  }

  /** The lowest falling ice of a column. */
  lemma {:induction false} LowestIce(s: FallState, x: int, n: int) returns (i: int)
    requires 0 <= n < |s.bodies| && s.bodies[n].x == x && s.bodies[n].state == DownMoving && s.bodies[n].kind == Ice
    ensures 0 <= i <= n && s.bodies[i].x == x && s.bodies[i].state == DownMoving && s.bodies[i].kind == Ice
    ensures forall k :: 0 <= k < i && s.bodies[k].x == x && s.bodies[k].state == DownMoving ==> s.bodies[k].kind != Ice
    decreases n
  {
    if k :| 0 <= k < n && s.bodies[k].x == x && s.bodies[k].state == DownMoving && s.bodies[k].kind == Ice {
      i := LowestIce(s, x, k);
    } else {
      i := n;
    }
  }

  lemma {:induction false} StartSlow(s: FallState)
    requires AboutToFall(s)
    ensures Slow(s, 0, 0.0, 0.0)
  {
    hide RowY, Consistent;
  }

  lemma {:induction false} StartRace(s: FallState, x: int, i: int, j: int)
    requires AboutToFall(s) && Lifted(s) && FallTogether(s, i, j) && s.bodies[i].x == x
    requires s.bodies[i].kind == Ice && s.bodies[j].kind != Ice
    ensures Race(s, x, i, j, 0) && Rank(s.bodies, i) < s.bodies[i].y
    ensures Velocity(s.bodies[i], 0.48) <= 0.6 && 24.0 <= Velocity(s.bodies[j], 0.48)
  {
    hide RowY, Consistent;
  }

  lemma {:induction false} FindRace(s: FallState) returns (i: int, j: int)
    requires !NoPuyoOverIce(s)
    ensures FallTogether(s, i, j) && s.bodies[i].kind == Ice && s.bodies[j].kind != Ice
    ensures forall k :: 0 <= k < i && s.bodies[k].x == s.bodies[i].x && s.bodies[k].state == DownMoving ==> s.bodies[k].kind != Ice
  {
    var n;
    n, j :| FallTogether(s, n, j) && s.bodies[n].kind == Ice && s.bodies[j].kind != Ice;
    i := LowestIce(s, s.bodies[n].x, n);
  }

  /** The tame fall beside a fall with a race in it. */
  lemma {:induction false} TamedStart(s: FallState, i: int, j: int)
    requires AboutToFall(s) && Lifted(s) && FallTogether(s, i, j) && s.bodies[i].kind == Ice && s.bodies[j].kind != Ice
    requires forall k :: 0 <= k < i && s.bodies[k].x == s.bodies[i].x && s.bodies[k].state == DownMoving ==> s.bodies[k].kind != Ice
    ensures
      var t := Tamed(s, s.bodies[i].x, i);
      && Race(s, s.bodies[i].x, i, j, 0) && Coupled(s, t, s.bodies[i].x, i) && Tame(t, Heights(t), i) && AboutToFall(t)
  {
    var x := s.bodies[i].x;
    assert s.bodies[i].state == DownMoving;
    hide *;
    var t := Tamed(s, x, i);
    StartRace(s, x, i, j);
    StartOrderIs(s);
    TamedFalls(s, x, i);
    TamedOrder(s, x, i);
    OpenRace(s, x, i, j, 0);
    TamedCoupled(s, x, i);
    TamedRank(s, x, i);
    FallStarts(t);
    StartRoom(t);
    HeightsSix(t);
    CloseTame(t, Heights(t), i);
  }

  /** With a coloured block above falling ice, some run without a step over a cell breaks the order. */
  lemma {:induction false} OrderBreaks(s: FallState) returns (dts: seq<real>)
    requires AboutToFall(s) && Lifted(s) && !NoPuyoOverIce(s)
    ensures PacedRun(s, dts) && !InOrder(Run(s, dts))
  {
    hide *;
    var i, j := FindRace(s);
    TamedStart(s, i, j);
    StartSpeeds(s, i, j);
    var x := s.bodies[i].x;
    var t := Tamed(s, x, i);
    StartSlow(s);
    StartSlow(t);
    SlowEnough();
    SlowIsPaced(s, 0.48, 0.0);
    SlowIsPaced(t, 0.48, 0.0);
    var s' := Frame(s, 0, 0.48);
    var m := 0;
    if InOrder(s') {
      var hs' := RaceFrame(s, t, Heights(t), x, i, j, 0, 0.48);
      m := RaceOn(s', Frame(t, 0, 0.48), hs', x, i, j, 1);
    } else {
      RunZeros(s', 0);
    }
    dts := [0.48] + Zeros(m);
    FirstOf(s, 0.48, Zeros(m));
  }

  lemma {:induction false} StartSpeeds(s: FallState, i: int, j: int)
    requires AboutToFall(s) && Lifted(s) && FallTogether(s, i, j) && s.bodies[i].kind == Ice && s.bodies[j].kind != Ice
    ensures 0 <= i < j < |s.bodies| && Velocity(s.bodies[i], 0.48) <= 0.6 && 24.0 <= Velocity(s.bodies[j], 0.48)
  {
    StartRace(s, s.bodies[i].x, i, j);
    hide Velocity, AboutToFall, Lifted;
  }

  lemma {:induction false} StartOrderIs(s: FallState)
    requires AboutToFall(s)
    ensures Consistent(s) && Ordered(s)
  {
    StartOrdered(s);
  }

  lemma {:induction false} FirstOf(s: FallState, dt: real, dts: seq<real>)
    ensures Run(s, [dt] + dts) == Run(Frame(s, 0, dt), dts)
    ensures PacedRun(s, [dt] + dts) <==> dt >= 0.0 && Paced(s, 0, dt) && PacedRun(Frame(s, 0, dt), dts)
  {
    assert ([dt] + dts)[1..] == dts;
    hide Frame, Paced;
  }

  /** A fall from rest keeps its order in every run exactly when no coloured block is above falling ice. */
  lemma {:induction false} OrderKeptIff(s: FallState)
    requires AboutToFall(s) && Lifted(s)
    ensures OrderKept(s) <==> NoPuyoOverIce(s)
  {
    if NoPuyoOverIce(s) {
      OrderIsKept(s);
    } else {
      var dts := OrderBreaks(s);
      hide PacedRun, Run, InOrder, GapsGrow;
    }
  }

  // ---------------------------------------------------------------- one outcome for all frames

  /** The cells of an agreeing board are those of its list. */
  lemma {:induction false} OwnersUnique(s: FallState, t: FallState)
    requires Consistent(s) && Consistent(t) && s.bodies == t.bodies
    ensures s == t
  {
    forall c
      ensures (c in s.cells <==> c in t.cells) && (c in s.cells ==> s.cells[c] == t.cells[c])
    {
    }
    assert s.cells == t.cells;
  }

  /** A resting body is told by its kind and its cell. */
  lemma {:induction false} RestingBody(s: FallState, n: int)
    requires WellFormed(s) && AllRest(s) && 0 <= n < |s.bodies|
    ensures s.bodies[n] == Body(s.bodies[n].kind, Stationary, s.bodies[n].x, s.bodies[n].y, RowY(s.bodies[n].y), 0.0, true)
  {
    hide RowY;
  }

  lemma {:induction false} EndConsistent(s: FallState, dts: seq<real>)
    requires AboutToFall(s) && NoPuyoOverIce(s) && PacedRun(s, dts)
    ensures Consistent(Run(s, dts)) && WellFormed(Run(s, dts)) && |Run(s, dts).bodies| == |s.bodies|
  {
    hide *;
    FallStarts(s);
    HeightsSix(s);
    StartRoom(s);
    var hs' := RunKeeps(s, Heights(s), dts);
    OpenFall(Run(s, dts), hs');
    RunSize(s, dts);
  }

  lemma {:induction false} RunSize(s: FallState, dts: seq<real>)
    ensures |Run(s, dts).bodies| == |s.bodies|
    decreases |dts|
  {
    hide Frame;
    if dts != [] { RunSize(Frame(s, 0, dts[0]), dts[1..]); }
  }

  /** However the time is cut into frames, a fall in order that comes to rest has one outcome: two players who
      start alike end alike, even on clocks of their own. */
  lemma {:induction false} FallsAgree(s: FallState, a: seq<real>, b: seq<real>)
    requires AboutToFall(s) && NoPuyoOverIce(s) && PacedRun(s, a) && PacedRun(s, b)
    requires AllRest(Run(s, a)) && AllRest(Run(s, b))
    ensures Run(s, a) == Run(s, b)
  {
    hide *;
    var s1, s2 := Run(s, a), Run(s, b);
    EndConsistent(s, a);
    EndConsistent(s, b);
    FallStarts(s);
    HeightsSix(s);
    StartRoom(s);
    forall n | 0 <= n < |s.bodies|
      ensures s1.bodies[n] == s2.bodies[n]
    {
      FallCompacts(s, Heights(s), a, n);
      FallCompacts(s, Heights(s), b, n);
      RestingBody(s1, n);
      RestingBody(s2, n);
    }
    assert s1.bodies == s2.bodies;
    OwnersUnique(s1, s2);
  }

  // ---------------------------------------------------------------- free rows

  lemma {:induction false} RowsBound(bodies: seq<Body>, ks: set<int>, rows: set<int>)
    requires forall k :: k in ks ==> 0 <= k < |bodies| && bodies[k].y in rows
    requires forall a, b :: a in ks && b in ks && a != b ==> bodies[a].y != bodies[b].y
    ensures |ks| <= |rows|
    decreases |ks|
  {
    if k :| k in ks {
      RowsBound(bodies, ks - {k}, rows - {bodies[k].y});
    } else {
      assert forall k :: k !in ks;
    }
  }

  /** A block with a free row below it has fewer blocks below it than rows. */
  lemma {:induction false} RankBelow(s: FallState, i: int, r: int)
    requires 0 <= i < |s.bodies| && 0 <= r < s.bodies[i].y
    requires forall k :: 0 <= k < i && s.bodies[k].x == s.bodies[i].x ==> 0 <= s.bodies[k].y < s.bodies[i].y && s.bodies[k].y != r
    requires forall k, m :: 0 <= k < m < |s.bodies| && s.bodies[k].x == s.bodies[m].x ==> s.bodies[k].y < s.bodies[m].y
    ensures Rank(s.bodies, i) < s.bodies[i].y
  {
    var y := s.bodies[i].y;
    var ks := set k | 0 <= k < i && s.bodies[k].x == s.bodies[i].x;
    var rows := set k | 0 <= k < i && s.bodies[k].x == s.bodies[i].x :: s.bodies[k].y;
    RowsBound(s.bodies, ks, rows);
    BoundedBelow(rows + {r}, y);
  }
}
