/** Falling on the board itself: the methods that move blocks, against the value model of
    `Falling`. */
module Gravity {
  import opened Geometry
  import opened Connectivity
  import opened BlockStates
  import opened Matching
  import opened PuyoBlocks
  import opened Players
  import opened Falling

  ghost function BodyOf(b: Block): Body
    reads b`kind, b`state, b`x, b`y, b`posY, b`velocity, b`initialized
  {
    Body(b.kind, b.state, b.x, b.y, b.posY, b.velocity, b.kind == Ice ==> b.initialized)
  }

  ghost function Bodies(bs: seq<Block>): (r: seq<Body>)
    reads bs`kind, bs`state, bs`x, bs`y, bs`posY, bs`velocity, bs`initialized
    ensures |r| == |bs| && forall i :: 0 <= i < |bs| ==> r[i] == BodyOf(bs[i])
  {
    if bs == [] then [] else Bodies(bs[..|bs| - 1]) + [BodyOf(bs[|bs| - 1])]
  }

  /** The position of a block in a list without repetitions. */
  function IndexOf(bs: seq<Block>, b: Block): (n: int)
    ensures n == -1 <==> b !in bs
    ensures n != -1 ==> 0 <= n < |bs| && bs[n] == b
  {
    if bs == [] then -1
    else if bs[|bs| - 1] == b then |bs| - 1
    else IndexOf(bs[..|bs| - 1], b)
  }

  /** The board as positions in the list. */
  ghost function Owners(p: BasePlayer): (m: map<Cell, int>)
    requires p.Wired()
    reads p`blockList, p.board
    ensures forall c :: c in m <==> InBoard(c) && p.board[c.y, c.x] != null
    ensures forall c :: c in m ==> m[c] == IndexOf(p.blockList, p.board[c.y, c.x])
  {
    map c | c in AllCells() && p.board[c.y, c.x] != null :: IndexOf(p.blockList, p.board[c.y, c.x])
  }

  /** The player's blocks and board as a value. */
  ghost function View(p: BasePlayer): FallState
    requires p.Wired()
    reads p`blockList, p.board
    reads p.blockList`kind, p.blockList`state, p.blockList`x, p.blockList`y, p.blockList`posY, p.blockList`velocity, p.blockList`initialized
  {
    FallState(Bodies(p.blockList), Owners(p))
  }

  lemma {:induction false} ViewAt(p: BasePlayer, c: Cell)
    requires p.Wired()
    ensures c in View(p).cells <==> InBoard(c) && p.board[c.y, c.x] != null
    ensures c in View(p).cells ==>
      var i := View(p).cells[c];
      0 <= i < |p.blockList| && p.blockList[i] == p.board[c.y, c.x] && View(p).bodies[i] == BodyOf(p.blockList[i])
  {
  }

  /** For a wired board, agreement of list and board is the same on values. */
  lemma {:induction false} ValidIffConsistent(p: BasePlayer)
    requires p.Wired()
    ensures p.Valid() <==> Consistent(View(p))
  {
    var v := View(p);
    if p.Valid() {
      forall i | 0 <= i < |v.bodies| && v.bodies[i].registered
        ensures var c := Cell(v.bodies[i].x, v.bodies[i].y); InBoard(c) && c in v.cells && v.cells[c] == i
      {
        assert p.blockList[i] in p.blockList;
      }
      assert Consistent(v);
    }
    if Consistent(v) {
      forall b | b in p.blockList && p.Registered(b)
        ensures InBoard(Cell(b.x, b.y)) && p.board[b.y, b.x] == b
      {
        var i :| 0 <= i < |p.blockList| && p.blockList[i] == b;
        assert v.bodies[i].registered;
        ViewAt(p, Cell(b.x, b.y));
      }
      forall c | InBoard(c) && p.board[c.y, c.x] != null
        ensures var b := p.board[c.y, c.x]; b.x == c.x && b.y == c.y && p.Registered(b)
      {
        ViewAt(p, c);
      }
    }
  }

  lemma {:induction false} FirstHitUnfold(s: FallState, n: int, x: int, y: real, row: int)
    requires 0 <= row < BOARD_Y_COUNT
    ensures FirstHit(s, n, x, y, row) == if Falling.Blocks(s, n, Cell(x, row), y) then row else FirstHit(s, n, x, y, row + 1)
  {
  }

  /** Looks up the column of block `n` for a resting block that its rectangle, moved to `y`,
      runs into. */
  method FindCollision(p: BasePlayer, self: Block, ghost n: int, y: real) returns (row: int, block: Block?)
    requires p.Wired() && 0 <= n < |p.blockList| && p.blockList[n] == self
    ensures row == FirstHit(View(p), n, self.x, y, 0)
    ensures row < BOARD_Y_COUNT ==>
      var c := Cell(self.x, row);
      block != null && c in View(p).cells && 0 <= View(p).cells[c] < |View(p).bodies|
      && View(p).bodies[View(p).cells[c]].posY == block.posY
  {
    var controlY := Trunc(y);
    row, block := 0, null;
    hide FirstHit, Trunc, Bodies, Owners, IndexOf;
    while row < BOARD_Y_COUNT
      invariant 0 <= row <= BOARD_Y_COUNT
      invariant FirstHit(View(p), n, self.x, y, 0) == FirstHit(View(p), n, self.x, y, row)
    {
      ViewAt(p, Cell(self.x, row));
      FirstHitUnfold(View(p), n, self.x, y, row);
      if 0 <= self.x < BOARD_X_COUNT {
        block := p.board[row, self.x];
        if block != null && block != self && block.state == Stationary && Overlaps(controlY, Trunc(block.posY)) {
          return;
        }
      }
      row := row + 1;
    }
    FirstHitEnd(View(p), n, self.x, y);
  }

  lemma {:induction false} FirstHitEnd(s: FallState, n: int, x: int, y: real)
    ensures FirstHit(s, n, x, y, BOARD_Y_COUNT) == BOARD_Y_COUNT
  {
  }

  /** The move cannot end outside the board (ice has its row forced onto it). */
  ghost predicate StaysOnBoard(s: FallState, n: int, dt: real)
    requires 0 <= n < |s.bodies|
  {
    var b := s.bodies[n];
    && 0 <= b.x < BOARD_X_COUNT
    && (b.registered ==> 0 <= b.y < BOARD_Y_COUNT)
    && match Outcome(s, n, b.x, b.posY + Velocity(b, dt))
       case Lands(posY) => 0 <= LandingRow(b.kind, posY) < BOARD_Y_COUNT
       case Falls => true
  }

  /** Writes one cell of the board. */
  method SetCell(p: BasePlayer, c: Cell, b: Block?, ghost n: int)
    requires p.Wired() && InBoard(c) && (b != null ==> 0 <= n < |p.blockList| && p.blockList[n] == b)
    modifies p.board
    ensures p.Wired() && View(p).bodies == old(View(p)).bodies
    ensures View(p).cells == if b == null then old(View(p)).cells - {c} else old(View(p)).cells[c := n]
  {
    if b != null { IndexUnique(p, n); }
    hide Bodies, Owners, IndexOf, BasePlayer.Wired;
    ghost var m := Owners(p);
    WriteCell(p, c, b);
    CellWritten(m, Owners(p), c, b != null, n);
  }

  lemma {:induction false} CellWritten(m: map<Cell, int>, m': map<Cell, int>, c: Cell, owned: bool, n: int)
    requires forall d :: d != c ==> (d in m' <==> d in m) && (d in m ==> m'[d] == m[d])
    requires c in m' <==> owned
    requires owned ==> m'[c] == n
    ensures m' == if owned then m[c := n] else m - {c}
  {
  }

  method WriteCell(p: BasePlayer, c: Cell, b: Block?)
    requires p.Wired() && InBoard(c) && (b != null ==> b in p.blockList)
    modifies p.board
    ensures p.Wired() && p.board[c.y, c.x] == b
    ensures forall d :: InBoard(d) && d != c ==> p.board[d.y, d.x] == old(p.board[d.y, d.x])
  {
    p.board[c.y, c.x] := b;
  }

  lemma {:induction false} IndexUnique(p: BasePlayer, n: int)
    requires p.Wired() && 0 <= n < |p.blockList|
    ensures IndexOf(p.blockList, p.blockList[n]) == n
  {
  }

  lemma {:induction false} IndexInLonger(bs: seq<Block>, b: Block, c: Block)
    requires c != b
    ensures IndexOf(bs + [b], c) == IndexOf(bs, c)
  {
    assert (bs + [b])[..|bs|] == bs;
  }

  lemma {:induction false} BodiesSnoc(bs: seq<Block>, b: Block)
    ensures Bodies(bs + [b]) == Bodies(bs) + [BodyOf(b)]
  {
    assert (bs + [b])[..|bs|] == bs;
  }

  /** Puts a block at the end of the list. */
  method AppendBlock(p: BasePlayer, b: Block)
    requires p.Wired() && b !in p.blockList
    modifies p`blockList
    ensures p.Wired() && p.blockList == old(p.blockList) + [b]
    ensures View(p).bodies == old(View(p)).bodies + [BodyOf(b)] && View(p).cells == old(View(p)).cells
  {
    hide *;
    ghost var bs, m := p.blockList, Owners(p);
    OwnersInList(p);
    ViewIs(p);
    p.blockList := p.blockList + [b];
    AppendWired(p, bs, b);
    ViewIs(p);
    OwnersAfterAppend(p, bs, m, b);
    BodiesSnoc(bs, b);
  }

  lemma {:induction false} ViewIs(p: BasePlayer)
    requires p.Wired()
    ensures View(p) == FallState(Bodies(p.blockList), Owners(p))
  {
  }

  lemma {:induction false} OwnersInList(p: BasePlayer)
    requires p.Wired()
    ensures Distinct(p.blockList) && p.board.Length0 == BOARD_Y_COUNT == 13 && p.board.Length1 == BOARD_X_COUNT == 6
    ensures forall c :: InBoard(c) && p.board[c.y, c.x] != null ==> p.board[c.y, c.x] in p.blockList
  {
  }

  lemma {:induction false} AppendWired(p: BasePlayer, bs: seq<Block>, b: Block)
    requires Distinct(bs) && b !in bs && p.blockList == bs + [b]
    requires p.board.Length0 == BOARD_Y_COUNT && p.board.Length1 == BOARD_X_COUNT
    requires forall c :: InBoard(c) && p.board[c.y, c.x] != null ==> p.board[c.y, c.x] in bs
    ensures p.Wired()
  {
  }

  lemma {:induction false} OwnersAfterAppend(p: BasePlayer, bs: seq<Block>, m: map<Cell, int>, b: Block)
    requires p.Wired() && p.blockList == bs + [b] && b !in bs
    requires forall c :: InBoard(c) && p.board[c.y, c.x] != null ==> p.board[c.y, c.x] in bs
    requires forall c :: c in m <==> InBoard(c) && p.board[c.y, c.x] != null
    requires forall c :: c in m ==> m[c] == IndexOf(bs, p.board[c.y, c.x])
    ensures Owners(p) == m
  {
    hide IndexOf;
    forall c | c in m
      ensures IndexOf(p.blockList, p.board[c.y, c.x]) == m[c]
    {
      IndexInLonger(bs, b, p.board[c.y, c.x]);
    }
  }

  /** Writes the fields that falling and landing change. */
  method SetBody(p: BasePlayer, b: Block, ghost n: int, state: BlockState, y: int, posY: real, velocity: real)
    requires p.Wired() && 0 <= n < |p.blockList| && p.blockList[n] == b
    modifies b`posY, b`velocity, b`y, b`state, b`initialized
    ensures p.Wired() && View(p).cells == old(View(p)).cells
    ensures View(p).bodies == old(View(p)).bodies[n :=
      Body(b.kind, state, b.x, y, posY, velocity, state == Stationary || old(View(p)).bodies[n].registered)]
  {
    hide *;
    ghost var bodies := Bodies(p.blockList);
    DistinctFrom(p, n);
    ViewBody(p, n);
    WriteBody(b, state, y, posY, velocity);
    OneBodyChanged(bodies, Bodies(p.blockList), n);
    ViewBody(p, n);
  }

  method WriteBody(b: Block, state: BlockState, y: int, posY: real, velocity: real)
    modifies b`posY, b`velocity, b`y, b`state, b`initialized
    ensures BodyOf(b) == old(BodyOf(b)).(state := state, y := y, posY := posY, velocity := velocity,
                                         registered := state == Stationary || old(BodyOf(b)).registered)
  {
    b.posY, b.velocity, b.y, b.state := posY, velocity, y, state;
    if state == Stationary {
      b.initialized := true;
    }
  }

  lemma {:induction false} OneBodyChanged(bodies: seq<Body>, bodies': seq<Body>, n: int)
    requires |bodies| == |bodies'| && 0 <= n < |bodies|
    requires forall i :: 0 <= i < |bodies| && i != n ==> bodies'[i] == bodies[i]
    ensures bodies' == bodies[n := bodies'[n]]
  {
  }

  lemma {:induction false} DistinctFrom(p: BasePlayer, n: int)
    requires p.Wired() && 0 <= n < |p.blockList|
    ensures forall i :: 0 <= i < |p.blockList| && i != n ==> p.blockList[i] != p.blockList[n]
  {
  }

  /** Puts a block to rest at `posY`: it leaves its old cell, if it had one, and takes the cell
      of the row it is in. */
  method Land(p: BasePlayer, b: Block, ghost n: int, posY: real)
    requires p.Wired() && 0 <= n < |p.blockList| && p.blockList[n] == b
    requires 0 <= b.x < BOARD_X_COUNT && (p.Registered(b) ==> 0 <= b.y < BOARD_Y_COUNT)
    requires 0 <= LandingRow(b.kind, posY) < BOARD_Y_COUNT
    modifies p.board, b`posY, b`velocity, b`y, b`state, b`initialized
    ensures p.Wired() && View(p) == LandedAt(old(View(p)), n, LandingRow(b.kind, posY), posY)
  {
    ViewBody(p, n);
    hide View, BasePlayer.Wired, LandingRow;
    ghost var x := b.x;
    if b.kind != Ice || b.initialized {
      SetCell(p, Cell(b.x, b.y), null, n);
    }
    var newIndexY := LandingRow(b.kind, posY);
    SetCell(p, Cell(b.x, newIndexY), b, n);
    SetBody(p, b, n, Stationary, newIndexY, posY, 0.0);
  }

  /** One frame of the fall of block `n`: it speeds up and moves, and comes to rest on the
      first resting block it runs into or on the floor, changing its cell on the board. */
  method UpdateDownMoving(p: BasePlayer, b: Block, ghost n: int, dt: real)
    requires p.Wired() && 0 <= n < |p.blockList| && p.blockList[n] == b && b.state == DownMoving
    requires StaysOnBoard(View(p), n, dt)
    modifies p.board, b`posY, b`velocity, b`y, b`state, b`initialized
    ensures p.Wired() && View(p) == StepBody(old(View(p)), n, dt)
  {
    hide *;
    ViewBody(p, n);
    var velocity := VelocityOf(b, dt);
    var posY := b.posY + velocity;
    var row, block := FindCollision(p, b, n, posY);
    StepOutcome(View(p), n, dt, velocity, posY, row);
    if row < BOARD_Y_COUNT {
      Land(p, b, n, Max(Trunc(posY), Trunc(block.posY)) as real - SIZE);
    } else if posY + SIZE >= HEIGHT {
      Land(p, b, n, HEIGHT - SIZE);
    } else {
      SetBody(p, b, n, DownMoving, b.y, posY, velocity);
    }
  }

  /** What a move ends in, by the row of the block it runs into. */
  lemma {:induction false} StepOutcome(s: FallState, n: int, dt: real, v: real, y: real, row: int)
    requires 0 <= n < |s.bodies| && s.bodies[n].state == DownMoving && StaysOnBoard(s, n, dt)
    requires v == Velocity(s.bodies[n], dt) && y == s.bodies[n].posY + v && row == FirstHit(s, n, s.bodies[n].x, y, 0)
    ensures BOARD_Y_COUNT == 13 && SIZE == 31.0 && HEIGHT == 372.0
    ensures
      var b := s.bodies[n];
      && 0 <= b.x < BOARD_X_COUNT && (b.registered ==> 0 <= b.y < BOARD_Y_COUNT)
      && if row < BOARD_Y_COUNT then
           var posY := Max(Trunc(y), Trunc(s.bodies[s.cells[Cell(b.x, row)]].posY)) as real - SIZE;
           0 <= LandingRow(b.kind, posY) < BOARD_Y_COUNT && StepBody(s, n, dt) == LandedAt(s, n, LandingRow(b.kind, posY), posY)
         else if y + SIZE >= HEIGHT then
           var posY := HEIGHT - SIZE;
           0 <= LandingRow(b.kind, posY) < BOARD_Y_COUNT && StepBody(s, n, dt) == LandedAt(s, n, LandingRow(b.kind, posY), posY)
         else
           StepBody(s, n, dt) == s.(bodies := s.bodies[n := b.(posY := y, velocity := v)])
  {
    hide LandingRow, Trunc, Velocity, Acceleration, FirstHit, Falling.Blocks, LandedAt, Max;
  }

  function VelocityOf(b: Block, dt: real): (v: real)
    reads b`kind, b`state, b`x, b`y, b`posY, b`velocity, b`initialized
    ensures v == Velocity(BodyOf(b), dt)
  {
    b.velocity + (if b.kind == Ice then (BOARD_Y_COUNT - b.y) as real * 0.1 else (BOARD_Y_COUNT + 50 - b.y) as real) * dt
  }

  lemma {:induction false} ViewBody(p: BasePlayer, n: int)
    requires p.Wired() && 0 <= n < |p.blockList|
    ensures View(p).bodies == Bodies(p.blockList) && View(p).cells == Owners(p) && |View(p).bodies| == |p.blockList|
    ensures
      var b := p.blockList[n];
      View(p).bodies[n] == BodyOf(b)
      == Body(b.kind, b.state, b.x, b.y, b.posY, b.velocity, p.Registered(b))
  {
  }

  /** Before block `n` is updated, the invariant keeps its move on the board. */
  lemma {:induction false} ReadyStaysOnBoard(s: FallState, hs: seq<int>, n: int, dt: real)
    requires FrameReady(s, hs, n, dt) && 0 <= n < |s.bodies| && s.bodies[n].state == DownMoving
    ensures StaysOnBoard(s, n, dt)
  {
    hide *;
    ColumnOf(s, hs, n, dt);
    RoomToLand(s, hs, n, dt);
    OutcomeIs(s, hs, n, dt);
    RowOf(s, hs, n, dt);
    OnBoardFrom(s, n, dt, hs[s.bodies[n].x]);
  }

  lemma {:induction false} RowOf(s: FallState, hs: seq<int>, n: int, dt: real)
    requires FallInvariant(s, hs, n, dt) && 0 <= n < |s.bodies|
    ensures 0 <= s.bodies[n].x < |hs| && 0 <= s.bodies[n].y < BOARD_Y_COUNT && 0 <= hs[s.bodies[n].x]
  {
    hide Velocity, Acceleration, RowY, Consistent, Ordered, Airborne, Apart;
  }

  lemma {:induction false} OnBoardFrom(s: FallState, n: int, dt: real, h: int)
    requires 0 <= n < |s.bodies| && 0 <= s.bodies[n].x < BOARD_X_COUNT && 0 <= s.bodies[n].y < BOARD_Y_COUNT && 0 <= h < BOARD_Y_COUNT
    requires
      match Outcome(s, n, s.bodies[n].x, s.bodies[n].posY + Velocity(s.bodies[n], dt))
      case Lands(posY) => posY == RowY(h)
      case Falls => true
    ensures StaysOnBoard(s, n, dt)
  {
    hide Outcome, LandingRow, RowY, Velocity;
    LandingRowOf(s.bodies[n].kind, h);
  }

  /** One frame of the whole board: every falling block is updated once, in list order.
      `heights` are the heights of the resting stacks. */
  method Update(p: BasePlayer, dt: real, ghost heights: seq<int>) returns (ghost heights': seq<int>)
    requires p.Valid() && FrameReady(View(p), heights, 0, dt)
    modifies p.board, p.blockList`posY, p.blockList`velocity, p.blockList`y, p.blockList`state, p.blockList`initialized
    ensures p.Valid() && View(p) == Frame(old(View(p)), 0, dt)
    ensures FallInvariant(View(p), heights', 0, 0.0) && AllMoved(old(View(p)), View(p))
    ensures |heights'| == BOARD_X_COUNT && Room(View(p), heights') && NoPuyoOverIce(View(p))
  {
    hide *;
    ValidWired(p);
    ghost var v := View(p);
    heights' := heights;
    AllMovedRefl(v);
    for n := 0 to |p.blockList|
      invariant p.Wired() && |View(p).bodies| == |p.blockList|
      invariant FrameReady(View(p), heights', n, dt) && AllMoved(v, View(p))
      invariant Frame(v, 0, dt) == Frame(View(p), n, dt)
    {
      var b := p.blockList[n];
      ghost var w := View(p);
      ViewBody(p, n);
      FrameUnfold(w, n, dt);
      StepKeeps(w, heights', n, dt);
      ghost var hs := heights';
      heights' := HeightsAfter(w, hs, n, dt);
      if b.state == DownMoving {
        ReadyStaysOnBoard(w, hs, n, dt);
        UpdateDownMoving(p, b, n, dt);
      }
      AllMovedTrans(v, w, View(p));
    }
    FrameEnd(View(p), heights', dt);
    ValidIffConsistent(p);
  }

  lemma {:induction false} FrameEnd(s: FallState, hs: seq<int>, dt: real)
    requires FrameReady(s, hs, |s.bodies|, dt)
    ensures Frame(s, |s.bodies|, dt) == s && FallInvariant(s, hs, 0, 0.0) && Consistent(s)
    ensures |hs| == BOARD_X_COUNT && Room(s, hs) && NoPuyoOverIce(s)
  {
    NextFrame(s, hs, dt, 0.0);
    OrderPreserving(s, hs, 0, 0.0);
    hide FallInvariant, Room, Paced, NoPuyoOverIce, LowerIsFaster;
    OpenFall(s, hs);
  }

  lemma {:induction false} ValidWired(p: BasePlayer)
    requires p.Valid()
    ensures p.Wired() && |View(p).bodies| == |p.blockList|
  {
  }
}
