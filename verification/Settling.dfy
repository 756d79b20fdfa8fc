/** From a cleared board to the start of a fall, and from landed blocks to a board at rest. */
module Settling {
  import opened Geometry
  import opened Connectivity
  import opened BlockStates
  import opened Matching
  import opened PuyoBlocks
  import opened Players
  import opened Falling
  import opened Gravity
  import opened Clearing
  import opened Rounds

  ghost predicate RestsAt(s: FallState, c: Cell) {
    c in s.cells && 0 <= s.cells[c] < |s.bodies| && s.bodies[s.cells[c]].state == Stationary
  }

  /** Nothing has moved yet: every block is exactly in its row, the list is in column order,
      and what rests has only resting blocks below it. */
  ghost predicate AboutToFall(s: FallState) {
    && Consistent(s) && WellFormed(s)
    && (forall i :: 0 <= i < |s.bodies| ==>
          s.bodies[i].registered && s.bodies[i].posY == RowY(s.bodies[i].y) && s.bodies[i].velocity == 0.0)
    && (forall i, j :: 0 <= i < j < |s.bodies| && s.bodies[i].x == s.bodies[j].x ==> s.bodies[i].y < s.bodies[j].y)
    && (forall c :: RestsAt(s, c) && c.y > 0 ==> RestsAt(s, Neighbour(c, Bottom)))
  }

  /** The height of the resting stack of a column, from row `y` upwards. */
  ghost function Climb(s: FallState, x: int, y: int): (h: int)
    requires 0 <= y <= BOARD_Y_COUNT
    ensures y <= h <= BOARD_Y_COUNT
    ensures forall r :: y <= r < h ==> RestsAt(s, Cell(x, r))
    ensures h < BOARD_Y_COUNT ==> !RestsAt(s, Cell(x, h))
    decreases BOARD_Y_COUNT - y
  {
    if y == BOARD_Y_COUNT || !RestsAt(s, Cell(x, y)) then y else Climb(s, x, y + 1)
  }

  ghost function Heights(s: FallState): (hs: seq<int>)
    ensures |hs| == BOARD_X_COUNT
    ensures forall x :: 0 <= x < BOARD_X_COUNT ==> hs[x] == Climb(s, x, 0)
  {
    seq(BOARD_X_COUNT, x => Climb(s, x, 0))
  }

  /** Below a resting block everything rests. */
  lemma {:induction false} RestsBelow(s: FallState, x: int, y: int, r: int)
    requires AboutToFall(s) && RestsAt(s, Cell(x, y)) && 0 <= r <= y
    ensures RestsAt(s, Cell(x, r))
    decreases y - r
  {
    if r < y {
      RestsBelow(s, x, y, r + 1);
      assert Neighbour(Cell(x, r + 1), Bottom) == Cell(x, r);
    }
  }

  lemma {:induction false} RestsUnderHeight(s: FallState, x: int, y: int)
    requires AboutToFall(s) && RestsAt(s, Cell(x, y)) && 0 <= x < BOARD_X_COUNT && 0 <= y < BOARD_Y_COUNT
    ensures y < Heights(s)[x]
  {
    var h := Climb(s, x, 0);
    if h <= y { RestsBelow(s, x, y, h); }
  }

  lemma {:induction false} StartStacked(s: FallState)
    requires AboutToFall(s)
    ensures Stacked(s, Heights(s))
  {
    var hs := Heights(s);
    forall i | 0 <= i < |s.bodies| && s.bodies[i].state == Stationary
      ensures s.bodies[i].y < hs[s.bodies[i].x]
    {
      var c := Cell(s.bodies[i].x, s.bodies[i].y);
      assert RestsAt(s, c);
      RestsUnderHeight(s, c.x, c.y);
    }
    forall c: Cell | 0 <= c.x < BOARD_X_COUNT && 0 <= c.y < hs[c.x]
      ensures RestsAt(s, c)
    {
      assert c == Cell(c.x, c.y);
    }
  }

  lemma {:induction false} StartOrdered(s: FallState)
    requires AboutToFall(s)
    ensures Ordered(s)
  {
    forall i, j | 0 <= i < j < |s.bodies| && s.bodies[i].x == s.bodies[j].x && s.bodies[j].state == Stationary
      ensures s.bodies[i].state == Stationary
    {
      var c := Cell(s.bodies[j].x, s.bodies[j].y);
      assert RestsAt(s, c);
      RestsBelow(s, c.x, c.y, s.bodies[i].y);
      assert s.cells[Cell(s.bodies[i].x, s.bodies[i].y)] == i;
    }
  }

  lemma {:induction false} StartAirborne(s: FallState)
    requires AboutToFall(s)
    ensures Airborne(s, Heights(s)) && Apart(s, 0, 0.0)
  {
    var hs := Heights(s);
    forall i | 0 <= i < |s.bodies| && s.bodies[i].state == DownMoving
      ensures s.bodies[i].y >= hs[s.bodies[i].x]
    {
      var c := Cell(s.bodies[i].x, s.bodies[i].y);
      assert s.cells[c] == i && !RestsAt(s, c);
    }
    hide Climb, Consistent, Acceleration, Velocity;
  }

  /** What is about to fall satisfies the invariant of a fall. */
  lemma {:induction false} FallStarts(s: FallState)
    requires AboutToFall(s)
    ensures FallInvariant(s, Heights(s), 0, 0.0)
  {
    StartStacked(s);
    StartOrdered(s);
    StartAirborne(s);
    hide Climb, Heights, Stacked, Ordered, Airborne, Apart;
  }

  /** The heights that a fall keeps count of are those of the resting stacks. */
  lemma {:induction false} HeightsUnique(s: FallState, hs: seq<int>)
    requires FallInvariant(s, hs, 0, 0.0)
    ensures hs == Heights(s)
  {
    hide *;
    OpenFall(s, hs);
    BoardSizes();
    forall x | 0 <= x < BOARD_X_COUNT
      ensures hs[x] == Heights(s)[x]
    {
      forall y | 0 <= y < BOARD_Y_COUNT
        ensures RestsAt(s, Cell(x, y)) <==> y < hs[x]
      {
        StackAt(s, hs, x, y);
      }
      ClimbIs(s, x, hs[x]);
    }
  }

  lemma {:induction false} ClimbIs(s: FallState, x: int, h: int)
    requires 0 <= x < BOARD_X_COUNT && 0 <= h <= BOARD_Y_COUNT
    requires forall y :: 0 <= y < BOARD_Y_COUNT ==> (RestsAt(s, Cell(x, y)) <==> y < h)
    ensures Heights(s)[x] == h
  {
    hide RestsAt;
    var k := Climb(s, x, 0);
    assert k > h ==> RestsAt(s, Cell(x, h));
  }

  lemma {:induction false} StackAt(s: FallState, hs: seq<int>, x: int, y: int)
    requires Consistent(s) && Stacked(s, hs) && 0 <= x < BOARD_X_COUNT && 0 <= y < BOARD_Y_COUNT && |hs| == BOARD_X_COUNT
    ensures RestsAt(s, Cell(x, y)) <==> y < hs[x]
  {
    StackIs(s, hs, Cell(x, y));
  }

  lemma {:induction false} StackIs(s: FallState, hs: seq<int>, c: Cell)
    requires Consistent(s) && Stacked(s, hs) && InBoard(c)
    ensures RestsAt(s, c) <==> c.y < hs[c.x]
  {
    if RestsAt(s, c) { assert s.bodies[s.cells[c]].y == c.y; }
  }

  /** What a fall has to start with: nothing coloured is above falling ice in its column, and new
      ice has room in its column. */
  ghost predicate Fits(s: FallState) {
    NoPuyoOverIce(s) && Room(s, Heights(s))
  }

  lemma {:induction false} CloseFits(s: FallState)
    requires NoPuyoOverIce(s) && Room(s, Heights(s))
    ensures Fits(s)
  {
  }

  // ---------------------------------------------------------------- after a round

  /** List order is bottom-up order in every column. */
  ghost predicate ColumnSorted(bs: seq<Block>)
    reads bs`x, bs`y
  {
    forall i, j :: 0 <= i < j < |bs| && bs[i].x == bs[j].x ==> bs[i].y < bs[j].y
  }

  /** No cell is occupied above an empty one. */
  ghost predicate Packed(cells: set<Cell>) {
    forall c :: c in cells && c.y > 0 ==> Neighbour(c, Bottom) in cells
  }

  /** A block rests exactly in its row. */
  ghost predicate InItsRow(b: Block)
    reads b`y, b`posY, b`velocity
  {
    b.posY == RowY(b.y) && b.velocity == 0.0
  }

  lemma {:induction false} WithoutSorted(bs: seq<Block>, gone: set<Block>)
    requires ColumnSorted(bs)
    ensures ColumnSorted(Without(bs, gone))
  {
    if bs != [] {
      var front, last := bs[..|bs| - 1], bs[|bs| - 1];
      assert bs == front + [last];
      WithoutSorted(front, gone);
      WithoutSnoc(front, last, gone);
      var left := Without(front, gone);
      forall i | 0 <= i < |left| && left[i].x == last.x
        ensures left[i].y < last.y
      {
        InWithout(front, gone, left[i]);
        var k :| 0 <= k < |front| && front[k] == left[i];
        assert bs[k] == front[k] && bs[|bs| - 1] == last;
      }
      hide Without;
    }
  }

  /** One surviving block: it is on the board, in its row, and falls exactly when a freed cell
      lies below it. */
  lemma {:induction false} Survivor(p: BasePlayer, bs: seq<Block>, l: map<Cell, Block>, s: States, gone: set<Cell>, i: int)
    requires RoundDone(p, bs, l, s, gone) && ListsBoard(bs, l) && 0 <= i < |p.blockList|
    requires forall c :: c in l && c !in gone ==> c in s && s[c] == Stationary && InItsRow(l[c])
    ensures
      var b := p.blockList[i];
      var c := Cell(b.x, b.y);
      && c in l && c !in gone && p.At(c) == b && InItsRow(b)
      && b.state == if Above(gone, c) then DownMoving else Stationary
  {
    var b := p.blockList[i];
    InWithout(bs, BlocksAt(l, gone), b);
    var c := Cell(b.x, b.y);
    var k :| 0 <= k < |bs| && bs[k] == b;
    assert c in l && l[c] == b && c !in gone;
    assert c in p.Layout() && p.Layout()[c] == b;
    StateAt(p, c);
  }

  lemma {:induction false} RestsIff(p: BasePlayer, c: Cell)
    requires p.Valid()
    ensures RestsAt(View(p), c) <==> c in StatesOf(p) && StatesOf(p)[c] == Stationary
  {
    ViewAt(p, c);
    StateAt(p, c);
    hide View, StatesOf;
  }

  /** In what a round leaves, a resting cell has a resting cell below it. */
  lemma {:induction false} LoosenedStacked(s: States, gone: set<Cell>, c: Cell)
    requires Packed(s.Keys) && forall d :: d in s && d !in gone ==> s[d] == Stationary
    requires c in Loosened(s - gone, gone) && Loosened(s - gone, gone)[c] == Stationary && c.y > 0
    ensures
      var d := Neighbour(c, Bottom);
      d in Loosened(s - gone, gone) && Loosened(s - gone, gone)[d] == Stationary
  {
    var d := Neighbour(c, Bottom);
    assert c in s && c !in gone && !Above(gone, c);
    assert d in s && d !in gone && !Above(gone, d);
  }

  /** What `AboutToFall` asks of one block. */
  ghost predicate BlockAboutToFall(b: Block)
    reads b`kind, b`initialized, b`x, b`y, b`posY, b`velocity, b`state
  {
    && (b.kind == Ice ==> b.initialized) && InBoard(Cell(b.x, b.y)) && InItsRow(b)
    && (b.state == Stationary || b.state == DownMoving)
  }

  lemma {:induction false} AboutToFallFromBlocks(p: BasePlayer)
    requires p.Valid() && ColumnSorted(p.blockList)
    requires forall i :: 0 <= i < |p.blockList| ==> BlockAboutToFall(p.blockList[i])
    requires forall c :: RestsAt(View(p), c) && c.y > 0 ==> RestsAt(View(p), Neighbour(c, Bottom))
    ensures AboutToFall(View(p))
  {
    ValidIffConsistent(p);
    ValidWired(p);
    forall i | 0 <= i < |p.blockList|
      ensures View(p).bodies[i] == BodyOf(p.blockList[i]) && BodyAboutToFall(View(p).bodies[i])
    {
      ViewBody(p, i);
    }
    hide BasePlayer.Valid, View, RestsAt, BodyAboutToFall, BlockAboutToFall, Consistent;
    AboutToFallFromBodies(View(p));
  }

  ghost predicate BodyAboutToFall(b: Body) {
    && b.registered && InBoard(Cell(b.x, b.y)) && b.posY == RowY(b.y) && b.velocity == 0.0
    && (b.state == Stationary || b.state == DownMoving)
  }

  lemma {:induction false} AboutToFallFromBodies(v: FallState)
    requires Consistent(v) && forall i :: 0 <= i < |v.bodies| ==> BodyAboutToFall(v.bodies[i])
    requires forall i, j :: 0 <= i < j < |v.bodies| && v.bodies[i].x == v.bodies[j].x ==> v.bodies[i].y < v.bodies[j].y
    requires forall c :: RestsAt(v, c) && c.y > 0 ==> RestsAt(v, Neighbour(c, Bottom))
    ensures AboutToFall(v)
  {
    hide Consistent, RestsAt, RowY;
  }

  /** A round leaves a board that is about to fall. */
  lemma {:induction false} RoundStartsFall(p: BasePlayer, bs: seq<Block>, l: map<Cell, Block>, s: States, gone: set<Cell>)
    requires RoundDone(p, bs, l, s, gone) && ListsBoard(bs, l) && ColumnSorted(bs) && Packed(l.Keys) && s.Keys == l.Keys
    requires forall c :: c in l && c !in gone ==> c in s && s[c] == Stationary && InItsRow(l[c])
    ensures AboutToFall(View(p))
  {
    WithoutSorted(bs, BlocksAt(l, gone));
    forall i | 0 <= i < |p.blockList|
      ensures BlockAboutToFall(p.blockList[i])
    {
      Survivor(p, bs, l, s, gone, i);
    }
    forall c | RestsAt(View(p), c) && c.y > 0
      ensures RestsAt(View(p), Neighbour(c, Bottom))
    {
      RestsIff(p, c);
      RestsIff(p, Neighbour(c, Bottom));
      LoosenedStacked(s, gone, c);
    }
    assert p.Valid() && p.blockList == Without(bs, BlocksAt(l, gone));
    hide *;
    AboutToFallFromBlocks(p);
  }
}
