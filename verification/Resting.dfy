/** A board at rest: every column packed from the floor, in list order, each block in its row. */
module Resting {
  import opened Geometry
  import opened Connectivity
  import opened BlockStates
  import opened Matching
  import opened PuyoBlocks
  import opened Players
  import opened Falling
  import opened Gravity
  import opened Clearing
  import opened Rounds
  import opened Settling
  import opened Garbage

  ghost predicate AtRest(p: BasePlayer)
    reads p`blockList, p.board
    reads p.blockList`kind, p.blockList`state, p.blockList`x, p.blockList`y, p.blockList`posY, p.blockList`velocity, p.blockList`initialized
  {
    && p.Valid() && p.Settled() && ColumnSorted(p.blockList) && Packed(p.Layout().Keys)
    && forall i :: 0 <= i < |p.blockList| ==> InItsRow(p.blockList[i])
  }

  lemma {:induction false} SettledRests(p: BasePlayer, c: Cell)
    requires p.Valid() && p.Settled()
    ensures RestsAt(View(p), c) <==> c in p.Layout()
  {
    RestsIff(p, c);
    StateAt(p, c);
    p.SettledAt(c);
    hide View, BasePlayer.Layout, StatesOf, RestsAt;
  }

  /** A board at rest is the special case of a fall in which nothing moves. */
  lemma {:induction false} RestFalls(p: BasePlayer)
    requires AtRest(p)
    ensures FallInvariant(View(p), Heights(View(p)), 0, 0.0) && AllRest(View(p))
  {
    forall i | 0 <= i < |p.blockList|
      ensures BlockAboutToFall(p.blockList[i]) && View(p).bodies[i].state == Stationary
    {
      p.SettledBlock(i);
    }
    forall c
      ensures RestsAt(View(p), c) <==> c in p.Layout()
    {
      SettledRests(p, c);
    }
    hide BasePlayer.Layout, View, RestsAt, BlockAboutToFall;
    AboutToFallFromBlocks(p);
    FallStarts(View(p));
  }

  /** Whenever a fall has brought everything to rest, the board is at rest. */
  lemma {:induction false} FallRests(p: BasePlayer, hs: seq<int>)
    requires p.Valid() && FallInvariant(View(p), hs, 0, 0.0) && AllRest(View(p))
    ensures AtRest(p)
  {
    hide *;
    ValidWired(p);
    RestingBodies(View(p), hs);
    forall i | 0 <= i < |p.blockList|
      ensures View(p).bodies[i] == BodyOf(p.blockList[i])
    {
      ViewBody(p, i);
    }
    BodiesRest(p, View(p).bodies);
    forall c | c in p.Layout() && c.y > 0
      ensures Neighbour(c, Bottom) in p.Layout()
    {
      StackBelow(p, hs, c);
    }
    CloseRest(p);
  }

  lemma {:induction false} CloseRest(p: BasePlayer)
    requires p.Valid() && p.Settled() && ColumnSorted(p.blockList)
    requires forall c :: c in p.Layout() && c.y > 0 ==> Neighbour(c, Bottom) in p.Layout()
    requires forall i :: 0 <= i < |p.blockList| ==> InItsRow(p.blockList[i])
    ensures AtRest(p)
  {
  }

  lemma {:induction false} BodiesRest(p: BasePlayer, bodies: seq<Body>)
    requires |bodies| == |p.blockList| && forall i :: 0 <= i < |bodies| ==> bodies[i] == BodyOf(p.blockList[i])
    requires forall i :: 0 <= i < |bodies| ==>
      bodies[i].state == Stationary && bodies[i].registered && bodies[i].posY == RowY(bodies[i].y) && bodies[i].velocity == 0.0
    requires forall i, j :: 0 <= i < j < |bodies| && bodies[i].x == bodies[j].x ==> bodies[i].y < bodies[j].y
    ensures p.Settled() && ColumnSorted(p.blockList) && forall i :: 0 <= i < |p.blockList| ==> InItsRow(p.blockList[i])
  {
    hide RowY;
    forall i, j | 0 <= i < j < |p.blockList| && p.blockList[i].x == p.blockList[j].x
      ensures p.blockList[i].y < p.blockList[j].y
    {
      assert bodies[i] == BodyOf(p.blockList[i]) && bodies[j] == BodyOf(p.blockList[j]);
    }
  }

  lemma {:induction false} RestingBodies(s: FallState, hs: seq<int>)
    requires FallInvariant(s, hs, 0, 0.0) && AllRest(s)
    ensures forall i :: 0 <= i < |s.bodies| ==>
      s.bodies[i].state == Stationary && s.bodies[i].registered && s.bodies[i].posY == RowY(s.bodies[i].y) && s.bodies[i].velocity == 0.0
    ensures forall i, j :: 0 <= i < j < |s.bodies| && s.bodies[i].x == s.bodies[j].x ==> s.bodies[i].y < s.bodies[j].y
  {
    hide Consistent, Stacked, Airborne, Apart, RowY;
  }

  lemma {:induction false} StackBelow(p: BasePlayer, hs: seq<int>, c: Cell)
    requires p.Valid() && FallInvariant(View(p), hs, 0, 0.0) && AllRest(View(p)) && c in p.Layout() && c.y > 0
    ensures Neighbour(c, Bottom) in p.Layout()
  {
    var d := Neighbour(c, Bottom);
    ViewAt(p, c);
    ViewAt(p, d);
    StateAt(p, c);
    StateAt(p, d);
    hide View;
    StackBelowIn(View(p), hs, c);
  }

  lemma {:induction false} StackBelowIn(s: FallState, hs: seq<int>, c: Cell)
    requires FallInvariant(s, hs, 0, 0.0) && AllRest(s) && c in s.cells && c.y > 0
    ensures Neighbour(c, Bottom) in s.cells
  {
    hide Airborne, Apart, RowY, Ordered;
    assert s.bodies[s.cells[c]].y < hs[c.x];
  }

  // ---------------------------------------------------------------- how many blocks there can be

  lemma {:induction false} PackedBelow(cells: set<Cell>, c: Cell, r: int)
    requires Packed(cells) && c in cells && 0 <= r <= c.y
    ensures Cell(c.x, r) in cells
    decreases c.y - r
  {
    if r < c.y {
      PackedBelow(cells, c, r + 1);
      assert Neighbour(Cell(c.x, r + 1), Bottom) == Cell(c.x, r);
    } else {
      assert c == Cell(c.x, r);
    }
  }

  /** No cell of the two middle columns is occupied in the two top rows. */
  ghost predicate SpawnFree(p: BasePlayer)
    requires p.Valid()
    reads p`blockList, p.board, p.blockList`x, p.blockList`y, p.blockList`kind, p.blockList`initialized
  {
    forall c: Cell :: 2 <= c.x <= 3 && BOARD_Y_COUNT - 2 <= c.y < BOARD_Y_COUNT ==> p.At(c) == null
  }

  /** The test for the end of the game (BasePlayer::IsGameOver). */
  function IsGameOver(p: BasePlayer): (r: bool)
    requires p.Valid()
    reads p`blockList, p.board, p.blockList`x, p.blockList`y, p.blockList`kind, p.blockList`initialized
  {
    || p.board[BOARD_Y_COUNT - 1, 2] != null || p.board[BOARD_Y_COUNT - 1, 3] != null
    || p.board[BOARD_Y_COUNT - 2, 2] != null || p.board[BOARD_Y_COUNT - 2, 3] != null
  }

  lemma {:induction false} GameOverIff(p: BasePlayer)
    requires p.Valid()
    ensures IsGameOver(p) <==> !SpawnFree(p)
  {
    if SpawnFree(p) {
      assert p.At(Cell(2, 11)) == null && p.At(Cell(3, 11)) == null && p.At(Cell(2, 12)) == null && p.At(Cell(3, 12)) == null;
    }
    forall c: Cell | 2 <= c.x <= 3 && BOARD_Y_COUNT - 2 <= c.y < BOARD_Y_COUNT && p.At(c) != null
      ensures IsGameOver(p)
    {
      assert c in [Cell(2, 11), Cell(3, 11), Cell(2, 12), Cell(3, 12)];
    }
  }

  /** With fewer than four blocks on a board at rest the test for the end of the game can be
      left out: a packed column cannot reach the top rows. */
  lemma {:induction false} FewBlocksSpawnFree(p: BasePlayer)
    requires AtRest(p) && |p.blockList| < MIN_MATCH_COUNT
    ensures SpawnFree(p)
  {
    p.SettledCount();
    hide BasePlayer.Layout, BasePlayer.Settled, ColumnSorted;
    forall c: Cell | 2 <= c.x <= 3 && BOARD_Y_COUNT - 2 <= c.y < BOARD_Y_COUNT
      ensures p.At(c) == null
    {
      StateAt(p, c);
      LowColumns(p.Layout().Keys, c);
    }
  }

  lemma {:induction false} LowColumns(cells: set<Cell>, c: Cell)
    requires Packed(cells) && |cells| < MIN_MATCH_COUNT && c.y >= 3
    ensures c !in cells
  {
    if c in cells {
      PackedBelow(cells, c, 0);
      PackedBelow(cells, c, 1);
      PackedBelow(cells, c, 2);
      PackedBelow(cells, c, 3);
      CardinalityOrder({Cell(c.x, 0), Cell(c.x, 1), Cell(c.x, 2), Cell(c.x, 3)}, cells);
    }
  }

  lemma {:induction false} BoundedBelow(ns: set<int>, n: nat)
    requires forall i :: i in ns ==> 0 <= i < n
    ensures |ns| <= n
  {
    if n > 0 {
      var rest := ns - {n - 1};
      BoundedBelow(rest, n - 1);
      if n - 1 in ns { assert ns == rest + {n - 1}; }
    } else {
      assert forall i :: i !in ns;
    }
  }

  function Number(c: Cell): int {
    BOARD_X_COUNT * c.y + c.x
  }

  lemma {:induction false} Numbered(cells: set<Cell>)
    requires forall c :: c in cells ==> InBoard(c)
    ensures |set c | c in cells :: Number(c)| == |cells|
    decreases |cells|
  {
    if cells != {} {
      var c :| c in cells;
      Numbered(cells - {c});
      NumberedMore(cells, c);
    } else {
      assert (set c | c in cells :: Number(c)) == {};
    }
  }

  lemma {:induction false} NumberedMore(cells: set<Cell>, c: Cell)
    requires c in cells && forall d :: d in cells ==> InBoard(d)
    ensures (set d | d in cells :: Number(d)) == (set d | d in cells - {c} :: Number(d)) + {Number(c)}
    ensures Number(c) !in set d | d in cells - {c} :: Number(d)
  {
    forall d | d in cells - {c}
      ensures Number(d) != Number(c)
    {
      NumberDiffers(c, d);
    }
    hide Number;
  }

  lemma {:induction false} NumberDiffers(c: Cell, d: Cell)
    requires InBoard(c) && InBoard(d) && c != d
    ensures Number(c) != Number(d)
  {
  }

  /** The board has 78 cells. */
  lemma {:induction false} CellsFit(cells: set<Cell>)
    requires forall c :: c in cells ==> InBoard(c)
    ensures |cells| <= 78
  {
    Numbered(cells);
    BoundedBelow(set c | c in cells :: Number(c), 78);
  }

  lemma {:induction false} BlocksFit(p: BasePlayer)
    requires p.Valid() && p.Settled()
    ensures |p.blockList| <= 78
  {
    p.SettledCount();
    CellsFit(p.Layout().Keys);
  }
}
