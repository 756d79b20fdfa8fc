/** Where the blocks of a control group will come to rest (LocalPlayer::UpdateTargetPosIdx). */
module Targets {
  import opened Geometry
  import opened Connectivity
  import opened BlockStates
  import opened Matching
  import opened PuyoBlocks
  import opened Players
  import opened Clearing
  import opened Settling

  /** The lowest free row of a column, passing over the cell `check`; 13 when there is none. */
  method FindTarget(p: BasePlayer, x: int, check: Cell) returns (y: int)
    requires p.Valid() && 0 <= x < BOARD_X_COUNT
    ensures 0 <= y <= BOARD_Y_COUNT
    ensures y < BOARD_Y_COUNT ==> Cell(x, y) != check && p.At(Cell(x, y)) == null
    ensures forall r :: 0 <= r < y ==> Cell(x, r) == check || p.At(Cell(x, r)) != null
  {
    y := 0;
    while y < BOARD_Y_COUNT
      invariant 0 <= y <= BOARD_Y_COUNT
      invariant forall r :: 0 <= r < y ==> Cell(x, r) == check || p.At(Cell(x, r)) != null
    {
      if check == Cell(x, y) {
        y := y + 1;
        continue;
      }
      if p.At(Cell(x, y)) == null {
        return;
      }
      y := y + 1;
    }
  }

  ghost predicate FreeCell(p: BasePlayer, c: Cell)
    reads p.board
  {
    InBoard(c) && c.y < p.board.Length0 && c.x < p.board.Length1 && p.board[c.y, c.x] == null
  }

  /** Two different free cells, one in each column (or both in the same). */
  ghost predicate HasTargets(p: BasePlayer, x1: int, x2: int)
    reads p.board
  {
    exists c1: Cell, c2: Cell :: FreeCell(p, c1) && FreeCell(p, c2) && c1 != c2 && c1.x == x1 && c2.x == x2
  }

  /** The two cells are free and different, and with them every column is still packed. */
  ghost predicate LowestFree(cells: set<Cell>, c1: Cell, c2: Cell) {
    InBoard(c1) && InBoard(c2) && c1 != c2 && c1 !in cells && c2 !in cells && Packed(cells + {c1, c2})
  }

  /** The marked targets of a group whose blocks are over the columns `x1` and `x2`, the lower block
      of an upright group first, are its lowest free cells; both exist exactly if the columns have room. */
  method UpdateTargetPosIdx(p: BasePlayer, x1: int, x2: int) returns (y1: int, y2: int)
    requires p.Valid() && Packed(p.Layout().Keys) && 0 <= x1 < BOARD_X_COUNT && 0 <= x2 < BOARD_X_COUNT
    ensures 0 <= y1 <= BOARD_Y_COUNT && 0 <= y2 <= BOARD_Y_COUNT
    ensures y1 < BOARD_Y_COUNT && y2 < BOARD_Y_COUNT ==> LowestFree(p.Layout().Keys, Cell(x1, y1), Cell(x2, y2))
    ensures y1 < BOARD_Y_COUNT && y2 < BOARD_Y_COUNT <==> HasTargets(p, x1, x2)
    ensures y1 < BOARD_Y_COUNT && y2 < BOARD_Y_COUNT && x1 == x2 ==> y1 < y2
  {
    hide *;
    OnLayout(p);
    Rows();
    y1 := FindTarget(p, x1, Cell(-1, -1));
    y2 := FindTarget(p, x2, if y1 < BOARD_Y_COUNT then Cell(x1, y1) else Cell(-1, -1));
    TargetsExist(p, x1, x2, y1, y2);
    if y1 < BOARD_Y_COUNT && y2 < BOARD_Y_COUNT {
      TargetsPacked(p.Layout().Keys, Cell(x1, y1), Cell(x2, y2));
    }
  }

  lemma {:induction false} Rows()
    ensures BOARD_X_COUNT == 6 && BOARD_Y_COUNT == 13
    ensures forall c :: InBoard(c) <==> 0 <= c.x < 6 && 0 <= c.y < 13
  {
  }

  lemma {:induction false} TargetsExist(p: BasePlayer, x1: int, x2: int, y1: int, y2: int)
    requires p.Valid() && 0 <= x1 < BOARD_X_COUNT && 0 <= x2 < BOARD_X_COUNT && 0 <= y1 <= BOARD_Y_COUNT && 0 <= y2 <= BOARD_Y_COUNT
    requires y1 < BOARD_Y_COUNT ==> p.At(Cell(x1, y1)) == null
    requires forall r :: 0 <= r < y1 ==> p.At(Cell(x1, r)) != null
    requires y2 < BOARD_Y_COUNT ==> Cell(x2, y2) != Cell(x1, y1) && p.At(Cell(x2, y2)) == null
    requires forall r :: 0 <= r < y2 ==> (Cell(x2, r) == Cell(x1, y1) && y1 < BOARD_Y_COUNT) || p.At(Cell(x2, r)) != null
    ensures y1 < BOARD_Y_COUNT && y2 < BOARD_Y_COUNT <==> HasTargets(p, x1, x2)
    ensures y1 < BOARD_Y_COUNT && y2 < BOARD_Y_COUNT && x1 == x2 ==> y1 < y2
  {
    if y1 < BOARD_Y_COUNT && y2 < BOARD_Y_COUNT {
      assert FreeCell(p, Cell(x1, y1)) && FreeCell(p, Cell(x2, y2));
    }
    forall c | FreeCell(p, c)
      ensures c.x == x1 ==> y1 <= c.y && y1 < BOARD_Y_COUNT
      ensures c.x == x2 ==> c == Cell(x1, y1) || y2 < BOARD_Y_COUNT
    {
      assert p.At(c) == null && c == Cell(c.x, c.y);
    }
  }

  lemma {:induction false} OnLayout(p: BasePlayer)
    requires p.Valid()
    ensures forall c :: p.At(c) != null <==> c in p.Layout()
  {
  }

  lemma {:induction false} TargetsPacked(cells: set<Cell>, c1: Cell, c2: Cell)
    requires Packed(cells) && InBoard(c1) && InBoard(c2) && c1 != c2 && c1 !in cells && c2 !in cells
    requires forall r :: 0 <= r < c1.y ==> Cell(c1.x, r) in cells
    requires forall r :: 0 <= r < c2.y ==> Cell(c2.x, r) == c1 || Cell(c2.x, r) in cells
    ensures LowestFree(cells, c1, c2)
  {
    forall c | c in cells + {c1, c2} && c.y > 0
      ensures Neighbour(c, Bottom) in cells + {c1, c2}
    {
      assert Neighbour(c, Bottom) == Cell(c.x, c.y - 1);
    }
  }
}
