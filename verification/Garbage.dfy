/** Pending ice: what a drop of it puts above the board, and the ledger of a whole run. */
module Garbage {
  import opened Geometry
  import opened Connectivity
  import opened BlockStates
  import opened Matching
  import opened PuyoBlocks
  import opened Players
  import opened Falling
  import opened Gravity

  const LARGE_DROP := 30

  // ---------------------------------------------------------------- the shape of a drop

  /** Whole rows of ice in one drop, and the columns of the incomplete row above them. */
  function DropRows(pending: int): int {
    if pending > LARGE_DROP then 5 else pending / BOARD_X_COUNT
  }

  function DropColumns(pending: int): int {
    if pending > LARGE_DROP then 0 else pending % BOARD_X_COUNT
  }

  /** The ice blocks of a drop by column and by row above the board, in the order in which
      they are made. */
  ghost predicate IsDrop(cs: seq<Cell>, pending: int) {
    && |cs| == 6 * DropRows(pending) + DropColumns(pending)
    && (forall k :: 0 <= k < |cs| && k < 6 * DropRows(pending) ==> cs[k] == Cell(k % 6, k / 6))
    && (forall k :: 6 * DropRows(pending) <= k < |cs| ==> 0 <= cs[k].x < BOARD_X_COUNT && cs[k].y == DropRows(pending))
    && (forall j, k :: 6 * DropRows(pending) <= j < k < |cs| ==> cs[j].x < cs[k].x)
  }

  /** A drop consists of exactly the pending ice blocks, at most thirty, all in different places,
      column by column from the bottom up. */
  lemma {:induction false} DropIsExact(cs: seq<Cell>, pending: int)
    requires IsDrop(cs, pending) && pending > 0
    ensures |cs| == (if pending < LARGE_DROP then pending else LARGE_DROP) && Distinct(cs)
    ensures forall k :: 0 <= k < |cs| ==> 0 <= cs[k].x < BOARD_X_COUNT && 0 <= cs[k].y <= 4
    ensures forall j, k :: 0 <= j < k < |cs| && cs[j].x == cs[k].x ==> cs[j].y < cs[k].y
  {
    var rows := DropRows(pending);
    forall j, k | 0 <= j < k < |cs| && cs[j].x == cs[k].x
      ensures cs[j].y < cs[k].y
    {
      assert j < 6 * rows;
      if k < 6 * rows { SameColumn(j, k); }
    }
    forall k | 0 <= k < |cs|
      ensures 0 <= cs[k].x < BOARD_X_COUNT && 0 <= cs[k].y <= 4
    {
    }
  }

  lemma {:induction false} SameColumn(j: int, k: int)
    requires 0 <= j < k && j % 6 == k % 6
    ensures j / 6 < k / 6
  {
  }

  /** What is left pending after a drop. */
  function AfterDrop(pending: int): int {
    if pending > LARGE_DROP then pending - LARGE_DROP else 0
  }

  function AfterDrops(pending: int, n: nat): int {
    if n == 0 then pending else AfterDrop(AfterDrops(pending, n - 1))
  }

  /** `pending` blocks need exactly as many drops as there are thirties in them, rounded up. */
  lemma {:induction false} DrainedAfter(pending: int, n: nat)
    requires pending > 0
    ensures AfterDrops(pending, n) == (if pending > LARGE_DROP * n then pending - LARGE_DROP * n else 0)
    ensures AfterDrops(pending, n) == 0 <==> n >= (pending + LARGE_DROP - 1) / LARGE_DROP
  {
    if n > 0 { DrainedAfter(pending, n - 1); }
  }

  // ---------------------------------------------------------------- a drop starts a fall

  function DropBody(c: Cell): Body {
    Body(Ice, DownMoving, c.x, c.y, RowY(BOARD_Y_COUNT - 1 + c.y), 0.0, false)
  }

  function DropBodies(cs: seq<Cell>): (bs: seq<Body>)
    ensures |bs| == |cs| && forall k :: 0 <= k < |cs| ==> bs[k] == DropBody(cs[k])
  {
    seq(|cs|, k requires 0 <= k < |cs| => DropBody(cs[k]))
  }

  function Dropped(s: FallState, cs: seq<Cell>): FallState {
    s.(bodies := s.bodies + DropBodies(cs))
  }

  /** Nothing but ice is falling. */
  ghost predicate OnlyIceFalls(s: FallState) {
    forall i :: 0 <= i < |s.bodies| && s.bodies[i].state == DownMoving ==> s.bodies[i].kind == Ice
  }

  /** Ice dropped onto a board at rest falls in order, whatever the heights of the columns. */
  lemma {:induction false} DropStartsFall(s: FallState, hs: seq<int>, cs: seq<Cell>, pending: int)
    requires FallInvariant(s, hs, 0, 0.0) && AllRest(s) && IsDrop(cs, pending) && pending > 0
    ensures FallInvariant(Dropped(s, cs), hs, 0, 0.0) && OnlyIceFalls(Dropped(s, cs))
  {
    hide *;
    DropIsExact(cs, pending);
    OpenFall(s, hs);
    DropExtends(s, cs);
    DropConsistent(s, Dropped(s, cs), cs);
    DropStacked(s, hs, Dropped(s, cs), cs);
    DropFalls(s, hs, Dropped(s, cs), cs);
    DropWellFormed(s, Dropped(s, cs), cs);
    CloseFall(Dropped(s, cs), hs);
  }

  lemma {:induction false} DropExtends(s: FallState, cs: seq<Cell>)
    ensures Extends(s, Dropped(s, cs), cs)
  {
    hide DropBody;
  }

  lemma {:induction false} DropWellFormed(s: FallState, s': FallState, cs: seq<Cell>)
    requires WellFormed(s) && AllRest(s) && Extends(s, s', cs)
    requires forall k :: 0 <= k < |cs| ==> 0 <= cs[k].x < BOARD_X_COUNT && 0 <= cs[k].y <= 4
    ensures WellFormed(s') && OnlyIceFalls(s')
  {
    hide RowY;
  }

  /** The blocks of `s'` are those of `s` and then the dropped ones. */
  ghost predicate Extends(s: FallState, s': FallState, cs: seq<Cell>) {
    && s'.cells == s.cells && |s'.bodies| == |s.bodies| + |cs|
    && (forall i :: 0 <= i < |s.bodies| ==> s'.bodies[i] == s.bodies[i])
    && (forall i :: |s.bodies| <= i < |s'.bodies| ==> s'.bodies[i] == DropBody(cs[i - |s.bodies|]))
  }

  lemma {:induction false} DropConsistent(s: FallState, s': FallState, cs: seq<Cell>)
    requires Consistent(s) && Extends(s, s', cs)
    ensures Consistent(s')
  {
    hide RowY;
  }

  lemma {:induction false} DropStacked(s: FallState, hs: seq<int>, s': FallState, cs: seq<Cell>)
    requires Stacked(s, hs) && Extends(s, s', cs)
    ensures Stacked(s', hs)
  {
    hide RowY;
  }

  lemma {:induction false} DropFalls(s: FallState, hs: seq<int>, s': FallState, cs: seq<Cell>)
    requires WellFormed(s) && Ordered(s) && AllRest(s) && Extends(s, s', cs)
    requires |hs| == BOARD_X_COUNT && forall x :: 0 <= x < BOARD_X_COUNT ==> 0 <= hs[x] <= BOARD_Y_COUNT
    requires forall k :: 0 <= k < |cs| ==> 0 <= cs[k].x < BOARD_X_COUNT && 0 <= cs[k].y <= 4
    requires forall j, k :: 0 <= j < k < |cs| && cs[j].x == cs[k].x ==> cs[j].y < cs[k].y
    ensures Ordered(s') && Airborne(s', hs) && Apart(s', 0, 0.0)
  {
    var n := |s.bodies|;
    forall i, j | FallTogether(s', i, j)
      ensures n <= i && s'.bodies[i].posY >= s'.bodies[j].posY + SIZE
    {
      assert cs[i - n].y + 1 <= cs[j - n].y;
    }
    assert Ordered(s') by { hide RowY; }
  }

  // ---------------------------------------------------------------- room for a drop

  /** How many of the dropped blocks come down in a column. */
  ghost function ColumnDrop(cs: seq<Cell>, x: int): nat {
    if cs == [] then 0 else ColumnDrop(cs[..|cs| - 1], x) + if cs[|cs| - 1].x == x then 1 else 0
  }

  lemma {:induction false} ColumnDropSnoc(cs: seq<Cell>, c: Cell, x: int)
    ensures ColumnDrop(cs + [c], x) == ColumnDrop(cs, x) + if c.x == x then 1 else 0
  {
    assert (cs + [c])[..|cs|] == cs;
  }

  lemma {:induction false} DropFallsIn(s: FallState, cs: seq<Cell>, x: int)
    requires AllRest(s)
    ensures |FallingIn(Dropped(s, cs), x)| == ColumnDrop(cs, x)
  {
    if cs == [] {
      assert FallingIn(Dropped(s, cs), x) == {};
    } else {
      var n := |cs| - 1;
      DropFallsIn(s, cs[..n], x);
      assert cs == cs[..n] + [cs[n]];
      DroppedTwice(s, cs[..n], cs[n]);
      DroppedOneMore(Dropped(s, cs[..n]), cs[n], x);
    }
  }

  lemma {:induction false} DroppedOneMore(s: FallState, c: Cell, x: int)
    ensures |FallingIn(Dropped(s, [c]), x)| == |FallingIn(s, x)| + if c.x == x then 1 else 0
  {
    var before, after := FallingIn(s, x), FallingIn(Dropped(s, [c]), x);
    assert Dropped(s, [c]).bodies == s.bodies + [DropBody(c)];
    hide Dropped, RowY;
    assert after == before + if c.x == x then {|s.bodies|} else {};
    assert |s.bodies| !in before;
  }

  /** A drop has room exactly when no column it reaches is filled beyond its top. */
  lemma {:induction false} DropRoomIff(s: FallState, hs: seq<int>, cs: seq<Cell>)
    requires AllRest(s) && |hs| == BOARD_X_COUNT && forall k :: 0 <= k < |cs| ==> 0 <= cs[k].x < BOARD_X_COUNT
    ensures Room(Dropped(s, cs), hs)
       <==> forall x :: 0 <= x < BOARD_X_COUNT && ColumnDrop(cs, x) > 0 ==> hs[x] + ColumnDrop(cs, x) <= BOARD_Y_COUNT
  {
    hide *;
    RoomByColumn(s, hs, cs);
    forall x | 0 <= x < BOARD_X_COUNT
      ensures |FallingIn(Dropped(s, cs), x)| == ColumnDrop(cs, x) && (ColumnDrop(cs, x) > 0 <==> Reaches(cs, x))
    {
      DropFallsIn(s, cs, x);
      ColumnReached(cs, x);
      ReachesIs(cs, x);
    }
  }

  ghost predicate Reaches(cs: seq<Cell>, x: int) {
    exists k :: 0 <= k < |cs| && cs[k].x == x
  }

  lemma {:induction false} ReachesIs(cs: seq<Cell>, x: int)
    ensures Reaches(cs, x) <==> exists k :: 0 <= k < |cs| && cs[k].x == x
  {
  }

  /** Room is asked for in the columns that the drop reaches. */
  lemma {:induction false} RoomByColumn(s: FallState, hs: seq<int>, cs: seq<Cell>)
    requires AllRest(s) && |hs| == BOARD_X_COUNT && forall k :: 0 <= k < |cs| ==> 0 <= cs[k].x < BOARD_X_COUNT
    ensures Room(Dropped(s, cs), hs)
       <==> forall x :: 0 <= x < BOARD_X_COUNT && Reaches(cs, x) ==> hs[x] + |FallingIn(Dropped(s, cs), x)| <= BOARD_Y_COUNT
  {
    hide RowY, FallingIn, Reaches, Dropped;
    var s' := Dropped(s, cs);
    forall x | 0 <= x < BOARD_X_COUNT && Reaches(cs, x)
      ensures exists i :: NewIceIn(s', i, x)
    {
      NewIce(s, cs, x);
    }
    forall i | 0 <= i < |s'.bodies| && s'.bodies[i].state == DownMoving
      ensures Reaches(cs, s'.bodies[i].x)
    {
      FallingReaches(s, cs, i);
    }
  }

  ghost predicate NewIceIn(s: FallState, i: int, x: int) {
    0 <= i < |s.bodies| && s.bodies[i].state == DownMoving && !s.bodies[i].registered && s.bodies[i].x == x
  }

  lemma {:induction false} NewIce(s: FallState, cs: seq<Cell>, x: int)
    requires Reaches(cs, x)
    ensures exists i :: NewIceIn(Dropped(s, cs), i, x)
  {
    hide RowY, Dropped;
    DroppedBodies(s, cs);
    var k :| 0 <= k < |cs| && cs[k].x == x;
    assert NewIceIn(Dropped(s, cs), |s.bodies| + k, x);
  }

  lemma {:induction false} FallingReaches(s: FallState, cs: seq<Cell>, i: int)
    requires AllRest(s) && 0 <= i < |Dropped(s, cs).bodies| && Dropped(s, cs).bodies[i].state == DownMoving
    ensures Reaches(cs, Dropped(s, cs).bodies[i].x)
  {
    hide RowY, Dropped;
    DroppedBodies(s, cs);
    var k := i - |s.bodies|;
    assert k >= 0 && Dropped(s, cs).bodies[|s.bodies| + k] == DropBody(cs[k]);
  }

  lemma {:induction false} DroppedBodies(s: FallState, cs: seq<Cell>)
    ensures |Dropped(s, cs).bodies| == |s.bodies| + |cs|
    ensures forall i :: 0 <= i < |s.bodies| ==> Dropped(s, cs).bodies[i] == s.bodies[i]
    ensures forall k :: 0 <= k < |cs| ==> Dropped(s, cs).bodies[|s.bodies| + k] == DropBody(cs[k])
  {
  }

  lemma {:induction false} ColumnReached(cs: seq<Cell>, x: int)
    ensures ColumnDrop(cs, x) > 0 <==> exists k :: 0 <= k < |cs| && cs[k].x == x
  {
    if cs != [] {
      var n := |cs| - 1;
      ColumnReached(cs[..n], x);
      if ColumnDrop(cs[..n], x) > 0 {
        var k :| 0 <= k < n && cs[..n][k].x == x;
        assert cs[k].x == x;
      }
    }
  }

  lemma {:induction false} RowsDrop(cs: seq<Cell>, pending: int, n: nat, x: int)
    requires IsDrop(cs, pending) && n <= |cs| && n <= 6 * DropRows(pending) && 0 <= x < BOARD_X_COUNT
    ensures ColumnDrop(cs[..n], x) == n / 6 + if x < n % 6 then 1 else 0
  {
    if n > 0 {
      RowsDrop(cs, pending, n - 1, x);
      assert cs[..n] == cs[..n - 1] + [cs[n - 1]];
      ColumnDropSnoc(cs[..n - 1], cs[n - 1], x);
      hide ColumnDrop, DropRows, DropColumns;
      NextInRow(n);
    }
  }

  lemma {:induction false} NextInRow(n: nat)
    requires n > 0
    ensures if n % 6 == 0 then n / 6 == (n - 1) / 6 + 1 && (n - 1) % 6 == 5 else n / 6 == (n - 1) / 6 && n % 6 == (n - 1) % 6 + 1
  {
  }

  ghost predicate InPartialRow(cs: seq<Cell>, rows: int, n: int, x: int)
    requires n <= |cs| && 0 <= rows
  {
    exists k :: 6 * rows <= k < n && cs[k].x == x
  }

  /** Each column gets one block of every full row, and one more if the incomplete row reaches it. */
  lemma {:induction false} ColumnDropIs(cs: seq<Cell>, pending: int, n: nat, x: int)
    requires IsDrop(cs, pending) && pending > 0 && 6 * DropRows(pending) <= n <= |cs| && 0 <= x < BOARD_X_COUNT
    ensures ColumnDrop(cs[..n], x) == DropRows(pending) + if InPartialRow(cs, DropRows(pending), n, x) then 1 else 0
  {
    hide ColumnDrop, IsDrop, InPartialRow;
    var rows := DropRows(pending);
    if n == 6 * rows {
      RowsDrop(cs, pending, n, x);
      PartialNext(cs, rows, n, x);
    } else {
      ColumnDropIs(cs, pending, n - 1, x);
      assert cs[..n] == cs[..n - 1] + [cs[n - 1]];
      ColumnDropSnoc(cs[..n - 1], cs[n - 1], x);
      PartialOnce(cs, pending, n - 1);
      PartialNext(cs, rows, n - 1, x);
    }
  }

  lemma {:induction false} PartialNext(cs: seq<Cell>, rows: int, n: int, x: int)
    requires 0 <= 6 * rows <= n <= |cs|
    ensures n == 6 * rows ==> !InPartialRow(cs, rows, n, x)
    ensures n < |cs| ==> (InPartialRow(cs, rows, n + 1, x) <==> InPartialRow(cs, rows, n, x) || cs[n].x == x)
    ensures n < |cs| && (forall k :: 6 * rows <= k < n ==> cs[k].x != cs[n].x) && cs[n].x == x ==> !InPartialRow(cs, rows, n, x)
  {
    if n < |cs| && InPartialRow(cs, rows, n, x) {
      var k :| 6 * rows <= k < n && cs[k].x == x;
      assert 6 * rows <= k < n + 1 && cs[k].x == x;
    }
  }

  lemma {:induction false} PartialOnce(cs: seq<Cell>, pending: int, n: int)
    requires IsDrop(cs, pending) && pending > 0 && 6 * DropRows(pending) <= n < |cs|
    ensures forall k :: 6 * DropRows(pending) <= k < n ==> cs[k].x != cs[n].x
  {
    hide DropRows, DropColumns;
  }

  // ---------------------------------------------------------------- making the blocks

  /** The list was `bs` and has grown by the new blocks `made`: unmarked ice without a cell. */
  ghost predicate Grown(p: BasePlayer, bs: seq<Block>, made: set<Block>)
    reads p`blockList, made`recursionCheck, made`kind, made`initialized
  {
    && |bs| <= |p.blockList| && p.blockList[..|bs|] == bs
    && (forall i :: |bs| <= i < |p.blockList| ==> p.blockList[i] in made)
    && (forall b :: b in made ==> !b.recursionCheck && b.kind == Ice && !b.initialized)
  }

  lemma {:induction false} GrownNot(p: BasePlayer)
    ensures Grown(p, p.blockList, {})
  {
  }

  lemma {:induction false} GrownNext(p: BasePlayer, bs: seq<Block>, before: seq<Block>, made: set<Block>, b: Block)
    requires p.blockList == before + [b] && |bs| <= |before| && before[..|bs|] == bs
    requires forall i :: |bs| <= i < |before| ==> before[i] in made
    requires forall b :: b in made ==> !b.recursionCheck && b.kind == Ice && !b.initialized
    requires !b.recursionCheck && b.kind == Ice && !b.initialized
    ensures Grown(p, bs, made + {b})
  {
  }

  lemma {:induction false} OpenGrown(p: BasePlayer, bs: seq<Block>, made: set<Block>)
    requires Grown(p, bs, made)
    ensures |bs| <= |p.blockList| && p.blockList[..|bs|] == bs
    ensures forall i :: |bs| <= i < |p.blockList| ==> p.blockList[i] in made
    ensures forall b :: b in made ==> !b.recursionCheck && b.kind == Ice && !b.initialized
  {
  }

  /** Makes one ice block above the board and puts it at the end of the list. */
  method CreateIceBlock(p: BasePlayer, x: int, y: int, ghost bs: seq<Block>, ghost made: set<Block>)
    returns (ghost made': set<Block>)
    requires p.Wired() && 0 <= x < BOARD_X_COUNT && 0 <= y && Grown(p, bs, made)
    modifies p`blockList
    ensures p.Wired() && made <= made' && fresh(made' - made) && Grown(p, bs, made')
    ensures View(p) == Dropped(old(View(p)), [Cell(x, y)])
  {
    hide *;
    ghost var v, before := View(p), p.blockList;
    OpenGrown(p, bs, made);
    var renderY := -SIZE * (y + 1) as real;
    var iceBlock := new Block(Ice, x, y, renderY, DownMoving);
    AppendBlock(p, iceBlock);
    GrownNext(p, bs, before, made, iceBlock);
    made' := made + {iceBlock};
    DroppedOne(v, View(p), iceBlock, x, y);
  }

  lemma {:induction false} DroppedOne(s: FallState, s': FallState, b: Block, x: int, y: int)
    requires s'.bodies == s.bodies + [BodyOf(b)] && s'.cells == s.cells
    requires b.kind == Ice && b.state == DownMoving && b.x == x && b.y == y && b.velocity == 0.0 && !b.initialized
    requires b.posY == -SIZE * (y + 1) as real
    ensures s' == Dropped(s, [Cell(x, y)])
  {
    IceAbove(y);
    assert DropBodies([Cell(x, y)]) == [BodyOf(b)];
  }

  lemma {:induction false} IceAbove(y: int)
    ensures -SIZE * (y + 1) as real == RowY(BOARD_Y_COUNT - 1 + y)
  {
  }

  lemma {:induction false} DroppedTwice(s: FallState, cs: seq<Cell>, c: Cell)
    ensures Dropped(s, []) == s
    ensures Dropped(Dropped(s, cs), [c]) == Dropped(s, cs + [c])
  {
    assert DropBodies(cs) + DropBodies([c]) == DropBodies(cs + [c]);
  }

  /** Where the row-by-row part of a drop puts its blocks. */
  ghost predicate RowMajor(cs: seq<Cell>) {
    forall k :: 0 <= k < |cs| ==> cs[k] == Cell(k % 6, k / 6)
  }

  lemma {:induction false} RowMajorNext(cs: seq<Cell>, x: int, y: int)
    requires RowMajor(cs) && |cs| == 6 * y + x && 0 <= x < 6
    ensures RowMajor(cs + [Cell(x, y)])
  {
  }

  method CreateRows(p: BasePlayer, rows: nat, ghost bs: seq<Block>) returns (ghost cs: seq<Cell>, ghost made: set<Block>)
    requires p.Wired() && p.blockList == bs
    modifies p`blockList
    ensures p.Wired() && View(p) == Dropped(old(View(p)), cs) && fresh(made) && Grown(p, bs, made)
    ensures |cs| == 6 * rows && RowMajor(cs)
  {
    hide *;
    cs, made := [], {};
    ghost var v := View(p);
    BoardSizes();
    DroppedTwice(v, [], Cell(0, 0));
    RowMajorNone();
    GrownNot(p);
    for y := 0 to rows
      invariant p.Wired() && View(p) == Dropped(v, cs) && fresh(made) && Grown(p, bs, made)
      invariant |cs| == 6 * y && RowMajor(cs)
    {
      for x := 0 to BOARD_X_COUNT
        invariant p.Wired() && View(p) == Dropped(v, cs) && fresh(made) && Grown(p, bs, made)
        invariant |cs| == 6 * y + x && RowMajor(cs)
      {
        made := CreateIceBlock(p, x, y, bs, made);
        DroppedTwice(v, cs, Cell(x, y));
        RowMajorNext(cs, x, y);
        cs := cs + [Cell(x, y)];
      }
    }
  }

  lemma {:induction false} RowMajorNone()
    ensures RowMajor([])
  {
  }

  /** Draws columns until there are enough different ones. */
  method ChooseColumns(count: nat) returns (positions: set<int>)
    requires count <= BOARD_X_COUNT
    ensures |positions| == count && forall x :: x in positions ==> 0 <= x < BOARD_X_COUNT
  {
    positions := {};
    while |positions| < count
      invariant |positions| <= count && forall x :: x in positions ==> 0 <= x < BOARD_X_COUNT
      decreases count - |positions|
    {
      ColumnLeft(positions);
      var x :| 0 <= x < BOARD_X_COUNT && x !in positions;
      positions := positions + {x};
    }
  }

  lemma {:induction false} ColumnLeft(positions: set<int>)
    requires |positions| < BOARD_X_COUNT
    ensures exists x :: 0 <= x < BOARD_X_COUNT && x !in positions
  {
    if forall x :: 0 <= x < BOARD_X_COUNT ==> x in positions {
      assert {0, 1, 2, 3, 4, 5} <= positions;
      CardinalityOrder({0, 1, 2, 3, 4, 5}, positions);
    }
  }

  ghost function Below(positions: set<int>, x: int): set<int> {
    set i | i in positions && i < x
  }

  lemma {:induction false} BelowNext(positions: set<int>, x: int)
    ensures Below(positions, x + 1) == Below(positions, x) + if x in positions then {x} else {}
    ensures x !in Below(positions, x)
  {
  }

  lemma {:induction false} BelowEnds(positions: set<int>)
    requires forall x :: x in positions ==> 0 <= x < BOARD_X_COUNT
    ensures Below(positions, 0) == {} && Below(positions, BOARD_X_COUNT) == positions
  {
  }

  /** The incomplete row of a drop. */
  ghost predicate PartialRow(cs: seq<Cell>, y: int, x: int) {
    && (forall k :: 0 <= k < |cs| ==> 0 <= cs[k].x < x && cs[k].y == y)
    && (forall j, k :: 0 <= j < k < |cs| ==> cs[j].x < cs[k].x)
  }

  lemma {:induction false} PartialRowNext(cs: seq<Cell>, y: int, x: int)
    requires PartialRow(cs, y, x) && 0 <= x
    ensures PartialRow(cs, y, x + 1) && PartialRow(cs + [Cell(x, y)], y, x + 1)
  {
  }

  method CreateColumns(p: BasePlayer, positions: set<int>, y: nat, ghost bs: seq<Block>, ghost made: set<Block>)
    returns (ghost cs: seq<Cell>, ghost made': set<Block>)
    requires p.Wired() && Grown(p, bs, made) && forall x :: x in positions ==> 0 <= x < BOARD_X_COUNT
    modifies p`blockList
    ensures p.Wired() && View(p) == Dropped(old(View(p)), cs) && made <= made' && fresh(made' - made) && Grown(p, bs, made')
    ensures |cs| == |positions| && PartialRow(cs, y, BOARD_X_COUNT)
  {
    hide *;
    cs, made' := [], made;
    ghost var v := View(p);
    BoardSizes();
    DroppedTwice(v, [], Cell(0, 0));
    BelowEnds(positions);
    NoColumns(y);
    for x := 0 to BOARD_X_COUNT
      invariant p.Wired() && View(p) == Dropped(v, cs) && made <= made' && fresh(made' - made) && Grown(p, bs, made')
      invariant |cs| == |Below(positions, x)| && PartialRow(cs, y, x)
    {
      BelowNext(positions, x);
      PartialRowNext(cs, y, x);
      if x in positions {
        made' := CreateIceBlock(p, x, y, bs, made');
        DroppedTwice(v, cs, Cell(x, y));
        cs := cs + [Cell(x, y)];
      }
    }
  }

  lemma {:induction false} RowsThenColumns(s: FallState, cs: seq<Cell>, ds: seq<Cell>, pending: int)
    requires 0 < pending && |cs| == 6 * DropRows(pending) && RowMajor(cs)
    requires |ds| == DropColumns(pending) && PartialRow(ds, DropRows(pending), BOARD_X_COUNT)
    ensures Dropped(Dropped(s, cs), ds) == Dropped(s, cs + ds) && IsDrop(cs + ds, pending)
    ensures ds == [] ==> cs + ds == cs
  {
    assert DropBodies(cs) + DropBodies(ds) == DropBodies(cs + ds);
    hide Dropped, DropRows, DropColumns, DropBodies;
  }

  /** Drops pending ice (BasePlayer::GenerateIceBlocks): thirty blocks if there are more, otherwise all. */
  method GenerateIceBlocks(p: BasePlayer) returns (ghost cs: seq<Cell>, ghost made: set<Block>)
    requires p.Wired()
    modifies p`blockList, p`totalInterrupt, p`phase, p`hasIceBlock, p`defenseCount
    ensures p.Wired() && fresh(made) && Grown(p, old(p.blockList), made) && View(p) == Dropped(old(View(p)), cs)
    ensures
      if old(p.totalInterrupt) <= 0 || old(p.phase) != Playing then
        && cs == [] && p.blockList == old(p.blockList) && p.totalInterrupt == old(p.totalInterrupt) && p.phase == old(p.phase)
        && p.hasIceBlock == old(p.hasIceBlock) && p.defenseCount == old(p.defenseCount)
      else
        && IsDrop(cs, old(p.totalInterrupt)) && p.totalInterrupt == AfterDrop(old(p.totalInterrupt)) && p.phase == IceBlocking
        && (p.hasIceBlock <==> p.totalInterrupt > 0) && p.defenseCount == 0
  {
    hide *;
    cs, made := [], {};
    ghost var v, pending := View(p), p.totalInterrupt;
    DroppedTwice(v, [], Cell(0, 0));
    GrownNot(p);
    if p.totalInterrupt <= 0 || p.phase != Playing {
      return;
    }
    DropNumbers(pending);
    if p.totalInterrupt > LARGE_DROP {
      p.totalInterrupt := p.totalInterrupt - LARGE_DROP;
      cs, made := CreateRows(p, 5, p.blockList);
      NoColumns(5);
      RowsThenColumns(v, cs, [], pending);
    } else {
      cs, made := GenerateSmall(p);
    }
    p.phase := IceBlocking;
    p.hasIceBlock := p.totalInterrupt > 0;
    p.defenseCount := 0;
  }

  lemma {:induction false} DropNumbers(pending: int)
    requires 0 < pending
    ensures LARGE_DROP == 30 && BOARD_X_COUNT == 6
    ensures DropRows(pending) == (if pending > LARGE_DROP then 5 else pending / BOARD_X_COUNT)
    ensures DropColumns(pending) == (if pending > LARGE_DROP then 0 else pending % BOARD_X_COUNT)
    ensures AfterDrop(pending) == if pending > LARGE_DROP then pending - LARGE_DROP else 0
  {
  }

  lemma {:induction false} NoColumns(y: int)
    ensures PartialRow([], y, BOARD_X_COUNT) && PartialRow([], y, 0)
  {
  }

  method GenerateSmall(p: BasePlayer) returns (ghost cs: seq<Cell>, ghost made: set<Block>)
    requires p.Wired() && 0 < p.totalInterrupt <= LARGE_DROP
    modifies p`blockList, p`totalInterrupt
    ensures p.Wired() && fresh(made) && Grown(p, old(p.blockList), made) && View(p) == Dropped(old(View(p)), cs)
    ensures IsDrop(cs, old(p.totalInterrupt)) && p.totalInterrupt == 0
  {
    hide *;
    ghost var v, bs := View(p), p.blockList;
    DropNumbers(p.totalInterrupt);
    var yCnt := p.totalInterrupt / BOARD_X_COUNT;
    var xCnt := p.totalInterrupt % BOARD_X_COUNT;
    cs, made := CreateRows(p, yCnt, bs);
    NoColumns(yCnt);
    ghost var ds := [];
    DroppedTwice(View(p), [], Cell(0, 0));
    if xCnt > 0 {
      var positions := ChooseColumns(xCnt);
      ds, made := CreateColumns(p, positions, yCnt, bs, made);
    }
    RowsThenColumns(v, cs, ds, p.totalInterrupt);
    cs := cs + ds;
    p.totalInterrupt := 0;
  }
}
