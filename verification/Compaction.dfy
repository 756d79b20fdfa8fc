/** A clear round and the fall after it, as a whole: every column is what is left of it, closed up
    downwards in the old order. */
module Compaction {
  import opened Geometry
  import opened Connectivity
  import opened BlockStates
  import opened Matching
  import opened PuyoBlocks
  import opened Players
  import opened Falling
  import opened Gravity
  import opened Clearing
  import opened Rounds
  import opened Settling
  import opened Garbage
  import opened Resting
  import opened Sorting
  import opened Destroying
  import opened LocalPlayers
  import opened LocalSteps
  import opened LocalFrames
  import opened LocalGame
  import opened FallSpeed
  import opened Driving
  import opened FallingOrder
  import opened Smoothness

  // ---------------------------------------------------------------- when a round starts an orderly fall

  /** Ice with a coloured block somewhere above it will lose its support. */
  ghost predicate IceUnderPuyo(l: map<Cell, Block>, gone: set<Cell>)
    reads l.Values`kind
  {
    exists c, d :: c in l && d in l && c !in gone && d !in gone && c.x == d.x && c.y < d.y
                   && l[c].kind == Ice && l[d].kind != Ice && Above(gone, c)
  }

  lemma {:induction false} AboveHigher(gone: set<Cell>, c: Cell, d: Cell)
    requires Above(gone, c) && c.x == d.x && c.y < d.y
    ensures Above(gone, d)
  {
  }

  /** The survivors by their place in the list. */
  lemma {:induction false} SurvivorAt(p: BasePlayer, bs: seq<Block>, l: map<Cell, Block>, s: States, gone: set<Cell>, i: int)
    requires RoundDone(p, bs, l, s, gone) && Clearable(bs, l, s, gone) && 0 <= i < |p.blockList|
    ensures
      var b := p.blockList[i];
      var c := Cell(b.x, b.y);
      && c in l && c !in gone && l[c] == b && p.Valid() && |View(p).bodies| == |p.blockList|
      && View(p).bodies[i].kind == b.kind && View(p).bodies[i].x == b.x && View(p).bodies[i].y == b.y
      && View(p).bodies[i].state == if Above(gone, c) then DownMoving else Stationary
  {
    OpenClearable(bs, l, s, gone);
    Survivor(p, bs, l, s, gone, i);
    ValidWired(p);
    ViewBody(p, i);
    InWithout(bs, BlocksAt(l, gone), p.blockList[i]);
    hide View, RoundDone, Without;
  }

  lemma {:induction false} SurvivorIndex(p: BasePlayer, bs: seq<Block>, l: map<Cell, Block>, s: States, gone: set<Cell>, c: Cell) returns (i: int)
    requires RoundDone(p, bs, l, s, gone) && Clearable(bs, l, s, gone) && c in l && c !in gone
    ensures 0 <= i < |p.blockList| && p.blockList[i] == l[c] && l[c].x == c.x && l[c].y == c.y
  {
    assert c in p.Layout() && p.Layout()[c] == l[c];
    StateAt(p, c);
    assert p.At(c) in p.blockList;
    i :| 0 <= i < |p.blockList| && p.blockList[i] == l[c];
  }

  lemma {:induction false} RoundDisorder(p: BasePlayer, bs: seq<Block>, l: map<Cell, Block>, s: States, gone: set<Cell>)
    requires RoundDone(p, bs, l, s, gone) && Clearable(bs, l, s, gone) && ColumnSorted(p.blockList) && p.Wired()
    requires IceUnderPuyo(l, gone)
    ensures !NoPuyoOverIce(View(p))
  {
    var c, d :| c in l && d in l && c !in gone && d !in gone && c.x == d.x && c.y < d.y
                && l[c].kind == Ice && l[d].kind != Ice && Above(gone, c);
    AboveHigher(gone, c, d);
    var i := SurvivorIndex(p, bs, l, s, gone, c);
    var j := SurvivorIndex(p, bs, l, s, gone, d);
    SurvivorAt(p, bs, l, s, gone, i);
    SurvivorAt(p, bs, l, s, gone, j);
    ListedInOrder(p.blockList, i, j);
    var v := View(p);
    hide View, RoundDone, Clearable, BasePlayer.Valid, ColumnSorted, IceUnderPuyo, Above, BasePlayer.Wired;
    assert FallTogether(v, i, j);
  }

  lemma {:induction false} ListedInOrder(bs: seq<Block>, i: int, j: int)
    requires ColumnSorted(bs) && 0 <= i < |bs| && 0 <= j < |bs| && bs[i].x == bs[j].x
    ensures bs[i].y < bs[j].y <==> i < j
  {
  }

  /** A round starts a fall in which order is kept exactly when it leaves no such ice. */
  lemma {:induction false} RoundFitsIff(p: BasePlayer, bs: seq<Block>, l: map<Cell, Block>, s: States, gone: set<Cell>)
    requires RoundDone(p, bs, l, s, gone) && Clearable(bs, l, s, gone)
    ensures p.Wired() && (Fits(View(p)) <==> !IceUnderPuyo(l, gone))
  {
    hide *;
    RoundEnds(p, bs, l, s, gone);
    OpenRound(p, bs, l, s, gone);
    OpenClearable(bs, l, s, gone);
    WithoutSorted(bs, BlocksAt(l, gone));
    ValidWired(p);
    if IceUnderPuyo(l, gone) { RoundDisorder(p, bs, l, s, gone); }
    RoundOrder(p, bs, l, s, gone);
    SeatedAgain(p);
    RegisteredRoom(View(p));
    FitsIs(View(p));
  }

  lemma {:induction false} RoundOrder(p: BasePlayer, bs: seq<Block>, l: map<Cell, Block>, s: States, gone: set<Cell>)
    requires RoundDone(p, bs, l, s, gone) && Clearable(bs, l, s, gone) && ColumnSorted(p.blockList) && p.Wired()
    ensures !IceUnderPuyo(l, gone) ==> NoPuyoOverIce(View(p))
  {
    ValidWired(p);
    forall i, j | FallTogether(View(p), i, j) && View(p).bodies[i].kind == Ice && View(p).bodies[j].kind != Ice
      ensures IceUnderPuyo(l, gone)
    {
      SurvivorAt(p, bs, l, s, gone, i);
      SurvivorAt(p, bs, l, s, gone, j);
      var a, b := p.blockList[i], p.blockList[j];
      hide View, RoundDone, Clearable;
      assert a.y < b.y;
    }
  }

  /** What a round sets falling has a cleared cell below it. */
  lemma {:induction false} RoundLifted(p: BasePlayer, bs: seq<Block>, l: map<Cell, Block>, s: States, gone: set<Cell>)
    requires RoundDone(p, bs, l, s, gone) && Clearable(bs, l, s, gone) && p.Wired() && AboutToFall(View(p))
    ensures Lifted(View(p))
  {
    var v := View(p);
    ClearedOnBoard(bs, l, s, gone);
    hide *;
    OpenStart(v);
    ValidWired(p);
    forall i | 0 <= i < |v.bodies| && v.bodies[i].state == DownMoving
      ensures Rank(v.bodies, i) < v.bodies[i].y
    {
      var d := FreedBelow(p, bs, l, s, gone, i);
      forall k | 0 <= k < i && v.bodies[k].x == v.bodies[i].x
        ensures v.bodies[k].y != d.y
      {
        SurvivorAt(p, bs, l, s, gone, k);
        CellIs(d, v.bodies[k].x, v.bodies[k].y);
      }
      RankBelow(v, i, d.y);
    }
    CloseLifted(v);
  }

  lemma {:induction false} CellIs(d: Cell, x: int, y: int)
    ensures d == Cell(x, y) <==> d.x == x && d.y == y
  {
  }

  lemma {:induction false} CloseLifted(s: FallState)
    requires forall i :: 0 <= i < |s.bodies| && s.bodies[i].state == DownMoving ==> Rank(s.bodies, i) < s.bodies[i].y
    ensures Lifted(s)
  {
  }

  lemma {:induction false} OpenStart(s: FallState)
    requires AboutToFall(s)
    ensures forall i :: 0 <= i < |s.bodies| ==> 0 <= s.bodies[i].y
    ensures forall k, m :: 0 <= k < m < |s.bodies| && s.bodies[k].x == s.bodies[m].x ==> s.bodies[k].y < s.bodies[m].y
  {
    hide RowY, Consistent;
  }

  lemma {:induction false} ClearedOnBoard(bs: seq<Block>, l: map<Cell, Block>, s: States, gone: set<Cell>)
    requires Clearable(bs, l, s, gone)
    ensures forall c :: c in gone ==> InBoard(c) && 0 <= c.y
  {
  }

  lemma {:induction false} FreedBelow(p: BasePlayer, bs: seq<Block>, l: map<Cell, Block>, s: States, gone: set<Cell>, i: int) returns (d: Cell)
    requires RoundDone(p, bs, l, s, gone) && Clearable(bs, l, s, gone) && p.Wired() && 0 <= i < |View(p).bodies|
    requires View(p).bodies[i].state == DownMoving
    ensures d in gone && d.x == View(p).bodies[i].x && d.y < View(p).bodies[i].y && i < |p.blockList|
  {
    ValidWired(p);
    SurvivorAt(p, bs, l, s, gone, i);
    var b := View(p).bodies[i];
    hide View, RoundDone, Clearable, BasePlayer.Valid, BasePlayer.Wired;
    d :| d in gone && d.x == b.x && d.y < b.y;
  }

  /** After a round, and in terms of the board before it: every run of frames that move nothing by more
      than a cell keeps the blocks in order exactly when no ice loses its support under a
      coloured block. */
  lemma {:induction false} RoundOrderIff(p: BasePlayer, bs: seq<Block>, l: map<Cell, Block>, s: States, gone: set<Cell>)
    requires RoundDone(p, bs, l, s, gone) && Clearable(bs, l, s, gone)
    ensures p.Wired() && (OrderKept(View(p)) <==> !IceUnderPuyo(l, gone))
  {
    hide *;
    RoundEnds(p, bs, l, s, gone);
    ValidWired(p);
    RoundLifted(p, bs, l, s, gone);
    OrderKeptIff(View(p));
    RoundFitsIff(p, bs, l, s, gone);
    SeatedAgain(p);
    RegisteredRoom(View(p));
    FitsIs(View(p));
  }

  // ---------------------------------------------------------------- order is kept all the way down

  /** Every column has the blocks it had at the start, in the same vertical order. */
  ghost predicate Follows(bs: seq<Block>, start: map<Block, Cell>)
    reads bs`x, bs`y
  {
    && (forall b :: b in bs ==> b in start && b.x == start[b].x)
    && (forall a, b :: a in bs && b in bs && a.x == b.x ==> (a.y < b.y <==> start[a].y < start[b].y))
  }

  ghost function CellsOf(bs: seq<Block>): (start: map<Block, Cell>)
    reads bs`x, bs`y
    ensures start.Keys == SetOf(bs) && forall b :: b in bs ==> b in start && start[b] == Cell(b.x, b.y)
  {
    map b | b in bs :: Cell(b.x, b.y)
  }

  lemma {:induction false} StartFollows(bs: seq<Block>)
    ensures Follows(bs, CellsOf(bs))
  {
  }

  /** In a fall without new ice, list order is vertical order in every column. */
  lemma {:induction false} FallIsSorted(p: BasePlayer)
    requires Moves(p) && Seated(p)
    ensures ColumnSorted(p.blockList)
  {
    hide *;
    OpenMoves(p);
    SeatedAgain(p);
    ValidWired(p);
    OpenFall(View(p), Heights(View(p)));
    SortedBodiesInFall(View(p), Heights(View(p)));
    forall i | 0 <= i < |p.blockList|
      ensures View(p).bodies[i].x == p.blockList[i].x && View(p).bodies[i].y == p.blockList[i].y
    {
      ViewBody(p, i);
    }
    ListFromBodies(p.blockList, View(p).bodies);
  }

  lemma {:induction false} ListFromBodies(bs: seq<Block>, bodies: seq<Body>)
    requires |bs| == |bodies| && forall i :: 0 <= i < |bs| ==> bodies[i].x == bs[i].x && bodies[i].y == bs[i].y
    requires forall i, j :: 0 <= i < j < |bodies| && bodies[i].x == bodies[j].x ==> bodies[i].y < bodies[j].y
    ensures ColumnSorted(bs)
  {
    forall i, j | 0 <= i < j < |bs| && bs[i].x == bs[j].x
      ensures bs[i].y < bs[j].y
    {
      assert bodies[i].x == bodies[j].x;
    }
  }

  lemma {:induction false} SortedBodiesInFall(s: FallState, hs: seq<int>)
    requires WellFormed(s) && Stacked(s, hs) && Ordered(s) && |hs| == BOARD_X_COUNT && Airborne(s, hs) && AllRegistered(s)
    ensures forall i, j :: 0 <= i < j < |s.bodies| && s.bodies[i].x == s.bodies[j].x ==> s.bodies[i].y < s.bodies[j].y
  {
    hide RowY;
  }

  /** Two lists with the same blocks in the same columns, both in vertical order: the order of the
      first is the order of the second. */
  lemma {:induction false} SameOrder(bs: seq<Block>, xs: seq<int>, ys: seq<int>, start: map<Block, Cell>)
    requires |xs| == |ys| == |bs|
    requires forall i, j :: 0 <= i < j < |bs| && xs[i] == xs[j] ==> ys[i] < ys[j]
    requires forall i :: 0 <= i < |bs| ==> bs[i].x == xs[i] && bs[i] in start && start[bs[i]].x == xs[i]
    requires forall i, j :: 0 <= i < |bs| && 0 <= j < |bs| && xs[i] == xs[j] ==> (ys[i] < ys[j] <==> start[bs[i]].y < start[bs[j]].y)
    requires ColumnSorted(bs)
    ensures Follows(bs, start)
  {
    forall a, b | a in bs && b in bs && a.x == b.x
      ensures a.y < b.y <==> start[a].y < start[b].y
    {
      var i :| 0 <= i < |bs| && bs[i] == a;
      var j :| 0 <= j < |bs| && bs[j] == b;
      assert a.y < b.y <==> i < j;
      assert ys[i] < ys[j] <==> i < j;
    }
  }

  ghost function Xs(bs: seq<Block>): (r: seq<int>)
    reads bs`x
    ensures |r| == |bs| && forall i :: 0 <= i < |bs| ==> r[i] == bs[i].x
  {
    if bs == [] then [] else Xs(bs[..|bs| - 1]) + [bs[|bs| - 1].x]
  }

  ghost function Ys(bs: seq<Block>): (r: seq<int>)
    reads bs`y
    ensures |r| == |bs| && forall i :: 0 <= i < |bs| ==> r[i] == bs[i].y
  {
    if bs == [] then [] else Ys(bs[..|bs| - 1]) + [bs[|bs| - 1].y]
  }

  lemma {:induction false} FollowsByIndex(bs: seq<Block>, start: map<Block, Cell>)
    requires Follows(bs, start)
    ensures forall i :: 0 <= i < |bs| ==> bs[i] in start && start[bs[i]].x == Xs(bs)[i]
    ensures forall i, j :: 0 <= i < |bs| && 0 <= j < |bs| && Xs(bs)[i] == Xs(bs)[j] ==>
      (Ys(bs)[i] < Ys(bs)[j] <==> start[bs[i]].y < start[bs[j]].y)
  {
    forall i | 0 <= i < |bs|
      ensures bs[i] in bs
    {
    }
    hide Xs, Ys;
  }

  lemma {:induction false} SortedByIndex(bs: seq<Block>)
    requires ColumnSorted(bs)
    ensures forall i, j :: 0 <= i < j < |bs| && Xs(bs)[i] == Xs(bs)[j] ==> Ys(bs)[i] < Ys(bs)[j]
  {
    hide Xs, Ys;
  }

  /** A frame of a fall keeps the vertical order of every column. */
  method FallFrame(p: BasePlayer, dt: real, ghost start: map<Block, Cell>)
    requires Inv(p) && p.phase == Shattering && p.matchedBlocks == [] && dt >= 0.0 && Smooth(p, dt)
    requires Follows(p.blockList, start)
    modifies p`playTime, p.board
    modifies p.blockList`posY, p.blockList`velocity, p.blockList`y, p.blockList`state, p.blockList`initialized, p.blockList`effectTime
    ensures Inv(p) && Follows(p.blockList, start)
    ensures p.Wired() && old(p.Wired()) && Fits(View(p)) && View(p) == Frame(old(View(p)), 0, dt)
  {
    hide *;
    InvBoard(p);
    OpenChain(p);
    FallIsSorted(p);
    FollowsByIndex(p.blockList, start);
    SortedByIndex(p.blockList);
    ghost var xs, ys := Xs(p.blockList), Ys(p.blockList);
    UpdateBlocks(p, dt);
    InvBoard(p);
    OpenChain(p);
    FallIsSorted(p);
    SameOrder(p.blockList, xs, ys, start);
  }

  // ---------------------------------------------------------------- where everything ends up

  /** The blocks that started below `b` in its column. */
  ghost function LowerAtStart(bs: seq<Block>, start: map<Block, Cell>, b: Block): set<Block>
    requires b in start
  {
    set a | a in bs && a in start && start[a].x == start[b].x && start[a].y < start[b].y
  }

  /** Each block lies as high as there are blocks left below it: columns are closed up, order kept. */
  ghost predicate Compacted(bs: seq<Block>, start: map<Block, Cell>)
    reads bs`x, bs`y
  {
    forall b :: b in bs ==> b in start && b.x == start[b].x && b.y == |LowerAtStart(bs, start, b)|
  }

  ghost function CellsBelow(c: Cell): set<Cell> {
    set r | 0 <= r < c.y :: Cell(c.x, r)
  }

  lemma {:induction false} CellsBelowSize(c: Cell)
    requires 0 <= c.y
    ensures |CellsBelow(c)| == c.y
    decreases c.y
  {
    if c.y == 0 {
      assert CellsBelow(c) == {};
    } else {
      var d := Cell(c.x, c.y - 1);
      CellsBelowSize(d);
      assert CellsBelow(c) == CellsBelow(d) + {d};
    }
  }

  lemma {:induction false} BelowIsLower(p: BasePlayer, start: map<Block, Cell>, b: Block)
    requires p.Valid() && p.Settled() && Packed(p.Layout().Keys) && Follows(p.blockList, start) && b in p.blockList
    ensures b in start && CellsBelow(Cell(b.x, b.y)) <= p.Layout().Keys && 0 <= b.y
    ensures LowerAtStart(p.blockList, start, b) == BlocksAt(p.Layout(), CellsBelow(Cell(b.x, b.y)))
  {
    var c := Cell(b.x, b.y);
    QuietSeated(p);
    RegisteredDiffer(p);
    var l := p.Layout();
    hide BasePlayer.Layout, BasePlayer.Valid, BasePlayer.Settled, Packed;
    forall r | 0 <= r < c.y
      ensures Cell(c.x, r) in l
    {
      PackedBelow(l.Keys, c, r);
    }
    forall a | a in LowerAtStart(p.blockList, start, b)
      ensures a in BlocksAt(l, CellsBelow(c))
    {
      assert Cell(a.x, a.y) in l && l[Cell(a.x, a.y)] == a;
      assert Cell(a.x, a.y) in CellsBelow(c);
    }
    forall a | a in BlocksAt(l, CellsBelow(c))
      ensures a in LowerAtStart(p.blockList, start, b)
    {
      var d :| d in CellsBelow(c) && d in l && l[d] == a;
      assert Cell(a.x, a.y) == d;
    }
  }

  lemma {:induction false} QuietSeated(p: BasePlayer)
    requires p.Settled()
    ensures Seated(p)
  {
  }

  /** At rest, keeping order means being closed up. */
  lemma {:induction false} RestCompacts(p: BasePlayer, start: map<Block, Cell>)
    requires AtRest(p) && Follows(p.blockList, start)
    ensures Compacted(p.blockList, start)
  {
    OpenRest(p);
    RegisteredDiffer(p);
    LayoutKnowsCells(p);
    hide AtRest, BasePlayer.Valid, BasePlayer.Settled, BasePlayer.Layout, LowerAtStart, CellsBelow;
    forall b | b in p.blockList
      ensures b in start && b.y == |LowerAtStart(p.blockList, start, b)|
    {
      BelowIsLower(p, start, b);
      CellsBelowSize(Cell(b.x, b.y));
      BlocksAtSize(p.Layout(), CellsBelow(Cell(b.x, b.y)));
    }
  }

  lemma {:induction false} LayoutKnowsCells(p: BasePlayer)
    requires p.Valid()
    ensures forall c :: c in p.Layout() ==> p.Layout()[c].x == c.x && p.Layout()[c].y == c.y
  {
  }

  // ---------------------------------------------------------------- a whole fall

  /** What a fall of short frames relies on: it goes on from a start in which nothing moved yet. */
  ghost predicate GoesShort(p: BasePlayer, t: real)
    reads p`blockList, p.board
    reads p.blockList`kind, p.blockList`state, p.blockList`x, p.blockList`y, p.blockList`posY, p.blockList`velocity, p.blockList`initialized
  {
    p.Wired() && Fits(View(p)) && DrivenList(p.blockList, t)
  }

  lemma {:induction false} OpenShort(p: BasePlayer, t: real)
    requires GoesShort(p, t)
    ensures p.Wired() && Fits(View(p)) && DrivenList(p.blockList, t)
  {
    hide View, Fits;
  }

  lemma {:induction false} CloseShort(p: BasePlayer, t: real)
    requires p.Wired() && Fits(View(p)) && DrivenList(p.blockList, t)
    ensures GoesShort(p, t)
  {
    hide View, Fits;
  }

  /** Then the next short frame is smooth, and the fall does not last longer than 310 units of time. */
  lemma {:induction false} ShortIsSmooth(p: BasePlayer, t: real, dt: real)
    requires Moves(p) && GoesShort(p, t) && 0.0 <= dt <= SHORT
    ensures Smooth(p, dt) && (t >= 310.0 ==> forall b :: b in p.blockList ==> b.state == Stationary)
  {
    hide *;
    OpenMoves(p);
    OpenShort(p, t);
    DrivenView(p, t);
    ColoursSeated(p);
    FitsIs(View(p));
    HeightsSize(View(p));
    DrivenIsPaced(View(p), Heights(View(p)), t, dt);
    FallIsOver(View(p), Heights(View(p)), t);
    SmoothIs(p, dt);
    BodiesOfList(p);
    if t >= 310.0 { RestInList(p.blockList, View(p)); }
  }

  lemma {:induction false} HeightsSize(s: FallState)
    ensures |Heights(s)| == BOARD_X_COUNT
  {
  }

  lemma {:induction false} RestInList(bs: seq<Block>, s: FallState)
    requires |s.bodies| == |bs| && AllRest(s) && forall i :: 0 <= i < |bs| ==> s.bodies[i].state == bs[i].state
    ensures forall b :: b in bs ==> b.state == Stationary
  {
  }

  /** A short frame keeps the fall going as it did. */
  method ShortFrame(p: BasePlayer, dt: real, ghost start: map<Block, Cell>, ghost t: real, ghost short: bool)
    requires Inv(p) && p.phase == Shattering && p.matchedBlocks == [] && dt >= 0.0 && Smooth(p, dt)
    requires Follows(p.blockList, start) && (short ==> GoesShort(p, t) && dt <= SHORT)
    modifies p`playTime, p.board
    modifies p.blockList`posY, p.blockList`velocity, p.blockList`y, p.blockList`state, p.blockList`initialized, p.blockList`effectTime
    ensures Inv(p) && Follows(p.blockList, start) && (short ==> GoesShort(p, t + dt))
  {
    hide *;
    InvBoard(p);
    OpenMoves(p);
    ghost var s := View(p);
    if short {
      OpenShort(p, t);
      DrivenView(p, t);
      NextDriven(s, t, dt);
    }
    FallFrame(p, dt, start);
    if short {
      DrivenView(p, t + dt);
      CloseShort(p, t + dt);
    }
  }

  lemma {:induction false} StillFollows(bs: seq<Block>, bs': seq<Block>, start: map<Block, Cell>)
    requires Follows(bs, start) && forall i :: 0 <= i < |bs'| ==> bs'[i] in bs
    ensures Follows(bs', start)
  {
  }

  lemma {:induction false} RestByPhase(p: BasePlayer)
    requires Inv(p) && p.phase == Shattering && p.matchedBlocks == [] && forall b :: b in p.blockList ==> b.state == Stationary
    ensures AtRest(p)
  {
    InvBoard(p);
    hide *;
    StillIsRest(p);
  }

  /** The logic of a phase while something still falls: the list is sorted, and that is all. */
  method SortStep(p: BasePlayer, ghost start: map<Block, Cell>, ghost t: real, ghost short: bool)
    requires Inv(p) && p.phase == Shattering && p.matchedBlocks == []
    requires Follows(p.blockList, start) && (short ==> GoesShort(p, t))
    requires exists b :: b in p.blockList && b.state != Stationary
    modifies p`phase, p`comboCount, p`chain, p`scored, p`matchedBlocks, p`iceBlocks, p`isGameQuit
    modifies p`totalScore, p`restScore, p`totalInterrupt, p`addInterrupt, p`totalEnemyInterrupt, p`hasIceBlock
    modifies p`blockList, p`defenseCount
    modifies p.blockList`link, p.blockList`recursionCheck, p.blockList`state, p.blockList`effectTime
    ensures Inv(p) && p.phase == Shattering && p.matchedBlocks == []
    ensures Follows(p.blockList, start) && (short ==> GoesShort(p, t))
    ensures forall b :: b in p.blockList <==> b in old(p.blockList)
    ensures forall i :: 0 <= i < |p.blockList| ==> p.blockList[i] in old(p.blockList)
    ensures exists b :: b in p.blockList && b.state != Stationary
  {
    hide *;
    ghost var bs := p.blockList;
    ghost var looks := LooksOf(bs);
    LookLikeIs(bs, looks);
    DrivenByLooks(bs, looks, t);
    if short { OpenShort(p, t); }
    ghost var made := UpdateSettling(p);
    StillFollows(bs, p.blockList, start);
    LookLikeIs(bs, looks);
    FewerLook(bs, p.blockList, looks);
    DrivenByLooks(p.blockList, looks, t);
    if short { CloseShort(p, t); }
  }

  /** One frame of a fall, if it is a smooth one: the blocks move, and the list is sorted again
      unless all of them have landed. */
  method FallTick(p: BasePlayer, dt: real, ghost start: map<Block, Cell>, ghost t: real, ghost short: bool)
    returns (smooth: bool, allStationary: bool)
    requires Inv(p) && p.phase == Shattering && p.matchedBlocks == [] && dt >= 0.0
    requires Follows(p.blockList, start) && (short ==> GoesShort(p, t) && dt <= SHORT)
    requires exists b :: b in p.blockList && b.state != Stationary
    modifies p`phase, p`comboCount, p`chain, p`scored, p`matchedBlocks, p`iceBlocks, p`isGameQuit, p.board, p`playTime
    modifies p`totalScore, p`restScore, p`totalInterrupt, p`addInterrupt, p`totalEnemyInterrupt, p`hasIceBlock
    modifies p`blockList, p`defenseCount, p.blockList
    ensures Inv(p) && p.phase == Shattering && p.matchedBlocks == [] && Follows(p.blockList, start)
    ensures !smooth ==> !Smooth(p, dt) && !short && !allStationary
    ensures short ==> GoesShort(p, t + dt)
    ensures allStationary <==> forall b :: b in p.blockList ==> b.state == Stationary
    ensures forall b :: b in p.blockList <==> b in old(p.blockList)
    ensures forall i :: 0 <= i < |p.blockList| ==> p.blockList[i] in old(p.blockList)
  {
    hide *;
    InvBoard(p);
    allStationary := false;
    if short { ShortIsSmooth(p, t, dt); }
    smooth := IsSmooth(p, dt);
    if smooth {
      ShortFrame(p, dt, start, t, short);
      allStationary := AllStationary(p.blockList);
      if !allStationary {
        SortStep(p, start, t + dt, short);
      }
    }
  }

  /** The frames of a fall, from the moment a round has set blocks falling, up to the first frame that is
      not smooth: when everything has come to rest, each column has been closed up with its blocks
      in their old order.  A fall that starts in order from rest never stops before in short
      frames, and is over after 310 units of time. */
  method FallDown(p: BasePlayer, dts: seq<real>, ghost start: map<Block, Cell>) returns (played: nat, allStationary: bool)
    requires Inv(p) && p.phase == Shattering && p.matchedBlocks == [] && Follows(p.blockList, start)
    requires forall k :: 0 <= k < |dts| ==> dts[k] >= 0.0
    modifies p`phase, p`comboCount, p`chain, p`scored, p`matchedBlocks, p`iceBlocks, p`isGameQuit, p.board, p`playTime
    modifies p`totalScore, p`restScore, p`totalInterrupt, p`addInterrupt, p`totalEnemyInterrupt, p`hasIceBlock
    modifies p`blockList, p`defenseCount, p.blockList
    ensures Inv(p) && p.phase == Shattering && p.matchedBlocks == [] && played <= |dts|
    ensures forall b :: b in p.blockList <==> b in old(p.blockList)
    ensures allStationary ==> AtRest(p) && Compacted(p.blockList, start)
    ensures !allStationary ==> Follows(p.blockList, start) && exists b :: b in p.blockList && b.state != Stationary
    ensures !allStationary && played < |dts| ==> !Smooth(p, dts[played])
    ensures old(GoesShort(p, 0.0)) && AllShort(dts) ==> allStationary || (played == |dts| && Total(dts) < 310.0)
  {
    hide *;
    ghost var bs, short := p.blockList, GoesShort(p, 0.0) && AllShort(dts);
    played := 0;
    TotalStart(dts);
    allStationary := AllStationary(p.blockList);
    while played < |dts| && !allStationary
      invariant 0 <= played <= |dts|
      invariant Inv(p) && p.phase == Shattering && p.matchedBlocks == [] && Follows(p.blockList, start)
      invariant short ==> GoesShort(p, Total(dts[..played]))
      invariant forall b :: b in p.blockList <==> b in bs
      invariant forall i :: 0 <= i < |p.blockList| ==> p.blockList[i] in bs
      invariant allStationary <==> forall b :: b in p.blockList ==> b.state == Stationary
    {
      TotalNext(dts, played);
      ShortAt(dts, played);
      var smooth;
      smooth, allStationary := FallTick(p, dts[played], start, Total(dts[..played]), short);
      if !smooth {
        break;
      }
      played := played + 1;
    }
    if allStationary {
      RestByPhase(p);
      RestCompacts(p, start);
    } else if short {
      InvBoard(p);
      ShortTime();
      ShortIsSmooth(p, Total(dts), 0.0);
    }
  }

  lemma {:induction false} ShortTime()
    ensures 0.0 <= SHORT
  {
  }

  lemma {:induction false} ShortAt(dts: seq<real>, n: int)
    requires 0 <= n < |dts|
    ensures AllShort(dts) ==> 0.0 <= dts[n] <= SHORT
  {
  }

  // ---------------------------------------------------------------- in terms of the board before the round

  /** `start` names the survivors of a round by the cells they had before it. */
  ghost predicate SurvivorsOf(start: map<Block, Cell>, l: map<Cell, Block>, gone: set<Cell>) {
    && (forall c :: c in l && c !in gone ==> l[c] in start && start[l[c]] == c)
    && (forall b :: b in start ==> start[b] in l && start[b] !in gone && l[start[b]] == b)
  }

  /** What a round leaves is ready to fall from rest, and the survivors have kept their cells. */
  lemma {:induction false} RoundStart(p: BasePlayer, bs: seq<Block>, l: map<Cell, Block>, s: States, gone: set<Cell>)
    requires RoundDone(p, bs, l, s, gone) && Clearable(bs, l, s, gone)
    ensures Follows(p.blockList, CellsOf(p.blockList)) && DrivenList(p.blockList, 0.0)
    ensures SurvivorsOf(CellsOf(p.blockList), l, gone)
  {
    hide *;
    StartFollows(p.blockList);
    forall i | 0 <= i < |p.blockList|
      ensures SurvivesAt(l, gone, p.blockList[i])
    {
      RoundSurvivor(p, bs, l, s, gone, i);
    }
    forall c | c in l && c !in gone
      ensures l[c] in p.blockList && l[c].x == c.x && l[c].y == c.y
    {
      var i := SurvivorIndex(p, bs, l, s, gone, c);
      assert p.blockList[i] in p.blockList;
    }
    CloseRoundStart(p.blockList, l, gone);
    RoundDriven(p, bs, l, s, gone);
  }

  /** The block rests or is about to fall from the cell it had before the round. */
  ghost predicate SurvivesAt(l: map<Cell, Block>, gone: set<Cell>, b: Block)
    reads b`x, b`y
  {
    var c := Cell(b.x, b.y);
    c in l && c !in gone && l[c] == b
  }

  lemma {:induction false} RoundSurvivor(p: BasePlayer, bs: seq<Block>, l: map<Cell, Block>, s: States, gone: set<Cell>, i: int)
    requires RoundDone(p, bs, l, s, gone) && Clearable(bs, l, s, gone) && 0 <= i < |p.blockList|
    ensures SurvivesAt(l, gone, p.blockList[i])
  {
    OpenClearable(bs, l, s, gone);
    Survivor(p, bs, l, s, gone, i);
    InWithout(bs, BlocksAt(l, gone), p.blockList[i]);
  }

  lemma {:induction false} CloseRoundStart(bs: seq<Block>, l: map<Cell, Block>, gone: set<Cell>)
    requires forall i :: 0 <= i < |bs| ==> SurvivesAt(l, gone, bs[i])
    requires forall c :: c in l && c !in gone ==> l[c] in bs && l[c].x == c.x && l[c].y == c.y
    ensures SurvivorsOf(CellsOf(bs), l, gone)
  {
    forall b | b in bs
      ensures SurvivesAt(l, gone, b)
    {
      var i :| 0 <= i < |bs| && bs[i] == b;
    }
    forall b | b in CellsOf(bs)
      ensures b in bs
    {
      assert b in SetOf(bs);
    }
  }

  ghost function LeftBelow(l: map<Cell, Block>, gone: set<Cell>, c: Cell): set<Cell> {
    set d | d in l && d !in gone && d.x == c.x && d.y < c.y
  }

  lemma {:induction false} ImageSize(l: map<Cell, Block>, cells: set<Cell>, start: map<Block, Cell>)
    requires forall c :: c in cells ==> c in l && l[c] in start && start[l[c]] == c
    ensures |BlocksAt(l, cells)| == |cells|
    decreases |cells|
  {
    if cells == {} {
      assert BlocksAt(l, cells) == {};
    } else {
      var c :| c in cells;
      ImageSize(l, cells - {c}, start);
      assert BlocksAt(l, cells) == BlocksAt(l, cells - {c}) + {l[c]};
      assert l[c] !in BlocksAt(l, cells - {c});
    }
  }

  /** A clear round and its fall are stable column compaction: the block that survived on `c` ends in
      the row given by the number of survivors below it in its column. */
  lemma {:induction false} ClearAndFall(bs: seq<Block>, start: map<Block, Cell>, l: map<Cell, Block>, gone: set<Cell>, c: Cell)
    requires Compacted(bs, start) && SurvivorsOf(start, l, gone) && start.Keys == SetOf(bs)
    requires c in l && c !in gone
    ensures l[c] in bs && l[c].x == c.x && l[c].y == |LeftBelow(l, gone, c)|
  {
    var b := l[c];
    assert b in SetOf(bs);
    ImageSize(l, LeftBelow(l, gone, c), start);
    assert LowerAtStart(bs, start, b) == BlocksAt(l, LeftBelow(l, gone, c)) by {
      forall a | a in LowerAtStart(bs, start, b)
        ensures a in BlocksAt(l, LeftBelow(l, gone, c))
      {
        assert start[a] in LeftBelow(l, gone, c);
      }
      forall a | a in BlocksAt(l, LeftBelow(l, gone, c))
        ensures a in LowerAtStart(bs, start, b)
      {
        var d :| d in LeftBelow(l, gone, c) && d in l && l[d] == a;
        assert a in SetOf(bs);
      }
    }
  }

  /** The frame in which all matched groups are over: they leave the board and the fall starts. */
  method ClearNow(p: BasePlayer, ghost cells: seq<seq<Cell>>, ghost iceAt: set<Cell>, ghost t: real)
    requires Inv(p) && p.phase == Shattering && Clears(p, cells, iceAt, t, true) && p.Valid()
    modifies p`blockList, p.board, p`iceBlocks, p`matchedBlocks, p.blockList`state, p.blockList`link
    ensures Inv(p) && p.matchedBlocks == [] && Follows(p.blockList, CellsOf(p.blockList))
    ensures GoesShort(p, 0.0) <==> !old(IceUnderPuyo(p.Layout(), Gone(cells, iceAt)))
    ensures SurvivorsOf(CellsOf(p.blockList), old(p.Layout()), Gone(cells, iceAt))
    ensures forall i :: 0 <= i < |p.blockList| ==> p.blockList[i] in old(p.blockList)
  {
    hide *;
    InvBoard(p);
    OpenChain(p);
    ClearsSurvivors(p, cells, iceAt, t, true);
    ghost var bs, l, s, gone := p.blockList, p.Layout(), StatesOf(p), Gone(cells, iceAt);
    ClearableBlocks(bs, l, s, gone);
    ClearGroups(p, cells, iceAt, t, true);
    OpenMoves(p);
    CloseChain(p);
    CloseByPhase(p);
    RoundStart(p, bs, l, s, gone);
    RoundFitsIff(p, bs, l, s, gone);
    if GoesShort(p, 0.0) { OpenShort(p, 0.0); }
    if Fits(View(p)) { CloseShort(p, 0.0); }
  }

  lemma {:induction false} ClearableBlocks(bs: seq<Block>, l: map<Cell, Block>, s: States, gone: set<Cell>)
    requires Clearable(bs, l, s, gone)
    ensures forall b :: b in l.Values ==> b in bs
  {
  }

  lemma {:induction false} SurvivorsAre(bs: seq<Block>, l: map<Cell, Block>, gone: set<Cell>)
    requires SurvivorsOf(CellsOf(bs), l, gone)
    ensures SetOf(bs) == BlocksAt(l, l.Keys - gone)
  {
    forall b | b in bs
      ensures b in BlocksAt(l, l.Keys - gone)
    {
      var c := CellsOf(bs)[b];
      assert c in l.Keys - gone && l[c] == b;
    }
    forall b | b in BlocksAt(l, l.Keys - gone)
      ensures b in bs
    {
      var c :| c in l.Keys - gone && c in l && l[c] == b;
      assert b in CellsOf(bs).Keys;
    }
  }

  /** A whole round on the board: from the frame in which the matched groups are over to the frame in
      which everything has come to rest, on any sequence of frames up to the first one that is not
      smooth.  What is left is exactly what has not been cleared, and the blocks of every column
      end up closed up from the floor, in their old order.  If no ice loses its support under a
      coloured block, short frames are always smooth and the round does end. */
  method PlayRound(p: BasePlayer, dts: seq<real>, ghost cells: seq<seq<Cell>>, ghost iceAt: set<Cell>, ghost t: real)
    returns (played: nat, allStationary: bool)
    requires Inv(p) && p.phase == Shattering && Clears(p, cells, iceAt, t, true) && p.Valid()
    requires forall k :: 0 <= k < |dts| ==> dts[k] >= 0.0
    modifies p`phase, p`comboCount, p`chain, p`scored, p`matchedBlocks, p`iceBlocks, p`isGameQuit, p.board, p`playTime
    modifies p`totalScore, p`restScore, p`totalInterrupt, p`addInterrupt, p`totalEnemyInterrupt, p`hasIceBlock
    modifies p`blockList, p`defenseCount, p.blockList
    ensures Inv(p) && p.phase == Shattering && p.matchedBlocks == [] && played <= |dts|
    ensures SetOf(p.blockList) == BlocksAt(old(p.Layout()), old(p.Layout()).Keys - Gone(cells, iceAt))
    ensures allStationary ==> AtRest(p)
    ensures allStationary ==> forall c :: c in old(p.Layout()) && c !in Gone(cells, iceAt) ==>
      var b := old(p.Layout())[c];
      b in p.blockList && b.x == c.x && b.y == |LeftBelow(old(p.Layout()), Gone(cells, iceAt), c)|
    ensures !allStationary && played < |dts| ==> !Smooth(p, dts[played])
    ensures !old(IceUnderPuyo(p.Layout(), Gone(cells, iceAt))) && AllShort(dts) ==>
      allStationary || (played == |dts| && Total(dts) < 310.0)
  {
    hide *;
    ghost var l, gone := p.Layout(), Gone(cells, iceAt);
    ClearNow(p, cells, iceAt, t);
    ghost var start := CellsOf(p.blockList);
    ghost var bs := p.blockList;
    SurvivorsAre(bs, l, gone);
    played, allStationary := FallDown(p, dts, start);
    SameSet(bs, p.blockList);
    if allStationary {
      forall c | c in l && c !in gone
        ensures l[c] in p.blockList && l[c].x == c.x && l[c].y == |LeftBelow(l, gone, c)|
      {
        ClearAndFall(p.blockList, start, l, gone, c);
      }
    }
  }

  lemma {:induction false} SameSet<T>(a: seq<T>, b: seq<T>)
    requires forall x :: x in b <==> x in a
    ensures SetOf(a) == SetOf(b)
  {
  }
}
