/** How much a clear round may leave above ice that loses its support, in terms of the board before it. */
module RoundAgreement {
  import opened Geometry
  import opened Connectivity
  import opened BlockStates
  import opened Matching
  import opened PuyoBlocks
  import opened Players
  import opened Falling
  import opened FallSpeed
  import opened Gravity
  import opened Clearing
  import opened Rounds
  import opened Settling
  import opened Resting
  import opened Destroying
  import opened Compaction
  import opened Overtaking
  import opened SortedRuns

  /** The coloured survivors above a cell of their column. */
  ghost function PuyosOver(l: map<Cell, Block>, gone: set<Cell>, c: Cell): set<Cell>
    reads l.Values`kind
  {
    set d | d in l && d !in gone && d.x == c.x && c.y < d.y && l[d].kind != Ice
  }

  ghost function FreedUnder(gone: set<Cell>, c: Cell): set<Cell> {
    set d | d in gone && d.x == c.x && d.y < c.y
  }

  /** Each ice that loses its support has a freed cell below it for every coloured survivor above it, and
      `spare` more. */
  ghost predicate EnoughFreed(l: map<Cell, Block>, gone: set<Cell>, spare: nat)
    reads l.Values`kind
  {
    forall c :: c in l && c !in gone && l[c].kind == Ice && Above(gone, c) ==> |PuyosOver(l, gone, c)| + spare <= |FreedUnder(gone, c)|
  }

  // ---------------------------------------------------------------- counting a column

  ghost function ColumnUpTo(x: int, n: nat): (cs: set<Cell>)
    ensures |cs| == n && forall c :: c in cs <==> c.x == x && 0 <= c.y < n
  {
    if n == 0 then {} else
    var rest := ColumnUpTo(x, n - 1);
    assert Cell(x, n - 1) !in rest;
    rest + {Cell(x, n - 1)}
  }

  lemma {:induction false} PackedColumn(l: map<Cell, Block>, gone: set<Cell>, c: Cell)
    requires Packed(l.Keys) && c in l && 0 <= c.y && gone <= l.Keys && forall d :: d in l && d.x == c.x ==> 0 <= d.y
    ensures |LeftBelow(l, gone, c)| + |FreedUnder(gone, c)| == c.y
  {
    forall d | d in ColumnUpTo(c.x, c.y)
      ensures d in LeftBelow(l, gone, c) + FreedUnder(gone, c)
    {
      PackedBelow(l.Keys, c, d.y);
      assert d == Cell(c.x, d.y);
    }
    assert LeftBelow(l, gone, c) + FreedUnder(gone, c) == ColumnUpTo(c.x, c.y);
    assert LeftBelow(l, gone, c) !! FreedUnder(gone, c);
  }

  /** Blocks of different cells are as many as their cells. */
  lemma {:induction false} AsManyCells(bodies: seq<Body>, ks: set<int>, cells: set<Cell>)
    requires forall k :: k in ks ==> 0 <= k < |bodies| && Cell(bodies[k].x, bodies[k].y) in cells
    requires forall a, b :: a in ks && b in ks && a != b ==> Cell(bodies[a].x, bodies[a].y) != Cell(bodies[b].x, bodies[b].y)
    requires forall c :: c in cells ==> exists k :: k in ks && 0 <= k < |bodies| && Cell(bodies[k].x, bodies[k].y) == c
    ensures |ks| == |cells|
    decreases |ks|
  {
    if k :| k in ks {
      AsManyCells(bodies, ks - {k}, cells - {Cell(bodies[k].x, bodies[k].y)});
    } else {
      assert forall k :: k !in ks;
      assert forall c :: c !in cells;
    }
  }

  /** The cells of what can come to rest before the survivor of cell `c`. */
  ghost function CellsAhead(l: map<Cell, Block>, gone: set<Cell>, c: Cell): set<Cell>
    requires c in l
    reads l.Values`kind
  {
    LeftBelow(l, gone, c) + if l[c].kind == Ice then PuyosOver(l, gone, c) else {}
  }

  /** Block `i` of the list is the survivor of cell `c`. */
  ghost predicate IsAt(v: FallState, l: map<Cell, Block>, gone: set<Cell>, i: int, c: Cell)
    reads l.Values`kind
  {
    && 0 <= i < |v.bodies| && c == Cell(v.bodies[i].x, v.bodies[i].y) && c in l && c !in gone && v.bodies[i].kind == l[c].kind
    && v.bodies[i].state == if Above(gone, c) then DownMoving else Stationary
  }

  /** The list is that of the survivors, each column from the floor up. */
  ghost predicate ListsSurvivors(v: FallState, l: map<Cell, Block>, gone: set<Cell>)
    reads l.Values`kind
  {
    && (forall i :: 0 <= i < |v.bodies| ==> v.bodies[i].y >= 0 && IsAt(v, l, gone, i, Cell(v.bodies[i].x, v.bodies[i].y)))
    && (forall c :: c in l && c !in gone ==> exists i :: IsAt(v, l, gone, i, c))
    && (forall i, j :: 0 <= i < j < |v.bodies| && v.bodies[i].x == v.bodies[j].x ==> v.bodies[i].y < v.bodies[j].y)
  }

  lemma {:induction false} AheadByCells(v: FallState, l: map<Cell, Block>, gone: set<Cell>, i: int, c: Cell)
    requires ListsSurvivors(v, l, gone) && IsAt(v, l, gone, i, c)
    ensures |Ahead(v, i)| == |CellsAhead(l, gone, c)|
  {
    var cells := CellsAhead(l, gone, c);
    hide Above;
    forall j | j in Ahead(v, i)
      ensures Cell(v.bodies[j].x, v.bodies[j].y) in cells
    {
      assert IsAt(v, l, gone, j, Cell(v.bodies[j].x, v.bodies[j].y));
      assert InFront(v, j, i);
    }
    forall d | d in cells
      ensures exists j :: j in Ahead(v, i) && 0 <= j < |v.bodies| && Cell(v.bodies[j].x, v.bodies[j].y) == d
    {
      var j :| IsAt(v, l, gone, j, d);
      assert InFront(v, j, i);
    }
    hide InFront, CellsAhead;
    AsManyCells(v.bodies, Ahead(v, i), cells);
  }

  lemma {:induction false} AheadOfCell(l: map<Cell, Block>, gone: set<Cell>, c: Cell)
    requires c in l
    ensures |CellsAhead(l, gone, c)| == |LeftBelow(l, gone, c)| + if l[c].kind == Ice then |PuyosOver(l, gone, c)| else 0
  {
    assert LeftBelow(l, gone, c) !! PuyosOver(l, gone, c);
  }

  lemma {:induction false} SomethingFreed(gone: set<Cell>, c: Cell)
    ensures Above(gone, c) <==> |FreedUnder(gone, c)| >= 1
  {
    if Above(gone, c) {
      var d :| d in gone && d.x == c.x && d.y < c.y;
      assert d in FreedUnder(gone, c);
    } else {
      assert FreedUnder(gone, c) == {};
    }
  }

  /** The room of a falling block is the room of its cell. */
  lemma {:induction false} RoomOfCell(v: FallState, l: map<Cell, Block>, gone: set<Cell>, i: int, c: Cell, spare: nat)
    requires ListsSurvivors(v, l, gone) && IsAt(v, l, gone, i, c) && Packed(l.Keys) && gone <= l.Keys && forall d :: d in l ==> 0 <= d.y
    requires spare <= 1 && Above(gone, c)
    ensures v.bodies[i].state == DownMoving && v.bodies[i].y == c.y
    ensures |Ahead(v, i)| + spare <= c.y <==>
      (l[c].kind == Ice ==> |PuyosOver(l, gone, c)| + spare <= |FreedUnder(gone, c)|)
  {
    AheadByCells(v, l, gone, i, c);
    AheadOfCell(l, gone, c);
    PackedColumn(l, gone, c);
    SomethingFreed(gone, c);
    hide Ahead, CellsAhead, PuyosOver, FreedUnder, LeftBelow, ListsSurvivors, Above, Packed;
  }

  lemma {:induction false} RoomIsFreed(v: FallState, l: map<Cell, Block>, gone: set<Cell>, spare: nat)
    requires ListsSurvivors(v, l, gone) && Packed(l.Keys) && gone <= l.Keys && (forall d :: d in l ==> 0 <= d.y) && spare <= 1
    ensures RoomBelow(v, spare) <==> EnoughFreed(l, gone, spare)
  {
    hide Ahead, PuyosOver, FreedUnder, Above, Packed;
    forall i | 0 <= i < |v.bodies| && v.bodies[i].state == DownMoving
      ensures EnoughFreed(l, gone, spare) ==> |Ahead(v, i)| + spare <= v.bodies[i].y
    {
      RoomOfCell(v, l, gone, i, Cell(v.bodies[i].x, v.bodies[i].y), spare);
    }
    forall c | c in l && c !in gone && l[c].kind == Ice && Above(gone, c)
      ensures RoomBelow(v, spare) ==> |PuyosOver(l, gone, c)| + spare <= |FreedUnder(gone, c)|
    {
      var i :| IsAt(v, l, gone, i, c);
      RoomOfCell(v, l, gone, i, c, spare);
    }
  }

  // ---------------------------------------------------------------- after a round

  lemma {:induction false} RoundLists(p: BasePlayer, bs: seq<Block>, l: map<Cell, Block>, s: States, gone: set<Cell>)
    requires RoundDone(p, bs, l, s, gone) && Clearable(bs, l, s, gone) && p.Wired() && AboutToFall(View(p))
    ensures ListsSurvivors(View(p), l, gone)
  {
    hide *;
    var v := View(p);
    OpenStart(v);
    OpenRound(p, bs, l, s, gone);
    ValidWired(p);
    forall i | 0 <= i < |v.bodies|
      ensures IsAt(v, l, gone, i, Cell(v.bodies[i].x, v.bodies[i].y))
    {
      SurvivorAt(p, bs, l, s, gone, i);
      CloseIsAt(v, l, gone, i);
    }
    forall c | c in l && c !in gone
      ensures exists i :: IsAt(v, l, gone, i, c)
    {
      var i := SurvivorIndex(p, bs, l, s, gone, c);
      SurvivorAt(p, bs, l, s, gone, i);
      CellIs(c, v.bodies[i].x, v.bodies[i].y);
      assert IsAt(v, l, gone, i, c);
    }
    CloseLists(v, l, gone);
  }

  lemma {:induction false} CloseIsAt(v: FallState, l: map<Cell, Block>, gone: set<Cell>, i: int)
    requires 0 <= i < |v.bodies|
    requires
      var c := Cell(v.bodies[i].x, v.bodies[i].y);
      && c in l && c !in gone && v.bodies[i].kind == l[c].kind
      && v.bodies[i].state == if Above(gone, c) then DownMoving else Stationary
    ensures IsAt(v, l, gone, i, Cell(v.bodies[i].x, v.bodies[i].y))
  {
  }

  lemma {:induction false} CloseLists(v: FallState, l: map<Cell, Block>, gone: set<Cell>)
    requires forall i :: 0 <= i < |v.bodies| ==> v.bodies[i].y >= 0 && IsAt(v, l, gone, i, Cell(v.bodies[i].x, v.bodies[i].y))
    requires forall c :: c in l && c !in gone ==> exists i :: IsAt(v, l, gone, i, c)
    requires forall i, j :: 0 <= i < j < |v.bodies| && v.bodies[i].x == v.bodies[j].x ==> v.bodies[i].y < v.bodies[j].y
    ensures ListsSurvivors(v, l, gone)
  {
  }

  lemma {:induction false} ClearableBoard(bs: seq<Block>, l: map<Cell, Block>, s: States, gone: set<Cell>)
    requires Clearable(bs, l, s, gone)
    ensures Packed(l.Keys) && gone <= l.Keys
  {
  }

  /** The cells of the board before the round are on the board: what was cleared, and what is left. */
  lemma {:induction false} LayoutOnBoard(v: FallState, bs: seq<Block>, l: map<Cell, Block>, s: States, gone: set<Cell>)
    requires Clearable(bs, l, s, gone) && ListsSurvivors(v, l, gone)
    ensures forall d :: d in l ==> 0 <= d.y
  {
    ClearedOnBoard(bs, l, s, gone);
    hide Clearable;
    forall d | d in l
      ensures 0 <= d.y
    {
      if d !in gone {
        var i :| IsAt(v, l, gone, i, d);
      }
    }
  }

  /** A round leaves room below everything that falls exactly when it frees enough cells below the ice. */
  lemma {:induction false} RoundRoomIff(p: BasePlayer, bs: seq<Block>, l: map<Cell, Block>, s: States, gone: set<Cell>, spare: nat)
    requires RoundDone(p, bs, l, s, gone) && Clearable(bs, l, s, gone) && spare <= 1
    ensures p.Wired() && AboutToFall(View(p)) && (RoomBelow(View(p), spare) <==> EnoughFreed(l, gone, spare))
  {
    hide *;
    RoundEnds(p, bs, l, s, gone);
    ValidWired(p);
    RoundLists(p, bs, l, s, gone);
    ClearableBoard(bs, l, s, gone);
    LayoutOnBoard(View(p), bs, l, s, gone);
    RoomIsFreed(View(p), l, gone, spare);
  }

  /** After a round, and in terms of the board before it: if each ice that loses its support has at least as many
      freed cells below it as coloured survivors above it, list and board agree in every run of short frames,
      sorted between them or not, in which the fall is also over after 310 units of time; if it has more, in
      every run that moves nothing by more than a cell. */
  lemma {:induction false} RoundAgrees(p: BasePlayer, bs: seq<Block>, l: map<Cell, Block>, s: States, gone: set<Cell>,
                                       ss: seq<FallState>, dts: seq<real>)
    requires RoundDone(p, bs, l, s, gone) && Clearable(bs, l, s, gone) && p.Wired() && SortedRun(ss, dts) && ss[0] == View(p)
    ensures |ss| == |dts| + 1
    ensures EnoughFreed(l, gone, 0) && AllShort(dts) ==> Agrees(ss[|dts|]) && (Total(dts) >= 310.0 ==> AllRest(ss[|dts|]))
    ensures EnoughFreed(l, gone, 1) && AllPaced(ss, dts) ==> Agrees(ss[|dts|])
  {
    hide *;
    SortedSize(ss, dts);
    RoundRoomIff(p, bs, l, s, gone, 0);
    RoundRoomIff(p, bs, l, s, gone, 1);
    if EnoughFreed(l, gone, 0) && AllShort(dts) { SortedBoardAgrees(ss, dts); }
    if EnoughFreed(l, gone, 1) && AllPaced(ss, dts) { SortedBoardAgreesWithSpare(ss, dts); }
  }
}
