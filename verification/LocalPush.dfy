/** Placing the two blocks of a group on the board (LocalPlayer::PushBlockInGame). */
module LocalPush {
  import opened Geometry
  import opened Connectivity
  import opened BlockStates
  import opened Matching
  import opened PuyoBlocks
  import opened Players
  import opened Falling
  import opened Gravity
  import opened LinkMasks
  import opened LinkStates
  import opened Rounds
  import opened Settling
  import opened Garbage
  import opened Resting
  import opened Sorting
  import opened Destroying
  import opened Scenes
  import opened Scoring
  import opened LocalPlayers
  import opened LocalSteps
  import opened LocalFrames
  import opened Driving

  /** A coloured block that has come to a stop on a cell of the board, and is not on it yet. */
  ghost predicate Fresh(p: BasePlayer, b: Block)
    reads p`blockList, b`x, b`y, b`kind, b`state, b`posY, b`velocity, b`link, b`recursionCheck
  {
    && b !in p.blockList && InBoard(Cell(b.x, b.y)) && b.kind != Ice && b.state == Stationary && InItsRow(b)
    && b.link == {} && !b.recursionCheck
  }

  lemma {:induction false} PlacedValid(p: BasePlayer, bs: seq<Block>, b: Block)
    requires Distinct(bs) && b !in bs && p.blockList == bs + [b] && b.kind != Ice && InBoard(Cell(b.x, b.y))
    requires p.board.Length0 == BOARD_Y_COUNT && p.board.Length1 == BOARD_X_COUNT && p.board[b.y, b.x] == b
    requires forall c :: InBoard(c) && c != Cell(b.x, b.y) && p.board[c.y, c.x] != null ==>
      p.board[c.y, c.x] in bs && var d := p.board[c.y, c.x]; d.x == c.x && d.y == c.y && p.Registered(d)
    requires forall d :: d in bs && p.Registered(d) ==>
      InBoard(Cell(d.x, d.y)) && Cell(d.x, d.y) != Cell(b.x, b.y) && p.board[d.y, d.x] == d
    ensures p.Valid() && p.Layout() == OnBoard(p.board)
  {
    forall c | InBoard(c) && p.board[c.y, c.x] != null
      ensures p.board[c.y, c.x] in p.blockList && var d := p.board[c.y, c.x]; d.x == c.x && d.y == c.y && p.Registered(d)
    {
    }
  }

  lemma {:induction false} NotYetOnBoard(p: BasePlayer, b: Block)
    requires p.Valid() && b !in p.blockList && InBoard(Cell(b.x, b.y)) && Cell(b.x, b.y) !in p.Layout()
    ensures Distinct(p.blockList) && p.board.Length0 == BOARD_Y_COUNT == 13 && p.board.Length1 == BOARD_X_COUNT == 6
    ensures forall c :: InBoard(c) && p.board[c.y, c.x] != null ==>
      p.board[c.y, c.x] in p.blockList && var d := p.board[c.y, c.x]; d.x == c.x && d.y == c.y && p.Registered(d)
    ensures forall d :: d in p.blockList && p.Registered(d) ==>
      InBoard(Cell(d.x, d.y)) && Cell(d.x, d.y) != Cell(b.x, b.y) && p.board[d.y, d.x] == d
    ensures 0 <= b.y < 13 && 0 <= b.x < 6
  {
    p.ColouredAt(Cell(b.x, b.y));
  }

  lemma {:induction false} BoardUpdated(board: map<Cell, Block>, board': map<Cell, Block>, c: Cell, b: Block)
    requires forall d :: d != c ==> (d in board' <==> d in board) && (d in board ==> board'[d] == board[d])
    requires c in board' && board'[c] == b
    ensures board' == board[c := b]
  {
  }

  lemma {:induction false} OnBoardAt(p: BasePlayer, d: Cell)
    requires p.board.Length0 == BOARD_Y_COUNT && p.board.Length1 == BOARD_X_COUNT
    ensures d in OnBoard(p.board) <==> InBoard(d) && p.board[d.y, d.x] != null
    ensures d in OnBoard(p.board) ==> OnBoard(p.board)[d] == p.board[d.y, d.x]
  {
  }

  method AddToBoard(p: BasePlayer, b: Block)
    requires p.Valid() && Fresh(p, b) && Cell(b.x, b.y) !in p.Layout()
    modifies p`blockList, p.board
    ensures p.Valid() && p.blockList == old(p.blockList) + [b] && p.Layout() == old(p.Layout())[Cell(b.x, b.y) := b]
  {
    OpenFresh(p, b);
    hide *;
    NotYetOnBoard(p, b);
    ByBoard(p);
    ghost var bs, l, c := p.blockList, OnBoard(p.board), Cell(b.x, b.y);
    forall d
      ensures d in l <==> InBoard(d) && p.board[d.y, d.x] != null
      ensures d in l ==> l[d] == p.board[d.y, d.x]
    {
      OnBoardAt(p, d);
    }
    InBoardIs();
    p.blockList := p.blockList + [b];
    p.board[b.y, b.x] := b;
    PlacedValid(p, bs, b);
    forall d
      ensures d in OnBoard(p.board) <==> InBoard(d) && p.board[d.y, d.x] != null
      ensures d in OnBoard(p.board) ==> OnBoard(p.board)[d] == p.board[d.y, d.x]
    {
      OnBoardAt(p, d);
    }
    BoardUpdated(l, OnBoard(p.board), c, b);
  }

  lemma {:induction false} InBoardIs()
    ensures forall c :: InBoard(c) <==> 0 <= c.x < 6 && 0 <= c.y < 13
  {
  }

  lemma {:induction false} OpenFresh(p: BasePlayer, b: Block)
    requires Fresh(p, b)
    ensures b !in p.blockList && InBoard(Cell(b.x, b.y)) && b.kind != Ice && b.state == Stationary && InItsRow(b)
    ensures b.link == {} && !b.recursionCheck
  {
  }

  lemma {:induction false} ColoursAdded(l: map<Cell, Block>, c: Cell, b: Block)
    requires c !in l && b.kind != Ice && b.state == Stationary && b.link == {}
    ensures ColoursOf(l[c := b]) == ColoursOf(l)[c := b.kind] && c !in ColoursOf(l)
    ensures LinksOf(l[c := b]) == LinksOf(l)[c := {}]
  {
  }

  lemma {:induction false} ExactBeside(g: Colours, m: Masks, c: Cell)
    requires Exact(g, m) && c !in g
    ensures Exact(g, m[c := {}])
  {
  }

  ghost predicate Quiet(bs: seq<Block>)
    reads bs`state, bs`kind, bs`initialized, bs`y, bs`posY, bs`velocity, bs`recursionCheck
  {
    forall b :: b in bs ==> b.state == Stationary && (b.kind == Ice ==> b.initialized) && InItsRow(b) && !b.recursionCheck
  }

  lemma {:induction false} OneMoreQuiet(p: BasePlayer, bs: seq<Block>, b: Block)
    requires Quiet(bs) && b.state == Stationary && b.kind != Ice && InItsRow(b) && !b.recursionCheck
    requires p.blockList == bs + [b]
    ensures Quiet(p.blockList)
  {
  }

  lemma {:induction false} QuietIs(p: BasePlayer)
    ensures Quiet(p.blockList) <==> p.Settled() && AllInRow(p.blockList) && Unmarked(p.blockList)
    ensures p.Settled() ==> Seated(p)
  {
  }

  /** A block is put on the board; its mask is still empty. */
  method PutBlock(p: BasePlayer, b: Block)
    requires p.Valid() && Quiet(p.blockList) && Fresh(p, b) && Cell(b.x, b.y) !in p.Layout()
    modifies p`blockList, p.board
    ensures p.Valid() && Quiet(p.blockList) && p.blockList == old(p.blockList) + [b] && p.At(Cell(b.x, b.y)) == b
    ensures p.Layout() == old(p.Layout())[Cell(b.x, b.y) := b] && p.Coloured() == old(p.Coloured())[Cell(b.x, b.y) := b.kind]
    ensures Links(p) == old(Links(p))[Cell(b.x, b.y) := {}] && Cell(b.x, b.y) !in old(p.Coloured())
  {
    hide *;
    OpenFresh(p, b);
    ByBoard(p);
    ghost var bs, l, c := p.blockList, p.Layout(), Cell(b.x, b.y);
    ColoursAdded(l, c, b);
    AddToBoard(p, b);
    OneMoreQuiet(p, bs, b);
    ByBoard(p);
    p.ColouredAt(c);
  }

  /** The new block and its neighbours get their link bits. */
  method LinkBlock(p: BasePlayer, b: Block, ghost g: Colours, ghost m: Masks)
    requires p.Valid() && p.At(Cell(b.x, b.y)) == b && b.state == Stationary && b.kind != Ice
    requires Exact(g, m) && Cell(b.x, b.y) !in g
    requires p.Coloured() == g[Cell(b.x, b.y) := b.kind] && Links(p) == m[Cell(b.x, b.y) := {}]
    modifies p.blockList`link
    ensures p.Valid() && MasksExact(p)
  {
    hide *;
    ghost var c := Cell(b.x, b.y);
    ExactBeside(g, m, c);
    UpdateLinkState(p, b);
    PushKeepsExact(g, m[c := {}], c, b.kind);
    MasksAre(p);
  }

  lemma {:induction false} OneMoreListed(bs: seq<Block>, b: Block, l: map<Cell, Block>, c: Cell)
    requires b !in bs && c !in l && forall d :: d in l ==> l[d] in bs
    ensures Bodies(bs + [b]) == Bodies(bs) + [BodyOf(b)]
    ensures OwnersOf(l[c := b], bs + [b]) == OwnersOf(l, bs)[c := |bs|]
  {
    assert (bs + [b])[..|bs|] == bs;
  }

  lemma {:induction false} ViewByLayout(p: BasePlayer)
    requires p.Valid()
    ensures p.Wired() && View(p) == FallState(Bodies(p.blockList), OwnersOf(p.Layout(), p.blockList)) && |View(p).bodies| == |p.blockList|
    ensures forall d :: d in p.Layout() ==> p.Layout()[d] in p.blockList
  {
    ValidWired(p);
    forall c
      ensures c in Owners(p) <==> c in p.Layout()
      ensures c in Owners(p) ==> Owners(p)[c] == IndexOf(p.blockList, p.Layout()[c])
    {
      p.ColouredAt(c);
    }
    hide BasePlayer.Layout, IndexOf;
    assert Owners(p) == OwnersOf(p.Layout(), p.blockList);
  }

  lemma {:induction false} FreshBody(p: BasePlayer, b: Block)
    requires Fresh(p, b)
    ensures BodyOf(b) == RestingOn(b.kind, Cell(b.x, b.y))
  {
  }

  lemma {:induction false} OneMoreSeen(p: BasePlayer, v: FallState, bs: seq<Block>, l: map<Cell, Block>, b: Block)
    requires p.Valid() && p.blockList == bs + [b] && p.Layout() == l[Cell(b.x, b.y) := b] && Cell(b.x, b.y) !in l
    requires b !in bs && (forall d :: d in l ==> l[d] in bs) && BodyOf(b) == RestingOn(b.kind, Cell(b.x, b.y))
    requires v == FallState(Bodies(bs), OwnersOf(l, bs))
    ensures p.Wired() && View(p) == WithOne(v, b.kind, Cell(b.x, b.y))
  {
    ViewByLayout(p);
    OneMoreListed(bs, b, l, Cell(b.x, b.y));
    hide BasePlayer.Valid, BasePlayer.Layout, OwnersOf, Bodies, BodyOf, RestingOn;
  }

  /** Places one block and gives it and its neighbours their link bits. */
  method PlaceBlock(p: BasePlayer, b: Block)
    requires p.Valid() && Quiet(p.blockList) && MasksExact(p) && Fresh(p, b) && Cell(b.x, b.y) !in p.Layout()
    modifies p`blockList, p.board, p.blockList`link, b`link
    ensures p.Valid() && Quiet(p.blockList) && MasksExact(p) && p.blockList == old(p.blockList) + [b]
    ensures p.Layout() == old(p.Layout())[Cell(b.x, b.y) := b] && p.Coloured() == old(p.Coloured())[Cell(b.x, b.y) := b.kind]
    ensures p.Wired() && old(p.Wired()) && View(p) == WithOne(old(View(p)), b.kind, Cell(b.x, b.y))
  {
    hide *;
    OpenFresh(p, b);
    FreshBody(p, b);
    ViewByLayout(p);
    MasksAre(p);
    ghost var g, m, v, bs, l := p.Coloured(), Links(p), View(p), p.blockList, p.Layout();
    PutBlock(p, b);
    LinkBlock(p, b, g, m);
    OneMoreSeen(p, v, bs, l, b);
  }

  ghost function WithGroup(l: Colours, b1: Block, b2: Block): Colours
    reads b1`x, b1`y, b1`kind, b2`x, b2`y, b2`kind
  {
    l[Cell(b1.x, b1.y) := b1.kind][Cell(b2.x, b2.y) := b2.kind]
  }

  /** The two blocks of a group lie on the lowest free cells of their columns. */
  ghost predicate LandsOnBoard(p: BasePlayer, b1: Block, b2: Block)
    reads p`blockList, p.board, p.blockList`x, p.blockList`y, p.blockList`kind, p.blockList`initialized
    reads b1`x, b1`y, b1`kind, b1`state, b1`posY, b1`velocity, b1`link, b1`recursionCheck
    reads b2`x, b2`y, b2`kind, b2`state, b2`posY, b2`velocity, b2`link, b2`recursionCheck
  {
    && p.Valid() && b1 != b2 && Fresh(p, b1) && Fresh(p, b2) && Cell(b1.x, b1.y) != Cell(b2.x, b2.y)
    && Cell(b1.x, b1.y) !in p.Layout() && Cell(b2.x, b2.y) !in p.Layout()
    && Packed(p.Layout().Keys + {Cell(b1.x, b1.y), Cell(b2.x, b2.y)})
  }

  lemma {:induction false} OpenLanding(p: BasePlayer, b1: Block, b2: Block)
    requires LandsOnBoard(p, b1, b2)
    ensures p.Valid() && b1 != b2 && Fresh(p, b1) && Fresh(p, b2) && Cell(b1.x, b1.y) != Cell(b2.x, b2.y)
    ensures Cell(b1.x, b1.y) !in p.Layout() && Cell(b2.x, b2.y) !in p.Layout()
    ensures Packed(p.Layout().Keys + {Cell(b1.x, b1.y), Cell(b2.x, b2.y)})
    ensures WithGroup(p.Coloured(), b1, b2) == p.Coloured()[Cell(b1.x, b1.y) := b1.kind][Cell(b2.x, b2.y) := b2.kind]
  {
  }

  lemma {:induction false} StillFresh(p: BasePlayer, bs: seq<Block>, b1: Block, b2: Block)
    requires b1 != b2 && b2 !in bs && p.blockList == bs + [b1]
    requires InBoard(Cell(b2.x, b2.y)) && b2.kind != Ice && b2.state == Stationary && InItsRow(b2) && b2.link == {} && !b2.recursionCheck
    ensures Fresh(p, b2)
  {
  }

  lemma {:induction false} TwoMoreKeys(l: map<Cell, Block>, b1: Block, b2: Block, c1: Cell, c2: Cell)
    ensures l[c1 := b1][c2 := b2].Keys == l.Keys + {c1, c2}
  {
  }

  /** Without coloured blocks before, the two new ones are all there are. */
  lemma {:induction false} OnlyTwo(g: Colours, c1: Cell, c2: Cell, k1: BlockType, k2: BlockType)
    requires g.Keys == {}
    ensures |g[c1 := k1][c2 := k2].Keys| <= 2
  {
    assert g[c1 := k1][c2 := k2].Keys == {c1, c2};
    CardinalityOrder({c1, c2}, {c1, c2});
  }

  lemma {:induction false} NothingCarried(p: BasePlayer)
    requires p.Valid() && ComboClean(p)
    ensures (p.comboCount == 0 && p.restScore == 0) || p.Coloured().Keys == {}
  {
  }

  lemma {:induction false} QuietRest(p: BasePlayer)
    requires AtRest(p) && Unmarked(p.blockList)
    ensures Quiet(p.blockList)
  {
    OpenRest(p);
    QuietIs(p);
  }

  lemma {:induction false} CloseRestNow(p: BasePlayer)
    requires p.Valid() && p.Settled() && ColumnSorted(p.blockList) && Packed(p.Layout().Keys) && AllInRow(p.blockList)
    ensures AtRest(p)
  {
  }

  lemma {:induction false} QuietSame(bs: seq<Block>, bs': seq<Block>)
    requires Quiet(bs) && forall b :: b in bs' <==> b in bs
    ensures Quiet(bs')
  {
  }

  lemma {:induction false} TwoIs(s: FallState, kind1: BlockType, c1: Cell, kind2: BlockType, c2: Cell)
    ensures WithTwo(s, kind1, c1, kind2, c2) == WithOne(WithOne(s, kind1, c1), kind2, c2)
  {
  }

  method PlaceTwo(p: BasePlayer, b1: Block, b2: Block)
    requires p.Valid() && Quiet(p.blockList) && MasksExact(p) && LandsOnBoard(p, b1, b2)
    modifies p`blockList, p.board, p.blockList`link, b1`link, b2`link
    ensures p.Valid() && Quiet(p.blockList) && MasksExact(p) && p.blockList == old(p.blockList) + [b1] + [b2]
    ensures p.Coloured() == WithGroup(old(p.Coloured()), b1, b2)
    ensures p.Layout().Keys == old(p.Layout()).Keys + {Cell(b1.x, b1.y), Cell(b2.x, b2.y)} && Packed(p.Layout().Keys)
    ensures p.Wired() && old(p.Wired())
    ensures View(p) == WithTwo(old(View(p)), b1.kind, Cell(b1.x, b1.y), b2.kind, Cell(b2.x, b2.y))
  {
    hide *;
    OpenLanding(p, b1, b2);
    OpenFresh(p, b1);
    OpenFresh(p, b2);
    ValidWired(p);
    TwoIs(View(p), b1.kind, Cell(b1.x, b1.y), b2.kind, Cell(b2.x, b2.y));
    ghost var bs, l := p.blockList, p.Layout();
    PlaceBlock(p, b1);
    StillFresh(p, bs, b1, b2);
    PlaceBlock(p, b2);
    TwoMoreKeys(l, b1, b2, Cell(b1.x, b1.y), Cell(b2.x, b2.y));
  }

  /** Both blocks are placed and the list is sorted: the board is at rest, with exact masks. */
  method PlaceGroup(p: BasePlayer, b1: Block, b2: Block)
    requires AtRest(p) && p.Valid() && Unmarked(p.blockList) && MasksExact(p) && LandsOnBoard(p, b1, b2)
    modifies p`blockList, p.board, p.blockList`link, b1`link, b2`link
    ensures AtRest(p) && p.Valid() && Unmarked(p.blockList) && MasksExact(p)
    ensures p.Coloured() == WithGroup(old(p.Coloured()), b1, b2)
    ensures p.Layout().Keys == old(p.Layout()).Keys + {Cell(b1.x, b1.y), Cell(b2.x, b2.y)}
    ensures forall b :: b in p.blockList <==> b in old(p.blockList) + [b1, b2]
    ensures |p.blockList| == |old(p.blockList)| + 2
    ensures p.Wired() && old(p.Wired())
    ensures Listed(WithTwo(old(View(p)), b1.kind, Cell(b1.x, b1.y), b2.kind, Cell(b2.x, b2.y)), View(p))
  {
    hide *;
    QuietRest(p);
    PlaceTwo(p, b1, b2);
    QuietIs(p);
    MasksAre(p);
    SeatedNow(p);
    ghost var bs2 := p.blockList;
    SortList(p);
    QuietSame(bs2, p.blockList);
    QuietIs(p);
    MasksAre(p);
    CloseRestNow(p);
  }

  lemma {:induction false} SeatedNow(p: BasePlayer)
    requires Seated(p)
    ensures forall b :: b in p.blockList ==> p.Registered(b)
  {
  }

  lemma {:induction false} CountOrFew(p: BasePlayer, g: Colours, b1: Block, b2: Block)
    requires p.Valid() && p.Settled() && p.Coloured() == WithGroup(g, b1, b2)
    requires p.chain == 0 && p.scored == ChainScore([], p.totalScore, 0) && ((p.comboCount == 0 && p.restScore == 0) || g.Keys == {})
    ensures ChainSoFar(p) || |p.Coloured().Keys| < MIN_MATCH_COUNT
  {
    BlocksFit(p);
    if p.comboCount == 0 && p.restScore == 0 {
      NoRoundYet(p);
    } else {
      OnlyTwo(g, Cell(b1.x, b1.y), Cell(b2.x, b2.y), b1.kind, b2.kind);
    }
  }

  /** The block lies on one of the four cells that new blocks come from. */
  predicate OnSpawn(b: Block)
    reads b`x, b`y
  {
    2 <= b.x <= 3 && b.y >= BOARD_Y_COUNT - 2
  }

  lemma {:induction false} SpawnByCells(p: BasePlayer)
    requires p.Valid()
    ensures SpawnTaken(p) <==> SpawnHit(p.Layout().Keys)
  {
    if c: Cell :| c in p.Layout().Keys && 2 <= c.x <= 3 && c.y >= BOARD_Y_COUNT - 2 {
      assert p.At(c) != null;
    }
    if SpawnTaken(p) {
      var c: Cell :| 2 <= c.x <= 3 && BOARD_Y_COUNT - 2 <= c.y < BOARD_Y_COUNT && p.At(c) != null;
      assert c in p.Layout().Keys;
    }
  }

  lemma {:induction false} TwoMoreOnSpawn(cells: set<Cell>, b1: Block, b2: Block)
    requires !SpawnHit(cells)
    ensures SpawnHit(cells + {Cell(b1.x, b1.y), Cell(b2.x, b2.y)}) <==> OnSpawn(b1) || OnSpawn(b2)
  {
    var c1, c2 := Cell(b1.x, b1.y), Cell(b2.x, b2.y);
    assert c1 in cells + {c1, c2} && c2 in cells + {c1, c2};
  }

  lemma {:induction false} PlacedIs(s: Scene, s': Scene, kind1: BlockType, c1: Cell, kind2: BlockType, c2: Cell)
    requires Listed(WithTwo(s.view, kind1, c1, kind2, c2), s'.view)
    requires s' == s.(view := s'.view, purse := s.purse.(scored := ChainScore([], s.purse.total, 0)))
    ensures Placed2(s, s', kind1, c1, kind2, c2)
  {
    hide Listed, WithTwo;
  }

  /** From a playing board to one that can be checked for matches. */
  method PlaceAndCount(p: BasePlayer, b1: Block, b2: Block)
    requires Inv(p) && p.phase == Playing && p.Valid() && LandsOnBoard(p, b1, b2)
    modifies p`blockList, p.board, p`chain, p`scored, p.blockList`link, b1`link, b2`link
    ensures Checkable(p) && p.Valid() && p.Coloured() == WithGroup(old(p.Coloured()), b1, b2) && p.chain == 0
    ensures SpawnTaken(p) <==> OnSpawn(b1) || OnSpawn(b2)
    ensures forall i :: 0 <= i < |p.blockList| ==> p.blockList[i] in old(p.blockList) + [b1, b2]
    ensures forall b :: b in old(p.blockList) + [b1, b2] ==> b in p.blockList
    ensures |p.blockList| == |old(p.blockList)| + 2
    ensures p.scored == ChainScore([], p.totalScore, 0) && p.Wired() && old(p.Wired())
    ensures Listed(WithTwo(old(View(p)), b1.kind, Cell(b1.x, b1.y), b2.kind, Cell(b2.x, b2.y)), View(p))
  {
    hide *;
    OpenPlaying(p);
    OpenMoves(p);
    SettledRest(p);
    SpawnCellsFree(p, b1, b2);
    ghost var g := p.Coloured();
    NothingCarried(p);
    p.chain, p.scored := 0, ChainScore([], p.totalScore, 0);
    PlaceGroup(p, b1, b2);
    SpawnByCells(p);
    OpenRest(p);
    CountOrFew(p, g, b1, b2);
    CloseCheckable(p);
  }

  /** The same as a step of the player's whole state. */
  method PlaceOnBoard(p: BasePlayer, b1: Block, b2: Block)
    requires Inv(p) && p.phase == Playing && p.Valid() && LandsOnBoard(p, b1, b2)
    modifies p`blockList, p.board, p`chain, p`scored, p.blockList`link, b1`link, b2`link
    ensures Checkable(p) && p.Valid() && p.Coloured() == WithGroup(old(p.Coloured()), b1, b2) && p.chain == 0
    ensures SpawnTaken(p) <==> OnSpawn(b1) || OnSpawn(b2)
    ensures forall i :: 0 <= i < |p.blockList| ==> p.blockList[i] in old(p.blockList) + [b1, b2]
    ensures forall b :: b in old(p.blockList) + [b1, b2] ==> b in p.blockList
    ensures |p.blockList| == |old(p.blockList)| + 2
    ensures Placed2(old(SceneOf(p)), SceneOf(p), b1.kind, Cell(b1.x, b1.y), b2.kind, Cell(b2.x, b2.y))
  {
    hide *;
    OpenPlaying(p);
    ghost var s := SceneOf(p);
    SceneMoving(p);
    PlaceAndCount(p, b1, b2);
    OpenCheckable(p);
    SceneMoving(p);
    PlacedIs(s, SceneOf(p), b1.kind, Cell(b1.x, b1.y), b2.kind, Cell(b2.x, b2.y));
  }

  lemma {:induction false} SpawnCellsFree(p: BasePlayer, b1: Block, b2: Block)
    requires p.Valid() && SpawnFree(p)
    ensures SpawnHit(p.Layout().Keys + {Cell(b1.x, b1.y), Cell(b2.x, b2.y)}) <==> OnSpawn(b1) || OnSpawn(b2)
  {
    hide *;
    GroupWaitsIs(p);
    SpawnByCells(p);
    TwoMoreOnSpawn(p.Layout().Keys, b1, b2);
  }

  /** With the two blocks placed some group is large enough to be cleared. */
  ghost predicate GroupForms(p: BasePlayer, b1: Block, b2: Block)
    reads p`blockList, p.board, p.blockList`x, p.blockList`y, p.blockList`kind, p.blockList`initialized, p.blockList`state
    reads b1`x, b1`y, b1`kind, b2`x, b2`y, b2`kind
  {
    p.Valid() && HasGroup(WithGroup(p.Coloured(), b1, b2))
  }

  lemma {:induction false} GroupFormsIs(p: BasePlayer, b1: Block, b2: Block)
    requires p.Valid()
    ensures GroupForms(p, b1, b2) <==> HasGroup(WithGroup(p.Coloured(), b1, b2))
  {
  }

  /** A round that leaves ice pending counts as a defence; a second one in a row ends it. */
  method CountDefense(p: BasePlayer)
    modifies p`isDefending, p`defenseCount
    ensures
      if !p.hasIceBlock then p.isDefending == old(p.isDefending) && p.defenseCount == old(p.defenseCount)
      else if old(p.defenseCount) >= 1 && !p.isComboAttack then !p.isDefending && p.defenseCount == 0
      else p.isDefending && p.defenseCount == old(p.defenseCount) + 1
  {
    if p.hasIceBlock {
      if p.defenseCount >= 1 && !p.isComboAttack {
        p.isDefending := false;
        p.defenseCount := 0;
        return;
      }
      p.defenseCount := p.defenseCount + 1;
      p.isDefending := true;
    }
  }

  /** Without a round the next blocks are played or ice comes down; otherwise ice that is left is put off. */
  method AfterCheck(p: BasePlayer) returns (ghost made: set<Block>)
    requires Inv(p) && DrivenList(p.blockList, 0.0)
    modifies p`blockList, p`totalInterrupt, p`phase, p`hasIceBlock, p`isDefending, p`defenseCount
    ensures Inv(p) && fresh(made) && DrivenList(p.blockList, 0.0)
    ensures p.phase == if old(p.phase) != Playing then old(p.phase) else if old(p.totalInterrupt) > 0 && !p.isComboAttack then IceBlocking else Playing
    ensures p.totalInterrupt == if p.phase == IceBlocking && old(p.phase) == Playing then AfterDrop(old(p.totalInterrupt)) else old(p.totalInterrupt)
    ensures |p.blockList| == |old(p.blockList)| + old(p.totalInterrupt) - p.totalInterrupt
    ensures old(p.phase) == Playing ==>
      !p.isDefending && p.defenseCount == if old(p.isDefending) || p.phase == IceBlocking then 0 else old(p.defenseCount)
    ensures old(p.phase) != Playing && p.totalInterrupt > 0 ==>
      && (p.isDefending <==> p.isComboAttack || old(p.defenseCount) < 1)
      && p.defenseCount == if p.isDefending then old(p.defenseCount) + 1 else 0
    ensures old(p.phase) != Playing && p.totalInterrupt <= 0 ==>
      p.isDefending == old(p.isDefending) && p.defenseCount == old(p.defenseCount)
    ensures forall i :: 0 <= i < |p.blockList| ==> p.blockList[i] in old(p.blockList) || p.blockList[i] in made
    ensures forall b :: b in old(p.blockList) ==> b in p.blockList
    ensures if old(p.phase) == Playing then GoesOn(DefenceOver(old(SceneOf(p))), SceneOf(p)) else SceneOf(p) == PutOff(old(SceneOf(p)))
  {
    hide *;
    made := {};
    if p.phase == Playing {
      EndDefense(p);
      made := DropOrNext(p);
    } else {
      DefendOn(p);
    }
  }

  method EndDefense(p: BasePlayer)
    modifies p`isDefending, p`defenseCount
    ensures !p.isDefending && p.defenseCount == (if old(p.isDefending) then 0 else old(p.defenseCount))
    ensures SceneOf(p) == DefenceOver(old(SceneOf(p)))
  {
    hide *;
    ghost var m := SceneOf(p);
    SceneIs(p);
    if p.isDefending {
      p.isDefending := false;
      p.defenseCount := 0;
    }
    SceneIs(p);
    DefenceOverIs(m);
  }

  method DefendOn(p: BasePlayer)
    requires Inv(p)
    modifies p`isDefending, p`defenseCount
    ensures SceneOf(p) == PutOff(old(SceneOf(p)))
    ensures p.totalInterrupt > 0 ==>
      && (p.isDefending <==> p.isComboAttack || old(p.defenseCount) < 1)
      && p.defenseCount == if p.isDefending then old(p.defenseCount) + 1 else 0
    ensures p.totalInterrupt <= 0 ==> p.isDefending == old(p.isDefending) && p.defenseCount == old(p.defenseCount)
  {
    hide *;
    ghost var m := SceneOf(p);
    SceneIs(p);
    FlagIs(p);
    CountDefense(p);
    SceneIs(p);
    PutOffIs(m);
  }

  /** What follows once the blocks of a group have been placed. */
  method CheckAndGoOn(p: BasePlayer) returns (ghost made: set<Block>)
    requires Checkable(p)
    modifies p`phase, p`comboCount, p`chain, p`scored, p`matchedBlocks, p`iceBlocks, p`isGameQuit, p`blockList
    modifies p`totalScore, p`restScore, p`totalInterrupt, p`addInterrupt, p`totalEnemyInterrupt, p`hasIceBlock
    modifies p`isDefending, p`defenseCount
    modifies p.blockList`recursionCheck, p.blockList`state, p.blockList`effectTime
    ensures Inv(p) && fresh(made)
    ensures p.phase ==
      if p.shouldQuit then GameOver
      else if old(GroupWaits(p)) then Shattering
      else if old(SpawnTaken(p)) then GameOver
      else if old(p.totalInterrupt) > 0 && !p.isComboAttack then IceBlocking
      else Playing
    ensures p.phase != Shattering ==>
      && p.totalInterrupt == (if p.phase == IceBlocking then AfterDrop(old(p.totalInterrupt)) else old(p.totalInterrupt))
      && |p.blockList| == |old(p.blockList)| + old(p.totalInterrupt) - p.totalInterrupt
    ensures p.phase == Shattering ==> p.chain == old(p.chain) + 1
    ensures DrivenList(p.blockList, 0.0)
    ensures p.phase == Playing || p.phase == IceBlocking ==>
      !p.isDefending && p.defenseCount == if old(p.isDefending) || p.phase == IceBlocking then 0 else old(p.defenseCount)
    ensures p.phase == Shattering && p.totalInterrupt > 0 ==>
      && (p.isDefending <==> p.isComboAttack || old(p.defenseCount) < 1)
      && p.defenseCount == if p.isDefending then old(p.defenseCount) + 1 else 0
    ensures p.phase == Shattering && p.totalInterrupt <= 0 ==>
      p.isDefending == old(p.isDefending) && p.defenseCount == old(p.defenseCount)
    ensures forall i :: 0 <= i < |p.blockList| ==> p.blockList[i] in old(p.blockList) || p.blockList[i] in made
    ensures forall b :: b in old(p.blockList) ==> b in p.blockList
    ensures GroupChecked(old(SceneOf(p)), SceneOf(p))
  {
    hide *;
    made := {};
    ghost var s := SceneOf(p);
    var r;
    ghost var cells, iceAt;
    r, cells, iceAt := CheckGameBlockState(p);
    CheckedDriven(p, cells, iceAt);
    ghost var m := SceneOf(p);
    SceneIs(p);
    made := AfterCheck(p);
    GroupCheckedIs(s, m, SceneOf(p));
  }

  lemma {:induction false} DefenceOverIs(s: Scene)
    ensures DefenceOver(s) == if s.flags.defending then s.(flags := s.flags.(defending := false, defenseCount := 0)) else s
  {
  }

  lemma {:induction false} PutOffIs(s: Scene)
    ensures PutOff(s) ==
      if s.purse.counters.pending <= 0 then s
      else if s.flags.defenseCount >= 1 && !s.flags.comboAttack then s.(flags := s.flags.(defending := false, defenseCount := 0))
      else s.(flags := s.flags.(defending := true, defenseCount := s.flags.defenseCount + 1))
  {
  }

  lemma {:induction false} GroupCheckedIs(s: Scene, m: Scene, s': Scene)
    requires Checked(s, m) && if m.phase == Playing then GoesOn(DefenceOver(m), s') else s' == PutOff(m)
    ensures GroupChecked(s, s')
  {
    hide Checked, GoesOn, DefenceOver, PutOff;
  }

  /** The two blocks of a control group come to rest on the board (LocalPlayer::PushBlockInGame): a round
      starts if they complete a group, the game is over if one of them lies on a spawn cell, pending
      ice comes down unless the opponent's chain still goes on, and otherwise play goes on.
      A round that leaves ice pending puts the ice off, but not twice in a row. */
  method PushBlockInGame(p: BasePlayer, b1: Block, b2: Block) returns (ghost made: set<Block>)
    requires Inv(p) && p.phase == Playing && LandsOnBoard(p, b1, b2)
    modifies p`phase, p`comboCount, p`chain, p`scored, p`matchedBlocks, p`iceBlocks, p`isGameQuit, p`blockList, p.board
    modifies p`totalScore, p`restScore, p`totalInterrupt, p`addInterrupt, p`totalEnemyInterrupt, p`hasIceBlock
    modifies p`isDefending, p`defenseCount
    modifies p.blockList`link, p.blockList`recursionCheck, p.blockList`state, p.blockList`effectTime
    modifies b1`link, b1`recursionCheck, b1`state, b1`effectTime, b2`link, b2`recursionCheck, b2`state, b2`effectTime
    ensures Inv(p) && fresh(made)
    ensures p.phase ==
      if p.shouldQuit then GameOver
      else if old(GroupForms(p, b1, b2)) then Shattering
      else if OnSpawn(b1) || OnSpawn(b2) then GameOver
      else if old(p.totalInterrupt) > 0 && !p.isComboAttack then IceBlocking
      else Playing
    ensures p.phase != Shattering ==>
      && p.totalInterrupt == (if p.phase == IceBlocking then AfterDrop(old(p.totalInterrupt)) else old(p.totalInterrupt))
      && |p.blockList| == |old(p.blockList)| + 2 + old(p.totalInterrupt) - p.totalInterrupt
    ensures p.phase == Shattering ==> p.chain == 1
    ensures DrivenList(p.blockList, 0.0)
    ensures p.phase == Playing || p.phase == IceBlocking ==>
      !p.isDefending && p.defenseCount == if old(p.isDefending) || p.phase == IceBlocking then 0 else old(p.defenseCount)
    ensures p.phase == Shattering && p.totalInterrupt > 0 ==>
      && (p.isDefending <==> p.isComboAttack || old(p.defenseCount) < 1)
      && p.defenseCount == if p.isDefending then old(p.defenseCount) + 1 else 0
    ensures p.phase == Shattering && p.totalInterrupt <= 0 ==>
      p.isDefending == old(p.isDefending) && p.defenseCount == old(p.defenseCount)
    ensures forall i :: 0 <= i < |p.blockList| ==> p.blockList[i] in old(p.blockList) + [b1, b2] || p.blockList[i] in made
    ensures forall b :: b in old(p.blockList) + [b1, b2] ==> b in p.blockList
    ensures Pushed(old(SceneOf(p)), SceneOf(p), old(b1.kind), old(Cell(b1.x, b1.y)), old(b2.kind), old(Cell(b2.x, b2.y)))
  {
    hide *;
    OpenLanding(p, b1, b2);
    GroupFormsIs(p, b1, b2);
    ghost var s := SceneOf(p);
    PlaceOnBoard(p, b1, b2);
    GroupWaitsIs(p);
    ghost var m := SceneOf(p);
    made := CheckAndGoOn(p);
    PushedIs(s, m, SceneOf(p), b1.kind, Cell(b1.x, b1.y), b2.kind, Cell(b2.x, b2.y));
  }

  lemma {:induction false} PushedIs(s: Scene, m: Scene, s': Scene, kind1: BlockType, c1: Cell, kind2: BlockType, c2: Cell)
    requires Placed2(s, m, kind1, c1, kind2, c2) && GroupChecked(m, s')
    ensures Pushed(s, s', kind1, c1, kind2, c2)
  {
    hide Placed2, GroupChecked;
  }

  lemma {:induction false} FlagIs(p: BasePlayer)
    requires Inv(p)
    ensures p.hasIceBlock <==> p.totalInterrupt > 0
  {
    InvBoard(p);
    hide *;
    OpenCounters(p);
  }
}
