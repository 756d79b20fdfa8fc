/** The local and the remote player stay in step: the same check and the same round, from the board before
    to the board after. */
module Agreement {
  import opened Geometry
  import opened Connectivity
  import opened BlockStates
  import opened Matching
  import opened PuyoBlocks
  import opened Players
  import opened Falling
  import opened Gravity
  import opened Settling
  import opened Clearing
  import opened Rounds
  import opened RemoteRounds
  import opened Resting
  import opened Destroying
  import opened Scenes
  import opened LocalPlayers
  import opened LocalSteps
  import RemoteChecks
  import FallingOrder

  type Pic = map<Cell, (BlockType, BlockState)>

  /** What can be seen of a player: kind and state of every block on the board, and the list by cells. */
  ghost predicate Shows(p: BasePlayer, pic: Pic, cs: seq<Cell>)
    reads p`blockList, p.board, p.blockList`x, p.blockList`y, p.blockList`kind, p.blockList`initialized, p.blockList`state
  {
    p.Valid() && Picture(p) == pic && ListCells(p.blockList) == cs
  }

  lemma {:induction false} OpenShows(p: BasePlayer, pic: Pic, cs: seq<Cell>)
    requires Shows(p, pic, cs)
    ensures p.Valid() && Picture(p) == pic && ListCells(p.blockList) == cs
  {
  }

  lemma {:induction false} CloseShows(p: BasePlayer, pic: Pic, cs: seq<Cell>)
    requires p.Valid() && Picture(p) == pic && ListCells(p.blockList) == cs
    ensures Shows(p, pic, cs)
  {
  }

  /** What a check of the board goes by can be seen. */
  ghost function ViewIn(pic: Pic): BoardView {
    BoardView(map c | c in pic && pic[c].1 == Stationary && pic[c].0 != Ice :: pic[c].0,
              set c | c in pic && pic[c].0 == Ice,
              map c | c in pic :: pic[c].1)
  }

  lemma {:induction false} PictureAt(p: BasePlayer, c: Cell)
    requires p.Valid()
    ensures c in Picture(p) <==> p.At(c) != null
    ensures c in Picture(p) ==> Picture(p)[c] == (p.At(c).kind, p.At(c).state)
    ensures c in IceCells(p) <==> p.At(c) != null && p.At(c).kind == Ice
  {
  }

  lemma {:induction false} ViewByPicture(p: BasePlayer)
    requires p.Valid()
    ensures ViewOf(p) == ViewIn(Picture(p))
    ensures GroupWaits(p) <==> HasGroup(ViewIn(Picture(p)).colours)
  {
    hide *;
    ViewOfIs(p);
    GroupWaitsIs(p);
    var v, w := ViewIn(Picture(p)), BoardView(p.Coloured(), IceCells(p), StatesOf(p));
    forall c
      ensures SameLook(v, w, c)
    {
      LookAt(p, c);
    }
    SameView(v, w);
  }

  /** The two views agree on a cell. */
  ghost predicate SameLook(v: BoardView, w: BoardView, c: Cell) {
    && (c in v.colours <==> c in w.colours) && (c in v.colours ==> v.colours[c] == w.colours[c])
    && (c in v.ice <==> c in w.ice)
    && (c in v.states <==> c in w.states) && (c in v.states ==> v.states[c] == w.states[c])
  }

  lemma {:induction false} SameView(v: BoardView, w: BoardView)
    requires forall c :: SameLook(v, w, c)
    ensures v == w
  {
    hide SameLook;
    forall c
      ensures (c in v.colours <==> c in w.colours) && (c in v.colours ==> v.colours[c] == w.colours[c])
      ensures c in v.ice <==> c in w.ice
      ensures (c in v.states <==> c in w.states) && (c in v.states ==> v.states[c] == w.states[c])
    {
      SameLookIs(v, w, c);
    }
    assert v.colours == w.colours && v.ice == w.ice && v.states == w.states;
  }

  lemma {:induction false} SameLookIs(v: BoardView, w: BoardView, c: Cell)
    requires SameLook(v, w, c)
    ensures (c in v.colours <==> c in w.colours) && (c in v.colours ==> v.colours[c] == w.colours[c])
    ensures c in v.ice <==> c in w.ice
    ensures (c in v.states <==> c in w.states) && (c in v.states ==> v.states[c] == w.states[c])
  {
  }

  lemma {:induction false} LookAt(p: BasePlayer, c: Cell)
    requires p.Valid()
    ensures SameLook(ViewIn(Picture(p)), BoardView(p.Coloured(), IceCells(p), StatesOf(p)), c)
  {
    hide Picture, BasePlayer.Coloured, BasePlayer.Layout, BasePlayer.Marks, IceCells, StatesOf, BasePlayer.Valid;
    PictureAt(p, c);
    p.ColouredAt(c);
    StateAt(p, c);
  }

  /** The kinds alone, which nothing changes. */
  ghost function Kinds(p: BasePlayer): map<Cell, BlockType>
    reads p`blockList, p.board, p.blockList`x, p.blockList`y, p.blockList`kind, p.blockList`initialized
  {
    if p.Valid() then map c | c in AllCells() && p.At(c) != null :: p.At(c).kind else map[]
  }

  lemma {:induction false} PictureByKinds(p: BasePlayer)
    requires p.Valid()
    ensures Picture(p).Keys == Kinds(p).Keys == StatesOf(p).Keys == p.Layout().Keys
    ensures forall c :: c in Picture(p) ==> Picture(p)[c] == (Kinds(p)[c], StatesOf(p)[c])
  {
  }

  /** At rest every block stands still. */
  ghost predicate AllStill(pic: Pic, kinds: map<Cell, BlockType>) {
    pic.Keys == kinds.Keys && forall c :: c in pic ==> pic[c] == (kinds[c], Stationary)
  }

  lemma {:induction false} RestIsStill(p: BasePlayer)
    requires AtRest(p)
    ensures p.Valid() && AllStill(Picture(p), Kinds(p))
  {
    OpenRest(p);
    PictureByKinds(p);
    SettledStates(p);
    hide Picture, Kinds, StatesOf, AtRest, BasePlayer.Valid, BasePlayer.Settled, BasePlayer.Layout;
  }

  lemma {:induction false} StillUnique(a: Pic, b: Pic, kinds: map<Cell, BlockType>)
    requires AllStill(a, kinds) && AllStill(b, kinds)
    ensures a == b
  {
  }

  /** Nothing that survives the round has changed while the groups disappeared. */
  lemma {:induction false} SurvivorsStill(p: BasePlayer, pic: Pic, gone: set<Cell>)
    requires p.Valid() && AllStill(pic, Kinds(p))
    requires forall c :: c in p.Layout() && c !in gone ==> c in StatesOf(p) && StatesOf(p)[c] == Stationary
    ensures PictureAfter(Picture(p), gone) == PictureAfter(pic, gone)
  {
    PictureByKinds(p);
    var pic1, kinds, l, s := Picture(p), Kinds(p), p.Layout(), StatesOf(p);
    hide *;
    AllStillIs(pic, kinds);
    forall c | c in pic1
      ensures c in pic && (c !in gone ==> pic1[c] == pic[c])
    {
      assert c in pic1.Keys && c in l.Keys;
    }
    forall c | c in pic
      ensures c in pic1
    {
      assert c in pic.Keys && c in kinds.Keys;
    }
    AfterAlike(pic1, pic, gone);
  }

  lemma {:induction false} AllStillIs(pic: Pic, kinds: map<Cell, BlockType>)
    ensures AllStill(pic, kinds) <==> pic.Keys == kinds.Keys && forall c :: c in pic ==> pic[c] == (kinds[c], Stationary)
  {
  }

  lemma {:induction false} AfterAlike(a: Pic, b: Pic, gone: set<Cell>)
    requires forall c :: c in a <==> c in b
    requires forall c :: c in a && c !in gone ==> a[c] == b[c]
    ensures PictureAfter(a, gone) == PictureAfter(b, gone)
  {
    hide Above;
  }

  lemma {:induction false} RoundShows(p: BasePlayer, bs: seq<Block>, l: map<Cell, Block>, s: States, gone: set<Cell>, pic1: Pic, pic: Pic, cs: seq<Cell>)
    requires RoundDone(p, bs, l, s, gone) && Depicts(pic1, l, s) && ListsBoard(bs, l)
    requires PictureAfter(pic1, gone) == PictureAfter(pic, gone) && ListCells(bs) == cs
    ensures Shows(p, PictureAfter(pic, gone), CellsLeft(cs, gone))
  {
    hide *;
    OpenRound(p, bs, l, s, gone);
    RoundPicture(p, bs, l, s, gone, pic1);
    ListAfter(bs, l, gone);
    CloseShows(p, PictureAfter(pic, gone), CellsLeft(cs, gone));
  }

  lemma {:induction false} InLayout(p: BasePlayer)
    ensures p.Valid() ==> forall c :: c in p.Layout() ==> p.Layout()[c] in p.blockList
  {
  }

  /** The moment before the round: what is left of the board will look as it did before the check. */
  lemma {:induction false} BeforeRound(p: BasePlayer, cells: seq<seq<Cell>>, iceAt: set<Cell>, t: real, over: bool, pic: Pic, kinds: map<Cell, BlockType>)
    requires Clears(p, cells, iceAt, t, over) && AllStill(pic, kinds) && Kinds(p) == kinds
    ensures p.Valid() && PictureAfter(Picture(p), Gone(cells, iceAt)) == PictureAfter(pic, Gone(cells, iceAt))
    ensures Depicts(Picture(p), p.Layout(), StatesOf(p)) && ListsBoard(p.blockList, p.Layout())
    ensures forall c :: c in p.Layout() ==> p.Layout()[c] in p.blockList
  {
    InLayout(p);
    hide *;
    ClearsSurvivors(p, cells, iceAt, t, over);
    OpenClears(p, cells, iceAt, t, over);
    OpenMatched(p, cells, iceAt);
    OpenClearable(p.blockList, p.Layout(), StatesOf(p), Gone(cells, iceAt));
    SurvivorsStill(p, pic, Gone(cells, iceAt));
    PictureDepicts(p);
  }

  // ---------------------------------------------------------------- the start of the fall

  /** A body about to fall, or at rest, by what can be seen of it. */
  lemma {:induction false} BodyShown(p: BasePlayer, pic: Pic, cs: seq<Cell>, n: int)
    requires Shows(p, pic, cs) && p.Wired() && AboutToFall(View(p)) && 0 <= n < |cs|
    ensures |View(p).bodies| == |cs| && cs[n] in pic
    ensures View(p).bodies[n] == Body(pic[cs[n]].0, pic[cs[n]].1, cs[n].x, cs[n].y, RowY(cs[n].y), 0.0, true)
  {
    hide *;
    OpenShows(p, pic, cs);
    CellListed(p.blockList, n);
    ViewBody(p, n);
    StartBody(View(p), n);
    var b := p.blockList[n];
    RegisteredAt(p, b);
    PictureAt(p, cs[n]);
  }

  lemma {:induction false} CellListed(bs: seq<Block>, n: int)
    requires 0 <= n < |bs|
    ensures ListCells(bs)[n] == Cell(bs[n].x, bs[n].y)
    decreases |bs|
  {
    if n < |bs| - 1 { CellListed(bs[..|bs| - 1], n); }
  }

  lemma {:induction false} StartBody(s: FallState, n: int)
    requires AboutToFall(s) && 0 <= n < |s.bodies|
    ensures s.bodies[n].registered && s.bodies[n].posY == RowY(s.bodies[n].y) && s.bodies[n].velocity == 0.0
  {
    hide RowY, Consistent, WellFormed, RestsAt;
  }

  lemma {:induction false} RegisteredAt(p: BasePlayer, b: Block)
    requires p.Valid() && b in p.blockList && p.Registered(b)
    ensures p.At(Cell(b.x, b.y)) == b
  {
  }

  /** Players that look alike when blocks are about to fall agree in all that the fall goes by. */
  lemma {:induction false} ViewsAlike(p: BasePlayer, q: BasePlayer, pic: Pic, cs: seq<Cell>)
    requires Shows(p, pic, cs) && p.Wired() && AboutToFall(View(p)) && Shows(q, pic, cs) && q.Wired() && AboutToFall(View(q))
    ensures View(p) == View(q)
  {
    hide *;
    OpenShows(p, pic, cs);
    OpenShows(q, pic, cs);
    ValidWired(p);
    ValidWired(q);
    forall n | 0 <= n < |cs|
      ensures View(p).bodies[n] == View(q).bodies[n]
    {
      BodyShown(p, pic, cs, n);
      BodyShown(q, pic, cs, n);
    }
    assert View(p).bodies == View(q).bodies;
    StartAgrees(View(p));
    StartAgrees(View(q));
    FallingOrder.OwnersUnique(View(p), View(q));
  }

  lemma {:induction false} StartAgrees(s: FallState)
    requires AboutToFall(s)
    ensures Consistent(s)
  {
    hide Consistent, WellFormed, RestsAt, RowY;
  }

  // ---------------------------------------------------------------- one round of each player

  /** The frame in which the groups are over, seen from outside. */
  method LocalClear(p: BasePlayer, ghost cells: seq<seq<Cell>>, ghost iceAt: set<Cell>, ghost t: real, ghost pic: Pic, ghost cs: seq<Cell>,
                    ghost kinds: map<Cell, BlockType>)
    requires Clears(p, cells, iceAt, t, true) && AllStill(pic, kinds) && Kinds(p) == kinds && ListCells(p.blockList) == cs
    modifies p`blockList, p.board, p`iceBlocks, p`matchedBlocks, p.blockList`state, p.blockList`link
    ensures Shows(p, PictureAfter(pic, Gone(cells, iceAt)), CellsLeft(cs, Gone(cells, iceAt)))
    ensures p.matchedBlocks == [] && p.iceBlocks == {} && p.Wired() && AboutToFall(View(p))
    ensures forall i :: 0 <= i < |p.blockList| ==> p.blockList[i] in old(p.blockList)
  {
    hide *;
    ClearsSurvivors(p, cells, iceAt, t, true);
    BeforeRound(p, cells, iceAt, t, true, pic, kinds);
    ghost var bs, l, s, pic1 := p.blockList, p.Layout(), StatesOf(p), Picture(p);
    ClearGroups(p, cells, iceAt, t, true);
    RoundEnds(p, bs, l, s, Gone(cells, iceAt));
    ValidWired(p);
    RoundShows(p, bs, l, s, Gone(cells, iceAt), pic1, pic, cs);
  }

  method RemoteClear(p: BasePlayer, ghost cells: seq<seq<Cell>>, ghost iceAt: set<Cell>, ghost t: real, ghost pic: Pic, ghost cs: seq<Cell>,
                     ghost kinds: map<Cell, BlockType>)
    requires Clears(p, cells, iceAt, t, true) && AllStill(pic, kinds) && Kinds(p) == kinds && ListCells(p.blockList) == cs
    modifies p`blockList, p.board, p`iceBlocks, p`matchedBlocks, p.blockList`state, p.blockList`link
    ensures Shows(p, PictureAfter(pic, Gone(cells, iceAt)), CellsLeft(cs, Gone(cells, iceAt)))
    ensures p.matchedBlocks == [] && p.iceBlocks == {} && p.Wired() && AboutToFall(View(p))
  {
    hide *;
    ClearsSurvivors(p, cells, iceAt, t, true);
    BeforeRound(p, cells, iceAt, t, true, pic, kinds);
    ClearsReady(p, cells, iceAt, t, true);
    GoneIs(cells, iceAt);
    ghost var bs, l, s, pic1 := p.blockList, p.Layout(), StatesOf(p), Picture(p);
    UpdateMatchedBlocks(p, cells, iceAt);
    RoundEnds(p, bs, l, s, Gone(cells, iceAt));
    ValidWired(p);
    RoundShows(p, bs, l, s, Gone(cells, iceAt), pic1, pic, cs);
  }

  /** The local player checks a board at rest and, if a round starts, clears it in the frames `dts`. */
  method LocalRound(p: BasePlayer, dts: seq<real>, ghost pic: Pic, ghost cs: seq<Cell>)
    returns (ghost cells: seq<seq<Cell>>, ghost iceAt: set<Cell>)
    requires Checkable(p) && Shows(p, pic, cs) && forall k :: 0 <= k < |dts| ==> dts[k] >= 0.0
    modifies p`phase, p`comboCount, p`chain, p`scored, p`matchedBlocks, p`iceBlocks, p`isGameQuit, p`blockList, p.board
    modifies p`totalScore, p`restScore, p`totalInterrupt, p`addInterrupt, p`totalEnemyInterrupt, p`hasIceBlock
    modifies p.blockList`recursionCheck, p.blockList`state, p.blockList`effectTime, p.blockList`link
    ensures p.phase == Shattering <==> !p.shouldQuit && HasGroup(ViewIn(pic).colours)
    ensures p.phase != Shattering ==> Shows(p, pic, cs)
    ensures p.phase == Shattering ==> TakesRound(ViewIn(pic), cells, iceAt)
    ensures p.phase == Shattering && Total(dts) >= 1.0 ==>
      Shows(p, PictureAfter(pic, Gone(cells, iceAt)), CellsLeft(cs, Gone(cells, iceAt))) && p.matchedBlocks == [] && p.iceBlocks == {}
      && p.Wired() && AboutToFall(View(p))
    ensures forall i :: 0 <= i < |p.blockList| ==> p.blockList[i] in old(p.blockList)
  {
    hide *;
    OpenShows(p, pic, cs);
    OpenCheckable(p);
    ViewByPicture(p);
    RestIsStill(p);
    ghost var kinds := Kinds(p);
    var r;
    r, cells, iceAt := CheckGameBlockState(p);
    if p.phase == Shattering {
      var n, over;
      ghost var t;
      n, over, t := FadeOut(p, dts, cells, iceAt, 0.0);
      if over {
        LocalClear(p, cells, iceAt, t, pic, cs, kinds);
      }
    } else {
      RestIsStill(p);
      StillUnique(Picture(p), pic, kinds);
      CloseShows(p, pic, cs);
    }
  }

  /** The remote player does the same in its own way. */
  method RemoteRound(p: BasePlayer, dts: seq<real>, ghost pic: Pic, ghost cs: seq<Cell>)
    returns (ghost cells: seq<seq<Cell>>, ghost iceAt: set<Cell>)
    requires AtRest(p) && p.Valid() && p.matchedBlocks == [] && p.iceBlocks == {} && p.Marks() == {}
    requires Shows(p, pic, cs) && forall k :: 0 <= k < |dts| ==> dts[k] >= 0.0
    modifies p`phase, p`comboCount, p`restScore, p`matchedBlocks, p`iceBlocks, p`blockList, p.board
    modifies p.blockList`recursionCheck, p.blockList`state, p.blockList`effectTime, p.blockList`link
    ensures p.phase == Shattering <==> !p.shouldQuit && HasGroup(ViewIn(pic).colours)
    ensures p.phase != Shattering ==> Shows(p, pic, cs)
    ensures p.phase == Shattering ==> TakesRound(ViewIn(pic), cells, iceAt)
    ensures p.phase == Shattering && Total(dts) >= 1.0 ==>
      Shows(p, PictureAfter(pic, Gone(cells, iceAt)), CellsLeft(cs, Gone(cells, iceAt))) && p.matchedBlocks == [] && p.iceBlocks == {}
      && p.Wired() && AboutToFall(View(p))
  {
    hide *;
    OpenShows(p, pic, cs);
    ViewByPicture(p);
    RestIsStill(p);
    ghost var kinds := Kinds(p);
    var r;
    r, cells, iceAt := RemoteChecks.CheckGameBlockState(p);
    if p.phase == Shattering {
      var n, over;
      ghost var t;
      n, over, t := FadeOut(p, dts, cells, iceAt, 0.0);
      if over {
        RemoteClear(p, cells, iceAt, t, pic, cs, kinds);
      }
    } else {
      RestIsStill(p);
      StillUnique(Picture(p), pic, kinds);
      CloseShows(p, pic, cs);
    }
  }

  /** Two players with boards and blocks of their own. */
  ghost predicate Separate(a: BasePlayer, b: BasePlayer)
    reads a`blockList, b`blockList
  {
    a != b && a.board != b.board && forall i, j :: 0 <= i < |a.blockList| && 0 <= j < |b.blockList| ==> a.blockList[i] != b.blockList[j]
  }

  /** From boards that look alike, with lists in the same order, both players start a round or neither does, and
      after it their boards, their lists and their falling blocks look alike again. */
  method RoundsInStep(local: BasePlayer, remote: BasePlayer, dts: seq<real>, ghost pic: Pic, ghost cs: seq<Cell>)
    returns (ghost cells: seq<seq<Cell>>, ghost iceAt: set<Cell>)
    requires Separate(local, remote) && Checkable(local) && Shows(local, pic, cs) && local.shouldQuit == remote.shouldQuit
    requires AtRest(remote) && remote.Valid() && remote.matchedBlocks == [] && remote.iceBlocks == {} && remote.Marks() == {}
    requires Shows(remote, pic, cs)
    requires Total(dts) >= 1.0 && forall k :: 0 <= k < |dts| ==> dts[k] >= 0.0
    modifies local, local.board, local.blockList, remote, remote.board, remote.blockList
    ensures local.phase == Shattering <==> remote.phase == Shattering
    ensures local.phase == Shattering <==> !local.shouldQuit && HasGroup(ViewIn(pic).colours)
    ensures local.phase != Shattering ==> Shows(local, pic, cs) && Shows(remote, pic, cs)
    ensures local.phase == Shattering ==>
      && TakesRound(ViewIn(pic), cells, iceAt)
      && Shows(local, PictureAfter(pic, Gone(cells, iceAt)), CellsLeft(cs, Gone(cells, iceAt)))
      && Shows(remote, PictureAfter(pic, Gone(cells, iceAt)), CellsLeft(cs, Gone(cells, iceAt)))
      && local.matchedBlocks == remote.matchedBlocks == [] && local.iceBlocks == remote.iceBlocks == {}
      && local.Wired() && remote.Wired() && AboutToFall(View(local)) && View(local) == View(remote)
  {
    hide *;
    ApartNow(local, remote);
    cells, iceAt := LocalRound(local, dts, pic, cs);
    ghost var cells', iceAt' := RemoteRound(remote, dts, pic, cs);
    if local.phase == Shattering {
      TakenAlike(ViewIn(pic), cells, iceAt, cells', iceAt');
      ViewsAlike(local, remote, PictureAfter(pic, Gone(cells, iceAt)), CellsLeft(cs, Gone(cells, iceAt)));
    }
  }

  lemma {:induction false} ApartNow(a: BasePlayer, b: BasePlayer)
    requires Separate(a, b)
    ensures a != b && a.board != b.board
    ensures forall i :: 0 <= i < |a.blockList| ==> a.blockList[i] !in b.blockList
    ensures forall i :: 0 <= i < |b.blockList| ==> b.blockList[i] !in a.blockList
  {
  }

  lemma {:induction false} TakenAlike(v: BoardView, a: seq<seq<Cell>>, iceA: set<Cell>, b: seq<seq<Cell>>, iceB: set<Cell>)
    requires TakesRound(v, a, iceA) && TakesRound(v, b, iceB)
    ensures Gone(a, iceA) == Gone(b, iceB) && iceA == iceB && SetOf(Flat(a)) == SetOf(Flat(b))
  {
    RemoteChecks.ChecksAgree(v.colours, v.ice, v.states, a, b);
    hide AllGroups, IceAt, Gone;
  }
}
