/** The remote player's own version of a clear round, and why both versions agree. */
module RemoteRounds {
  import opened Geometry
  import opened Connectivity
  import opened BlockStates
  import opened Matching
  import opened PuyoBlocks
  import opened Players
  import opened Clearing
  import opened Rounds

  /** The blocks of a group leave one by one through `RemoveBlock`. */
  method RemoveGroup(p: BasePlayer, group: seq<Block>, ghost cs: seq<Cell>, ghost bs: seq<Block>,
                     ghost l: map<Cell, Block>, ghost s: States, ghost gone: set<Cell>, xIndexList: seq<Cell>)
    returns (xIndexList': seq<Cell>)
    requires Cleared(p, bs, l, s, gone) && Placed(l, group, cs) && Distinct(cs)
    requires forall i :: 0 <= i < |cs| ==> cs[i] !in gone
    modifies p`blockList, p.board
    ensures Cleared(p, bs, l, s, gone + SetOf(cs)) && xIndexList' == xIndexList + cs
  {
    hide *;
    xIndexList' := xIndexList;
    PlacedPrefix(l, group, cs, 0);
    NoneGone(cs, gone);
    for j := 0 to |group|
      invariant Cleared(p, bs, l, s, gone + SetOf(cs[..j]))
      invariant xIndexList' == xIndexList + cs[..j]
    {
      PlacedPrefix(l, group, cs, j);
      FreshCell(cs, gone, j);
      OpenCleared(p, bs, l, s, gone + SetOf(cs[..j]), cs[j]);
      ghost var s1 := StatesOf(p);
      var block := group[j];
      var posIdx := Cell(block.x, block.y);
      RemoveBlock(p, block, posIdx);
      ClearedAfter(p, bs, l, s, gone + SetOf(cs[..j]), cs[j], s1);
      xIndexList' := xIndexList' + [posIdx];
    }
    PlacedPrefix(l, group, cs, |group|);
    assert cs[..|cs|] == cs;
  }

  /** Clears one group: its blocks go, then the collected ice. */
  method HandleClearedBlockGroup(p: BasePlayer, group: seq<Block>, ghost cells: seq<seq<Cell>>, ghost iceAt: set<Cell>, ghost n: int,
                                 ghost bs: seq<Block>, ghost l: map<Cell, Block>, ghost s: States, xIndexList: seq<Cell>)
    returns (xIndexList': seq<Cell>)
    requires 0 <= n < |cells| && Distinct(Flat(cells)) && iceAt !! SetOf(Flat(cells)) && iceAt <= l.Keys
    requires Cleared(p, bs, l, s, GoneAfter(cells, iceAt, n)) && SetOf(xIndexList) == GoneAfter(cells, iceAt, n)
    requires p.iceBlocks == (if n == 0 then BlocksAt(l, iceAt) else {}) && Placed(l, group, cells[n])
    requires forall c :: c in l ==> l[c] in bs && l[c].x == c.x && l[c].y == c.y
    modifies p`blockList, p.board, p`iceBlocks
    ensures Cleared(p, bs, l, s, GoneAfter(cells, iceAt, n + 1)) && SetOf(xIndexList') == GoneAfter(cells, iceAt, n + 1)
    ensures p.iceBlocks == {}
  {
    hide *;
    GoneNext(cells, iceAt, n);
    ghost var gone := GoneAfter(cells, iceAt, n);
    SetOfConcat(xIndexList, cells[n]);
    xIndexList' := RemoveGroup(p, group, cells[n], bs, l, s, gone, xIndexList);
    if p.iceBlocks == {} {
      if n == 0 {
        NoIceLeft(l, iceAt);
        assert gone + SetOf(cells[n]) + iceAt == gone + SetOf(cells[n]);
      }
    } else {
      xIndexList' := RemoveIceBlocks(p, iceAt, bs, l, s, gone + SetOf(cells[n]), xIndexList');
    }
  }

  /** The loop of the remote player's round over the groups that have all played out. */
  method HandlePlayedOutGroups(p: BasePlayer, ghost cells: seq<seq<Cell>>, ghost iceAt: set<Cell>) returns (xIndexList: seq<Cell>)
    requires ReadyToClear(p, cells, iceAt) && p.matchedBlocks != []
    modifies p`blockList, p.board, p`iceBlocks, p`matchedBlocks
    ensures p.Valid() && forall i :: 0 <= i < |p.blockList| ==> p.blockList[i] in old(p.blockList)
    ensures old(PlayedOut(StatesOf(p), Flat(cells))) ==>
      && p.matchedBlocks == [] && p.iceBlocks == {}
      && Cleared(p, old(p.blockList), old(p.Layout()), old(StatesOf(p)), SetOf(Flat(cells)) + iceAt)
      && SetOf(xIndexList) == SetOf(Flat(cells)) + iceAt && forall i :: 0 <= i < |xIndexList| ==> InBoard(xIndexList[i])
    ensures !old(PlayedOut(StatesOf(p), Flat(cells))) ==>
      && p.matchedBlocks == old(p.matchedBlocks) && p.iceBlocks == old(p.iceBlocks)
      && p.blockList == old(p.blockList) && p.Layout() == old(p.Layout()) && StatesOf(p) == old(StatesOf(p))
  {
    hide *;
    OpenReady(p, cells, iceAt);
    ghost var bs, l, s, groups := p.blockList, p.Layout(), StatesOf(p), p.matchedBlocks;
    ghost var n := 0;
    xIndexList := [];
    var it := 0;
    GoneStart(cells, iceAt);
    ClearedNothing(p);
    while it < |p.matchedBlocks|
      invariant 0 <= it <= |p.matchedBlocks| && 0 <= n <= |groups|
      invariant Cleared(p, bs, l, s, GoneAfter(cells, iceAt, n)) && SetOf(xIndexList) == GoneAfter(cells, iceAt, n)
      invariant p.iceBlocks == if n == 0 then BlocksAt(l, iceAt) else {}
      invariant p.matchedBlocks == groups[n..]
      invariant forall c :: c in l ==> l[c] in bs && l[c].x == c.x && l[c].y == c.y
      invariant forall k :: 0 <= k < |groups| ==> ((forall b: Block :: b in groups[k] ==> b.state == PlayOut) <==> PlayedOut(s, cells[k]))
      invariant if PlayedOut(s, Flat(cells)) then it == 0 else n == 0
      decreases |p.matchedBlocks| - it
    {
      var group := p.matchedBlocks[it];
      AllPlacedAt(l, groups, cells, n + it);
      var allPlayedOut := AllPlayedOut(group);
      if PlayedOut(s, Flat(cells)) { PlayedOutPart(s, cells, n + it); }
      if allPlayedOut {
        xIndexList := HandleClearedBlockGroup(p, group, cells, iceAt, n, bs, l, s, xIndexList);
        p.matchedBlocks := p.matchedBlocks[..it] + p.matchedBlocks[it + 1..];
        n := n + 1;
      } else {
        it := it + 1;
      }
    }
    ClearedLists(p, bs, l, s, GoneAfter(cells, iceAt, n));
    if PlayedOut(s, Flat(cells)) { GoneInBoard(l, groups, cells, iceAt, xIndexList); }
  }

  /** The remote player's round (RemotePlayer::UpdateMatchedBlocks). */
  method UpdateMatchedBlocks(p: BasePlayer, ghost cells: seq<seq<Cell>>, ghost iceAt: set<Cell>)
    requires ReadyToClear(p, cells, iceAt) && p.matchedBlocks != []
    modifies p`blockList, p.board, p`iceBlocks, p`matchedBlocks, p.blockList`state, p.blockList`link
    ensures old(PlayedOut(StatesOf(p), Flat(cells))) ==>
      RoundDone(p, old(p.blockList), old(p.Layout()), old(StatesOf(p)), SetOf(Flat(cells)) + iceAt)
    ensures !old(PlayedOut(StatesOf(p), Flat(cells))) ==>
      && p.Valid() && p.matchedBlocks == old(p.matchedBlocks) && p.iceBlocks == old(p.iceBlocks)
      && p.blockList == old(p.blockList) && p.Layout() == old(p.Layout()) && StatesOf(p) == old(StatesOf(p))
  {
    hide *;
    OpenReady(p, cells, iceAt);
    ghost var bs, l, s, gone := p.blockList, p.Layout(), StatesOf(p), SetOf(Flat(cells)) + iceAt;
    var xIndexList := HandlePlayedOutGroups(p, cells, iceAt);
    if p.matchedBlocks == [] {
      ClearedLists(p, bs, l, s, gone);
      UpdateFallingBlocks(p, xIndexList);
      CloseRound(p, bs, l, s, gone);
    }
  }

  // ---------------------------------------------------------------- agreement

  /** Two complete scans of one board match the same cells, in the same groups. */
  lemma {:induction false} ScansAgree(g: Colours, a: seq<seq<Cell>>, b: seq<seq<Cell>>, c: Cell)
    requires AllGroups(g, a) && AllGroups(g, b)
    ensures InSome(a, c) <==> InSome(b, c)
    ensures InSome(a, c) ==> exists i, j :: 0 <= i < |a| && 0 <= j < |b| && c in a[i] && c in b[j] && SetOf(a[i]) == SetOf(b[j])
  {
    if InSome(a, c) { MatchedIn(g, a, b, c); }
    if InSome(b, c) { MatchedIn(g, b, a, c); }
  }

  lemma {:induction false} MatchedIn(g: Colours, a: seq<seq<Cell>>, b: seq<seq<Cell>>, c: Cell)
    requires AllGroups(g, a) && AllGroups(g, b) && InSome(a, c)
    ensures InSome(b, c)
    ensures exists i, j :: 0 <= i < |a| && 0 <= j < |b| && c in a[i] && c in b[j] && SetOf(a[i]) == SetOf(b[j])
  {
    var i :| 0 <= i < |a| && c in a[i];
    assert IsGroup(g, a[i]);
    DistinctSize(a[i]);
    assert |Component(g, c)| >= MIN_MATCH_COUNT;
    var j :| 0 <= j < |b| && c in b[j];
    assert IsGroup(g, b[j]);
  }

  /** The cells a round frees on a board with colours `g`, ice cells `ice` and states `s`. */
  ghost predicate Freed(g: Colours, ice: set<Cell>, s: States, cells: seq<seq<Cell>>, gone: set<Cell>) {
    && AllGroups(g, cells)
    && forall c :: c in gone <==> InSome(cells, c) || Beside(ice, s, Flat(cells), |Flat(cells)|, 0, c)
  }

  /** Whatever order the groups were found in, the same cells are freed. */
  lemma {:induction false} FreedAgree(g: Colours, ice: set<Cell>, s: States, a: seq<seq<Cell>>, goneA: set<Cell>, b: seq<seq<Cell>>, goneB: set<Cell>)
    requires Freed(g, ice, s, a, goneA) && Freed(g, ice, s, b, goneB)
    ensures goneA == goneB
  {
    forall c
      ensures c in goneA <==> c in goneB
    {
      ScansAgree(g, a, b, c);
      CollectedIce(ice, s, a, c);
      CollectedIce(ice, s, b, c);
      forall d ensures InSome(a, d) <==> InSome(b, d) { ScansAgree(g, a, b, d); }
    }
  }

  /** The kind and the state of every block on the board, by cell. */
  ghost function Picture(p: BasePlayer): map<Cell, (BlockType, BlockState)>
    requires p.Valid()
    reads p`blockList, p.board, p.blockList`x, p.blockList`y, p.blockList`kind, p.blockList`initialized, p.blockList`state
  {
    map c | c in AllCells() && p.At(c) != null :: (p.At(c).kind, p.At(c).state)
  }

  /** What a round makes of a board picture: the freed cells are empty, and what was above
      one of them falls. */
  ghost function PictureAfter(pic: map<Cell, (BlockType, BlockState)>, gone: set<Cell>): map<Cell, (BlockType, BlockState)> {
    map c | c in pic && c !in gone :: if Above(gone, c) then (pic[c].0, DownMoving) else pic[c]
  }

  ghost predicate Depicts(pic: map<Cell, (BlockType, BlockState)>, l: map<Cell, Block>, s: States)
    reads l.Values`kind
  {
    pic.Keys == l.Keys && forall c :: c in l ==> c in s && pic[c] == (l[c].kind, s[c])
  }

  lemma {:induction false} PictureDepicts(p: BasePlayer)
    requires p.Valid()
    ensures Depicts(Picture(p), p.Layout(), StatesOf(p))
  {
  }

  lemma {:induction false} RoundPicture(p: BasePlayer, bs: seq<Block>, l: map<Cell, Block>, s: States, gone: set<Cell>, pic: map<Cell, (BlockType, BlockState)>)
    requires RoundDone(p, bs, l, s, gone) && Depicts(pic, l, s)
    ensures Picture(p) == PictureAfter(pic, gone)
  {
    PictureDepicts(p);
    var pic' := Picture(p);
    hide Picture, BasePlayer.Valid, BasePlayer.Layout, StatesOf, Above, Without;
    forall c
      ensures c in pic' <==> c in pic && c !in gone
      ensures c in pic' ==> pic'[c] == PictureAfter(pic, gone)[c]
    {
    }
  }

  /** The cells of a list of blocks, in list order. */
  ghost function ListCells(bs: seq<Block>): (cs: seq<Cell>)
    reads bs`x, bs`y
    ensures |cs| == |bs|
  {
    if bs == [] then [] else ListCells(bs[..|bs| - 1]) + [Cell(bs[|bs| - 1].x, bs[|bs| - 1].y)]
  }

  ghost function CellsLeft(cs: seq<Cell>, gone: set<Cell>): seq<Cell> {
    if cs == [] then []
    else CellsLeft(cs[..|cs| - 1], gone) + if cs[|cs| - 1] in gone then [] else [cs[|cs| - 1]]
  }

  /** The list left by a round names the cells that are left, in the old order. */
  lemma {:induction false} ListAfter(bs: seq<Block>, l: map<Cell, Block>, gone: set<Cell>)
    requires ListsBoard(bs, l)
    ensures ListCells(Without(bs, BlocksAt(l, gone))) == CellsLeft(ListCells(bs), gone)
  {
    if bs != [] {
      var front, last := bs[..|bs| - 1], bs[|bs| - 1];
      var c := Cell(last.x, last.y);
      assert bs == front + [last];
      ListAfter(front, l, gone);
      assert last in BlocksAt(l, gone) <==> c in gone;
      WithoutSnoc(front, last, BlocksAt(l, gone));
      ListCellsSnoc(front, last);
      ListCellsSnoc(Without(front, BlocksAt(l, gone)), last);
      CellsLeftSnoc(ListCells(front), c, gone);
      hide Without, ListCells, CellsLeft, BlocksAt;
    }
  }

  lemma {:induction false} ListCellsSnoc(bs: seq<Block>, b: Block)
    ensures ListCells(bs + [b]) == ListCells(bs) + [Cell(b.x, b.y)]
  {
    assert (bs + [b])[..|bs|] == bs;
  }

  lemma {:induction false} CellsLeftSnoc(cs: seq<Cell>, c: Cell, gone: set<Cell>)
    ensures CellsLeft(cs + [c], gone) == if c in gone then CellsLeft(cs, gone) else CellsLeft(cs, gone) + [c]
  {
    assert (cs + [c])[..|cs|] == cs;
  }

  /** From equal boards and equal lists, the two players' rounds end with equal boards, equal
      lists and the same blocks falling, whoever found the groups in which order. */
  lemma {:induction false} RoundsAgree(local: BasePlayer, bsL: seq<Block>, lL: map<Cell, Block>, sL: States, cellsL: seq<seq<Cell>>, goneL: set<Cell>,
                    remote: BasePlayer, bsR: seq<Block>, lR: map<Cell, Block>, sR: States, cellsR: seq<seq<Cell>>, goneR: set<Cell>,
                    pic: map<Cell, (BlockType, BlockState)>, g: Colours, ice: set<Cell>, s: States)
    requires RoundDone(local, bsL, lL, sL, goneL) && RoundDone(remote, bsR, lR, sR, goneR)
    requires Depicts(pic, lL, sL) && Depicts(pic, lR, sR)
    requires Freed(g, ice, s, cellsL, goneL) && Freed(g, ice, s, cellsR, goneR)
    requires ListCells(bsL) == ListCells(bsR) && ListsBoard(bsL, lL) && ListsBoard(bsR, lR)
    ensures ListCells(local.blockList) == ListCells(remote.blockList)
    ensures Picture(local) == Picture(remote)
    ensures local.matchedBlocks == remote.matchedBlocks == [] && local.iceBlocks == remote.iceBlocks == {}
  {
    FreedAgree(g, ice, s, cellsL, goneL, cellsR, goneR);
    RoundPicture(local, bsL, lL, sL, goneL, pic);
    RoundPicture(remote, bsR, lR, sR, goneR, pic);
    ListAfter(bsL, lL, goneL);
    ListAfter(bsR, lR, goneR);
  }
}
