/** One clear round, as the local and the remote player each write it. */
module Rounds {
  import opened Geometry
  import opened Connectivity
  import opened BlockStates
  import opened Matching
  import opened PuyoBlocks
  import opened Players
  import opened LinkStates
  import opened Clearing

  // ---------------------------------------------------------------- setting blocks loose

  ghost function SetOf<T>(s: seq<T>): set<T> {
    set x | x in s
  }

  /** A cleared cell lies below `c` in its column. */
  ghost predicate Above(gone: set<Cell>, c: Cell) {
    exists d :: d in gone && d.x == c.x && d.y < c.y
  }

  /** What is left after the cells `gone` have been cleared: everything above one of them falls. */
  ghost function Loosened(s: States, gone: set<Cell>): States {
    map c | c in s :: if Above(gone, c) then DownMoving else s[c]
  }

  /** The same after the first `n` cells, and rows below `y` for the next one. */
  ghost function LoosenedTo(s: States, cells: seq<Cell>, n: int, y: int): States
    requires 0 <= n <= |cells|
  {
    map c | c in s ::
      if Above((set i | 0 <= i < n :: cells[i]), c) || (n < |cells| && cells[n].x == c.x && cells[n].y < c.y < y)
      then DownMoving else s[c]
  }


  method SetDownMoving(p: BasePlayer, block: Block)
    requires p.Valid() && p.At(Cell(block.x, block.y)) == block
    modifies block`state, p.blockList`link
    ensures p.Valid() && StatesOf(p) == old(StatesOf(p))[Cell(block.x, block.y) := DownMoving]
  {
    hide *;
    SetState(p, block, DownMoving);
    if block.kind != Ice {
      UpdateLinkStateForDownMoving(p, block);
    }
  }

  /** Sets every block above one of the given cells falling. */
  method UpdateFallingBlocks(p: BasePlayer, cells: seq<Cell>)
    requires p.Valid() && forall i :: 0 <= i < |cells| ==> InBoard(cells[i])
    modifies p.blockList`state, p.blockList`link
    ensures p.Valid() && StatesOf(p) == Loosened(old(StatesOf(p)), SetOf(cells))
  {
    hide *;
    ghost var s := StatesOf(p);
    StatesInBoard(p);
    LoosenBegin(s, cells);
    for n := 0 to |cells|
      invariant p.Valid() && StatesOf(p) == LoosenedTo(s, cells, n, 0)
    {
      BoardSizes();
      for y := 0 to BOARD_Y_COUNT
        invariant p.Valid() && StatesOf(p) == LoosenedTo(s, cells, n, y)
      {
        var c := Cell(cells[n].x, y);
        var block := p.At(c);
        StateAt(p, c);
        LoosenRow(s, cells, n, y);
        if block != null && block.state != DownMoving && y > cells[n].y {
          SetDownMoving(p, block);
        }
      }
      LoosenNext(s, cells, n);
    }
    LoosenEnd(s, cells);
  }

  lemma {:induction false} StatesInBoard(p: BasePlayer)
    requires p.Valid()
    ensures forall c :: c in StatesOf(p) ==> InBoard(c)
  {
  }

  lemma {:induction false} LoosenBegin(s: States, cells: seq<Cell>)
    requires forall c :: c in s ==> InBoard(c)
    requires forall i :: 0 <= i < |cells| ==> InBoard(cells[i])
    ensures LoosenedTo(s, cells, 0, 0) == s
  {
  }

  lemma {:induction false} LoosenRow(s: States, cells: seq<Cell>, n: int, y: int)
    requires 0 <= n < |cells| && 0 <= y
    ensures
      var c := Cell(cells[n].x, y);
      LoosenedTo(s, cells, n, y + 1)
      == if c in s && y > cells[n].y && LoosenedTo(s, cells, n, y)[c] != DownMoving then LoosenedTo(s, cells, n, y)[c := DownMoving]
         else LoosenedTo(s, cells, n, y)
    ensures LoosenedTo(s, cells, n, y).Keys == s.Keys
  {
  }

  lemma {:induction false} LoosenNext(s: States, cells: seq<Cell>, n: int)
    requires 0 <= n < |cells| && forall c :: c in s ==> InBoard(c)
    requires forall i :: 0 <= i < |cells| ==> InBoard(cells[i])
    ensures LoosenedTo(s, cells, n + 1, 0) == LoosenedTo(s, cells, n, BOARD_Y_COUNT)
  {
    assert (set i | 0 <= i < n + 1 :: cells[i]) == (set i | 0 <= i < n :: cells[i]) + {cells[n]};
  }

  lemma {:induction false} LoosenEnd(s: States, cells: seq<Cell>)
    ensures LoosenedTo(s, cells, |cells|, 0) == Loosened(s, SetOf(cells))
  {
    assert (set i | 0 <= i < |cells| :: cells[i]) == SetOf(cells);
  }

  // ---------------------------------------------------------------- taking blocks off the board

  /** The list without the blocks in `gone`, order kept. */
  ghost function Without(bs: seq<Block>, gone: set<Block>): (r: seq<Block>)
  {
    if bs == [] then []
    else Without(bs[..|bs| - 1], gone) + if bs[|bs| - 1] in gone then [] else [bs[|bs| - 1]]
  }

  lemma {:induction false} InWithout(bs: seq<Block>, gone: set<Block>, b: Block)
    ensures b in Without(bs, gone) <==> b in bs && b !in gone
  {
    if bs != [] { InWithout(bs[..|bs| - 1], gone, b); }
  }

  lemma {:induction false} WithoutSnoc(bs: seq<Block>, b: Block, gone: set<Block>)
    ensures Without(bs + [b], gone) == if b in gone then Without(bs, gone) else Without(bs, gone) + [b]
  {
    assert (bs + [b])[..|bs|] == bs;
  }

  lemma {:induction false} WithoutTwice(bs: seq<Block>, a: set<Block>, b: set<Block>)
    ensures Without(Without(bs, a), b) == Without(bs, a + b)
  {
    if bs != [] {
      var front, last := bs[..|bs| - 1], bs[|bs| - 1];
      WithoutTwice(front, a, b);
      assert bs == front + [last];
      WithoutSnoc(front, last, a);
      WithoutSnoc(front, last, a + b);
      WithoutSnoc(Without(front, a), last, b);
      hide Without;
    }
  }

  lemma {:induction false} WithoutAbsent(bs: seq<Block>, gone: set<Block>)
    requires forall i :: 0 <= i < |bs| ==> bs[i] !in gone
    ensures Without(bs, gone) == bs
  {
    if bs != [] {
      var front, last := bs[..|bs| - 1], bs[|bs| - 1];
      assert bs == front + [last];
      WithoutAbsent(front, gone);
      WithoutSnoc(front, last, gone);
      hide Without;
    }
  }

  /** Erasing the only occurrence of a block is leaving it out. */
  lemma {:induction false} EraseIsWithout(bs: seq<Block>, i: int)
    requires 0 <= i < |bs| && Distinct(bs)
    ensures bs[..i] + bs[i + 1..] == Without(bs, {bs[i]})
  {
    var front, back := bs[..i], bs[i + 1..];
    assert bs == front + [bs[i]] + back;
    WithoutAbsent(front, {bs[i]});
    WithoutAbsent(back, {bs[i]});
    WithoutSnoc(front, bs[i], {bs[i]});
    WithoutConcat(front + [bs[i]], back, {bs[i]});
    hide Without;
  }

  lemma {:induction false} WithoutConcat(a: seq<Block>, b: seq<Block>, gone: set<Block>)
    ensures Without(a + b, gone) == Without(a, gone) + Without(b, gone)
  {
    if b == [] {
      assert a + b == a;
    } else {
      var front, last := b[..|b| - 1], b[|b| - 1];
      WithoutConcat(a, front, gone);
      WithoutSnoc(front, last, gone);
      WithoutSnoc(a + front, last, gone);
      hide Without;
      assert b == front + [last] && a + b == (a + front) + [last];
    }
  }

  lemma {:induction false} WithoutDistinct(bs: seq<Block>, gone: set<Block>)
    requires Distinct(bs)
    ensures Distinct(Without(bs, gone))
  {
    if bs != [] {
      var front, last := bs[..|bs| - 1], bs[|bs| - 1];
      assert bs == front + [last];
      WithoutDistinct(front, gone);
      WithoutSnoc(front, last, gone);
      InWithout(front, gone, last);
      hide Without;
    }
  }

  /** The first position of a block in the list; the length of the list if there is none. */
  method FindIf(bs: seq<Block>, block: Block) returns (i: int)
    ensures 0 <= i <= |bs| && (i < |bs| ==> bs[i] == block)
    ensures forall j :: 0 <= j < i ==> bs[j] != block
  {
    i := 0;
    while i < |bs| && bs[i] != block
      invariant 0 <= i <= |bs| && forall j :: 0 <= j < i ==> bs[j] != block
    {
      i := i + 1;
    }
  }

  /** Erases a block from the list. */
  method EraseBlock(p: BasePlayer, block: Block)
    requires p.Wired() && block in p.blockList
    requires forall c :: InBoard(c) ==> p.board[c.y, c.x] != block
    modifies p`blockList
    ensures p.Wired() && p.blockList == Without(old(p.blockList), {block})
  {
    ghost var bs := p.blockList;
    var i := FindIf(p.blockList, block);
    if i < |p.blockList| {
      EraseIsWithout(bs, i);
      WithoutDistinct(bs, {block});
      p.blockList := p.blockList[..i] + p.blockList[i + 1..];
    }
    hide Without;
    forall c | InBoard(c) && p.board[c.y, c.x] != null
      ensures p.board[c.y, c.x] in p.blockList
    {
      InWithout(bs, {block}, p.board[c.y, c.x]);
    }
  }

  /** Takes a block off the board, then off the list (BasePlayer::RemoveBlock). */
  method RemoveBlock(p: BasePlayer, block: Block, posIdx: Cell)
    requires p.Valid() && p.At(posIdx) == block
    modifies p`blockList, p.board
    ensures p.Valid() && p.blockList == Without(old(p.blockList), {block})
    ensures p.Layout() == old(p.Layout()) - {posIdx}
  {
    ghost var bs := p.blockList;
    ghost var l := p.Layout();
    if InBoard(posIdx) {
      p.board[posIdx.y, posIdx.x] := null;
    }
    EraseBlock(p, block);
    hide Without;
    StillValid(p, bs, block, posIdx);
    forall c
      ensures c in p.Layout() <==> c in l && c != posIdx
      ensures c in p.Layout() ==> p.Layout()[c] == l[c]
    {
    }
  }

  lemma {:induction false} StatesByLayout(p: BasePlayer)
    requires p.Valid()
    ensures StatesOf(p).Keys == p.Layout().Keys
    ensures forall c :: c in p.Layout() ==> StatesOf(p)[c] == p.Layout()[c].state
  {
  }

  lemma {:induction false} StillValid(p: BasePlayer, bs: seq<Block>, block: Block, posIdx: Cell)
    requires p.Wired() && p.blockList == Without(bs, {block})
    requires forall c :: InBoard(c) && p.board[c.y, c.x] != null ==> var b := p.board[c.y, c.x]; b.x == c.x && b.y == c.y && p.Registered(b)
    requires forall b :: b in bs && b != block && p.Registered(b) ==> InBoard(Cell(b.x, b.y)) && p.board[b.y, b.x] == b
    ensures p.Valid()
  {
    forall b | b in p.blockList && p.Registered(b)
      ensures InBoard(Cell(b.x, b.y)) && p.board[b.y, b.x] == b
    {
      InWithout(bs, {block}, b);
    }
  }

  ghost function BlocksAt(l: map<Cell, Block>, cells: set<Cell>): set<Block> {
    set c | c in cells && c in l :: l[c]
  }

  /** The player is what it was (`bs`, `l`, `s`) with the blocks on the cells `gone` taken away. */
  ghost predicate Cleared(p: BasePlayer, bs: seq<Block>, l: map<Cell, Block>, s: States, gone: set<Cell>)
    reads p`blockList, p.board, p.blockList`x, p.blockList`y, p.blockList`kind, p.blockList`initialized, p.blockList`state
  {
    p.Valid() && p.blockList == Without(bs, BlocksAt(l, gone)) && p.Layout() == l - gone && StatesOf(p) == s - gone
  }

  lemma {:induction false} ClearedNothing(p: BasePlayer)
    requires p.Valid()
    ensures Cleared(p, p.blockList, p.Layout(), StatesOf(p), {})
  {
    assert BlocksAt(p.Layout(), {}) == {};
    WithoutAbsent(p.blockList, {});
  }

  lemma {:induction false} ClearedStep(bs: seq<Block>, l: map<Cell, Block>, s: States, gone: set<Cell>, c: Cell)
    requires c in l
    ensures Without(Without(bs, BlocksAt(l, gone)), {l[c]}) == Without(bs, BlocksAt(l, gone + {c}))
    ensures (l - gone) - {c} == l - (gone + {c}) && (s - gone) - {c} == s - (gone + {c})
  {
    WithoutTwice(bs, BlocksAt(l, gone), {l[c]});
    assert BlocksAt(l, gone + {c}) == BlocksAt(l, gone) + {l[c]};
  }

  lemma {:induction false} LessOne(l: map<Cell, Block>, l': map<Cell, Block>, s: States, s': States, c: Cell)
    requires s.Keys == l.Keys && s'.Keys == l'.Keys && l' == l - {c}
    requires forall d :: d in l' ==> s'[d] == s[d]
    ensures s' == s - {c}
  {
  }

  /** Taking one more block away. */
  lemma {:induction false} ClearedAfter(p: BasePlayer, bs: seq<Block>, l: map<Cell, Block>, s: States, gone: set<Cell>, c: Cell, s1: States)
    requires c in l && p.Valid() && s1 == s - gone && s1.Keys == (l - gone).Keys
    requires p.blockList == Without(Without(bs, BlocksAt(l, gone)), {l[c]}) && p.Layout() == (l - gone) - {c}
    requires forall d :: d in p.Layout() ==> s1[d] == p.Layout()[d].state
    ensures Cleared(p, bs, l, s, gone + {c})
  {
    StatesByLayout(p);
    LessOne(l - gone, p.Layout(), s1, StatesOf(p), c);
    ClearedStep(bs, l, s, gone, c);
    hide BasePlayer.Valid, BasePlayer.Layout, StatesOf, Without, BlocksAt;
  }

  lemma {:induction false} OpenCleared(p: BasePlayer, bs: seq<Block>, l: map<Cell, Block>, s: States, gone: set<Cell>, c: Cell)
    requires Cleared(p, bs, l, s, gone) && c in l && c !in gone
    ensures p.Valid() && p.blockList == Without(bs, BlocksAt(l, gone)) && p.Layout() == l - gone && StatesOf(p) == s - gone
    ensures p.At(c) == l[c] && StatesOf(p).Keys == p.Layout().Keys
    ensures forall d :: d in p.Layout() ==> StatesOf(p)[d] == p.Layout()[d].state
  {
    assert p.Layout()[c] == l[c];
    StatesByLayout(p);
  }

  // ---------------------------------------------------------------- the local player's round

  /** How the local player takes a block away: in place, without a bounds check. */
  method ReleaseBlock(p: BasePlayer, block: Block)
    requires p.Valid() && p.At(Cell(block.x, block.y)) == block
    modifies p`blockList, p.board
    ensures p.Valid() && p.blockList == Without(old(p.blockList), {block})
    ensures p.Layout() == old(p.Layout()) - {Cell(block.x, block.y)}
  {
    ghost var bs, l := p.blockList, p.Layout();
    p.board[block.y, block.x] := null;
    EraseBlock(p, block);
    hide Without;
    StillValid(p, bs, block, Cell(block.x, block.y));
    forall c
      ensures c in p.Layout() <==> c in l && c != Cell(block.x, block.y)
      ensures c in p.Layout() ==> p.Layout()[c] == l[c]
    {
    }
  }

  method ClearGroup(p: BasePlayer, group: seq<Block>, ghost cs: seq<Cell>, ghost bs: seq<Block>,
                    ghost l: map<Cell, Block>, ghost s: States, ghost gone: set<Cell>, indexList: seq<Cell>)
    returns (indexList': seq<Cell>)
    requires Cleared(p, bs, l, s, gone) && Placed(l, group, cs) && Distinct(cs)
    requires forall i :: 0 <= i < |cs| ==> cs[i] !in gone
    modifies p`blockList, p.board
    ensures Cleared(p, bs, l, s, gone + SetOf(cs))
    ensures indexList' == indexList + cs
  {
    hide *;
    indexList' := indexList;
    PlacedPrefix(l, group, cs, 0);
    NoneGone(cs, gone);
    for j := 0 to |group|
      invariant Cleared(p, bs, l, s, gone + SetOf(cs[..j]))
      invariant indexList' == indexList + cs[..j]
    {
      var block := group[j];
      PlacedPrefix(l, group, cs, j);
      FreshCell(cs, gone, j);
      OpenCleared(p, bs, l, s, gone + SetOf(cs[..j]), cs[j]);
      ghost var s1 := StatesOf(p);
      ReleaseBlock(p, block);
      ClearedAfter(p, bs, l, s, gone + SetOf(cs[..j]), cs[j], s1);
      indexList' := indexList' + [Cell(block.x, block.y)];
    }
    PlacedPrefix(l, group, cs, |group|);
    assert cs[..|cs|] == cs;
  }

  lemma {:induction false} NoneGone(cs: seq<Cell>, gone: set<Cell>)
    ensures gone + SetOf(cs[..0]) == gone
  {
  }

  lemma {:induction false} FreshCell(cs: seq<Cell>, gone: set<Cell>, j: int)
    requires Distinct(cs) && 0 <= j < |cs| && cs[j] !in gone
    ensures cs[j] !in gone + SetOf(cs[..j])
    ensures gone + SetOf(cs[..j]) + {cs[j]} == gone + SetOf(cs[..j + 1])
    ensures cs[..j + 1] == cs[..j] + [cs[j]]
  {
  }

  /** The blocks of a board value know their own cells, and have the states `s`. */
  ghost predicate Snapshot(l: map<Cell, Block>, s: States)
    reads l.Values`x, l.Values`y, l.Values`state
  {
    forall c :: c in l ==> c in s && l[c].x == c.x && l[c].y == c.y && l[c].state == s[c]
  }

  lemma {:induction false} SnapshotOf(p: BasePlayer)
    requires p.Valid()
    ensures Snapshot(p.Layout(), StatesOf(p))
  {
  }

  /** Takes all collected ice off the board and the list, in no particular order
      (BasePlayer::RemoveIceBlocks). */
  method RemoveIceBlocks(p: BasePlayer, ghost iceAt: set<Cell>, ghost bs: seq<Block>, ghost l: map<Cell, Block>,
                         ghost s: States, ghost gone: set<Cell>, indexList: seq<Cell>)
    returns (indexList': seq<Cell>)
    requires Cleared(p, bs, l, s, gone) && p.iceBlocks == BlocksAt(l, iceAt)
    requires iceAt <= l.Keys && iceAt !! gone
    requires forall c :: c in l ==> l[c].x == c.x && l[c].y == c.y
    modifies p`blockList, p.board, p`iceBlocks
    ensures Cleared(p, bs, l, s, gone + iceAt) && p.iceBlocks == {}
    ensures indexList <= indexList' && SetOf(indexList') == SetOf(indexList) + iceAt
  {
    hide *;
    indexList' := indexList;
    ghost var left := iceAt;
    var rest := p.iceBlocks;
    assert gone + (iceAt - left) == gone && SetOf(indexList) + (iceAt - left) == SetOf(indexList);
    while rest != {}
      invariant left <= iceAt && rest == BlocksAt(l, left)
      invariant Cleared(p, bs, l, s, gone + (iceAt - left))
      invariant indexList <= indexList' && SetOf(indexList') == SetOf(indexList) + (iceAt - left)
      decreases rest
    {
      var iceBlock :| iceBlock in rest;
      ghost var gone1, c := gone + (iceAt - left), Cell(iceBlock.x, iceBlock.y);
      OneIce(l, left, iceBlock, c);
      OpenCleared(p, bs, l, s, gone1, c);
      ghost var s1 := StatesOf(p);
      ReleaseBlock(p, iceBlock);
      ClearedAfter(p, bs, l, s, gone1, c, s1);
      LessIce(iceAt, left, gone, c, indexList');
      left := left - {c};
      rest := rest - {iceBlock};
      indexList' := indexList' + [Cell(iceBlock.x, iceBlock.y)];
    }
    NoIceLeft(l, left);
    assert gone + (iceAt - left) == gone + iceAt && iceAt - left == iceAt;
    p.iceBlocks := {};
  }

  lemma {:induction false} NoIceLeft(l: map<Cell, Block>, left: set<Cell>)
    requires left <= l.Keys && BlocksAt(l, left) == {}
    ensures left == {}
  {
    assert forall c :: c in left ==> l[c] in BlocksAt(l, left);
  }

  lemma {:induction false} OneIce(l: map<Cell, Block>, left: set<Cell>, b: Block, c: Cell)
    requires left <= l.Keys && b in BlocksAt(l, left)
    requires forall d :: d in l ==> l[d].x == d.x && l[d].y == d.y
    requires c == Cell(b.x, b.y)
    ensures c in left && l[c] == b && BlocksAt(l, left) - {b} == BlocksAt(l, left - {c})
  {
  }

  lemma {:induction false} LessIce(iceAt: set<Cell>, left: set<Cell>, gone: set<Cell>, c: Cell, indexList: seq<Cell>)
    requires c in left && left <= iceAt
    ensures gone + (iceAt - left) + {c} == gone + (iceAt - (left - {c}))
    ensures (iceAt - left) + {c} == iceAt - (left - {c})
    ensures SetOf(indexList + [c]) == SetOf(indexList) + {c}
  {
  }

  // ---------------------------------------------------------------- a whole round

  ghost predicate PlayedOut(s: States, cs: seq<Cell>) {
    forall c :: c in cs ==> c in s && s[c] == PlayOut
  }

  /** A round can start: the matched groups lie on the board without overlap, the collected ice
      is elsewhere on the board, and the groups finish their animation together. */
  ghost predicate ReadyToClear(p: BasePlayer, cells: seq<seq<Cell>>, iceAt: set<Cell>)
    reads p`blockList, p.board, p`matchedBlocks, p`iceBlocks
    reads p.blockList`x, p.blockList`y, p.blockList`kind, p.blockList`initialized, p.blockList`state
  {
    && p.Valid() && AllPlaced(p.Layout(), p.matchedBlocks, cells) && Distinct(Flat(cells))
    && iceAt <= p.Layout().Keys && p.iceBlocks == BlocksAt(p.Layout(), iceAt) && iceAt !! SetOf(Flat(cells))
    && (PlayedOut(StatesOf(p), Flat(cells)) || forall i :: 0 <= i < |cells| ==> !PlayedOut(StatesOf(p), cells[i]))
  }

  /** What a round has done to a player that was (`bs`, `l`, `s`): the cells `gone` are empty, their
      blocks have left the list, and everything above one of them is falling. */
  ghost predicate RoundDone(p: BasePlayer, bs: seq<Block>, l: map<Cell, Block>, s: States, gone: set<Cell>)
    reads p`blockList, p.board, p`matchedBlocks, p`iceBlocks
    reads p.blockList`x, p.blockList`y, p.blockList`kind, p.blockList`initialized, p.blockList`state
  {
    && p.Valid() && p.matchedBlocks == [] && p.iceBlocks == {}
    && p.blockList == Without(bs, BlocksAt(l, gone)) && p.Layout() == l - gone
    && StatesOf(p) == Loosened(s - gone, gone)
  }

  method AllPlayedOut(group: seq<Block>) returns (r: bool)
    ensures r <==> forall b :: b in group ==> b.state == PlayOut
  {
    for i := 0 to |group|
      invariant forall j :: 0 <= j < i ==> group[j].state == PlayOut
    {
      if group[i].state != PlayOut {
        return false;
      }
    }
    return true;
  }

  /** A group is checked on its blocks; the same is known of its cells. */
  lemma {:induction false} GroupPlayedOut(l: map<Cell, Block>, s: States, group: seq<Block>, cs: seq<Cell>)
    requires Placed(l, group, cs) && Snapshot(l, s)
    ensures (forall b :: b in group ==> b.state == PlayOut) <==> PlayedOut(s, cs)
  {
    if forall b :: b in group ==> b.state == PlayOut {
      forall c | c in cs
        ensures c in s && s[c] == PlayOut
      {
        var i :| 0 <= i < |cs| && cs[i] == c;
        assert group[i] in group;
      }
    }
    if PlayedOut(s, cs) {
      forall b | b in group
        ensures b.state == PlayOut
      {
        var i :| 0 <= i < |group| && group[i] == b;
        assert cs[i] in cs;
      }
    }
  }

  /** The cells that the first `n` groups, and with the first of them the ice, have freed. */
  ghost function GoneAfter(cells: seq<seq<Cell>>, iceAt: set<Cell>, n: int): set<Cell>
    requires 0 <= n <= |cells|
  {
    SetOf(Flat(cells[..n])) + if n == 0 then {} else iceAt
  }

  lemma {:induction false} GoneNext(cells: seq<seq<Cell>>, iceAt: set<Cell>, n: int)
    requires 0 <= n < |cells| && Distinct(Flat(cells)) && iceAt !! SetOf(Flat(cells))
    ensures Distinct(cells[n]) && forall i :: 0 <= i < |cells[n]| ==> cells[n][i] !in GoneAfter(cells, iceAt, n)
    ensures n > 0 ==> GoneAfter(cells, iceAt, n) + SetOf(cells[n]) == GoneAfter(cells, iceAt, n + 1)
    ensures n == 0 ==> GoneAfter(cells, iceAt, n) + SetOf(cells[n]) + iceAt == GoneAfter(cells, iceAt, n + 1)
    ensures n == 0 ==> iceAt !! GoneAfter(cells, iceAt, n) + SetOf(cells[n])
  {
    var flat, before := Flat(cells), Flat(cells[..n]);
    FlatSplit(cells, n);
    FlatPrefix(cells, n + 1);
    FlatStart(cells);
    var m := |Flat(cells[..n + 1])|;
    hide Flat;
    assert flat == flat[..m] + flat[m..] == (before + cells[n]) + flat[m..];
    SetOfConcat(before, cells[n]);
    SetOfConcat(before + cells[n], flat[m..]);
    DistinctParts(before, cells[n], flat[m..]);
  }

  lemma {:induction false} FlatSplit(cells: seq<seq<Cell>>, n: int)
    requires 0 <= n < |cells|
    ensures Flat(cells[..n + 1]) == Flat(cells[..n]) + cells[n]
  {
    assert cells[..n + 1][..n] == cells[..n];
  }

  lemma {:induction false} SetOfConcat<T>(a: seq<T>, b: seq<T>)
    ensures SetOf(a + b) == SetOf(a) + SetOf(b)
  {
  }

  lemma {:induction false} DistinctParts(a: seq<Cell>, b: seq<Cell>, c: seq<Cell>)
    requires Distinct(a + b + c)
    ensures Distinct(b) && forall i :: 0 <= i < |b| ==> b[i] !in a && b[i] in SetOf(a + b)
  {
    var s := a + b + c;
    forall i, j | 0 <= i < j < |b|
      ensures b[i] != b[j]
    {
      assert s[|a| + i] == b[i] && s[|a| + j] == b[j];
    }
    forall i | 0 <= i < |b|
      ensures b[i] !in a && b[i] in SetOf(a + b)
    {
      assert s[|a| + i] == b[i];
      assert forall j :: 0 <= j < |a| ==> s[j] == a[j];
    }
  }

  lemma {:induction false} FlatPrefix(cells: seq<seq<Cell>>, n: int)
    requires 0 <= n <= |cells|
    ensures |Flat(cells[..n])| <= |Flat(cells)| && Flat(cells[..n]) == Flat(cells)[..|Flat(cells[..n])|]
  {
    if n < |cells| {
      var front := cells[..|cells| - 1];
      FlatPrefix(front, n);
      assert front[..n] == cells[..n];
    } else {
      assert cells[..n] == cells;
    }
  }

  lemma {:induction false} GoneStart(cells: seq<seq<Cell>>, iceAt: set<Cell>)
    ensures GoneAfter(cells, iceAt, 0) == {} && SetOf<Cell>([]) == {}
    ensures cells != [] ==> GoneAfter(cells, iceAt, |cells|) == SetOf(Flat(cells)) + iceAt
  {
    assert cells[..|cells|] == cells;
  }

  lemma {:induction false} PlayedOutPart(s: States, cells: seq<seq<Cell>>, n: int)
    requires 0 <= n < |cells| && PlayedOut(s, Flat(cells))
    ensures PlayedOut(s, cells[n])
  {
    forall c | c in cells[n]
      ensures c in s && s[c] == PlayOut
    {
      var j :| 0 <= j < |cells[n]| && cells[n][j] == c;
      FlatIndex(cells, n, j);
      assert c in Flat(cells);
    }
  }

  /** Takes the `n`-th group away, and with the first one the collected ice. */
  method TakeGroup(p: BasePlayer, group: seq<Block>, ghost cells: seq<seq<Cell>>, ghost iceAt: set<Cell>, ghost n: int,
                   ghost bs: seq<Block>, ghost l: map<Cell, Block>, ghost s: States, indexList: seq<Cell>)
    returns (indexList': seq<Cell>)
    requires 0 <= n < |cells| && Distinct(Flat(cells)) && iceAt !! SetOf(Flat(cells)) && iceAt <= l.Keys
    requires Cleared(p, bs, l, s, GoneAfter(cells, iceAt, n)) && SetOf(indexList) == GoneAfter(cells, iceAt, n)
    requires p.iceBlocks == (if n == 0 then BlocksAt(l, iceAt) else {}) && Placed(l, group, cells[n])
    requires forall c :: c in l ==> l[c] in bs && l[c].x == c.x && l[c].y == c.y
    modifies p`blockList, p.board, p`iceBlocks
    ensures Cleared(p, bs, l, s, GoneAfter(cells, iceAt, n + 1)) && SetOf(indexList') == GoneAfter(cells, iceAt, n + 1)
    ensures p.iceBlocks == {}
  {
    hide *;
    GoneNext(cells, iceAt, n);
    ghost var gone := GoneAfter(cells, iceAt, n);
    SetOfConcat(indexList, cells[n]);
    indexList' := ClearGroup(p, group, cells[n], bs, l, s, gone, indexList);
    if p.iceBlocks != {} {
      indexList' := RemoveIceBlocks(p, iceAt, bs, l, s, gone + SetOf(cells[n]), indexList');
    } else if n == 0 {
      NoIceLeft(l, iceAt);
      assert gone + SetOf(cells[n]) + iceAt == gone + SetOf(cells[n]);
    }
  }

  /** The loop of the local player's round (first half of LocalPlayer::UpdateShatteringPhase):
      groups whose blocks have all played out are taken away, the collected ice with the first of
      them; `indexList` collects the freed cells. */
  method TakeGroups(p: BasePlayer, ghost cells: seq<seq<Cell>>, ghost iceAt: set<Cell>) returns (indexList: seq<Cell>)
    requires ReadyToClear(p, cells, iceAt) && p.matchedBlocks != []
    modifies p`blockList, p.board, p`iceBlocks, p`matchedBlocks
    ensures p.Valid() && forall i :: 0 <= i < |p.blockList| ==> p.blockList[i] in old(p.blockList)
    ensures old(PlayedOut(StatesOf(p), Flat(cells))) ==>
      && p.matchedBlocks == [] && p.iceBlocks == {}
      && Cleared(p, old(p.blockList), old(p.Layout()), old(StatesOf(p)), SetOf(Flat(cells)) + iceAt)
      && SetOf(indexList) == SetOf(Flat(cells)) + iceAt && forall i :: 0 <= i < |indexList| ==> InBoard(indexList[i])
    ensures !old(PlayedOut(StatesOf(p), Flat(cells))) ==>
      && p.matchedBlocks == old(p.matchedBlocks) && p.iceBlocks == old(p.iceBlocks)
      && p.blockList == old(p.blockList) && p.Layout() == old(p.Layout())
  {
    hide *;
    OpenReady(p, cells, iceAt);
    ghost var bs, l, s, groups := p.blockList, p.Layout(), StatesOf(p), p.matchedBlocks;
    ghost var n := 0;
    indexList := [];
    var i := 0;
    GoneStart(cells, iceAt);
    ClearedNothing(p);
    while i < |p.matchedBlocks|
      modifies p`blockList, p.board, p`iceBlocks, p`matchedBlocks
      invariant 0 <= i <= |p.matchedBlocks| && 0 <= n <= |groups|
      invariant Cleared(p, bs, l, s, GoneAfter(cells, iceAt, n)) && SetOf(indexList) == GoneAfter(cells, iceAt, n)
      invariant p.iceBlocks == if n == 0 then BlocksAt(l, iceAt) else {}
      invariant p.matchedBlocks == groups[n..]
      invariant forall c :: c in l ==> l[c] in bs && l[c].x == c.x && l[c].y == c.y
      invariant forall k :: 0 <= k < |groups| ==> ((forall b: Block :: b in groups[k] ==> b.state == PlayOut) <==> PlayedOut(s, cells[k]))
      invariant if PlayedOut(s, Flat(cells)) then i == 0 else n == 0
      decreases |p.matchedBlocks| - i
    {
      var group := p.matchedBlocks[i];
      AllPlacedAt(l, groups, cells, n + i);
      var allPlayedOut := AllPlayedOut(group);
      if PlayedOut(s, Flat(cells)) { PlayedOutPart(s, cells, n + i); }
      if allPlayedOut {
        indexList := TakeGroup(p, group, cells, iceAt, n, bs, l, s, indexList);
        p.matchedBlocks := p.matchedBlocks[..i] + p.matchedBlocks[i + 1..];
        n := n + 1;
      } else {
        i := i + 1;
      }
    }
    ClearedLists(p, bs, l, s, GoneAfter(cells, iceAt, n));
    if PlayedOut(s, Flat(cells)) { GoneInBoard(l, groups, cells, iceAt, indexList); }
  }

  lemma {:induction false} GoneInBoard(l: map<Cell, Block>, groups: seq<seq<Block>>, cells: seq<seq<Cell>>, iceAt: set<Cell>, indexList: seq<Cell>)
    requires AllPlaced(l, groups, cells) && iceAt <= l.Keys && forall c :: c in l ==> InBoard(c)
    requires SetOf(indexList) == GoneAfter(cells, iceAt, |cells|)
    ensures forall i :: 0 <= i < |indexList| ==> InBoard(indexList[i])
  {
    assert cells[..|cells|] == cells;
    forall i | 0 <= i < |indexList|
      ensures InBoard(indexList[i])
    {
      var c := indexList[i];
      assert c in SetOf(indexList);
      InFlat(cells, c);
      if InSome(cells, c) {
        var k :| 0 <= k < |cells| && c in cells[k];
        assert Placed(l, groups[k], cells[k]);
      }
    }
  }

  lemma {:induction false} CloseRound(p: BasePlayer, bs: seq<Block>, l: map<Cell, Block>, s: States, gone: set<Cell>)
    requires p.Valid() && p.matchedBlocks == [] && p.iceBlocks == {}
    requires p.blockList == Without(bs, BlocksAt(l, gone)) && p.Layout() == l - gone && StatesOf(p) == Loosened(s - gone, gone)
    ensures RoundDone(p, bs, l, s, gone)
  {
  }

  lemma {:induction false} ClearedLists(p: BasePlayer, bs: seq<Block>, l: map<Cell, Block>, s: States, gone: set<Cell>)
    requires Cleared(p, bs, l, s, gone)
    ensures p.blockList == Without(bs, BlocksAt(l, gone)) && p.Layout() == l - gone && StatesOf(p) == s - gone
    ensures p.Valid() && forall i :: 0 <= i < |p.blockList| ==> p.blockList[i] in bs
    ensures gone == {} ==> p.blockList == bs && p.Layout() == l && StatesOf(p) == s
  {
    hide BasePlayer.Valid, BasePlayer.Layout, StatesOf, Without;
    forall i | 0 <= i < |p.blockList|
      ensures p.blockList[i] in bs
    {
      InWithout(bs, BlocksAt(l, gone), p.blockList[i]);
    }
    if gone == {} {
      assert BlocksAt(l, gone) == {};
      WithoutAbsent(bs, BlocksAt(l, gone));
    }
  }

  lemma {:induction false} OpenReady(p: BasePlayer, cells: seq<seq<Cell>>, iceAt: set<Cell>)
    requires ReadyToClear(p, cells, iceAt)
    ensures p.Valid() && AllPlaced(p.Layout(), p.matchedBlocks, cells) && |p.matchedBlocks| == |cells|
    ensures Distinct(Flat(cells)) && iceAt <= p.Layout().Keys && p.iceBlocks == BlocksAt(p.Layout(), iceAt)
    ensures iceAt !! SetOf(Flat(cells))
    ensures forall k :: 0 <= k < |cells| ==>
      ((forall b: Block :: b in p.matchedBlocks[k] ==> b.state == PlayOut) <==> PlayedOut(StatesOf(p), cells[k]))
    ensures forall c :: c in p.Layout() ==>
      InBoard(c) && p.Layout()[c] in p.blockList && p.Layout()[c].x == c.x && p.Layout()[c].y == c.y
    ensures PlayedOut(StatesOf(p), Flat(cells)) || forall i :: 0 <= i < |cells| ==> !PlayedOut(StatesOf(p), cells[i])
  {
    SnapshotOf(p);
    forall k | 0 <= k < |cells|
      ensures (forall b :: b in p.matchedBlocks[k] ==> b.state == PlayOut) <==> PlayedOut(StatesOf(p), cells[k])
    {
      GroupPlayedOut(p.Layout(), StatesOf(p), p.matchedBlocks[k], cells[k]);
    }
  }

  /** Every listed block lies on the board, at its own cell. */
  ghost predicate ListsBoard(bs: seq<Block>, l: map<Cell, Block>)
    reads bs`x, bs`y, l.Values`x, l.Values`y
  {
    && (forall i :: 0 <= i < |bs| ==> Cell(bs[i].x, bs[i].y) in l && l[Cell(bs[i].x, bs[i].y)] == bs[i])
    && (forall c :: c in l ==> l[c].x == c.x && l[c].y == c.y)
  }
}
