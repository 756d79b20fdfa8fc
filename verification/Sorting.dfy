/** Sorting the list by row and column, and why a fall goes on undisturbed. */
module Sorting {
  import opened Geometry
  import opened Connectivity
  import opened BlockStates
  import opened Matching
  import opened PuyoBlocks
  import opened Players
  import opened Falling
  import opened Gravity
  import opened Settling
  import opened LinkMasks
  import opened LinkStates

  /** The order of blocks: by row, then by column (Block::operator<). */
  predicate Before(a: Block, b: Block)
    reads a`x, a`y, b`x, b`y
  {
    if a.y < b.y then true else if a.y == b.y then a.x < b.x else false
  }

  ghost predicate ListSorted(bs: seq<Block>)
    reads bs`x, bs`y
  {
    forall i, j :: 0 <= i < j < |bs| ==> !Before(bs[j], bs[i])
  }

  /** Inserts a block behind the last one that does not come after it. */
  method Insert(bs: seq<Block>, b: Block) returns (r: seq<Block>)
    requires ListSorted(bs)
    ensures ListSorted(r) && multiset(r) == multiset(bs) + multiset{b}
  {
    var k := |bs|;
    while k > 0 && Before(b, bs[k - 1])
      invariant 0 <= k <= |bs|
      invariant forall i :: k <= i < |bs| ==> Before(b, bs[i])
    {
      k := k - 1;
    }
    r := bs[..k] + [b] + bs[k..];
    assert bs == bs[..k] + bs[k..];
    InsertedSorted(bs, b, k);
  }

  lemma {:induction false} InsertedSorted(bs: seq<Block>, b: Block, k: int)
    requires ListSorted(bs) && 0 <= k <= |bs| && (k > 0 ==> !Before(b, bs[k - 1]))
    requires forall i :: k <= i < |bs| ==> Before(b, bs[i])
    ensures ListSorted(bs[..k] + [b] + bs[k..])
  {
    var r := bs[..k] + [b] + bs[k..];
    forall i, j | 0 <= i < j < |r|
      ensures !Before(r[j], r[i])
    {
      if j == k {
        assert i == k - 1 || !Before(bs[k - 1], bs[i]);
      }
    }
  }

  /** Sorts the list of blocks; equal blocks would keep their order. */
  method SortBlocks(p: BasePlayer)
    requires p.Wired()
    modifies p`blockList
    ensures p.Wired() && ListSorted(p.blockList) && multiset(p.blockList) == multiset(old(p.blockList))
  {
    var sorted: seq<Block> := [];
    var blocks := p.blockList;
    for i := 0 to |blocks|
      invariant p.blockList == blocks
      invariant ListSorted(sorted) && multiset(sorted) == multiset(blocks[..i])
    {
      assert blocks[..i + 1] == blocks[..i] + [blocks[i]];
      sorted := Insert(sorted, blocks[i]);
    }
    assert blocks[..|blocks|] == blocks;
    hide ListSorted, Before;
    DistinctByMultiset(blocks, sorted);
    assert forall b :: b in blocks ==> b in multiset(sorted);
    p.blockList := sorted;
  }

  lemma {:induction false} CountOfDistinct<T>(s: seq<T>, i: int)
    requires Distinct(s) && 0 <= i < |s|
    ensures multiset(s)[s[i]] == 1
  {
    var before, after := s[..i], s[i + 1..];
    assert s == before + [s[i]] + after;
    assert s[i] !in before && s[i] !in after;
    assert multiset(before)[s[i]] == 0 && multiset(after)[s[i]] == 0;
  }

  lemma {:induction false} DistinctByMultiset<T>(a: seq<T>, b: seq<T>)
    requires Distinct(a) && multiset(a) == multiset(b)
    ensures Distinct(b)
  {
    forall i, j | 0 <= i < j < |b|
      ensures b[i] != b[j]
    {
      assert b[i] in multiset(a);
      var k :| 0 <= k < |a| && a[k] == b[i];
      CountOfDistinct(a, k);
      if b[i] == b[j] { TwiceInside(b, i, j); }
    }
  }

  lemma {:induction false} TwiceInside<T>(s: seq<T>, i: int, j: int)
    requires 0 <= i < j < |s| && s[i] == s[j]
    ensures multiset(s)[s[i]] >= 2
  {
    assert s == s[..i] + [s[i]] + s[i + 1..j] + [s[j]] + s[j + 1..];
  }

  // What the board holds does not depend on the list.

  ghost function OnBoard(board: array2<Block?>): map<Cell, Block>
    requires board.Length0 == BOARD_Y_COUNT && board.Length1 == BOARD_X_COUNT
    reads board
  {
    map c | c in AllCells() && board[c.y, c.x] != null :: board[c.y, c.x]
  }

  ghost function ColoursOf(l: map<Cell, Block>): Colours
    reads l.Values`kind, l.Values`state
  {
    map c | c in l && l[c].state == Stationary && l[c].kind != Ice :: l[c].kind
  }

  ghost function LinksOf(l: map<Cell, Block>): Masks
    reads l.Values`link
  {
    map c | c in l :: l[c].link
  }

  ghost function BodiesOf(l: map<Cell, Block>): map<Cell, Body>
    reads l.Values`kind, l.Values`state, l.Values`x, l.Values`y, l.Values`posY, l.Values`velocity, l.Values`initialized
  {
    map c | c in l :: BodyOf(l[c])
  }

  lemma {:induction false} ByBoard(p: BasePlayer)
    requires p.Valid()
    ensures p.Wired() && p.board.Length0 == BOARD_Y_COUNT && p.board.Length1 == BOARD_X_COUNT
    ensures p.Layout() == OnBoard(p.board) && forall b :: b in p.Layout().Values ==> b in p.blockList
    ensures p.Coloured() == ColoursOf(p.Layout()) && Links(p) == LinksOf(p.Layout())
  {
  }

  lemma {:induction false} CellBodies(p: BasePlayer)
    requires p.Valid()
    ensures forall c :: c in View(p).cells <==> c in BodiesOf(p.Layout())
    ensures forall c :: c in View(p).cells ==>
      0 <= View(p).cells[c] < |View(p).bodies| && View(p).bodies[View(p).cells[c]] == BodiesOf(p.Layout())[c]
  {
    forall c
      ensures c in View(p).cells <==> c in p.Layout()
      ensures c in View(p).cells ==>
        0 <= View(p).cells[c] < |View(p).bodies| && View(p).bodies[View(p).cells[c]] == BodyOf(p.Layout()[c])
    {
      ViewAt(p, c);
    }
    hide View, BasePlayer.Layout;
  }

  /** Sorting a list that agrees with the board: the board and everything on it stay, and
      every column is listed from the floor up. */
  method SortList(p: BasePlayer)
    requires p.Valid() && forall b :: b in p.blockList ==> p.Registered(b)
    modifies p`blockList
    ensures p.Valid() && multiset(p.blockList) == multiset(old(p.blockList)) && ColumnSorted(p.blockList)
    ensures p.Layout() == old(p.Layout()) && p.Coloured() == old(p.Coloured()) && Links(p) == old(Links(p))
    ensures BodiesOf(p.Layout()) == old(BodiesOf(p.Layout()))
    ensures forall b :: b in p.blockList <==> b in old(p.blockList)
    ensures |p.blockList| == |old(p.blockList)|
    ensures p.Wired() && old(p.Wired()) && Listed(old(View(p)), View(p))
  {
    hide *;
    ghost var bs := p.blockList;
    ByBoard(p);
    OpenValid(p);
    CellBodies(p);
    ListSizes(p);
    ghost var s := View(p);
    SortBlocks(p);
    SameMembers(bs, p.blockList);
    StillListed(p, bs);
    SortedColumns(p);
    ByBoard(p);
    CellBodies(p);
    ListSizes(p);
    SameBoardIs(s, View(p));
    ValidIffConsistent(p);
    ListedRows(p, s);
  }

  lemma {:induction false} ListSizes(p: BasePlayer)
    requires p.Wired()
    ensures |View(p).bodies| == |p.blockList|
  {
  }

  lemma {:induction false} ListedRows(p: BasePlayer, s: FallState)
    requires p.Wired() && Consistent(View(p)) && SameBoard(s, View(p)) && ListSorted(p.blockList)
    ensures Listed(s, View(p))
  {
    forall i | 0 <= i < |p.blockList|
      ensures |View(p).bodies| == |p.blockList| && View(p).bodies[i].x == p.blockList[i].x && View(p).bodies[i].y == p.blockList[i].y
    {
      ViewBody(p, i);
    }
    if p.blockList == [] { assert |View(p).bodies| == 0; }
    hide View, Consistent, SameBoard;
    forall i, j | 0 <= i < j < |p.blockList|
      ensures p.blockList[i].y < p.blockList[j].y || (p.blockList[i].y == p.blockList[j].y && p.blockList[i].x <= p.blockList[j].x)
    {
      assert !Before(p.blockList[j], p.blockList[i]);
    }
  }

  lemma {:induction false} OpenValid(p: BasePlayer)
    requires p.Valid()
    ensures p.Wired()
    ensures forall c :: InBoard(c) && p.board[c.y, c.x] != null ==> var b := p.board[c.y, c.x]; b.x == c.x && b.y == c.y && p.Registered(b)
    ensures forall b :: b in p.blockList && p.Registered(b) ==> InBoard(Cell(b.x, b.y)) && p.board[b.y, b.x] == b
  {
  }

  lemma {:induction false} SameMembers<T>(a: seq<T>, b: seq<T>)
    requires multiset(a) == multiset(b)
    ensures |a| == |b| && forall x :: x in a <==> x in b
  {
    assert |multiset(a)| == |a| && |multiset(b)| == |b|;
    forall x
      ensures x in a <==> x in b
    {
      assert x in a <==> x in multiset(a);
      assert x in b <==> x in multiset(b);
    }
  }

  lemma {:induction false} StillListed(p: BasePlayer, bs: seq<Block>)
    requires p.Wired() && |bs| == |p.blockList| && forall b :: b in p.blockList <==> b in bs
    requires forall c :: InBoard(c) && p.board[c.y, c.x] != null ==> var b := p.board[c.y, c.x]; b.x == c.x && b.y == c.y && p.Registered(b)
    requires forall b :: b in bs && p.Registered(b) ==> InBoard(Cell(b.x, b.y)) && p.board[b.y, b.x] == b
    ensures p.Valid()
  {
  }

  lemma {:induction false} SortedColumns(p: BasePlayer)
    requires p.Valid() && ListSorted(p.blockList) && forall b :: b in p.blockList ==> p.Registered(b)
    ensures ColumnSorted(p.blockList)
  {
    forall i, j | 0 <= i < j < |p.blockList| && p.blockList[i].x == p.blockList[j].x
      ensures p.blockList[i].y < p.blockList[j].y
    {
      assert !Before(p.blockList[j], p.blockList[i]);
      assert p.blockList[i] in p.blockList && p.blockList[j] in p.blockList;
    }
  }

  // ---------------------------------------------------------------- a fall goes on

  ghost predicate AllRegistered(s: FallState) {
    forall i :: 0 <= i < |s.bodies| ==> s.bodies[i].registered
  }

  /** The same blocks on the same cells, listed in another order. */
  ghost predicate SameBoard(s: FallState, s': FallState) {
    && s.cells.Keys == s'.cells.Keys && |s.bodies| == |s'.bodies|
    && forall c :: c in s.cells ==>
         0 <= s.cells[c] < |s.bodies| && 0 <= s'.cells[c] < |s'.bodies| && s.bodies[s.cells[c]] == s'.bodies[s'.cells[c]]
  }

  /** The same blocks, listed by row and then by column. */
  ghost predicate Listed(s: FallState, s': FallState) {
    && Consistent(s') && SameBoard(s, s')
    && forall i, j :: 0 <= i < j < |s'.bodies| ==>
         s'.bodies[i].y < s'.bodies[j].y || (s'.bodies[i].y == s'.bodies[j].y && s'.bodies[i].x <= s'.bodies[j].x)
  }

  /** Each block of the new list is the block of the old list on the same cell. */
  lemma {:induction false} SameBody(s: FallState, s': FallState, i: int)
    requires Consistent(s) && Consistent(s') && AllRegistered(s') && SameBoard(s, s') && 0 <= i < |s'.bodies|
    ensures var c := Cell(s'.bodies[i].x, s'.bodies[i].y);
      c in s.cells && 0 <= s.cells[c] < |s.bodies| && s.bodies[s.cells[c]] == s'.bodies[i] && s'.cells[c] == i
  {
  }

  /** A fall may be re-listed at any time, as long as every column stays in order from the floor up. */
  lemma {:induction false} ResortKeepsFall(s: FallState, hs: seq<int>, s': FallState)
    requires FallInvariant(s, hs, 0, 0.0) && AllRegistered(s)
    requires Consistent(s') && AllRegistered(s') && SameBoard(s, s')
    requires forall i, j :: 0 <= i < j < |s'.bodies| && s'.bodies[i].x == s'.bodies[j].x ==> s'.bodies[i].y < s'.bodies[j].y
    ensures FallInvariant(s', hs, 0, 0.0) && AllRegistered(s')
  {
    hide *;
    OpenFall(s, hs);
    Resorted(s, s');
    ResortedWellFormed(s, s');
    ResortedStacked(s, hs, s');
    ResortedOrdered(s, hs, s');
    ResortedApart(s, hs, s');
    CloseFall(s', hs);
  }

  /** Where the blocks of the new list were in the old one. */
  ghost predicate Mapped(s: FallState, s': FallState) {
    forall i :: 0 <= i < |s'.bodies| ==>
      var c := Cell(s'.bodies[i].x, s'.bodies[i].y);
      c in s.cells && 0 <= s.cells[c] < |s.bodies| && s.bodies[s.cells[c]] == s'.bodies[i]
  }

  lemma {:induction false} Resorted(s: FallState, s': FallState)
    requires Consistent(s) && Consistent(s') && AllRegistered(s') && SameBoard(s, s')
    ensures Mapped(s, s')
  {
    forall i | 0 <= i < |s'.bodies|
      ensures
        var c := Cell(s'.bodies[i].x, s'.bodies[i].y);
        c in s.cells && 0 <= s.cells[c] < |s.bodies| && s.bodies[s.cells[c]] == s'.bodies[i]
    {
      SameBody(s, s', i);
    }
  }

  lemma {:induction false} ResortedWellFormed(s: FallState, s': FallState)
    requires WellFormed(s) && Mapped(s, s')
    ensures WellFormed(s')
  {
    hide RowY;
  }

  lemma {:induction false} ResortedStacked(s: FallState, hs: seq<int>, s': FallState)
    requires Stacked(s, hs) && Airborne(s, hs) && Mapped(s, s') && SameBoard(s, s')
    ensures Stacked(s', hs) && Airborne(s', hs)
  {
    hide RowY;
  }

  lemma {:induction false} ResortedOrdered(s: FallState, hs: seq<int>, s': FallState)
    requires WellFormed(s) && Stacked(s, hs) && Airborne(s, hs) && Mapped(s, s') && AllRegistered(s')
    requires forall i, j :: 0 <= i < j < |s'.bodies| && s'.bodies[i].x == s'.bodies[j].x ==> s'.bodies[i].y < s'.bodies[j].y
    ensures Ordered(s')
  {
    hide RowY;
    forall i, j | 0 <= i < j < |s'.bodies| && s'.bodies[i].x == s'.bodies[j].x && s'.bodies[i].state == DownMoving
      ensures s'.bodies[j].state == DownMoving
    {
      var k := s.cells[Cell(s'.bodies[i].x, s'.bodies[i].y)];
      var m := s.cells[Cell(s'.bodies[j].x, s'.bodies[j].y)];
      assert s.bodies[k] == s'.bodies[i] && s.bodies[m] == s'.bodies[j];
    }
  }

  lemma {:induction false} ResortedApart(s: FallState, hs: seq<int>, s': FallState)
    requires Consistent(s) && Ordered(s) && Mapped(s, s') && Apart(s, 0, 0.0)
    requires forall i, j :: 0 <= i < j < |s'.bodies| && s'.bodies[i].x == s'.bodies[j].x ==> s'.bodies[i].y < s'.bodies[j].y
    ensures Apart(s', 0, 0.0)
  {
    hide Velocity;
    forall i, j | FallTogether(s', i, j)
      ensures s'.bodies[i].posY >= s'.bodies[j].posY + SIZE && s'.bodies[i].velocity >= s'.bodies[j].velocity
    {
      var k := s.cells[Cell(s'.bodies[i].x, s'.bodies[i].y)];
      var m := s.cells[Cell(s'.bodies[j].x, s'.bodies[j].y)];
      assert s.bodies[k] == s'.bodies[i] && s.bodies[m] == s'.bodies[j];
      assert FallTogether(s, k, m);
    }
  }

  lemma {:induction false} ResortKeepsOrder(s: FallState, s': FallState)
    requires Consistent(s) && Consistent(s') && Ordered(s) && AllRegistered(s') && SameBoard(s, s') && NoPuyoOverIce(s)
    requires forall i, j :: 0 <= i < j < |s'.bodies| && s'.bodies[i].x == s'.bodies[j].x ==> s'.bodies[i].y < s'.bodies[j].y
    ensures NoPuyoOverIce(s')
  {
    Resorted(s, s');
    forall i, j | FallTogether(s', i, j) && s'.bodies[i].kind == Ice
      ensures s'.bodies[j].kind == Ice
    {
      var k := s.cells[Cell(s'.bodies[i].x, s'.bodies[i].y)];
      var m := s.cells[Cell(s'.bodies[j].x, s'.bodies[j].y)];
      assert s.bodies[k] == s'.bodies[i] && s.bodies[m] == s'.bodies[j];
      assert FallTogether(s, k, m);
    }
  }

  /** Sorting in the middle of a fall. */
  method SortFalling(p: BasePlayer, ghost hs: seq<int>)
    requires p.Valid() && p.Wired() && FallInvariant(View(p), hs, 0, 0.0) && AllRegistered(View(p))
    modifies p`blockList
    ensures p.Valid() && FallInvariant(View(p), hs, 0, 0.0) && AllRegistered(View(p))
    ensures multiset(p.blockList) == multiset(old(p.blockList))
    ensures ColumnSorted(p.blockList) && forall i :: 0 <= i < |p.blockList| ==> p.blockList[i] in old(p.blockList)
    ensures forall b :: b in old(p.blockList) ==> b in p.blockList
    ensures p.Wired() && |p.blockList| == |old(p.blockList)|
    ensures old(NoPuyoOverIce(View(p))) ==> NoPuyoOverIce(View(p))
    ensures Listed(old(View(p)), View(p))
  {
    hide *;
    RegisteredBlocks(p);
    ghost var s := View(p);
    ValidIffConsistent(p);
    SortList(p);
    RegisteredBlocks(p);
    ListedIs(s, View(p));
    SortedBodies(p);
    ResortKeepsFall(s, hs, View(p));
    OpenFall(s, hs);
    if NoPuyoOverIce(s) { ResortKeepsOrder(s, View(p)); }
  }

  lemma {:induction false} RegisteredBlocks(p: BasePlayer)
    requires p.Valid()
    ensures p.Wired() && |View(p).bodies| == |p.blockList|
    ensures AllRegistered(View(p)) <==> forall b :: b in p.blockList ==> p.Registered(b)
  {
    forall i | 0 <= i < |p.blockList|
      ensures View(p).bodies[i].registered == p.Registered(p.blockList[i])
    {
      ViewBody(p, i);
    }
    hide View;
    if AllRegistered(View(p)) {
      forall b | b in p.blockList
        ensures p.Registered(b)
      {
        var i :| 0 <= i < |p.blockList| && p.blockList[i] == b;
        assert View(p).bodies[i].registered;
      }
    }
  }

  lemma {:induction false} ListedIs(s: FallState, s': FallState)
    requires Listed(s, s')
    ensures Consistent(s') && SameBoard(s, s')
  {
    hide Consistent, SameBoard;
  }

  lemma {:induction false} SameBoardIs(s: FallState, s': FallState)
    requires |s.bodies| == |s'.bodies| && forall c :: c in s.cells <==> c in s'.cells
    requires forall c :: c in s.cells ==> 0 <= s.cells[c] < |s.bodies| && 0 <= s'.cells[c] < |s'.bodies|
    requires forall c :: c in s.cells ==> s.bodies[s.cells[c]] == s'.bodies[s'.cells[c]]
    ensures SameBoard(s, s')
  {
  }

  lemma {:induction false} SortedBodies(p: BasePlayer)
    requires p.Wired() && ColumnSorted(p.blockList)
    ensures forall i, j :: 0 <= i < j < |View(p).bodies| && View(p).bodies[i].x == View(p).bodies[j].x ==>
      View(p).bodies[i].y < View(p).bodies[j].y
  {
    forall i | 0 <= i < |p.blockList|
      ensures |View(p).bodies| == |p.blockList| && View(p).bodies[i].x == p.blockList[i].x && View(p).bodies[i].y == p.blockList[i].y
    {
      ViewBody(p, i);
    }
    if p.blockList == [] { assert |View(p).bodies| == 0; }
    hide View;
  }
}
