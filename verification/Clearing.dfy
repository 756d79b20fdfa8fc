/** Clearing matched groups and the ice beside them, and setting loose what was above. */
module Clearing {
  import opened Geometry
  import opened Connectivity
  import opened BlockStates
  import opened Matching
  import opened PuyoBlocks
  import opened Players
  import opened LinkStates

  type States = map<Cell, BlockState>

  /** The states of the blocks on the board, by cell. */
  ghost function StatesOf(p: BasePlayer): (s: States)
    requires p.Valid()
    reads p`blockList, p.board, p.blockList`x, p.blockList`y, p.blockList`kind, p.blockList`initialized, p.blockList`state
  {
    map c | c in AllCells() && p.At(c) != null :: p.At(c).state
  }

  ghost function IceCells(p: BasePlayer): set<Cell>
    requires p.Valid()
    reads p`blockList, p.board, p.blockList`x, p.blockList`y, p.blockList`kind, p.blockList`initialized
  {
    set c | c in AllCells() && p.At(c) != null && p.At(c).kind == Ice
  }

  lemma {:induction false} StateAt(p: BasePlayer, c: Cell)
    requires p.Valid()
    ensures c in StatesOf(p) <==> p.At(c) != null
    ensures c in StatesOf(p) ==> StatesOf(p)[c] == p.At(c).state
    ensures c in IceCells(p) <==> p.At(c) != null && p.At(c).kind == Ice
    ensures c in p.Layout() <==> p.At(c) != null
    ensures c in p.Layout() ==> p.Layout()[c] == p.At(c)
  {
  }

  /** Gives a block on the board a new state. */
  method SetState(p: BasePlayer, b: Block, state: BlockState)
    requires p.Valid() && p.At(Cell(b.x, b.y)) == b
    modifies b`state
    ensures p.Valid() && StatesOf(p) == old(StatesOf(p))[Cell(b.x, b.y) := state]
  {
    b.state := state;
  }

  // ---------------------------------------------------------------- ice beside matched blocks

  ghost predicate RestingIce(ice: set<Cell>, s: States, c: Cell) {
    c in ice && c in s && s[c] == Stationary
  }

  /** The resting ice next to any of the first `n` cells, or next to the `n`-th in one of the
      first `k` directions. */
  ghost predicate Beside(ice: set<Cell>, s: States, cells: seq<Cell>, n: int, k: int, c: Cell)
    requires 0 <= n <= |cells| && 0 <= k <= 4
  {
    && RestingIce(ice, s, c)
    && ((exists i :: 0 <= i < n && Adjacent(cells[i], c))
        || (n < |cells| && exists j :: 0 <= j < k && c == Neighbour(cells[n], DirectionAt(j))))
  }

  /** All states after that ice has been marked. */
  ghost function Touched(ice: set<Cell>, s: States, cells: seq<Cell>, n: int, k: int): States
    requires 0 <= n <= |cells| && 0 <= k <= 4
  {
    map c | c in s :: if Beside(ice, s, cells, n, k, c) then Destroying else s[c]
  }

  ghost function Taken(l: map<Cell, Block>, ice: set<Cell>, s: States, cells: seq<Cell>, n: int, k: int): set<Block>
    requires 0 <= n <= |cells| && 0 <= k <= 4
  {
    set c | c in l && Beside(ice, s, cells, n, k, c) :: l[c]
  }

  lemma {:induction false} TouchStart(l: map<Cell, Block>, ice: set<Cell>, s: States, cells: seq<Cell>)
    ensures Touched(ice, s, cells, 0, 0) == s && Taken(l, ice, s, cells, 0, 0) == {}
  {
  }

  lemma {:induction false} TouchNext(l: map<Cell, Block>, ice: set<Cell>, s: States, cells: seq<Cell>, n: int)
    requires 0 <= n < |cells|
    ensures Touched(ice, s, cells, n + 1, 0) == Touched(ice, s, cells, n, 4)
    ensures Taken(l, ice, s, cells, n + 1, 0) == Taken(l, ice, s, cells, n, 4)
  {
    forall c
      ensures Beside(ice, s, cells, n + 1, 0, c) <==> Beside(ice, s, cells, n, 4, c)
    {
      AdjacentByDirection(cells[n], c);
    }
    hide Beside;
  }

  lemma {:induction false} BesideStep(ice: set<Cell>, s: States, cells: seq<Cell>, n: int, k: int, c: Cell)
    requires 0 <= n < |cells| && 0 <= k < 4
    ensures Beside(ice, s, cells, n, k + 1, c)
       <==> Beside(ice, s, cells, n, k, c) || (RestingIce(ice, s, c) && c == Neighbour(cells[n], DirectionAt(k)))
  {
  }

  /** One more direction: a block that still rests there and is ice is marked and taken. */
  lemma {:induction false} TouchStep(l: map<Cell, Block>, ice: set<Cell>, s: States, cells: seq<Cell>, n: int, k: int)
    requires 0 <= n < |cells| && 0 <= k < 4 && s.Keys == l.Keys
    ensures
      var e := Neighbour(cells[n], DirectionAt(k));
      if RestingIce(ice, Touched(ice, s, cells, n, k), e) then
        && Touched(ice, s, cells, n, k + 1) == Touched(ice, s, cells, n, k)[e := Destroying]
        && e in l && Taken(l, ice, s, cells, n, k + 1) == Taken(l, ice, s, cells, n, k) + {l[e]}
      else
        && Touched(ice, s, cells, n, k + 1) == Touched(ice, s, cells, n, k)
        && Taken(l, ice, s, cells, n, k + 1) == Taken(l, ice, s, cells, n, k)
  {
    var e := Neighbour(cells[n], DirectionAt(k));
    forall c
      ensures Beside(ice, s, cells, n, k + 1, c) <==> Beside(ice, s, cells, n, k, c) || (RestingIce(ice, s, c) && c == e)
      ensures Beside(ice, s, cells, n, k, c) ==> RestingIce(ice, s, c)
    {
      BesideStep(ice, s, cells, n, k, c);
    }
    hide Beside, Neighbour, DirectionAt;
  }

  /** Marks the resting ice around the `n`-th matched cell for removal. */
  method CollectAround(p: BasePlayer, block: Block, ghost s: States, ghost taken: set<Block>, ghost cells: seq<Cell>, ghost n: int)
    requires p.Valid() && 0 <= n < |cells| && cells[n] == Cell(block.x, block.y) && s.Keys == p.Layout().Keys
    requires StatesOf(p) == Touched(IceCells(p), s, cells, n, 0)
    requires p.iceBlocks == taken + Taken(p.Layout(), IceCells(p), s, cells, n, 0)
    modifies p`iceBlocks, p.blockList`state
    ensures p.Valid() && StatesOf(p) == Touched(IceCells(p), s, cells, n + 1, 0)
    ensures p.iceBlocks == taken + Taken(p.Layout(), IceCells(p), s, cells, n + 1, 0)
  {
    hide *;
    ghost var l, ice := p.Layout(), IceCells(p);
    for k := 0 to 4
      invariant p.Valid() && p.Layout() == l && IceCells(p) == ice
      invariant StatesOf(p) == Touched(ice, s, cells, n, k)
      invariant p.iceBlocks == taken + Taken(l, ice, s, cells, n, k)
    {
      var c := Neighbour(Cell(block.x, block.y), DirectionAt(k));
      var checkBlock := p.At(c);
      StateAt(p, c);
      TouchStep(l, ice, s, cells, n, k);
      RestingIceIs(ice, StatesOf(p), c);
      if checkBlock != null && checkBlock.state == Stationary && checkBlock.kind == Ice {
        SetState(p, checkBlock, Destroying);
        p.iceBlocks := p.iceBlocks + {checkBlock};
      }
    }
    TouchNext(l, ice, s, cells, n);
  }

  lemma {:induction false} RestingIceIs(ice: set<Cell>, s: States, c: Cell)
    ensures RestingIce(ice, s, c) <==> c in ice && c in s && s[c] == Stationary
  {
  }

  /** Collects the resting ice beside any matched block and marks it for removal, once. */
  method CollectRemoveIceBlocks(p: BasePlayer, ghost cells: seq<seq<Cell>>)
    requires p.Valid() && AllPlaced(p.Layout(), p.matchedBlocks, cells)
    modifies p`iceBlocks, p.blockList`state
    ensures p.Valid()
    ensures
      if p.blockList == [] || p.matchedBlocks == [] || p.phase != Shattering then
        p.iceBlocks == old(p.iceBlocks) && StatesOf(p) == old(StatesOf(p))
      else
        && StatesOf(p) == Touched(IceCells(p), old(StatesOf(p)), Flat(cells), |Flat(cells)|, 0)
        && p.iceBlocks == old(p.iceBlocks) + Taken(p.Layout(), IceCells(p), old(StatesOf(p)), Flat(cells), |Flat(cells)|, 0)
  {
    hide *;
    if p.blockList == [] || p.matchedBlocks == [] || p.phase != Shattering {
      return;
    }
    ghost var l, ice, s, taken, all := p.Layout(), IceCells(p), StatesOf(p), p.iceBlocks, Flat(cells);
    ghost var n := 0;
    SameKeys(p);
    TouchStart(l, ice, s, all);
    FlatStart(cells);
    AllPlacedSize(l, p.matchedBlocks, cells);
    for i := 0 to |p.matchedBlocks|
      invariant p.Valid() && p.Layout() == l && IceCells(p) == ice && AllPlaced(l, p.matchedBlocks, cells)
      invariant i <= |cells| && n == |Flat(cells[..i])| <= |all|
      invariant StatesOf(p) == Touched(ice, s, all, n, 0)
      invariant p.iceBlocks == taken + Taken(l, ice, s, all, n, 0)
    {
      AllPlacedAt(l, p.matchedBlocks, cells, i);
      FlatIndex(cells, i, |cells[i]|);
      CollectGroup(p, p.matchedBlocks[i], s, taken, cells, i);
      n := n + |cells[i]|;
    }
  }

  method CollectGroup(p: BasePlayer, group: seq<Block>, ghost s: States, ghost taken: set<Block>, ghost cells: seq<seq<Cell>>, ghost i: int)
    requires p.Valid() && 0 <= i < |cells| && Placed(p.Layout(), group, cells[i]) && s.Keys == p.Layout().Keys
    requires |Flat(cells[..i])| + |cells[i]| <= |Flat(cells)|
    requires StatesOf(p) == Touched(IceCells(p), s, Flat(cells), |Flat(cells[..i])|, 0)
    requires p.iceBlocks == taken + Taken(p.Layout(), IceCells(p), s, Flat(cells), |Flat(cells[..i])|, 0)
    modifies p`iceBlocks, p.blockList`state
    ensures p.Valid() && StatesOf(p) == Touched(IceCells(p), s, Flat(cells), |Flat(cells[..i])| + |cells[i]|, 0)
    ensures p.iceBlocks == taken + Taken(p.Layout(), IceCells(p), s, Flat(cells), |Flat(cells[..i])| + |cells[i]|, 0)
  {
    hide *;
    ghost var l, ice, all, base := p.Layout(), IceCells(p), Flat(cells), |Flat(cells[..i])|;
    PlacedPrefix(l, group, cells[i], 0);
    for j := 0 to |group|
      invariant p.Valid() && p.Layout() == l && IceCells(p) == ice
      invariant StatesOf(p) == Touched(ice, s, all, base + j, 0)
      invariant p.iceBlocks == taken + Taken(l, ice, s, all, base + j, 0)
    {
      FlatIndex(cells, i, j);
      PlacedPrefix(l, group, cells[i], j);
      StateAt(p, cells[i][j]);
      CollectAround(p, group[j], s, taken, all, base + j);
    }
  }

  lemma {:induction false} SameKeys(p: BasePlayer)
    requires p.Valid()
    ensures StatesOf(p).Keys == p.Layout().Keys
  {
  }

  lemma {:induction false} AllPlacedSize(l: map<Cell, Block>, groups: seq<seq<Block>>, cells: seq<seq<Cell>>)
    requires AllPlaced(l, groups, cells)
    ensures |groups| == |cells|
  {
  }

  lemma {:induction false} AllPlacedAt(l: map<Cell, Block>, groups: seq<seq<Block>>, cells: seq<seq<Cell>>, i: int)
    requires AllPlaced(l, groups, cells) && 0 <= i < |groups|
    ensures |groups| == |cells| && Placed(l, groups[i], cells[i]) && |groups[i]| == |cells[i]|
  {
  }

  /** What is collected: the resting ice next to some matched cell, and nothing else. */
  lemma {:induction false} CollectedIce(ice: set<Cell>, s: States, cells: seq<seq<Cell>>, c: Cell)
    ensures Beside(ice, s, Flat(cells), |Flat(cells)|, 0, c)
       <==> c in ice && c in s && s[c] == Stationary && exists d :: Adjacent(d, c) && InSome(cells, d)
  {
    var all := Flat(cells);
    if d :| Adjacent(d, c) && InSome(cells, d) {
      InFlat(cells, d);
      var i :| 0 <= i < |all| && all[i] == d;
    }
    if Beside(ice, s, all, |all|, 0, c) {
      var i :| 0 <= i < |all| && Adjacent(all[i], c);
      InFlat(cells, all[i]);
    }
  }
}
