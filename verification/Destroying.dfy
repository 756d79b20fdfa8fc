/** While matched groups disappear: from the match to the frame in which all of them are gone. */
module Destroying {
  import opened Geometry
  import opened Connectivity
  import opened BlockStates
  import opened Matching
  import opened PuyoBlocks
  import opened Players
  import opened Falling
  import opened Gravity
  import opened LinkStates
  import opened Clearing
  import opened Rounds
  import opened Settling
  import opened Garbage
  import opened Resting

  const EFFECT_DESTROY_TIME := 0.5
  const DESTROY_EXPAND_TIME := 0.5

  // ---------------------------------------------------------------- matched groups as one sequence

  /** Disjoint groups without repetitions have no repetition when written in one sequence. */
  lemma {:induction false} GroupsDistinct(groups: seq<seq<Cell>>)
    requires Disjoint(groups) && forall i :: 0 <= i < |groups| ==> Distinct(groups[i])
    ensures Distinct(Flat(groups))
  {
    if groups != [] {
      var n := |groups| - 1;
      var front, last := groups[..n], groups[n];
      GroupsDistinct(front);
      var before := Flat(front);
      forall c | c in before
        ensures c !in last
      {
        InFlat(front, c);
        var i :| 0 <= i < |front| && c in front[i];
        assert c in groups[i];
      }
      hide Flat;
      assert Distinct(before + last) by {
        assert forall i :: 0 <= i < |before| ==> before[i] in before;
      }
      assert Flat(groups) == before + last by { FlatLast(groups); }
    }
  }

  lemma {:induction false} FlatLast<T>(groups: seq<seq<T>>)
    requires groups != []
    ensures Flat(groups) == Flat(groups[..|groups| - 1]) + groups[|groups| - 1]
  {
  }

  lemma {:induction false} FlatLengths<S, T>(a: seq<seq<S>>, b: seq<seq<T>>)
    requires |a| == |b| && forall i :: 0 <= i < |a| ==> |a[i]| == |b[i]|
    ensures |Flat(a)| == |Flat(b)|
  {
    if a != [] { FlatLengths(a[..|a| - 1], b[..|b| - 1]); }
  }

  /** All matched blocks together fit on the board. */
  lemma {:induction false} GroupsFit(l: map<Cell, Block>, groups: seq<seq<Block>>, cells: seq<seq<Cell>>)
    requires AllPlaced(l, groups, cells) && Distinct(Flat(cells)) && forall c :: c in l ==> InBoard(c)
    ensures |Flat(groups)| == |Flat(cells)| == |SetOf(Flat(cells))| <= 78
    ensures SetOf(Flat(cells)) <= l.Keys
  {
    FlatLengths(groups, cells);
    DistinctSize(Flat(cells));
    FlatOnBoard(l, groups, cells);
    CellsFit(SetOf(Flat(cells)));
  }

  lemma {:induction false} FlatOnBoard(l: map<Cell, Block>, groups: seq<seq<Block>>, cells: seq<seq<Cell>>)
    requires AllPlaced(l, groups, cells)
    ensures forall c :: c in Flat(cells) ==> c in l
  {
    forall c | c in Flat(cells)
      ensures c in l
    {
      InFlat(cells, c);
      var i :| 0 <= i < |cells| && c in cells[i];
      assert Placed(l, groups[i], cells[i]);
    }
  }

  // ---------------------------------------------------------------- the state of disappearing

  ghost function Gone(cells: seq<seq<Cell>>, iceAt: set<Cell>): set<Cell> {
    SetOf(Flat(cells)) + iceAt
  }

  /** Every listed block has its cell on the board. */
  ghost predicate Seated(p: BasePlayer)
    reads p`blockList, p.blockList`kind, p.blockList`initialized
  {
    forall b :: b in p.blockList ==> p.Registered(b)
  }

  ghost predicate AllInRow(bs: seq<Block>)
    reads bs`y, bs`posY, bs`velocity
  {
    forall b :: b in bs ==> InItsRow(b)
  }

  ghost predicate KindsFit(bs: seq<Block>, matched: set<Cell>, iceAt: set<Cell>)
    reads bs`x, bs`y, bs`kind
  {
    forall b :: b in bs ==>
      (Cell(b.x, b.y) in matched ==> b.kind != Ice) && (Cell(b.x, b.y) in iceAt ==> b.kind == Ice)
  }

  /** The collected ice disappears, everything else still rests. */
  ghost predicate IceFades(bs: seq<Block>, iceAt: set<Cell>)
    reads bs`x, bs`y, bs`state
  {
    forall b :: b in bs ==> b.state == if Cell(b.x, b.y) in iceAt then BlockState.Destroying else Stationary
  }

  ghost predicate Unmarked(bs: seq<Block>)
    reads bs`recursionCheck
  {
    forall b :: b in bs ==> !b.recursionCheck
  }

  ghost predicate MarkedIn(bs: seq<Block>, m: set<Cell>)
    reads bs`recursionCheck, bs`x, bs`y
  {
    forall b :: b in bs && b.recursionCheck ==> Cell(b.x, b.y) in m
  }

  /** Every matched block has been disappearing for the time `t`, the collected ice disappears
      with them, and everything else rests exactly in its row. */
  ghost predicate Fading(bs: seq<Block>, matched: set<Cell>, iceAt: set<Cell>, t: real, over: bool)
    reads bs`x, bs`y, bs`state, bs`kind, bs`effectTime, bs`posY, bs`velocity
  {
    forall b :: b in bs ==>
      if Cell(b.x, b.y) in matched then b.kind != Ice && Look(b) == (if over then PlayOut else BlockState.Destroying, t)
      else if Cell(b.x, b.y) in iceAt then b.kind == Ice && b.state == BlockState.Destroying
      else b.state == Stationary && InItsRow(b)
  }

  /** The matched groups `cells` and the ice on `iceAt` lie where the list and the board say. */
  ghost predicate Matched(p: BasePlayer, cells: seq<seq<Cell>>, iceAt: set<Cell>)
    reads p`blockList, p.board, p`matchedBlocks, p`iceBlocks
    reads p.blockList`x, p.blockList`y, p.blockList`kind, p.blockList`initialized
  {
    && p.Valid() && Seated(p)
    && ColumnSorted(p.blockList) && Packed(p.Layout().Keys)
    && cells != [] && (forall i :: 0 <= i < |cells| ==> |cells[i]| >= MIN_MATCH_COUNT) && Distinct(Flat(cells))
    && AllPlaced(p.Layout(), p.matchedBlocks, cells)
    && iceAt <= p.Layout().Keys && p.iceBlocks == BlocksAt(p.Layout(), iceAt) && iceAt !! SetOf(Flat(cells))
  }

  /** The matched groups `cells` and the ice on `iceAt` are disappearing; the rest is at rest. */
  ghost predicate Clears(p: BasePlayer, cells: seq<seq<Cell>>, iceAt: set<Cell>, t: real, over: bool)
    reads p`blockList, p.board, p`matchedBlocks, p`iceBlocks
    reads p.blockList`x, p.blockList`y, p.blockList`kind, p.blockList`initialized, p.blockList`state
    reads p.blockList`posY, p.blockList`velocity, p.blockList`recursionCheck, p.blockList`effectTime
  {
    && Matched(p, cells, iceAt) && MarkedIn(p.blockList, SetOf(Flat(cells)))
    && Fading(p.blockList, SetOf(Flat(cells)), iceAt, t, over)
  }

  function Look(b: Block): (BlockState, real)
    reads b`state, b`effectTime
  {
    (b.state, b.effectTime)
  }

  // ---------------------------------------------------------------- one frame of disappearing

  /** A block that has been disappearing for the time `t` is over in the first frame that brings
      this time to one unit. */
  function Faded(t: real, dt: real): (BlockState, real) {
    if t > 1.0 || t + dt >= 1.0 then (PlayOut, 0.0) else (BlockState.Destroying, t + dt)
  }

  /** Block::UpdateDestroying: half a second of growing, half a second of turning, then it is over. */
  method UpdateDestroying(b: Block, dt: real)
    requires b.state == BlockState.Destroying
    modifies b`state, b`effectTime
    ensures (b.state, b.effectTime) == Faded(old(b.effectTime), dt)
    ensures dt >= 0.0 ==> (b.state == PlayOut <==> old(b.effectTime) + dt >= 1.0)
  {
    if b.effectTime > 1.0 {
      b.state, b.effectTime := PlayOut, 0.0;
      return;
    }
    b.effectTime := b.effectTime + dt;
    if b.effectTime > DESTROY_EXPAND_TIME {
      var rotationAngle := 360.0 * (b.effectTime - DESTROY_EXPAND_TIME) / EFFECT_DESTROY_TIME;
      if rotationAngle >= 360.0 {
        b.state, b.effectTime := PlayOut, 0.0;
      }
    }
  }

  /** What a frame makes of any block while nothing falls; disappearing ice only turns transparent. */
  function LookAfter(kind: BlockType, look: (BlockState, real), dt: real): (BlockState, real) {
    if look.0 == BlockState.Destroying && kind != Ice then Faded(look.1, dt) else look
  }

  method UpdateLooks(bs: seq<Block>, dt: real)
    requires Distinct(bs)
    modifies bs`state, bs`effectTime
    ensures forall b :: b in bs ==> Look(b) == LookAfter(b.kind, old(Look(b)), dt)
  {
    hide Faded;
    for n := 0 to |bs|
      invariant forall k :: n <= k < |bs| ==> Look(bs[k]) == old(Look(bs[k]))
      invariant forall k :: 0 <= k < n ==> Look(bs[k]) == LookAfter(bs[k].kind, old(Look(bs[k])), dt)
    {
      if bs[n].state == BlockState.Destroying && bs[n].kind != Ice {
        UpdateDestroying(bs[n], dt);
      }
    }
  }

  method FadeOn(bs: seq<Block>, dt: real, ghost matched: set<Cell>, ghost iceAt: set<Cell>, ghost t: real, ghost over: bool)
    returns (ghost t': real, ghost over': bool)
    requires Distinct(bs) && Fading(bs, matched, iceAt, t, over)
    modifies bs`state, bs`effectTime
    ensures Fading(bs, matched, iceAt, t', over')
    ensures (t', over') == if over then (t, true) else (Faded(t, dt).1, Faded(t, dt).0 == PlayOut)
  {
    t', over' := if over then t else Faded(t, dt).1, over || Faded(t, dt).0 == PlayOut;
    UpdateLooks(bs, dt);
    assert Faded(t, dt).0 == PlayOut || Faded(t, dt).0 == BlockState.Destroying;
    hide Faded, Distinct;
  }

  /** One frame: all matched blocks go on together, so all groups are over in the same frame. */
  method UpdateFading(p: BasePlayer, dt: real, ghost cells: seq<seq<Cell>>, ghost iceAt: set<Cell>, ghost t: real, ghost over: bool)
    returns (ghost t': real, ghost over': bool)
    requires Clears(p, cells, iceAt, t, over)
    modifies p.blockList`state, p.blockList`effectTime
    ensures Clears(p, cells, iceAt, t', over')
    ensures (t', over') == if over then (t, true) else (Faded(t, dt).1, Faded(t, dt).0 == PlayOut)
  {
    hide *;
    OpenClears(p, cells, iceAt, t, over);
    t', over' := FadeOn(p.blockList, dt, SetOf(Flat(cells)), iceAt, t, over);
    CloseClears(p, cells, iceAt, t', over');
  }

  lemma {:induction false} OpenClears(p: BasePlayer, cells: seq<seq<Cell>>, iceAt: set<Cell>, t: real, over: bool)
    requires Clears(p, cells, iceAt, t, over)
    ensures Matched(p, cells, iceAt) && MarkedIn(p.blockList, SetOf(Flat(cells)))
    ensures Fading(p.blockList, SetOf(Flat(cells)), iceAt, t, over) && Distinct(p.blockList)
  {
  }

  lemma {:induction false} CloseClears(p: BasePlayer, cells: seq<seq<Cell>>, iceAt: set<Cell>, t: real, over: bool)
    requires Matched(p, cells, iceAt) && MarkedIn(p.blockList, SetOf(Flat(cells)))
    requires Fading(p.blockList, SetOf(Flat(cells)), iceAt, t, over)
    ensures Clears(p, cells, iceAt, t, over)
  {
  }

  // ---------------------------------------------------------------- the start of disappearing

  /** The blocks of a registered list have different cells. */
  ghost predicate CellsDiffer(bs: seq<Block>)
    reads bs`x, bs`y
  {
    forall a, b :: a in bs && b in bs && a.x == b.x && a.y == b.y ==> a == b
  }

  lemma {:induction false} RegisteredDiffer(p: BasePlayer)
    requires p.Valid() && Seated(p)
    ensures CellsDiffer(p.blockList)
    ensures forall c :: c in p.Layout() ==> p.Layout()[c] in p.blockList && Cell(p.Layout()[c].x, p.Layout()[c].y) == c && InBoard(c)
    ensures forall b :: b in p.blockList ==> Cell(b.x, b.y) in p.Layout() && p.Layout()[Cell(b.x, b.y)] == b
  {
  }

  method StartDestroying(b: Block)
    modifies b`state, b`effectTime
    ensures Look(b) == (BlockState.Destroying, 0.0)
  {
    b.state, b.effectTime := BlockState.Destroying, 0.0;
  }

  method DestroyGroup(group: seq<Block>, ghost bs: seq<Block>, ghost l: map<Cell, Block>, ghost cs: seq<Cell>)
    requires Placed(l, group, cs) && CellsDiffer(bs)
    requires forall c :: c in l ==> l[c] in bs && Cell(l[c].x, l[c].y) == c
    modifies bs`state, bs`effectTime
    ensures forall b :: b in bs ==>
      Look(b) == if Cell(b.x, b.y) in cs then (BlockState.Destroying, 0.0) else old(Look(b))
  {
    hide *;
    PlacedPrefix(l, group, cs, 0);
    for j := 0 to |group|
      invariant forall b :: b in bs ==>
        Look(b) == if Cell(b.x, b.y) in cs[..j] then (BlockState.Destroying, 0.0) else old(Look(b))
    {
      PlacedPrefix(l, group, cs, j);
      OnlyAt(bs, group[j], cs[j]);
      StartDestroying(group[j]);
    }
    PlacedPrefix(l, group, cs, |group|);
    assert cs[..|cs|] == cs;
  }

  lemma {:induction false} OnlyAt(bs: seq<Block>, block: Block, c: Cell)
    requires CellsDiffer(bs) && block in bs && Cell(block.x, block.y) == c
    ensures forall b :: b in bs && b != block ==> Cell(b.x, b.y) != c
  {
  }

  /** Every matched block starts to disappear. */
  method DestroyGroups(p: BasePlayer, ghost cells: seq<seq<Cell>>)
    requires p.Valid() && AllPlaced(p.Layout(), p.matchedBlocks, cells) && Seated(p)
    modifies p.blockList`state, p.blockList`effectTime
    ensures forall b :: b in p.blockList ==>
      Look(b) == if Cell(b.x, b.y) in SetOf(Flat(cells)) then (BlockState.Destroying, 0.0) else old(Look(b))
  {
    hide *;
    RegisteredDiffer(p);
    ghost var bs, l := p.blockList, p.Layout();
    AllPlacedSize(l, p.matchedBlocks, cells);
    FlatStart(cells);
    for i := 0 to |p.matchedBlocks|
      invariant forall b :: b in bs ==>
        Look(b) == if Cell(b.x, b.y) in Flat(cells[..i]) then (BlockState.Destroying, 0.0) else old(Look(b))
    {
      AllPlacedAt(l, p.matchedBlocks, cells, i);
      FlatSplit(cells, i);
      DestroyGroup(p.matchedBlocks[i], bs, l, cells[i]);
    }
    InSetOf(Flat(cells));
  }

  method FadeGroups(p: BasePlayer, ghost cells: seq<seq<Cell>>, ghost iceAt: set<Cell>)
    requires p.Valid() && AllPlaced(p.Layout(), p.matchedBlocks, cells) && Seated(p)
    requires IceFades(p.blockList, iceAt) && KindsFit(p.blockList, SetOf(Flat(cells)), iceAt) && AllInRow(p.blockList)
    modifies p.blockList`state, p.blockList`effectTime
    ensures Fading(p.blockList, SetOf(Flat(cells)), iceAt, 0.0, false)
  {
    hide BasePlayer.Valid, BasePlayer.Layout, AllPlaced, InItsRow, SetOf, Flat;
    DestroyGroups(p, cells);
  }

  lemma {:induction false} InSetOf<T>(s: seq<T>)
    ensures forall x :: x in SetOf(s) <==> x in s
  {
  }

  ghost function IceAt(ice: set<Cell>, s: States, cells: seq<seq<Cell>>): set<Cell> {
    set c | c in s && Beside(ice, s, Flat(cells), |Flat(cells)|, 0, c)
  }

  /** What a check of the board goes by: the colours it can see, the ice, and the states. */
  datatype BoardView = BoardView(colours: Colours, ice: set<Cell>, states: States)

  ghost function ViewOf(p: BasePlayer): BoardView
    reads p`blockList, p.board, p.blockList`x, p.blockList`y, p.blockList`kind, p.blockList`initialized, p.blockList`state
  {
    if p.Valid() then BoardView(p.Coloured(), IceCells(p), StatesOf(p)) else BoardView(map[], {}, map[])
  }

  lemma {:induction false} ViewOfIs(p: BasePlayer)
    requires p.Valid()
    ensures ViewOf(p) == BoardView(p.Coloured(), IceCells(p), StatesOf(p))
  {
  }

  /** The groups and the ice that a round on such a board takes: all groups that are large enough, and all
      resting ice beside them. */
  ghost predicate TakesRound(v: BoardView, cells: seq<seq<Cell>>, iceAt: set<Cell>) {
    AllGroups(v.colours, cells) && iceAt == IceAt(v.ice, v.states, cells)
  }

  lemma {:induction false} TakesRoundIs(v: BoardView, cells: seq<seq<Cell>>, iceAt: set<Cell>)
    ensures TakesRound(v, cells, iceAt) <==> AllGroups(v.colours, cells) && iceAt == IceAt(v.ice, v.states, cells)
  {
  }

  lemma {:induction false} IceIsElsewhere(p: BasePlayer, cells: seq<seq<Cell>>)
    requires p.Valid() && p.Settled() && AllGroups(p.Coloured(), cells)
    ensures
      var iceAt := IceAt(IceCells(p), StatesOf(p), cells);
      && iceAt <= p.Layout().Keys && iceAt !! SetOf(Flat(cells))
      && Taken(p.Layout(), IceCells(p), StatesOf(p), Flat(cells), |Flat(cells)|, 0) == BlocksAt(p.Layout(), iceAt)
    ensures forall c :: c in IceAt(IceCells(p), StatesOf(p), cells) ==> p.At(c) != null && p.At(c).kind == Ice
    ensures forall c :: c in SetOf(Flat(cells)) ==> p.At(c) != null && p.At(c).kind != Ice
  {
    var iceAt := IceAt(IceCells(p), StatesOf(p), cells);
    SameKeys(p);
    forall c | c in iceAt
      ensures p.At(c) != null && p.At(c).kind == Ice
    {
      StateAt(p, c);
      assert RestingIce(IceCells(p), StatesOf(p), c);
    }
    forall c | c in SetOf(Flat(cells))
      ensures p.At(c) != null && p.At(c).kind != Ice
    {
      InFlat(cells, c);
      var i :| 0 <= i < |cells| && c in cells[i];
      assert IsGroup(p.Coloured(), cells[i]);
      p.ColouredAt(c);
    }
  }

  lemma {:induction false} GroupSizes(g: Colours, cells: seq<seq<Cell>>)
    requires AllGroups(g, cells)
    ensures Distinct(Flat(cells)) && forall i :: 0 <= i < |cells| ==> |cells[i]| >= MIN_MATCH_COUNT
  {
    forall i | 0 <= i < |cells|
      ensures Distinct(cells[i]) && |cells[i]| >= MIN_MATCH_COUNT
    {
      assert IsGroup(g, cells[i]);
    }
    GroupsDistinct(cells);
  }

  /** The ice beside the matched groups is collected. */
  method CollectIce(p: BasePlayer, ghost cells: seq<seq<Cell>>) returns (ghost iceAt: set<Cell>)
    requires AtRest(p) && AllGroups(p.Coloured(), cells) && AllPlaced(p.Layout(), p.matchedBlocks, cells)
    requires p.matchedBlocks != [] && p.iceBlocks == {} && p.phase == Shattering
    modifies p`iceBlocks, p.blockList`state
    ensures p.Valid() && IceFades(p.blockList, iceAt) && KindsFit(p.blockList, SetOf(Flat(cells)), iceAt)
    ensures iceAt <= p.Layout().Keys && p.iceBlocks == BlocksAt(p.Layout(), iceAt) && iceAt !! SetOf(Flat(cells))
    ensures iceAt == IceAt(old(IceCells(p)), old(StatesOf(p)), cells)
  {
    hide *;
    OpenRest(p);
    SomeBlocks(p, cells);
    ghost var ice, s := IceCells(p), StatesOf(p);
    iceAt := IceAt(ice, s, cells);
    IceIsElsewhere(p, cells);
    KindsByCell(p, cells, iceAt);
    SettledStates(p);
    CollectRemoveIceBlocks(p, cells);
    CollectedLooks(p, cells, ice, s);
  }

  lemma {:induction false} SomeBlocks(p: BasePlayer, cells: seq<seq<Cell>>)
    requires p.Valid() && AllGroups(p.Coloured(), cells) && AllPlaced(p.Layout(), p.matchedBlocks, cells) && p.matchedBlocks != []
    ensures p.blockList != [] && cells != []
  {
    assert IsGroup(p.Coloured(), cells[0]) && Placed(p.Layout(), p.matchedBlocks[0], cells[0]);
    assert cells[0][0] in p.Layout();
  }

  /** From a match to the disappearing groups: the ice beside them is collected, all start to disappear. */
  method StartClearing(p: BasePlayer, ghost cells: seq<seq<Cell>>) returns (ghost iceAt: set<Cell>)
    requires AtRest(p) && AllGroups(p.Coloured(), cells) && AllPlaced(p.Layout(), p.matchedBlocks, cells)
    requires p.matchedBlocks != [] && p.iceBlocks == {} && p.phase == Shattering
    requires forall c :: c in p.Marks() <==> InSome(cells, c)
    modifies p`iceBlocks, p.blockList`state, p.blockList`effectTime
    ensures Clears(p, cells, iceAt, 0.0, false) && iceAt == IceAt(old(IceCells(p)), old(StatesOf(p)), cells)
  {
    hide *;
    OpenRest(p);
    GroupSizes(p.Coloured(), cells);
    MarksInList(p, cells);
    SomeBlocks(p, cells);
    iceAt := CollectIce(p, cells);
    FadeGroups(p, cells, iceAt);
    CloseMatched(p, cells, iceAt);
    CloseClears(p, cells, iceAt, 0.0, false);
  }

  lemma {:induction false} SettledStates(p: BasePlayer)
    requires p.Valid() && p.Settled()
    ensures forall c :: c in StatesOf(p) ==> StatesOf(p)[c] == Stationary
    ensures StatesOf(p).Keys == p.Layout().Keys
  {
  }

  lemma {:induction false} KindsByCell(p: BasePlayer, cells: seq<seq<Cell>>, iceAt: set<Cell>)
    requires p.Valid() && Seated(p)
    requires forall c :: c in iceAt ==> p.At(c) != null && p.At(c).kind == Ice
    requires forall c :: c in SetOf(Flat(cells)) ==> p.At(c) != null && p.At(c).kind != Ice
    ensures KindsFit(p.blockList, SetOf(Flat(cells)), iceAt)
  {
  }

  lemma {:induction false} CollectedLooks(p: BasePlayer, cells: seq<seq<Cell>>, ice: set<Cell>, s: States)
    requires p.Valid() && Seated(p)
    requires StatesOf(p) == Touched(ice, s, Flat(cells), |Flat(cells)|, 0)
    requires s.Keys == p.Layout().Keys && forall c :: c in s ==> s[c] == Stationary
    ensures IceFades(p.blockList, IceAt(ice, s, cells))
  {
    forall b | b in p.blockList
      ensures b.state == if Cell(b.x, b.y) in IceAt(ice, s, cells) then BlockState.Destroying else Stationary
    {
      StateAt(p, Cell(b.x, b.y));
    }
  }

  lemma {:induction false} CloseMatched(p: BasePlayer, cells: seq<seq<Cell>>, iceAt: set<Cell>)
    requires p.Valid() && Seated(p)
    requires ColumnSorted(p.blockList) && Packed(p.Layout().Keys)
    requires cells != [] && (forall i :: 0 <= i < |cells| ==> |cells[i]| >= MIN_MATCH_COUNT) && Distinct(Flat(cells))
    requires AllPlaced(p.Layout(), p.matchedBlocks, cells)
    requires iceAt <= p.Layout().Keys && p.iceBlocks == BlocksAt(p.Layout(), iceAt) && iceAt !! SetOf(Flat(cells))
    ensures Matched(p, cells, iceAt)
  {
  }

  lemma {:induction false} OpenRest(p: BasePlayer)
    requires AtRest(p)
    ensures p.Valid() && p.Settled() && ColumnSorted(p.blockList) && Packed(p.Layout().Keys)
    ensures Seated(p) && AllInRow(p.blockList)
  {
  }

  lemma {:induction false} MarksInList(p: BasePlayer, cells: seq<seq<Cell>>)
    requires p.Valid() && p.Settled() && forall c :: c in p.Marks() <==> InSome(cells, c)
    ensures MarkedIn(p.blockList, SetOf(Flat(cells)))
  {
    forall b | b in p.blockList && b.recursionCheck
      ensures Cell(b.x, b.y) in SetOf(Flat(cells))
    {
      var c := Cell(b.x, b.y);
      assert p.At(c) == b;
      p.ColouredAt(c);
      InFlat(cells, c);
    }
  }

  // ---------------------------------------------------------------- the end of disappearing

  /** All groups are over at once or none is: what a round relies on. */
  lemma {:induction false} ClearsReady(p: BasePlayer, cells: seq<seq<Cell>>, iceAt: set<Cell>, t: real, over: bool)
    requires Clears(p, cells, iceAt, t, over)
    ensures ReadyToClear(p, cells, iceAt) && (over <==> PlayedOut(StatesOf(p), Flat(cells))) && p.matchedBlocks != []
  {
    RegisteredDiffer(p);
    AllPlacedSize(p.Layout(), p.matchedBlocks, cells);
    FlatOnBoard(p.Layout(), p.matchedBlocks, cells);
    forall c | c in Flat(cells)
      ensures c in StatesOf(p) && StatesOf(p)[c] == if over then PlayOut else BlockState.Destroying
    {
      StateAt(p, c);
    }
    forall i | 0 <= i < |cells| && !over
      ensures !PlayedOut(StatesOf(p), cells[i])
    {
      FlatIndex(cells, i, 0);
      assert cells[i][0] in Flat(cells);
    }
    assert cells[0][0] in Flat(cells) by { FlatIndex(cells, 0, 0); FlatStart(cells); }
  }

  /** The first group tells whether all of them are over. */
  lemma {:induction false} FirstGroupTells(p: BasePlayer, cells: seq<seq<Cell>>, iceAt: set<Cell>, t: real, over: bool)
    requires Clears(p, cells, iceAt, t, over)
    ensures p.matchedBlocks != []
    ensures over <==> forall b :: b in p.matchedBlocks[0] ==> b.state == PlayOut
  {
    RegisteredDiffer(p);
    assert Placed(p.Layout(), p.matchedBlocks[0], cells[0]);
    FlatOnBoard(p.Layout(), p.matchedBlocks, cells);
    var group := p.matchedBlocks[0];
    assert |group| > 0;
    forall k | 0 <= k < |group|
      ensures group[k].state == if over then PlayOut else BlockState.Destroying
    {
      FlatIndex(cells, 0, k);
      FlatStart(cells);
      assert cells[0][k] in Flat(cells);
    }
    assert group[0] in group;
  }

  lemma {:induction false} FadedIs(t: real, dt: real)
    requires t < 1.0
    ensures Faded(t, dt) == if t + dt >= 1.0 then (PlayOut, 0.0) else (BlockState.Destroying, t + dt)
  {
  }

  /** Frame by frame, until the matched groups are over: that is in the first frame that brings their time
      to one unit, and it does come if the frames last long enough. */
  method FadeOut(p: BasePlayer, dts: seq<real>, ghost cells: seq<seq<Cell>>, ghost iceAt: set<Cell>, ghost t: real)
    returns (n: nat, over: bool, ghost t': real)
    requires Clears(p, cells, iceAt, t, false) && t < 1.0 && forall k :: 0 <= k < |dts| ==> dts[k] >= 0.0
    modifies p.blockList`state, p.blockList`effectTime
    ensures Clears(p, cells, iceAt, t', over) && n <= |dts| && (!over ==> n == |dts|)
    ensures over <==> t + Total(dts) >= 1.0
    ensures over ==> n > 0 && t + Total(dts[..n - 1]) < 1.0 <= t + Total(dts[..n])
  {
    hide *;
    n, over, t' := 0, false, t;
    TotalStart(dts);
    while n < |dts| && !over
      invariant n <= |dts| && Clears(p, cells, iceAt, t', over)
      invariant !over ==> t' == t + Total(dts[..n]) < 1.0
      invariant over ==> n > 0 && t + Total(dts[..n - 1]) < 1.0 <= t + Total(dts[..n])
    {
      FadedIs(t', dts[n]);
      TotalNext(dts, n);
      ghost var gone;
      t', gone := UpdateFading(p, dts[n], cells, iceAt, t', over);
      FirstGroupTells(p, cells, iceAt, t', gone);
      over := AllPlayedOut(p.matchedBlocks[0]);
      n := n + 1;
    }
    TotalMonotone(dts, n);
  }

  ghost predicate SurvivorsInRow(l: map<Cell, Block>, gone: set<Cell>)
    reads l.Values`y, l.Values`posY, l.Values`velocity
  {
    forall c :: c in l && c !in gone ==> InItsRow(l[c])
  }

  ghost predicate SurvivorsRest(s: States, gone: set<Cell>) {
    forall c :: c in s && c !in gone ==> s[c] == Stationary
  }

  /** What is known of a list `bs` and a board `l`, `s` from which the cells `gone` are about to be
      cleared; a round changes none of it. */
  ghost predicate Clearable(bs: seq<Block>, l: map<Cell, Block>, s: States, gone: set<Cell>)
    reads bs`x, bs`y, bs`posY, bs`velocity, bs`recursionCheck, bs`kind, bs`initialized
  {
    && (forall b :: b in l.Values ==> b in bs) && (forall b :: b in bs ==> b.kind == Ice ==> b.initialized)
    && ListsBoard(bs, l) && ColumnSorted(bs) && Packed(l.Keys) && Distinct(bs)
    && s.Keys == l.Keys && gone <= l.Keys && MarkedIn(bs, gone)
    && SurvivorsInRow(l, gone) && SurvivorsRest(s, gone) && forall c :: c in gone ==> InBoard(c)
  }

  lemma {:induction false} ClearsSurvivors(p: BasePlayer, cells: seq<seq<Cell>>, iceAt: set<Cell>, t: real, over: bool)
    requires Clears(p, cells, iceAt, t, over)
    ensures Clearable(p.blockList, p.Layout(), StatesOf(p), Gone(cells, iceAt))
    ensures |Gone(cells, iceAt)| >= |Flat(p.matchedBlocks)| >= 4
  {
    RegisteredDiffer(p);
    SameKeys(p);
    AllPlacedSize(p.Layout(), p.matchedBlocks, cells);
    GroupsFit(p.Layout(), p.matchedBlocks, cells);
    CardinalityOrder(SetOf(Flat(cells)), Gone(cells, iceAt));
    FlatIndex(cells, 0, 4);
    FlatStart(cells);
    forall c | c in p.Layout() && c !in Gone(cells, iceAt)
      ensures InItsRow(p.Layout()[c]) && StatesOf(p)[c] == Stationary
    {
      StateAt(p, c);
    }
    forall i | 0 <= i < |p.blockList|
      ensures Cell(p.blockList[i].x, p.blockList[i].y) in p.Layout() && p.Layout()[Cell(p.blockList[i].x, p.blockList[i].y)] == p.blockList[i]
    {
      assert p.blockList[i] in p.blockList;
    }
  }

  lemma {:induction false} WithoutSize(bs: seq<Block>, gone: set<Block>)
    requires Distinct(bs) && gone <= SetOf(bs)
    ensures |Without(bs, gone)| + |gone| == |bs|
  {
    if bs == [] {
      assert gone == {};
    } else {
      var front, last := bs[..|bs| - 1], bs[|bs| - 1];
      assert bs == front + [last];
      WithoutSnoc(front, last, gone);
      if last in gone {
        WithoutSize(front, gone - {last});
        WithoutLess(front, gone, last);
      } else {
        WithoutSize(front, gone);
      }
    }
  }

  lemma {:induction false} WithoutLess(bs: seq<Block>, gone: set<Block>, b: Block)
    requires b !in bs
    ensures Without(bs, gone - {b}) == Without(bs, gone)
  {
    if bs != [] { WithoutLess(bs[..|bs| - 1], gone, b); }
  }

  lemma {:induction false} BlocksAtSize(l: map<Cell, Block>, cells: set<Cell>)
    requires cells <= l.Keys && forall c :: c in l ==> l[c].x == c.x && l[c].y == c.y
    ensures |BlocksAt(l, cells)| == |cells|
    decreases |cells|
  {
    if cells == {} {
      assert BlocksAt(l, cells) == {};
    } else {
      var c :| c in cells;
      BlocksAtSize(l, cells - {c});
      assert BlocksAt(l, cells) == BlocksAt(l, cells - {c}) + {l[c]};
      assert l[c] !in BlocksAt(l, cells - {c});
    }
  }

  /** After a round: everything on the board falls or rests, nothing is marked, and the cleared
      blocks are gone from the list. */
  lemma {:induction false} RoundEnds(p: BasePlayer, bs: seq<Block>, l: map<Cell, Block>, s: States, gone: set<Cell>)
    requires RoundDone(p, bs, l, s, gone) && Clearable(bs, l, s, gone)
    ensures p.Valid() && p.matchedBlocks == [] && p.iceBlocks == {} && AboutToFall(View(p))
    ensures Seated(p) && Unmarked(p.blockList) && |p.blockList| + |gone| == |bs|
    ensures forall i :: 0 <= i < |p.blockList| ==> p.blockList[i] in bs
  {
    hide *;
    OpenClearable(bs, l, s, gone);
    RoundStartsFall(p, bs, l, s, gone);
    OpenRound(p, bs, l, s, gone);
    RoundList(p, bs, l, s, gone);
  }

  lemma {:induction false} OpenClearable(bs: seq<Block>, l: map<Cell, Block>, s: States, gone: set<Cell>)
    requires Clearable(bs, l, s, gone)
    ensures ListsBoard(bs, l) && ColumnSorted(bs) && Packed(l.Keys) && s.Keys == l.Keys
    ensures forall c :: c in l && c !in gone ==> c in s && s[c] == Stationary && InItsRow(l[c])
  {
  }

  lemma {:induction false} OpenRound(p: BasePlayer, bs: seq<Block>, l: map<Cell, Block>, s: States, gone: set<Cell>)
    requires RoundDone(p, bs, l, s, gone)
    ensures p.Valid() && p.matchedBlocks == [] && p.iceBlocks == {} && p.blockList == Without(bs, BlocksAt(l, gone))
  {
  }

  lemma {:induction false} RoundList(p: BasePlayer, bs: seq<Block>, l: map<Cell, Block>, s: States, gone: set<Cell>)
    requires p.blockList == Without(bs, BlocksAt(l, gone)) && Clearable(bs, l, s, gone)
    ensures Seated(p) && Unmarked(p.blockList) && |p.blockList| + |gone| == |bs|
    ensures forall i :: 0 <= i < |p.blockList| ==> p.blockList[i] in bs
  {
    BlocksAtSize(l, gone);
    WithoutSize(bs, BlocksAt(l, gone));
    forall b | b in p.blockList
      ensures b in bs && Cell(b.x, b.y) !in gone
    {
      InWithout(bs, BlocksAt(l, gone), b);
      var i :| 0 <= i < |bs| && bs[i] == b;
      assert l[Cell(b.x, b.y)] == b;
    }
    hide Without, BlocksAt;
  }
}
