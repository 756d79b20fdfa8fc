module BlockStates {
  datatype BlockState = Stationary | Destroying | DownMoving | PlayOut
}

module PuyoBlocks {
  import opened Geometry
  import opened Connectivity
  import opened BlockStates

  class Block {
    var kind: BlockType
    var state: BlockState
    var link: set<Direction>
    var recursionCheck: bool
    var x: int
    var y: int
    var posY: real
    var velocity: real
    /** Ice only: the block has landed at least once and so has a cell on the board. */
    var initialized: bool
    /** Coloured blocks only: how long the block has been disappearing. */
    var effectTime: real

    constructor (kind: BlockType, x: int, y: int, posY: real, state: BlockState)
      ensures this.kind == kind && this.state == state && this.x == x && this.y == y && this.posY == posY
      ensures link == {} && !recursionCheck && velocity == 0.0 && !initialized && effectTime == 0.0
    {
      this.kind, this.state, this.x, this.y, this.posY := kind, state, x, y, posY;
      link, recursionCheck, velocity, initialized, effectTime := {}, false, 0.0, false, 0.0;
    }
  }
}

module Players {
  import opened Geometry
  import opened Connectivity
  import opened BlockStates
  import opened Matching
  import opened PuyoBlocks

  /** The sizes of the groups of one round, its points, and the price of an ice block at the time. */
  datatype Round = Round(sizes: seq<int>, score: int, margin: int)

  /** The rounds of a chain, the total score before it, and the ice blocks its rounds have been counted for. */
  datatype ChainScore = ChainScore(rounds: seq<Round>, total: int, attacked: int)

  datatype GamePhase = Standing | Playing | IceBlocking | Shattering | GameOver

  class BasePlayer {
    const board: array2<Block?>
    var blockList: seq<Block>
    /** Groups that are being cleared, and the ice that goes with them. */
    var matchedBlocks: seq<seq<Block>>
    var iceBlocks: set<Block>
    var phase: GamePhase
    var shouldQuit: bool
    var isGameQuit: bool
    var comboCount: int
    var totalScore: int
    var restScore: int
    /** Pending ice, the server's count of the opponent's pending ice, and the last attack. */
    var totalInterrupt: int
    var totalEnemyInterrupt: int
    var addInterrupt: int
    var hasIceBlock: bool
    var isComboAttack: bool
    var isDefending: bool
    var defenseCount: int
    var playTime: real
    const isServer: bool
    /** The rounds of the present chain, counted independently of `comboCount`. */
    ghost var chain: int
    ghost var scored: ChainScore

    /** A new game: an empty board, nothing pending. */
    constructor (isServer: bool)
      ensures Valid() && fresh(board) && blockList == [] && matchedBlocks == [] && iceBlocks == {} && phase == Playing
      ensures comboCount == 0 && restScore == 0 && totalInterrupt == 0 && !hasIceBlock && !shouldQuit
      ensures this.isServer == isServer && forall c :: InBoard(c) ==> board[c.y, c.x] == null
    {
      board := new Block?[BOARD_Y_COUNT, BOARD_X_COUNT]((i, j) => null);
      blockList, matchedBlocks, iceBlocks, phase := [], [], {}, Playing;
      shouldQuit, isGameQuit, hasIceBlock, isComboAttack, isDefending := false, false, false, false, false;
      comboCount, totalScore, restScore, totalInterrupt, totalEnemyInterrupt, addInterrupt, defenseCount := 0, 0, 0, 0, 0, 0, 0;
      playTime, chain, scored := 0.0, 0, ChainScore([], 0, 0);
      this.isServer := isServer;
    }

    /** Freshly dropped ice is in the list but has no cell of its own yet. */
    ghost predicate Registered(b: Block)
      reads b`kind, b`initialized
    {
      b.kind == Ice ==> b.initialized
    }

    /** The board has its size and holds listed blocks only; a block is listed once. */
    ghost predicate Wired()
      reads this`blockList, board
    {
      && board.Length0 == BOARD_Y_COUNT && board.Length1 == BOARD_X_COUNT
      && (forall i, j :: 0 <= i < j < |blockList| ==> blockList[i] != blockList[j])
      && (forall c :: InBoard(c) && board[c.y, c.x] != null ==> board[c.y, c.x] in blockList)
    }

    /** The list and the board agree: a block is on the board, at its own index and nowhere
        else, exactly when it is registered. */
    ghost predicate Valid()
      reads this`blockList, board, blockList`x, blockList`y, blockList`kind, blockList`initialized
    {
      && Wired()
      && (forall c :: InBoard(c) && board[c.y, c.x] != null ==>
            var b := board[c.y, c.x]; b.x == c.x && b.y == c.y && Registered(b))
      && (forall b :: b in blockList && Registered(b) ==>
            InBoard(Cell(b.x, b.y)) && board[b.y, b.x] == b)
    }

    ghost predicate Settled()
      reads this`blockList, blockList`state, blockList`kind, blockList`initialized
    {
      forall b :: b in blockList ==> b.state == Stationary && Registered(b)
    }

    /** The block at a cell, `null` outside the board. */
    function At(c: Cell): (b: Block?)
      requires Valid()
      reads this`blockList, board, blockList`x, blockList`y, blockList`kind, blockList`initialized
      ensures b != null ==> b in blockList && InBoard(c) && b.x == c.x && b.y == c.y && Registered(b)
    {
      if InBoard(c) then board[c.y, c.x] else null
    }

    /** The board as a value: which block lies where. */
    ghost function Layout(): (l: map<Cell, Block>)
      requires Valid()
      reads this`blockList, board, blockList`x, blockList`y, blockList`kind, blockList`initialized
    {
      map c | c in AllCells() && At(c) != null :: At(c)
    }

    /** The colours the flood fill can see. */
    ghost function Coloured(): (g: Colours)
      requires Valid()
      reads this`blockList, board, blockList`x, blockList`y, blockList`kind, blockList`initialized, blockList`state
    {
      map c | c in AllCells() && At(c) != null && At(c).state == Stationary && At(c).kind != Ice :: At(c).kind
    }

    ghost function Marks(): (m: set<Cell>)
      requires Valid()
      reads this`blockList, board, blockList`x, blockList`y, blockList`kind, blockList`initialized, blockList`recursionCheck
    {
      set c | c in AllCells() && At(c) != null && At(c).recursionCheck
    }

    method SetRecursionCheck(b: Block, check: bool)
      requires Valid() && At(Cell(b.x, b.y)) == b
      modifies b`recursionCheck
      ensures Valid() && Layout() == old(Layout()) && Coloured() == old(Coloured())
      ensures Marks() == if check then old(Marks()) + {Cell(b.x, b.y)} else old(Marks()) - {Cell(b.x, b.y)}
    {
      b.recursionCheck := check;
    }

    /** Marks and returns the blocks `found` that the fill reaches from (x, y) and that
        were not marked yet; `cs` are their cells. */
    method RecursionCheckBlock(x: int, y: int, direction: Direction)
      returns (matchCount: int, found: seq<Block>, ghost cs: seq<Cell>)
      requires Valid() && Cell(x, y) in Marks() && Cell(x, y) in Coloured()
      requires direction != None ==> Neighbour(Cell(x, y), direction) in Marks()
      modifies blockList`recursionCheck
      ensures Valid() && Layout() == old(Layout()) && Coloured() == old(Coloured())
      ensures matchCount == |found| && Placed(Layout(), found, cs)
      ensures Filled(Coloured(), Cell(x, y), old(Marks()), Marks(), cs)
      ensures Expanded(Coloured(), Cell(x, y), Marks(), 4)
      decreases Coloured().Keys - Marks()
    {
      hide *;
      var seed := Cell(x, y);
      ColouredAt(seed);
      var blockType := At(seed).kind;
      matchCount, found, cs := 0, [], [];
      ghost var g, l := Coloured(), Layout();
      NothingFilled(g, seed, Marks());
      assert Placed(l, [], []) by { PlacedNothing(l); }
      for k := 0 to 4
        invariant Valid() && Layout() == l && Coloured() == g
        invariant matchCount == |found| && Placed(l, found, cs)
        invariant Filled(g, seed, old(Marks()), Marks(), cs)
        invariant Expanded(g, seed, Marks(), k)
      {
        var dir := DirectionAt(k);
        var c := Neighbour(seed, dir);
        ColouredAt(c);
        LookAround(g, seed, old(Marks()), Marks(), cs, k);
        if direction == dir {
          continue;
        }
        if !InBoard(c) {
          continue;
        }
        var checkBlock := At(c);
        if checkBlock == null || checkBlock.recursionCheck || checkBlock.state != Stationary {
          continue;
        }
        if blockType == checkBlock.kind {
          ghost var m0 := Marks();
          SetRecursionCheck(checkBlock, true);
          var count, more;
          ghost var ds;
          count, more, ds := RecursionCheckBlock(c.x, c.y, Opposite(dir));
          FilledExtends(g, seed, old(Marks()), m0, cs, c, Marks(), ds, k);
          PlacedExtends(l, found, cs, checkBlock, c, more, ds);
          matchCount := matchCount + 1 + count;
          found := found + [checkBlock] + more;
          cs := cs + [c] + ds;
        }
      }
    }

    method ClearRecursionChecks(group: seq<Block>, ghost cs: seq<Cell>)
      requires Valid() && Placed(Layout(), group, cs)
      modifies blockList`recursionCheck
      ensures Valid() && Layout() == old(Layout()) && Coloured() == old(Coloured())
      ensures Marks() == old(Marks()) - set c | c in cs
    {
      hide *;
      ghost var l, g, m := Layout(), Coloured(), Marks();
      PlacedPrefix(l, group, cs, 0);
      for i := 0 to |group|
        invariant Valid() && Layout() == l && Coloured() == g
        invariant i <= |cs| && Marks() == m - set c | c in cs[..i]
      {
        PlacedPrefix(l, group, cs, i);
        ColouredAt(cs[i]);
        assert (set c | c in cs[..i] + [cs[i]]) == (set c | c in cs[..i]) + {cs[i]};
        SetRecursionCheck(group[i], false);
      }
      PlacedPrefix(l, group, cs, |group|);
    }

    /** Fills from an unmarked block.  A large enough group is kept, with the block itself
        last; the marks of a smaller one are taken back.  `m'` are the marks after the fill. */
    method MatchFrom(block: Block)
      returns (matches: bool, currentGroup: seq<Block>, ghost cs: seq<Cell>, ghost m': set<Cell>)
      requires Valid() && At(Cell(block.x, block.y)) == block
      requires Cell(block.x, block.y) in Coloured() && Cell(block.x, block.y) !in Marks()
      modifies blockList`recursionCheck
      ensures Valid() && Layout() == old(Layout()) && Coloured() == old(Coloured())
      ensures Filled(Coloured(), Cell(block.x, block.y), old(Marks()) + {Cell(block.x, block.y)}, m', cs)
      ensures Expanded(Coloured(), Cell(block.x, block.y), m', 4)
      ensures matches <==> |cs| >= MIN_MATCH_COUNT - 1
      ensures matches ==> Marks() == m' && Placed(Layout(), currentGroup, cs + [Cell(block.x, block.y)])
      ensures !matches ==> Marks() == old(Marks())
    {
      hide *;
      ghost var l, g, m, c := Layout(), Coloured(), Marks(), Cell(block.x, block.y);
      SetRecursionCheck(block, true);
      var matchCount;
      matchCount, currentGroup, cs := RecursionCheckBlock(block.x, block.y, None);
      m' := Marks();
      ColouredAt(c);
      PlacedNothing(l);
      PlacedExtends(l, currentGroup, cs, block, c, [], []);
      if matchCount >= MIN_MATCH_COUNT - 1 {
        currentGroup := currentGroup + [block];
        matches := true;
      } else {
        SetRecursionCheck(block, false);
        ClearRecursionChecks(currentGroup, cs);
        FillUndone(g, c, m, m', cs);
        matches := false;
      }
    }

    /** Scans the board for groups to clear.  A row is left early once as many blocks have
        been met as the list holds. */
    method FindMatchedBlocks() returns (matched: seq<seq<Block>>, ghost cells: seq<seq<Cell>>)
      requires Valid() && Settled() && Marks() == {}
      modifies blockList`recursionCheck
      ensures Valid() && Layout() == old(Layout()) && Coloured() == old(Coloured())
      ensures AllGroups(Coloured(), cells) && AllPlaced(Layout(), matched, cells)
      ensures forall c :: c in Marks() <==> InSome(cells, c)
    {
      hide *;
      matched, cells := [], [];
      var blockCount := 0;
      ghost var g, l := Coloured(), Layout();
      BoardSizes();
      ColouredInLayout();
      SettledCount();
      AllPlacedNothing(l);
      ScanStart(g, l.Keys);
      for y := 0 to BOARD_Y_COUNT
        invariant Valid() && Settled() && Layout() == l && Coloured() == g
        invariant AllPlaced(l, matched, cells) && blockCount == Count(l.Keys, 0, y)
        invariant ScanInvariant(g, cells, Marks(), 0, y)
      {
        var x := 0;
        while x < BOARD_X_COUNT
          invariant 0 <= x <= BOARD_X_COUNT
          invariant Valid() && Settled() && Layout() == l && Coloured() == g
          invariant AllPlaced(l, matched, cells) && blockCount == Count(l.Keys, x, y)
          invariant ScanInvariant(g, cells, Marks(), x, y)
        {
          if blockCount == |blockList| {
            break;
          }
          ghost var c := Cell(x, y);
          ColouredAt(c);
          CountStep(l.Keys, x, y);
          if At(Cell(x, y)) == null {
            ScanSkip(g, cells, Marks(), x, y);
            x := x + 1;
            continue;
          } else {
            blockCount := blockCount + 1;
          }
          var block: Block := At(Cell(x, y));
          if block.kind == Ice || block.recursionCheck {
            ScanSkip(g, cells, Marks(), x, y);
            x := x + 1;
            continue;
          }
          SettledAt(c);
          ghost var m := Marks();
          var matches, currentGroup;
          ghost var cs, m';
          matches, currentGroup, cs, m' := MatchFrom(block);
          if matches {
            ScanAccept(g, cells, m, x, y, m', cs);
            AllPlacedAppend(l, matched, cells, currentGroup, cs + [c]);
            matched := matched + [currentGroup];
            cells := cells + [cs + [c]];
          } else {
            ScanReject(g, cells, m, x, y, m', cs);
          }
          x := x + 1;
        }
        RowDone(l.Keys, x, y);
        ScanNextRow(g, cells, Marks(), x, y);
      }
      ScanEnd(g, cells, Marks());
    }

    lemma {:induction false} ColouredInLayout()
      requires Valid()
      ensures Coloured().Keys <= Layout().Keys
      ensures forall c :: c in Layout() ==> InBoard(c)
    {
    }

    lemma {:induction false} SettledAt(c: Cell)
      requires Valid() && Settled()
      ensures At(c) != null ==> At(c).state == Stationary
    {
    }

    ghost function Positions(n: nat): (cs: seq<Cell>)
      requires n <= |blockList|
      reads this`blockList, blockList`x, blockList`y
      ensures |cs| == n && forall i :: 0 <= i < n ==> cs[i] == Cell(blockList[i].x, blockList[i].y)
    {
      if n == 0 then [] else Positions(n - 1) + [Cell(blockList[n - 1].x, blockList[n - 1].y)]
    }

    lemma {:induction false} PositionsStart()
      ensures Positions(0) == []
    {
    }

    /** At rest the listed blocks are exactly what the board holds, cell by cell. */
    lemma {:induction false} SettledBlock(i: int)
      requires Valid() && Settled() && 0 <= i < |blockList|
      ensures var b := blockList[i];
        At(Cell(b.x, b.y)) == b && b.state == Stationary && Positions(i + 1) == Positions(i) + [Cell(b.x, b.y)]
    {
      assert blockList[i] in blockList;
    }

    lemma {:induction false} PositionsAll()
      requires Valid()
      ensures forall c :: c in Coloured() ==> c in Positions(|blockList|)
    {
      forall c | c in Coloured()
        ensures c in Positions(|blockList|)
      {
        var i :| 0 <= i < |blockList| && blockList[i] == At(c);
        assert Positions(|blockList|)[i] == c;
      }
    }

    /** At rest the list is exactly what lies on the board. */
    lemma {:induction false} SettledCount()
      requires Valid() && Settled()
      ensures |Layout().Keys| == |blockList|
    {
      var cs := Positions(|blockList|);
      forall i | 0 <= i < |cs|
        ensures cs[i] in Layout() && Layout()[cs[i]] == blockList[i]
      {
        assert blockList[i] in blockList;
      }
      assert Distinct(cs);
      DistinctSize(cs);
      forall c | c in Layout()
        ensures c in cs
      {
        var i :| 0 <= i < |blockList| && blockList[i] == Layout()[c];
        assert cs[i] == c;
      }
      assert Layout().Keys == set c | c in cs;
    }

    lemma {:induction false} ColouredAt(c: Cell)
      requires Valid()
      ensures c in Coloured() <==> At(c) != null && At(c).state == Stationary && At(c).kind != Ice
      ensures c in Coloured() ==> Coloured()[c] == At(c).kind
      ensures c in Marks() <==> At(c) != null && At(c).recursionCheck
      ensures c in Layout() <==> At(c) != null
      ensures c in Layout() ==> Layout()[c] == At(c)
    {
    }
  }

  /** The blocks of a group are those that lie on the cells `cs`. */
  ghost predicate Placed(l: map<Cell, Block>, group: seq<Block>, cs: seq<Cell>) {
    |group| == |cs| && forall i :: 0 <= i < |cs| ==> cs[i] in l && l[cs[i]] == group[i]
  }

  ghost predicate AllPlaced(l: map<Cell, Block>, groups: seq<seq<Block>>, cells: seq<seq<Cell>>) {
    |groups| == |cells| && forall i :: 0 <= i < |groups| ==> Placed(l, groups[i], cells[i])
  }

  lemma {:induction false} AllPlacedNothing(l: map<Cell, Block>)
    ensures AllPlaced(l, [], [])
  {
  }

  lemma {:induction false} AllPlacedAppend(l: map<Cell, Block>, groups: seq<seq<Block>>, cells: seq<seq<Cell>>, group: seq<Block>, cs: seq<Cell>)
    requires AllPlaced(l, groups, cells) && Placed(l, group, cs)
    ensures AllPlaced(l, groups + [group], cells + [cs])
  {
  }

  lemma {:induction false} PlacedPrefix(l: map<Cell, Block>, group: seq<Block>, cs: seq<Cell>, i: nat)
    requires Placed(l, group, cs) && i <= |group|
    ensures |group| == |cs|
    ensures i == 0 ==> (set c | c in cs[..i]) == {}
    ensures i < |group| ==> cs[i] in l && l[cs[i]] == group[i] && cs[..i + 1] == cs[..i] + [cs[i]]
    ensures i == |group| ==> (set c | c in cs[..i]) == set c | c in cs
  {
    if i == |cs| { assert cs[..i] == cs; }
  }

  lemma {:induction false} PlacedNothing(l: map<Cell, Block>)
    ensures Placed(l, [], [])
  {
  }

  lemma {:induction false} PlacedExtends(l: map<Cell, Block>, g1: seq<Block>, cs1: seq<Cell>, b: Block, c: Cell, g2: seq<Block>, cs2: seq<Cell>)
    requires Placed(l, g1, cs1) && c in l && l[c] == b && Placed(l, g2, cs2)
    ensures |g1| == |cs1| && Placed(l, g1 + [b] + g2, cs1 + [c] + cs2)
    ensures g2 == [] ==> Placed(l, g1 + [b], cs1 + [c])
  {
  }
}
