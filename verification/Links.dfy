/** Link masks: which neighbours of a block have its colour.  On values first. */
module LinkMasks {
  import opened Geometry
  import opened Connectivity
  import opened Matching

  /** The mask of every block on the board, as the set of its bits. */
  type Masks = map<Cell, set<Direction>>

  const SIDES: set<Direction> := {Left, Right, Top, Bottom}

  /** The bits a block should have.  The program names the bit for a neighbour after the
      opposite side: a neighbour on the left sets `Right`. */
  ghost function Expected(g: Colours, c: Cell): set<Direction> {
    set d | d in SIDES && Linked(g, c, Neighbour(c, Opposite(d)))
  }

  /** Every coloured resting block has exactly the bits of its same-colour neighbours. */
  ghost predicate Exact(g: Colours, m: Masks) {
    forall c :: c in g ==> c in m && m[c] == Expected(g, c)
  }

  /** The bits that looking in the first `k` directions from `c` gives to `e`. */
  ghost function BitsFor(g: Colours, c: Cell, e: Cell, k: int): set<Direction>
    requires 0 <= k <= 4
  {
    set j | 0 <= j < k && e == Neighbour(c, DirectionAt(j)) && Linked(g, c, e) :: DirectionAt(j)
  }

  ghost function OwnBits(g: Colours, c: Cell, k: int): set<Direction>
    requires 0 <= k <= 4
  {
    set j | 0 <= j < k && Linked(g, c, Neighbour(c, DirectionAt(j))) :: Opposite(DirectionAt(j))
  }

  ghost function With(bits: set<Direction>, more: set<Direction>): set<Direction> {
    bits + more
  }

  /** All masks after the neighbours of `c` in the first `k` directions have been told about it. */
  ghost function Told(g: Colours, m: Masks, c: Cell, k: int): Masks
    requires 0 <= k <= 4
  {
    map e | e in m :: With(m[e], BitsFor(g, c, e, k))
  }

  /** All masks after a full update of `c`: it and its neighbours have gained their bits. */
  ghost function Joined(g: Colours, m: Masks, c: Cell): Masks {
    map e | e in m :: if e == c then m[e] + Expected(g, c) else m[e] + BitsFor(g, c, e, 4)
  }

  lemma {:induction false} ToldStart(g: Colours, m: Masks, c: Cell)
    ensures Told(g, m, c, 0) == m && (c in m ==> With(m[c], OwnBits(g, c, 0)) == m[c])
  {
    assert OwnBits(g, c, 0) == {};
    forall e | e in m
      ensures Told(g, m, c, 0)[e] == m[e]
    {
      assert BitsFor(g, c, e, 0) == {};
      assert With(m[e], {}) == m[e];
    }
    assert Told(g, m, c, 0) == m;
  }

  lemma {:induction false} BitsStep(g: Colours, c: Cell, e: Cell, k: int)
    requires 0 <= k < 4
    ensures BitsFor(g, c, e, k + 1)
         == BitsFor(g, c, e, k) + if e == Neighbour(c, DirectionAt(k)) && Linked(g, c, e) then {DirectionAt(k)} else {}
  {
  }

  lemma {:induction false} OwnBitsStep(g: Colours, c: Cell, k: int, bits: set<Direction>)
    requires 0 <= k < 4
    ensures With(bits, OwnBits(g, c, k + 1))
         == if Linked(g, c, Neighbour(c, DirectionAt(k))) then With(bits, OwnBits(g, c, k)) + {Opposite(DirectionAt(k))}
            else With(bits, OwnBits(g, c, k))
  {
    assert OwnBits(g, c, k + 1)
        == OwnBits(g, c, k) + if Linked(g, c, Neighbour(c, DirectionAt(k))) then {Opposite(DirectionAt(k))} else {};
  }

  lemma {:induction false} ToldStep(g: Colours, m: Masks, c: Cell, k: int)
    requires 0 <= k < 4
    ensures Told(g, m, c, k).Keys == m.Keys
    ensures
      var e := Neighbour(c, DirectionAt(k));
      if Linked(g, c, e) && e in m then
        Told(g, m, c, k + 1) == Told(g, m, c, k)[e := Told(g, m, c, k)[e] + {DirectionAt(k)}]
      else
        Told(g, m, c, k + 1) == Told(g, m, c, k)
  {
    hide *;
    var n := Neighbour(c, DirectionAt(k));
    var m0, m1 := Told(g, m, c, k), Told(g, m, c, k + 1);
    ToldKeys(g, m, c, k);
    ToldKeys(g, m, c, k + 1);
    forall e | e in m
      ensures m1[e] == if e == n && Linked(g, c, e) then m0[e] + {DirectionAt(k)} else m0[e]
    {
      ToldAt(g, m, c, k, e);
      ToldAt(g, m, c, k + 1, e);
      WithStep(g, c, e, k, m[e]);
    }
    if Linked(g, c, n) && n in m {
      OneMaskChanged(m0, m1, n);
    } else {
      OneMaskChanged(m0, m1, c);
    }
  }

  lemma {:induction false} ToldKeys(g: Colours, m: Masks, c: Cell, k: int)
    requires 0 <= k <= 4
    ensures Told(g, m, c, k).Keys == m.Keys
  {
    hide With, BitsFor;
  }

  lemma {:induction false} ToldAt(g: Colours, m: Masks, c: Cell, k: int, e: Cell)
    requires 0 <= k <= 4 && e in m
    ensures e in Told(g, m, c, k) && Told(g, m, c, k)[e] == With(m[e], BitsFor(g, c, e, k))
  {
    hide With, BitsFor;
  }

  lemma {:induction false} OneMaskChanged(m0: Masks, m1: Masks, e: Cell)
    requires m0.Keys == m1.Keys && forall d :: d in m0 && d != e ==> m1[d] == m0[d]
    ensures e in m0 ==> m1 == m0[e := m1[e]]
    ensures e !in m0 || m1[e] == m0[e] ==> m1 == m0
  {
  }

  lemma {:induction false} WithStep(g: Colours, c: Cell, e: Cell, k: int, bits: set<Direction>)
    requires 0 <= k < 4
    ensures With(bits, BitsFor(g, c, e, k + 1))
         == if e == Neighbour(c, DirectionAt(k)) && Linked(g, c, e) then With(bits, BitsFor(g, c, e, k)) + {DirectionAt(k)}
            else With(bits, BitsFor(g, c, e, k))
  {
    BitsStep(g, c, e, k);
    hide BitsFor, Linked, Neighbour, DirectionAt;
  }

  lemma {:induction false} ToldEnd(g: Colours, m: Masks, c: Cell)
    requires c in m
    ensures Told(g, m, c, 4)[c := With(m[c], OwnBits(g, c, 4))] == Joined(g, m, c)
  {
    assert Neighbour(c, Left) != c && Neighbour(c, Right) != c && Neighbour(c, Top) != c && Neighbour(c, Bottom) != c;
    assert OwnBits(g, c, 4) == Expected(g, c) by {
      forall d | d in Expected(g, c)
        ensures d in OwnBits(g, c, 4)
      {
        var j := match d case Right => 0 case Left => 1 case Bottom => 2 case _ => 3;
        assert Opposite(DirectionAt(j)) == d && Opposite(d) == DirectionAt(j);
      }
    }
  }

  /** A neighbour is only ever given a bit that it should have. */
  lemma {:induction false} BitsAreExpected(g: Colours, c: Cell, e: Cell)
    ensures BitsFor(g, c, e, 4) <= Expected(g, e)
  {
  }

  /** Resetting and updating one block makes its mask exact and leaves every exact mask exact,
      in whatever order the blocks come. */
  lemma {:induction false} JoinedExact(g: Colours, m: Masks, c: Cell, e: Cell)
    requires c in g && c in m && m[c] == {} && e in m
    requires e == c || m[e] == Expected(g, e)
    ensures e in Joined(g, m, c) && Joined(g, m, c)[e] == Expected(g, e)
  {
    BitsAreExpected(g, c, e);
  }

  /** The masks of the cells in `done` are exact. */
  ghost predicate ExactOn(g: Colours, m: Masks, done: seq<Cell>) {
    forall c :: c in done && c in g ==> c in m && m[c] == Expected(g, c)
  }

  lemma {:induction false} ExactOnNone(g: Colours, m: Masks)
    ensures ExactOn(g, m, [])
  {
  }

  /** Ice is passed over; any other block is reset and updated. */
  lemma {:induction false} ExactOnNext(g: Colours, m: Masks, m': Masks, done: seq<Cell>, c: Cell)
    requires ExactOn(g, m, done)
    requires if c in g then c in m && m' == Joined(g, m[c := {}], c) else m' == m
    ensures ExactOn(g, m', done + [c])
  {
    forall e | e in done + [c] && e in g
      ensures e in m' && m'[e] == Expected(g, e)
    {
      if c in g { JoinedExact(g, m[c := {}], c, e); }
    }
  }

  lemma {:induction false} ExactOnAll(g: Colours, m: Masks, done: seq<Cell>)
    requires ExactOn(g, m, done) && forall c :: c in g ==> c in done
    ensures Exact(g, m)
  {
  }

  /** Updating just a newly placed block keeps all masks exact. */
  lemma {:induction false} PushKeepsExact(g: Colours, m: Masks, c: Cell, kind: BlockType)
    requires Exact(g, m) && c !in g && c in m && m[c] == {}
    ensures Exact(g[c := kind], Joined(g[c := kind], m, c))
  {
    var g' := g[c := kind];
    forall e | e in g && e != c
      ensures m[e] + BitsFor(g', c, e, 4) == Expected(g', e)
    {
      BitsAreExpected(g', c, e);
      forall d | d in Expected(g', e)
        ensures d in m[e] + BitsFor(g', c, e, 4)
      {
        var f := Neighbour(e, Opposite(d));
        if f == c {
          var j := match d case Left => 0 case Right => 1 case Top => 2 case _ => 3;
          assert DirectionAt(j) == d && Neighbour(c, d) == e && Linked(g', c, e);
        } else {
          assert Linked(g, e, f);
        }
      }
      forall d | d in m[e]
        ensures d in Expected(g', e)
      {
        assert Linked(g, e, Neighbour(e, Opposite(d)));
      }
    }
  }

  // ---------------------------------------------------------------- masks and groups

  /** `b` is the neighbour of `a` that a bit of `a` stands for. */
  ghost predicate BitStep(m: Masks, a: Cell, b: Cell) {
    exists d :: d in SIDES && b == Neighbour(a, Opposite(d)) && a in m && d in m[a]
  }

  ghost predicate BitPath(m: Masks, p: seq<Cell>) {
    |p| > 0 && forall i :: 0 <= i < |p| - 1 ==> BitStep(m, p[i], p[i + 1])
  }

  lemma {:induction false} BitStepIsLink(g: Colours, m: Masks, a: Cell, b: Cell)
    requires Exact(g, m) && a in g
    ensures BitStep(m, a, b) <==> Linked(g, a, b)
  {
    if Linked(g, a, b) {
      var d := if b == Neighbour(a, Left) then Right else if b == Neighbour(a, Right) then Left
               else if b == Neighbour(a, Top) then Bottom else Top;
      assert b == Neighbour(a, Opposite(d)) && d in Expected(g, a);
    }
  }

  lemma {:induction false} BitPathIsPath(g: Colours, m: Masks, p: seq<Cell>)
    requires Exact(g, m) && |p| > 0 && p[0] in g
    ensures BitPath(m, p) <==> IsPath(g, p)
    decreases |p|
  {
    if |p| > 1 {
      var q := p[..|p| - 1];
      BitPathIsPath(g, m, q);
      assert BitPath(m, p) <==> BitPath(m, q) && BitStep(m, p[|p| - 2], p[|p| - 1]) by {
        if BitPath(m, q) && BitStep(m, p[|p| - 2], p[|p| - 1]) {
          forall i | 0 <= i < |p| - 1 ensures BitStep(m, p[i], p[i + 1]) {
            if i < |p| - 2 { assert BitStep(m, q[i], q[i + 1]); }
          }
        }
        if BitPath(m, p) {
          forall i | 0 <= i < |q| - 1 ensures BitStep(m, q[i], q[i + 1]) {
            assert BitStep(m, p[i], p[i + 1]);
          }
        }
      }
      assert IsPath(g, p) <==> IsPath(g, q) && Linked(g, p[|p| - 2], p[|p| - 1]) by {
        if IsPath(g, q) && Linked(g, p[|p| - 2], p[|p| - 1]) {
          forall i | 0 <= i < |p| - 1 ensures Linked(g, p[i], p[i + 1]) {
            if i < |p| - 2 { assert Linked(g, q[i], q[i + 1]); }
          }
        }
        if IsPath(g, p) {
          forall i | 0 <= i < |q| - 1 ensures Linked(g, q[i], q[i + 1]) {
            assert Linked(g, p[i], p[i + 1]);
          }
        }
      }
      if IsPath(g, q) {
        PathInDomain(g, q);
        BitStepIsLink(g, m, p[|p| - 2], p[|p| - 1]);
      }
    }
  }

  lemma {:induction false} PathInDomain(g: Colours, p: seq<Cell>)
    requires IsPath(g, p)
    ensures p[|p| - 1] in g
  {
    if |p| > 1 { assert Linked(g, p[|p| - 2], p[|p| - 2 + 1]); }
  }

  /** With exact masks, following link bits leads to exactly the cells of one's group. */
  lemma {:induction false} LinkedByBitsIffConnected(g: Colours, m: Masks, a: Cell, b: Cell)
    requires Exact(g, m) && a in g
    ensures Connected(g, a, b) <==> exists p :: BitPath(m, p) && p[0] == a && p[|p| - 1] == b
  {
    if Connected(g, a, b) {
      var p :| IsPath(g, p) && p[0] == a && p[|p| - 1] == b;
      BitPathIsPath(g, m, p);
    }
    if p :| BitPath(m, p) && p[0] == a && p[|p| - 1] == b {
      BitPathIsPath(g, m, p);
    }
  }

  /** Groups are cleared whole: what is linked to a cleared cell is cleared with it. */
  lemma {:induction false} ClearedWithNeighbour(g: Colours, groups: seq<seq<Cell>>, b: Cell, a: Cell)
    requires AllGroups(g, groups) && InSome(groups, b) && Linked(g, b, a)
    ensures InSome(groups, a)
  {
    var i :| 0 <= i < |groups| && b in groups[i];
    assert IsGroup(g, groups[i]);
    ConnectedReflexive(g, b);
    ConnectedExtend(g, b, b, a);
    assert a in Component(g, b);
  }

  /** Clearing all matching groups leaves no survivor with a bit for a cleared cell. */
  lemma {:induction false} NoBitForCleared(g: Colours, m: Masks, groups: seq<seq<Cell>>, a: Cell, b: Cell)
    requires Exact(g, m) && AllGroups(g, groups)
    requires a in g && !InSome(groups, a) && BitStep(m, a, b)
    ensures b in g && !InSome(groups, b)
  {
    BitStepIsLink(g, m, a, b);
    if InSome(groups, b) { ClearedWithNeighbour(g, groups, b, a); }
  }
}

/** The methods that keep the masks (BasePlayer::UpdateLinkState, UpdateBlockLinks). */
module LinkStates {
  import opened Geometry
  import opened Connectivity
  import opened BlockStates
  import opened PuyoBlocks
  import opened Players
  import opened LinkMasks

  ghost function Links(p: BasePlayer): (m: Masks)
    requires p.Valid()
    reads p`blockList, p.board, p.blockList`x, p.blockList`y, p.blockList`kind, p.blockList`initialized, p.blockList`link
  {
    map c | c in AllCells() && p.At(c) != null :: p.At(c).link
  }

  lemma {:induction false} LinksAt(p: BasePlayer, c: Cell)
    requires p.Valid()
    ensures c in Links(p) <==> p.At(c) != null
    ensures c in Links(p) ==> Links(p)[c] == p.At(c).link
  {
  }

  method SetLink(p: BasePlayer, b: Block, link: set<Direction>)
    requires p.Valid() && p.At(Cell(b.x, b.y)) == b
    modifies b`link
    ensures p.Valid() && Links(p) == old(Links(p))[Cell(b.x, b.y) := link] && p.Coloured() == old(p.Coloured())
  {
    hide BasePlayer.Coloured, BasePlayer.Settled;
    b.link := link;
  }

  /** Looks in the `k`-th direction from a coloured block of type `blockType` on `c`. */
  method LinkDirection(p: BasePlayer, c: Cell, k: int, blockType: BlockType, linkState: set<Direction>, ghost m: Masks)
    returns (linkState': set<Direction>)
    requires p.Valid() && 0 <= k < 4 && c in p.Coloured() && p.Coloured()[c] == blockType && c in m
    requires Links(p) == Told(p.Coloured(), m, c, k) && linkState == With(m[c], OwnBits(p.Coloured(), c, k))
    modifies p.blockList`link
    ensures p.Valid() && p.Coloured() == old(p.Coloured())
    ensures Links(p) == Told(p.Coloured(), m, c, k + 1) && linkState' == With(m[c], OwnBits(p.Coloured(), c, k + 1))
  {
    hide *;
    linkState' := linkState;
    ghost var g := p.Coloured();
    var dir := DirectionAt(k);
    var pos := Neighbour(c, dir);
    ToldStep(g, m, c, k);
    OwnBitsStep(g, c, k, m[c]);
    p.ColouredAt(c);
    p.ColouredAt(pos);
    LinksAt(p, pos);
    LinkIff(g, c, k);
    if InBoard(pos) {
      var checkBlock := p.At(pos);
      if checkBlock != null && checkBlock.state == Stationary && checkBlock.kind == blockType {
        linkState' := linkState' + {Opposite(dir)};
        SetLink(p, checkBlock, checkBlock.link + {dir});
      }
    }
  }

  /** Gives a block and its same-colour neighbours the bits for each other. */
  method UpdateLinkState(p: BasePlayer, block: Block)
    requires p.Valid() && p.At(Cell(block.x, block.y)) == block && block.state == Stationary
    modifies p.blockList`link
    ensures p.Valid() && p.Coloured() == old(p.Coloured())
    ensures block.kind == Ice ==> Links(p) == old(Links(p))
    ensures block.kind != Ice ==> Links(p) == Joined(p.Coloured(), old(Links(p)), Cell(block.x, block.y))
  {
    hide *;
    if block.kind == Ice {
      return;
    }
    var c := Cell(block.x, block.y);
    ghost var g, m := p.Coloured(), Links(p);
    var blockType := block.kind;
    var linkState := block.link;
    p.ColouredAt(c);
    LinksAt(p, c);
    ToldStart(g, m, c);
    for k := 0 to 4
      invariant p.Valid() && p.Coloured() == g
      invariant Links(p) == Told(g, m, c, k)
      invariant linkState == With(m[c], OwnBits(g, c, k))
    {
      linkState := LinkDirection(p, c, k, blockType, linkState, m);
    }
    ToldEnd(g, m, c);
    SetLink(p, block, linkState);
  }

  lemma {:induction false} LinkIff(g: Colours, c: Cell, k: int)
    requires 0 <= k < 4 && c in g
    ensures
      var e := Neighbour(c, DirectionAt(k));
      Linked(g, c, e) <==> e in g && g[e] == g[c]
  {
  }

  /** Resets the mask of a coloured block and updates it; ice is passed over. */
  method RelinkBlock(p: BasePlayer, block: Block)
    requires p.Valid() && p.At(Cell(block.x, block.y)) == block && block.state == Stationary
    modifies p.blockList`link
    ensures p.Valid() && p.Coloured() == old(p.Coloured())
    ensures
      var c := Cell(block.x, block.y);
      if c in p.Coloured() then c in old(Links(p)) && Links(p) == Joined(p.Coloured(), old(Links(p))[c := {}], c)
      else Links(p) == old(Links(p))
  {
    hide *;
    p.ColouredAt(Cell(block.x, block.y));
    LinksAt(p, Cell(block.x, block.y));
    if block.kind != Ice {
      SetLink(p, block, {});
      UpdateLinkState(p, block);
    }
  }

  /** Recomputes the masks of all coloured blocks, one after the other. */
  method UpdateBlockLinks(p: BasePlayer)
    requires p.Valid() && p.Settled()
    modifies p.blockList`link
    ensures p.Valid() && p.Coloured() == old(p.Coloured()) && Exact(p.Coloured(), Links(p))
  {
    hide *;
    ghost var g := p.Coloured();
    p.PositionsStart();
    ExactOnNone(g, Links(p));
    for i := 0 to |p.blockList|
      invariant p.Valid() && p.Settled() && p.Coloured() == g
      invariant ExactOn(g, Links(p), p.Positions(i))
    {
      var block := p.blockList[i];
      ghost var m, c := Links(p), Cell(block.x, block.y);
      p.SettledBlock(i);
      RelinkBlock(p, block);
      ExactOnNext(g, m, Links(p), p.Positions(i), c);
    }
    p.PositionsAll();
    ExactOnAll(g, Links(p), p.Positions(|p.blockList|));
  }

  // ---------------------------------------------------------------- masks when a block starts to fall

  function Toggled(bits: set<Direction>, d: Direction): set<Direction> {
    if d in bits then bits - {d} else bits + {d}
  }

  /** Starting to fall resets the block's own mask and, when it had a bit for the left or the
      right, flips one bit of each same-kind block beside it. */
  function AfterFallStart(m: Masks, c: Cell, left: bool, right: bool): Masks
    requires c in m && (left ==> Neighbour(c, Left) in m) && (right ==> Neighbour(c, Right) in m)
  {
    var m1 := if left && m[c] * {Left, Right} != {} then m[Neighbour(c, Left) := Toggled(m[Neighbour(c, Left)], Right)] else m;
    var m2 := if right && m[c] * {Left, Right} != {} then m1[Neighbour(c, Right) := Toggled(m1[Neighbour(c, Right)], Left)] else m1;
    m2[c := {}]
  }

  /** Which bits change when a block starts to fall: all of its own go; if it had a bit to the left or to
      the right, the block of its kind to its left flips the bit called right, and the one to its right the
      bit called left.  No other mask changes. */
  lemma {:induction false} FallFlips(m: Masks, c: Cell, left: bool, right: bool, e: Cell, d: Direction)
    requires c in m && (left ==> Neighbour(c, Left) in m) && (right ==> Neighbour(c, Right) in m) && e in m
    ensures
      var sides := Left in m[c] || Right in m[c];
      d in AfterFallStart(m, c, left, right)[e] <==>
        e != c && ((d in m[e]) != (sides && ((left && e == Neighbour(c, Left) && d == Right) || (right && e == Neighbour(c, Right) && d == Left))))
  {
    if Left in m[c] { assert Left in m[c] * {Left, Right}; }
    if Right in m[c] { assert Right in m[c] * {Left, Right}; }
    assert Neighbour(c, Left) != Neighbour(c, Right);
  }

  /** The flipped bits are not the ones that stand for the falling block: every other block, beside, above
      or below it, keeps its bit for the departed neighbour exactly if it had one. */
  lemma {:induction false} FallKeepsStaleBit(g: Colours, m: Masks, c: Cell, e: Cell, left: bool, right: bool)
    requires Exact(g, m) && c in g && e in g && e != c
    requires (left ==> Neighbour(c, Left) in m) && (right ==> Neighbour(c, Right) in m)
    ensures BitStep(AfterFallStart(m, c, left, right), e, c) <==> Linked(g, e, c)
    ensures !exists d :: BitStep(AfterFallStart(m, c, left, right), c, d)
  {
    BitStepIsLink(g, m, e, c);
    SameBit(m, c, e, left, right);
    hide Exact, Linked, AfterFallStart;
  }

  lemma {:induction false} SameBit(m: Masks, c: Cell, e: Cell, left: bool, right: bool)
    requires c in m && e in m && e != c && (left ==> Neighbour(c, Left) in m) && (right ==> Neighbour(c, Right) in m)
    ensures BitStep(AfterFallStart(m, c, left, right), e, c) <==> BitStep(m, e, c)
    ensures AfterFallStart(m, c, left, right)[c] == {}
  {
    var m' := AfterFallStart(m, c, left, right);
    forall d | d in SIDES && c == Neighbour(e, Opposite(d))
      ensures d in m'[e] <==> d in m[e]
    {
    }
  }

  ghost predicate SameKindBeside(p: BasePlayer, block: Block, d: Direction)
    requires p.Valid()
    reads p`blockList, p.board, p.blockList`x, p.blockList`y, p.blockList`kind, p.blockList`initialized
    reads block`x, block`y, block`kind
  {
    var b := p.At(Neighbour(Cell(block.x, block.y), d));
    b != null && b.kind == block.kind
  }

  method UpdateLinkStateForDownMoving(p: BasePlayer, block: Block)
    requires p.Valid() && p.At(Cell(block.x, block.y)) == block
    modifies p.blockList`link
    ensures p.Valid() && Cell(block.x, block.y) in old(Links(p))
    ensures SameKindBeside(p, block, Left) ==> Neighbour(Cell(block.x, block.y), Left) in old(Links(p))
    ensures SameKindBeside(p, block, Right) ==> Neighbour(Cell(block.x, block.y), Right) in old(Links(p))
    ensures Links(p) == AfterFallStart(old(Links(p)), Cell(block.x, block.y),
                                       SameKindBeside(p, block, Left), SameKindBeside(p, block, Right))
  {
    hide BasePlayer.Coloured, BasePlayer.Valid, BasePlayer.At, Links;
    var c := Cell(block.x, block.y);
    LinksAt(p, c);
    LinksAt(p, Neighbour(c, Left));
    LinksAt(p, Neighbour(c, Right));
    if block.link * {Left, Right} != {} {
      var leftBlock := p.At(Neighbour(c, Left));
      var rightBlock := p.At(Neighbour(c, Right));
      if leftBlock != null && leftBlock.kind == block.kind {
        SetLink(p, leftBlock, Toggled(leftBlock.link, Right));
      }
      if rightBlock != null && rightBlock.kind == block.kind {
        SetLink(p, rightBlock, Toggled(rightBlock.link, Left));
      }
    }
    SetLink(p, block, {});
  }
}
