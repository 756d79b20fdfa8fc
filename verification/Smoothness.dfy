/** Deciding, before a frame, whether it meets what the theorems about falling ask of it. */
module Smoothness {
  import opened Geometry
  import opened Connectivity
  import opened BlockStates
  import opened Matching
  import opened PuyoBlocks
  import opened Players
  import opened Falling
  import opened Gravity
  import opened Settling
  import opened LocalPlayers
  import opened LocalSteps
  import opened LocalFrames
  import opened LocalGame
  import opened Driving

  ghost function RestingIn(s: FallState, x: int): set<int> {
    set i | 0 <= i < |s.bodies| && s.bodies[i].state == Stationary && s.bodies[i].x == x
  }

  ghost function IndicesTo(s: FallState, x: int, n: int): set<int> {
    set i | 0 <= i < n && i < |s.bodies| && s.bodies[i].x == x
  }

  ghost function ColumnIndices(s: FallState, x: int): set<int> {
    IndicesTo(s, x, |s.bodies|)
  }

  /** The height of a column is the number of its resting blocks. */
  lemma {:induction false} HeightCounts(s: FallState, hs: seq<int>, x: int)
    requires Consistent(s) && WellFormed(s) && Stacked(s, hs) && 0 <= x < BOARD_X_COUNT
    ensures |RestingIn(s, x)| == hs[x]
  {
    var below := seq(hs[x], r requires 0 <= r < hs[x] => s.cells[Cell(x, r)]);
    forall r | 0 <= r < hs[x]
      ensures 0 <= below[r] < |s.bodies| && s.bodies[below[r]].state == Stationary && s.bodies[below[r]].x == x && s.bodies[below[r]].y == r
    {
      assert Cell(x, r) in s.cells;
    }
    forall i | i in RestingIn(s, x)
      ensures i in below
    {
      RestingRow(s, hs, i);
      assert below[s.bodies[i].y] == i;
    }
    assert RestingIn(s, x) == set k | k in below;
    DistinctSize(below);
  }

  lemma {:induction false} RestingRow(s: FallState, hs: seq<int>, i: int)
    requires Consistent(s) && Stacked(s, hs) && 0 <= i < |s.bodies| && s.bodies[i].state == Stationary && 0 <= s.bodies[i].x < BOARD_X_COUNT
    requires s.bodies[i].registered
    ensures 0 <= s.bodies[i].y < hs[s.bodies[i].x] && s.cells[Cell(s.bodies[i].x, s.bodies[i].y)] == i
  {
  }

  /** What a smooth frame asks of one block. */
  ghost predicate SmoothAt(s: FallState, i: int, dt: real)
    requires 0 <= i < |s.bodies|
  {
    s.bodies[i].state == DownMoving ==>
      && Velocity(s.bodies[i], dt) <= SIZE
      && (!s.bodies[i].registered ==> |ColumnIndices(s, s.bodies[i].x)| <= BOARD_Y_COUNT)
      && (s.bodies[i].kind == Ice ==> forall j :: FallTogether(s, i, j) ==> s.bodies[j].kind == Ice)
  }

  /** Resting and falling blocks make up a column. */
  lemma {:induction false} ColumnParts(s: FallState, hs: seq<int>, x: int)
    requires Consistent(s) && WellFormed(s) && Stacked(s, hs) && 0 <= x < BOARD_X_COUNT
    ensures |ColumnIndices(s, x)| == hs[x] + |FallingIn(s, x)|
  {
    HeightCounts(s, hs, x);
    hide RowY, Consistent, Stacked;
    assert ColumnIndices(s, x) == RestingIn(s, x) + FallingIn(s, x);
    assert RestingIn(s, x) !! FallingIn(s, x);
  }

  lemma {:induction false} SmoothIff(s: FallState, hs: seq<int>, dt: real)
    requires FallInvariant(s, hs, 0, 0.0)
    ensures Fits(s) && Paced(s, 0, dt) <==> forall i :: 0 <= i < |s.bodies| ==> SmoothAt(s, i, dt)
  {
    hide *;
    HeightsUnique(s, hs);
    OpenFall(s, hs);
    ColumnHeights(s, hs);
    Sizes();
    forall x | 0 <= x < BOARD_X_COUNT
      ensures |ColumnIndices(s, x)| == hs[x] + |FallingIn(s, x)|
    {
      ColumnParts(s, hs, x);
    }
    FitsIs(s);
    SmoothParts(s, hs, dt);
  }

  lemma {:induction false} SmoothParts(s: FallState, hs: seq<int>, dt: real)
    requires |hs| == BOARD_X_COUNT && forall i :: 0 <= i < |s.bodies| ==> 0 <= s.bodies[i].x < BOARD_X_COUNT
    requires forall x :: 0 <= x < BOARD_X_COUNT ==> |ColumnIndices(s, x)| == hs[x] + |FallingIn(s, x)|
    ensures NoPuyoOverIce(s) && Room(s, hs) && Paced(s, 0, dt) <==> forall i :: 0 <= i < |s.bodies| ==> SmoothAt(s, i, dt)
  {
    hide Velocity, ColumnIndices, FallingIn;
    if forall i :: 0 <= i < |s.bodies| ==> SmoothAt(s, i, dt) {
      forall i | 0 <= i < |s.bodies| && s.bodies[i].state == DownMoving
        ensures Velocity(s.bodies[i], dt) <= SIZE
        ensures !s.bodies[i].registered ==> hs[s.bodies[i].x] + |FallingIn(s, s.bodies[i].x)| <= BOARD_Y_COUNT
        ensures s.bodies[i].kind == Ice ==> forall j :: FallTogether(s, i, j) ==> s.bodies[j].kind == Ice
      {
        assert SmoothAt(s, i, dt);
      }
    }
  }

  lemma {:induction false} ColumnNext(s: FallState, x: int, n: int)
    requires 0 <= n < |s.bodies|
    ensures |IndicesTo(s, x, n + 1)| == |IndicesTo(s, x, n)| + if s.bodies[n].x == x then 1 else 0
  {
    assert IndicesTo(s, x, n + 1) == IndicesTo(s, x, n) + if s.bodies[n].x == x then {n} else {};
    assert n !in IndicesTo(s, x, n);
  }

  lemma {:induction false} ColumnEnds(s: FallState, x: int)
    ensures |IndicesTo(s, x, 0)| == 0 && IndicesTo(s, x, |s.bodies|) == ColumnIndices(s, x)
  {
    assert IndicesTo(s, x, 0) == {};
  }

  method CountColumn(p: BasePlayer, x: int) returns (count: int)
    requires p.Wired()
    ensures count == |ColumnIndices(View(p), x)|
  {
    hide *;
    ghost var s := View(p);
    BodiesOfList(p);
    ColumnEnds(s, x);
    count := 0;
    for n := 0 to |p.blockList|
      invariant count == |IndicesTo(s, x, n)|
    {
      ColumnNext(s, x, n);
      if p.blockList[n].x == x {
        count := count + 1;
      }
    }
  }

  method OnlyIceAbove(p: BasePlayer, i: int) returns (r: bool)
    requires p.Wired() && 0 <= i < |p.blockList| && p.blockList[i].state == DownMoving
    ensures r <==> forall j :: FallTogether(View(p), i, j) ==> View(p).bodies[j].kind == Ice
  {
    hide View, BasePlayer.Wired;
    BodiesOfList(p);
    for j := i + 1 to |p.blockList|
      invariant forall k :: i < k < j && FallTogether(View(p), i, k) ==> View(p).bodies[k].kind == Ice
    {
      var b := p.blockList[j];
      if b.x == p.blockList[i].x && b.state == DownMoving && b.kind != Ice {
        assert FallTogether(View(p), i, j);
        return false;
      }
    }
    return true;
  }

  /** Does the next frame of a fall meet what the theorems about falling ask of it? */
  method IsSmooth(p: BasePlayer, dt: real) returns (r: bool)
    requires Moves(p)
    ensures r <==> Smooth(p, dt)
  {
    hide *;
    OpenMoves(p);
    BodiesOfList(p);
    ghost var s := View(p);
    SmoothIff(s, Heights(s), dt);
    SmoothIs(p, dt);
    r := true;
    for i := 0 to |p.blockList|
      invariant r <==> forall k :: 0 <= k < i ==> SmoothAt(s, k, dt)
    {
      var smooth := IsSmoothBlock(p, i, dt);
      r := r && smooth;
    }
  }

  method IsSmoothBlock(p: BasePlayer, i: int, dt: real) returns (r: bool)
    requires p.Wired() && 0 <= i < |p.blockList|
    ensures |View(p).bodies| == |p.blockList| && (r <==> SmoothAt(View(p), i, dt))
  {
    hide *;
    BodiesOfList(p);
    Sizes();
    SmoothAtIs(View(p), i, dt);
    ViewBody(p, i);
    var b := p.blockList[i];
    if b.state != DownMoving {
      return true;
    }
    var velocity := VelocityOf(b, dt);
    if velocity > SIZE {
      return false;
    }
    RegisteredIs(p, b);
    if b.kind == Ice {
      var count := CountColumn(p, b.x);
      if !b.initialized && count > BOARD_Y_COUNT {
        return false;
      }
      r := OnlyIceAbove(p, i);
    } else {
      return true;
    }
  }

  lemma {:induction false} RegisteredIs(p: BasePlayer, b: Block)
    ensures p.Registered(b) <==> (b.kind == Ice ==> b.initialized)
  {
  }

  lemma {:induction false} Sizes()
    ensures BOARD_Y_COUNT == 13 && BOARD_X_COUNT == 6 && SIZE == 31.0
  {
  }

  lemma {:induction false} SmoothAtIs(s: FallState, i: int, dt: real)
    requires 0 <= i < |s.bodies|
    ensures SmoothAt(s, i, dt) <==>
      (s.bodies[i].state == DownMoving ==>
        && Velocity(s.bodies[i], dt) <= SIZE
        && (!s.bodies[i].registered ==> |ColumnIndices(s, s.bodies[i].x)| <= BOARD_Y_COUNT)
        && (s.bodies[i].kind == Ice ==> forall j :: FallTogether(s, i, j) ==> s.bodies[j].kind == Ice))
  {
  }
}
