/** Falls in which coloured blocks overtake ice and the list is sorted again after any of the frames: list and
    board go on agreeing as they do without the sorting. */
module SortedRuns {
  import opened Geometry
  import opened Connectivity
  import opened BlockStates
  import opened Matching
  import opened Falling
  import opened FallSpeed
  import opened Settling
  import opened Sorting
  import opened Overtaking

  ghost predicate ColumnsRise(s: FallState) {
    forall i, j :: 0 <= i < j < |s.bodies| && s.bodies[i].x == s.bodies[j].x ==> s.bodies[i].y < s.bodies[j].y
  }

  /** The list is as it was, or the same blocks are listed in another order that goes upwards in every column. */
  ghost predicate Relisted(s: FallState, s': FallState) {
    s' == s || (Consistent(s') && AllRegistered(s') && SameBoard(s, s') && ColumnsRise(s'))
  }

  /** The states between the frames `dts`. */
  ghost predicate SortedRun(ss: seq<FallState>, dts: seq<real>) {
    |ss| == |dts| + 1 && forall k :: 0 <= k < |dts| ==> Relisted(Frame(ss[k], 0, dts[k]), ss[k + 1])
  }

  // ---------------------------------------------------------------- sorting keeps what the fall relies on

  /** The old place of the block that is listed as number `i` now. */
  ghost function Was(s: FallState, s': FallState, i: int): (k: int)
    requires Mapped(s, s') && 0 <= i < |s'.bodies|
    ensures 0 <= k < |s.bodies| && s.bodies[k] == s'.bodies[i]
  {
    s.cells[Cell(s'.bodies[i].x, s'.bodies[i].y)]
  }

  lemma {:induction false} WasOther(s: FallState, s': FallState, i: int, j: int)
    requires Consistent(s) && Mapped(s, s') && 0 <= i < |s'.bodies| && 0 <= j < |s'.bodies|
    requires Cell(s'.bodies[i].x, s'.bodies[i].y) != Cell(s'.bodies[j].x, s'.bodies[j].y)
    ensures Was(s, s', i) != Was(s, s', j)
  {
  }

  lemma {:induction false} RelistedStacked(s: FallState, hs: seq<int>, s': FallState)
    requires Stacked(s, hs) && Mapped(s, s') && SameBoard(s, s')
    ensures Stacked(s', hs)
  {
    forall i | 0 <= i < |s'.bodies| && s'.bodies[i].state == Stationary && 0 <= s'.bodies[i].x < BOARD_X_COUNT
      ensures s'.bodies[i].y < hs[s'.bodies[i].x]
    {
      assert s.bodies[Was(s, s', i)].state == Stationary;
    }
  }

  lemma {:induction false} RelistedBodies(s: FallState, hs: seq<int>, s': FallState, c: Clock, spare: nat)
    requires AllOnClock(s, 0, c, After(c, 0.0)) && |hs| == BOARD_X_COUNT && AboveStack(s, hs, spare) && Mapped(s, s')
    ensures AllOnClock(s', 0, c, After(c, 0.0)) && AboveStack(s', hs, spare)
  {
    hide OnClock, RowY, Depth;
    forall i | 0 <= i < |s'.bodies|
      ensures OnClock(s'.bodies[i], c)
      ensures s'.bodies[i].state == DownMoving && 0 <= s'.bodies[i].x < BOARD_X_COUNT ==>
        s'.bodies[i].posY < RowY(hs[s'.bodies[i].x]) + Depth(s'.bodies[i], spare)
    {
      assert OnClock(s.bodies[Was(s, s', i)], c);
    }
  }

  /** Resting blocks are listed below falling ones. */
  lemma {:induction false} RelistedTurn(s: FallState, hs: seq<int>, s': FallState, spare: nat)
    requires Consistent(s) && WellFormed(s) && Stacked(s, hs) && InTurn(s) && RoomBelow(s, spare)
    requires Mapped(s, s') && Consistent(s') && ColumnsRise(s')
    ensures InTurn(s')
  {
    hide Consistent, WellFormed, Stacked, RoomBelow;
    forall j, k | 0 <= j < |s'.bodies| && 0 <= k < |s'.bodies| && s'.bodies[j].state == Stationary && s'.bodies[k].state == DownMoving
                  && s'.bodies[j].x == s'.bodies[k].x
      ensures InFront(s', j, k)
    {
      StackBelowRow(s, hs, spare, Was(s, s', k), {});
      RestBelow(s, hs, Was(s, s', j));
      assert s'.bodies[j].y < s'.bodies[k].y;
    }
  }

  lemma {:induction false} RestBelow(s: FallState, hs: seq<int>, j: int)
    requires Stacked(s, hs) && 0 <= j < |s.bodies| && s.bodies[j].state == Stationary && 0 <= s.bodies[j].x < BOARD_X_COUNT
    ensures s.bodies[j].y < hs[s.bodies[j].x]
  {
  }

  /** What is in front of a block was in front of it before. */
  lemma {:induction false} WasInFront(s: FallState, s': FallState, j: int, k: int)
    requires Consistent(s) && Mapped(s, s') && InTurn(s) && RowsRise(s) && ColumnsRise(s') && WellFormed(s)
    requires 0 <= j < |s'.bodies| && 0 <= k < |s'.bodies| && InFront(s', j, k) && s'.bodies[k].state == DownMoving
    ensures InFront(s, Was(s, s', j), Was(s, s', k))
  {
    hide Consistent, RowY;
    var j0, k0 := Was(s, s', j), Was(s, s', k);
    assert s'.bodies[j].y != s'.bodies[k].y;
    WasOther(s, s', j, k);
    if s.bodies[j0].state == Stationary {
      assert InFront(s, j0, k0);
    } else if k0 < j0 {
      assert FallTogether(s, k0, j0);
    }
  }

  lemma {:induction false} NoMoreInFront(s: FallState, s': FallState, js: set<int>, ks: set<int>)
    requires Consistent(s) && Mapped(s, s') && ColumnsRise(s')
    requires forall j :: j in js ==> 0 <= j < |s'.bodies| && Was(s, s', j) in ks
    requires forall i, j :: i in js && j in js && i != j ==> s'.bodies[i].x == s'.bodies[j].x
    ensures |js| <= |ks|
    decreases |js|
  {
    if j :| j in js {
      forall i | i in js - {j}
        ensures Was(s, s', i) in ks - {Was(s, s', j)}
      {
        assert s'.bodies[i].x == s'.bodies[j].x;
        assert s'.bodies[i].y != s'.bodies[j].y;
        WasOther(s, s', i, j);
      }
      NoMoreInFront(s, s', js - {j}, ks - {Was(s, s', j)});
    } else {
      assert forall j :: j !in js;
      assert js == {};
    }
  }

  lemma {:induction false} RelistedRoom(s: FallState, s': FallState, spare: nat)
    requires Consistent(s) && WellFormed(s) && Mapped(s, s') && InTurn(s) && RowsRise(s) && RoomBelow(s, spare) && ColumnsRise(s')
    ensures RoomBelow(s', spare) && RowsRise(s')
  {
    hide Consistent, WellFormed, Mapped, InTurn, InFront;
    forall k | 0 <= k < |s'.bodies| && s'.bodies[k].state == DownMoving
      ensures |Ahead(s', k)| + spare <= s'.bodies[k].y
    {
      forall j | j in Ahead(s', k)
        ensures Was(s, s', j) in Ahead(s, Was(s, s', k)) && s'.bodies[j].x == s'.bodies[k].x
      {
        WasInFront(s, s', j, k);
        InFrontColumn(s', j, k);
      }
      NoMoreInFront(s, s', Ahead(s', k), Ahead(s, Was(s, s', k)));
    }
    hide Ahead;
  }

  lemma {:induction false} InFrontColumn(s: FallState, j: int, k: int)
    requires 0 <= j < |s.bodies| && 0 <= k < |s.bodies| && InFront(s, j, k)
    ensures s.bodies[j].x == s.bodies[k].x
  {
  }

  lemma {:induction false} RelistedWide(s: FallState, hs: seq<int>, s': FallState, c: Clock, spare: nat)
    requires Wide(s, hs, 0, c, 0.0, spare) && Relisted(s, s')
    ensures Wide(s', hs, 0, c, 0.0, spare)
  {
    hide *;
    if s' != s {
      OpenWide(s, hs, 0, c, 0.0, spare);
      RelistedIs(s, s');
      Resorted(s, s');
      ResortedWellFormed(s, s');
      RelistedStacked(s, hs, s');
      RelistedBodies(s, hs, s', c, spare);
      RelistedTurn(s, hs, s', spare);
      RelistedRoom(s, s', spare);
      CloseWide(s', hs, 0, c, 0.0, spare);
    }
  }

  lemma {:induction false} RelistedIs(s: FallState, s': FallState)
    requires Relisted(s, s') && s' != s
    ensures Consistent(s') && AllRegistered(s') && SameBoard(s, s') && ColumnsRise(s')
  {
    hide Consistent, AllRegistered, SameBoard, ColumnsRise;
  }

  lemma {:induction false} RelistedDriven(s: FallState, s': FallState, t: real)
    requires AllDriven(s, 0, t, t) && Consistent(s) && Relisted(s, s')
    ensures AllDriven(s', 0, t, t)
  {
    hide *;
    if s' != s {
      RelistedIs(s, s');
      Resorted(s, s');
      MappedDriven(s, s', t);
    }
  }

  lemma {:induction false} MappedDriven(s: FallState, s': FallState, t: real)
    requires AllDriven(s, 0, t, t) && Mapped(s, s')
    ensures AllDriven(s', 0, t, t)
  {
    hide Driven;
    forall i | 0 <= i < |s'.bodies|
      ensures Driven(s'.bodies[i], t)
    {
      assert Driven(s.bodies[Was(s, s', i)], t);
    }
  }

  // ---------------------------------------------------------------- runs

  lemma {:induction false} FirstOfSorted(ss: seq<FallState>, dts: seq<real>)
    requires SortedRun(ss, dts) && dts != []
    ensures |ss| >= 2 && Relisted(Frame(ss[0], 0, dts[0]), ss[1]) && SortedRun(ss[1..], dts[1..])
    ensures ss[1..][0] == ss[1] && ss[1..][|dts[1..]|] == ss[|dts|]
  {
    hide Relisted, Frame;
  }

  ghost predicate AllPaced(ss: seq<FallState>, dts: seq<real>) {
    |ss| == |dts| + 1 && forall k :: 0 <= k < |dts| ==> dts[k] >= 0.0 && Paced(ss[k], 0, dts[k])
  }

  lemma {:induction false} FirstPaced(ss: seq<FallState>, dts: seq<real>)
    requires |ss| == |dts| + 1 && dts != []
    ensures AllPaced(ss, dts) <==> dts[0] >= 0.0 && Paced(ss[0], 0, dts[0]) && AllPaced(ss[1..], dts[1..])
  {
    hide Paced;
    if dts[0] >= 0.0 && Paced(ss[0], 0, dts[0]) && AllPaced(ss[1..], dts[1..]) {
      forall k | 0 <= k < |dts|
        ensures dts[k] >= 0.0 && Paced(ss[k], 0, dts[k])
      {
        if k > 0 { assert dts[1..][k - 1] == dts[k] && ss[1..][k - 1] == ss[k]; }
      }
    }
  }

  lemma {:induction false} PacedSpare(s: FallState, dt: real)
    requires Paced(s, 0, dt)
    ensures WidePaced(s, 0, dt, 1)
  {
    hide Velocity;
  }

  lemma {:induction false} SortedSpareRun(ss: seq<FallState>, hs: seq<int>, dts: seq<real>, c: Clock) returns (hs': seq<int>, c': Clock)
    requires SortedRun(ss, dts) && AllPaced(ss, dts) && Wide(ss[0], hs, 0, c, 0.0, 1)
    ensures Wide(ss[|dts|], hs', 0, c', 0.0, 1)
    decreases |dts|
  {
    hide *;
    SortedSize(ss, dts);
    if dts == [] {
      hs', c' := hs, c;
    } else {
      var dt := dts[0];
      FirstOfSorted(ss, dts);
      FirstPaced(ss, dts);
      PacedSpare(ss[0], dt);
      WideAnyTime(ss[0], hs, c, dt, 1);
      var hs1 := WideFrame(ss[0], hs, 0, c, dt, 1);
      FrameSize(ss[0], dt);
      WideNext(Frame(ss[0], 0, dt), hs1, c, dt, 0.0, 1);
      RelistedWide(Frame(ss[0], 0, dt), hs1, ss[1], After(c, dt), 1);
      hs', c' := SortedSpareRun(ss[1..], hs1, dts[1..], After(c, dt));
    }
  }

  lemma {:induction false} SortedSize(ss: seq<FallState>, dts: seq<real>)
    requires SortedRun(ss, dts)
    ensures |ss| == |dts| + 1
  {
    hide Relisted;
  }

  lemma {:induction false} SortedShortRun(ss: seq<FallState>, hs: seq<int>, dts: seq<real>, c: Clock, t: real) returns (hs': seq<int>, c': Clock)
    requires SortedRun(ss, dts) && AllShort(dts) && Wide(ss[0], hs, 0, c, 0.0, 0) && AllDriven(ss[0], 0, t, t)
    ensures |ss| == |dts| + 1 && AllPaced(ss, dts) && Wide(ss[|dts|], hs', 0, c', 0.0, 0)
    ensures t + Total(dts) >= 310.0 ==> AllRest(ss[|dts|])
    decreases |dts|
  {
    hide *;
    ZeroIsShort();
    SortedSize(ss, dts);
    if dts == [] {
      NoFrames(ss[0]);
      NothingPaced(ss);
      ShortIsWidePaced(ss[0], hs, c, t, 0.0);
      hs', c' := hs, c;
    } else {
      var dt, s1 := dts[0], Frame(ss[0], 0, dts[0]);
      FirstOfSorted(ss, dts);
      FirstFrame(ss[0], dts);
      ShortIsWidePaced(ss[0], hs, c, t, dt);
      WideAnyTime(ss[0], hs, c, dt, 0);
      var hs1 := WideFrame(ss[0], hs, 0, c, dt, 0);
      FrameSize(ss[0], dt);
      WideNext(s1, hs1, c, dt, 0.0, 0);
      NextDriven(ss[0], t, dt);
      OpenWide(s1, hs1, 0, After(c, dt), 0.0, 0);
      RelistedWide(s1, hs1, ss[1], After(c, dt), 0);
      RelistedDriven(s1, ss[1], t + dt);
      hs', c' := SortedShortRun(ss[1..], hs1, dts[1..], After(c, dt), t + dt);
      FirstPaced(ss, dts);
    }
  }

  lemma {:induction false} NothingPaced(ss: seq<FallState>)
    requires |ss| == 1
    ensures AllPaced(ss, [])
  {
  }

  /** With a spare row for all falling ice list and board agree in every run without a step over a cell, whether
      the list is sorted between its frames or not. */
  lemma {:induction false} SortedBoardAgreesWithSpare(ss: seq<FallState>, dts: seq<real>)
    requires SortedRun(ss, dts) && AllPaced(ss, dts) && AboutToFall(ss[0]) && RoomBelow(ss[0], 1)
    ensures |ss| == |dts| + 1 && Agrees(ss[|dts|])
  {
    hide *;
    SortedSize(ss, dts);
    WideStarts(ss[0], 1);
    var hs', c' := SortedSpareRun(ss, Heights(ss[0]), dts, Clock(0.0, 0.0));
    WideAgrees(ss[|dts|], hs', c', 1);
  }

  /** Without a spare row they agree in short frames, in which nothing moves by more than a cell and the fall is
      over after 310 units of time. */
  lemma {:induction false} SortedBoardAgrees(ss: seq<FallState>, dts: seq<real>)
    requires SortedRun(ss, dts) && AllShort(dts) && AboutToFall(ss[0]) && RoomBelow(ss[0], 0)
    ensures |ss| == |dts| + 1 && AllPaced(ss, dts) && Agrees(ss[|dts|]) && (Total(dts) >= 310.0 ==> AllRest(ss[|dts|]))
  {
    hide *;
    SortedSize(ss, dts);
    WideStarts(ss[0], 0);
    StartsDriven(ss[0]);
    var hs', c' := SortedShortRun(ss, Heights(ss[0]), dts, Clock(0.0, 0.0), 0.0);
    WideAgrees(ss[|dts|], hs', c', 0);
  }
}
