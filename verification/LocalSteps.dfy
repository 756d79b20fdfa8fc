/** The steps of the local player's game; each keeps the invariant. */
module LocalSteps {
  import opened Geometry
  import opened Connectivity
  import opened BlockStates
  import opened Matching
  import opened PuyoBlocks
  import opened Players
  import opened Falling
  import opened FallSpeed
  import opened Driving
  import opened Gravity
  import opened LinkMasks
  import opened LinkStates
  import opened Clearing
  import opened Rounds
  import opened Settling
  import opened Garbage
  import opened Resting
  import opened Sorting
  import opened Destroying
  import opened Scenes
  import opened Scoring
  import opened LocalPlayers

  // ---------------------------------------------------------------- ice starts to fall

  lemma {:induction false} GrownKeeps(p: BasePlayer, bs: seq<Block>, made: set<Block>)
    requires Grown(p, bs, made) && Unmarked(bs)
    requires (p.comboCount == 0 && p.restScore == 0) || forall b :: b in bs ==> b.kind == Ice
    ensures Unmarked(p.blockList) && ComboClean(p)
    ensures forall i :: 0 <= i < |p.blockList| ==> p.blockList[i] in bs || p.blockList[i] in made
    ensures forall b :: b in bs ==> b in p.blockList
  {
    forall b | b in bs
      ensures b in p.blockList
    {
      assert b in p.blockList[..|bs|];
    }
    forall i | 0 <= i < |p.blockList|
      ensures p.blockList[i] in bs || p.blockList[i] in made
    {
      if i < |bs| { assert p.blockList[i] == p.blockList[..|bs|][i]; }
    }
  }

  lemma {:induction false} MasksAre(p: BasePlayer)
    requires p.Valid()
    ensures MasksExact(p) <==> Exact(p.Coloured(), Links(p))
  {
  }

  lemma {:induction false} OpenMoves(p: BasePlayer)
    requires Moves(p)
    ensures p.Valid() && p.matchedBlocks == [] && p.iceBlocks == {} && Unmarked(p.blockList) && p.Wired()
    ensures FallInvariant(View(p), Heights(View(p)), 0, 0.0)
  {
  }

  /** A fall in progress is what `Inv` asks of the board. */
  lemma {:induction false} CloseMoves(p: BasePlayer, hs: seq<int>)
    requires p.Wired() && p.matchedBlocks == [] && p.iceBlocks == {} && Unmarked(p.blockList)
    requires FallInvariant(View(p), hs, 0, 0.0)
    ensures Moves(p) && p.Valid()
  {
    HeightsUnique(View(p), hs);
    OpenFall(View(p), hs);
    ValidIffConsistent(p);
    hide *;
    CloseMovesNow(p);
  }

  lemma {:induction false} CloseMovesNow(p: BasePlayer)
    requires p.Valid() && p.matchedBlocks == [] && p.iceBlocks == {} && Unmarked(p.blockList)
    requires FallInvariant(View(p), Heights(View(p)), 0, 0.0)
    ensures Moves(p)
  {
  }

  lemma {:induction false} CloseIce(p: BasePlayer)
    requires Moves(p) && p.Valid() && p.matchedBlocks == [] && OnlyIceFalls(View(p)) && MasksExact(p) && ComboClean(p)
    requires CountersFine(p) && p.phase == IceBlocking
    ensures Inv(p)
  {
    hide Moves, MasksExact, View, OnlyIceFalls, ComboClean, CountersFine;
  }

  lemma {:induction false} OpenCombo(p: BasePlayer)
    requires ComboClean(p)
    ensures (p.comboCount == 0 && p.restScore == 0) || forall b :: b in p.blockList ==> b.kind == Ice
  {
  }

  /** No column is filled beyond its top by the ice that comes down in it. */
  ghost predicate RoomFor(hs: seq<int>, cs: seq<Cell>)
    requires |hs| == BOARD_X_COUNT
  {
    forall x :: 0 <= x < BOARD_X_COUNT && ColumnDrop(cs, x) > 0 ==> hs[x] + ColumnDrop(cs, x) <= BOARD_Y_COUNT
  }

  lemma {:induction false} DropFitsIff(s: FallState, hs: seq<int>, cs: seq<Cell>, pending: int)
    requires FallInvariant(s, hs, 0, 0.0) && AllRest(s) && IsDrop(cs, pending) && pending > 0
    ensures |hs| == BOARD_X_COUNT && (Fits(Dropped(s, cs)) <==> RoomFor(hs, cs))
  {
    hide *;
    DropStartsFall(s, hs, cs, pending);
    HeightsUnique(Dropped(s, cs), hs);
    DropIsExact(cs, pending);
    OpenFall(s, hs);
    DropRoomIff(s, hs, cs);
    OnlyIceInOrder(Dropped(s, cs));
    RoomForIs(hs, cs);
    FitsIs(Dropped(s, cs));
  }

  /** A drop with room comes down in short frames, none of which moves a block by more than a cell: after
      310 units of time every column is packed, in list order. */
  lemma {:induction false} DropEnds(s: FallState, hs: seq<int>, cs: seq<Cell>, pending: int, dts: seq<real>)
    requires FallInvariant(s, hs, 0, 0.0) && AllRest(s) && IsDrop(cs, pending) && pending > 0
    requires |hs| == BOARD_X_COUNT && RoomFor(hs, cs) && AllShort(dts)
    ensures PacedRun(Dropped(s, cs), dts)
    ensures Total(dts) >= 310.0 ==> AllRest(Run(Dropped(s, cs), dts))
    ensures Total(dts) >= 310.0 ==> forall n :: 0 <= n < |Run(Dropped(s, cs), dts).bodies| ==>
      Run(Dropped(s, cs), dts).bodies[n].y == Rank(Run(Dropped(s, cs), dts).bodies, n)
  {
    hide *;
    var s' := Dropped(s, cs);
    DropStartsFall(s, hs, cs, pending);
    DropFitsIff(s, hs, cs, pending);
    HeightsUnique(s', hs);
    FitsIs(s');
    OpenFall(s, hs);
    DropIsExact(cs, pending);
    DropDriven(s, cs);
    var hs' := ShortFallEnds(s', hs, dts, 0.0);
    if Total(dts) >= 310.0 {
      forall n | 0 <= n < |Run(s', dts).bodies|
        ensures Run(s', dts).bodies[n].y == Rank(Run(s', dts).bodies, n)
      {
        RestingAt(Run(s', dts), n);
        RestIsCompact(Run(s', dts), hs', n);
      }
    }
  }

  lemma {:induction false} RestingAt(s: FallState, n: int)
    requires AllRest(s) && 0 <= n < |s.bodies|
    ensures s.bodies[n].state == Stationary
  {
  }

  lemma {:induction false} RoomForIs(hs: seq<int>, cs: seq<Cell>)
    requires |hs| == BOARD_X_COUNT
    ensures RoomFor(hs, cs)
       <==> forall x :: 0 <= x < BOARD_X_COUNT && ColumnDrop(cs, x) > 0 ==> hs[x] + ColumnDrop(cs, x) <= BOARD_Y_COUNT
  {
  }

  lemma {:induction false} OnlyIceInOrder(s: FallState)
    requires OnlyIceFalls(s)
    ensures NoPuyoOverIce(s)
  {
  }

  lemma {:induction false} FitsIs(s: FallState)
    ensures Fits(s) <==> NoPuyoOverIce(s) && Room(s, Heights(s))
  {
  }

  /** The list has grown by what is no longer pending. */
  lemma {:induction false} DropGrows(p: BasePlayer, bs: seq<Block>, s: FallState, cs: seq<Cell>, pending: int)
    requires p.Wired() && View(p) == Dropped(s, cs) && |s.bodies| == |bs|
    requires pending > 0 && |cs| == if pending < LARGE_DROP then pending else LARGE_DROP
    ensures |p.blockList| == |bs| + pending - AfterDrop(pending)
  {
  }

  /** Pending ice is dropped onto a board at rest: exactly the blocks of a drop, on the columns `cs`,
      and it can fall in order exactly when there is room for it. */
  method DropIce(p: BasePlayer) returns (ghost made: set<Block>, ghost cs: seq<Cell>)
    requires Inv(p) && p.phase == Playing && p.totalInterrupt > 0
    modifies p`blockList, p`totalInterrupt, p`phase, p`hasIceBlock, p`defenseCount
    ensures Inv(p) && p.phase == IceBlocking && p.totalInterrupt == AfterDrop(old(p.totalInterrupt)) && p.defenseCount == 0
    ensures p.Wired() && old(p.Wired()) && IsDrop(cs, old(p.totalInterrupt)) && View(p) == Dropped(old(View(p)), cs)
    ensures Fits(View(p)) <==> RoomFor(old(Heights(View(p))), cs)
    ensures DrivenList(p.blockList, 0.0)
    ensures fresh(made) && forall i :: 0 <= i < |p.blockList| ==> p.blockList[i] in old(p.blockList) || p.blockList[i] in made
    ensures forall b :: b in old(p.blockList) ==> b in p.blockList
    ensures |p.blockList| == |old(p.blockList)| + old(p.totalInterrupt) - p.totalInterrupt
  {
    hide *;
    OpenPlaying(p);
    OpenCombo(p);
    OpenCounters(p);
    OpenMoves(p);
    SettledIff(p);
    MasksAre(p);
    ByBoard(p);
    ValidWired(p);
    ghost var bs, s, hs := p.blockList, View(p), Heights(View(p));
    cs, made := GenerateIceBlocks(p);
    DropStartsFall(s, hs, cs, old(p.totalInterrupt));
    DropFitsIff(s, hs, cs, old(p.totalInterrupt));
    DropIsExact(cs, old(p.totalInterrupt));
    DropGrows(p, bs, s, cs, old(p.totalInterrupt));
    OpenFall(s, hs);
    DropDriven(s, cs);
    DrivenView(p, 0.0);
    GrownKeeps(p, bs, made);
    CloseMoves(p, hs);
    ByBoard(p);
    MasksAre(p);
    CloseCounters(p);
    CloseIce(p);
  }

  /** When the board is at rest again, pending ice comes down, unless an attack is still being
      answered; otherwise the next blocks are played. */
  method DropOrNext(p: BasePlayer) returns (ghost made: set<Block>)
    requires Inv(p) && p.phase == Playing
    modifies p`blockList, p`totalInterrupt, p`phase, p`hasIceBlock, p`defenseCount
    ensures Inv(p) && fresh(made)
    ensures p.phase == if old(p.totalInterrupt > 0 && !p.isComboAttack && !p.isDefending) then IceBlocking else Playing
    ensures DrivenList(p.blockList, 0.0)
    ensures p.defenseCount == if p.phase == IceBlocking then 0 else old(p.defenseCount)
    ensures p.totalInterrupt == if p.phase == IceBlocking then AfterDrop(old(p.totalInterrupt)) else old(p.totalInterrupt)
    ensures forall i :: 0 <= i < |p.blockList| ==> p.blockList[i] in old(p.blockList) || p.blockList[i] in made
    ensures forall b :: b in old(p.blockList) ==> b in p.blockList
    ensures |p.blockList| == |old(p.blockList)| + old(p.totalInterrupt) - p.totalInterrupt
    ensures GoesOn(old(SceneOf(p)), SceneOf(p))
  {
    hide *;
    made := {};
    OpenPlaying(p);
    SettledDriven(p, 0.0);
    ghost var s := SceneOf(p);
    SceneMoving(p);
    if p.totalInterrupt > 0 && !p.isComboAttack && !p.isDefending {
      ghost var cs;
      made, cs := DropIce(p);
      DropSeen(p);
      IceDropsOn(s, SceneOf(p), cs);
    } else {
      StaysOn(s);
    }
  }

  lemma {:induction false} DropSeen(p: BasePlayer)
    requires Inv(p) && p.phase == IceBlocking
    ensures p.Wired()
    ensures SceneOf(p) == Scene(View(p), NoFade, p.phase, p.comboCount, PurseOf(p), FlagsOf(p), p.playTime)
    ensures FlagsOf(p) == Flags(p.isComboAttack, p.isDefending, p.defenseCount, p.shouldQuit, p.isServer)
    ensures PurseOf(p) == Purse(p.totalScore, p.restScore, Counters(p.totalInterrupt, p.addInterrupt, p.totalEnemyInterrupt), p.scored)
  {
    hide *;
    OpenIce(p);
    SceneMoving(p);
  }

  lemma {:induction false} IceDropsOn(s: Scene, s': Scene, cs: seq<Cell>)
    requires s.purse.counters.pending > 0 && !s.flags.comboAttack && !s.flags.defending && IsDrop(cs, s.purse.counters.pending)
    requires s' == s.(view := Dropped(s.view, cs), phase := IceBlocking, flags := s.flags.(defenseCount := 0),
                      purse := s.purse.(counters := s.purse.counters.(pending := AfterDrop(s.purse.counters.pending))))
    ensures GoesOn(s, s')
  {
    hide IsDrop, Dropped, AfterDrop;
    assert IceDrops(s, s', cs);
  }

  lemma {:induction false} StaysOn(s: Scene)
    requires s.purse.counters.pending <= 0 || s.flags.comboAttack || s.flags.defending
    ensures GoesOn(s, s)
  {
  }

  /** The state while nothing is disappearing. */
  lemma {:induction false} SceneMoving(p: BasePlayer)
    requires p.Valid() && p.matchedBlocks == []
    ensures p.Wired() && SeenOf(p) == View(p)
    ensures SceneOf(p) == Scene(View(p), NoFade, p.phase, p.comboCount, PurseOf(p), FlagsOf(p), p.playTime)
    ensures FlagsOf(p) == Flags(p.isComboAttack, p.isDefending, p.defenseCount, p.shouldQuit, p.isServer)
    ensures PurseOf(p) == Purse(p.totalScore, p.restScore, Counters(p.totalInterrupt, p.addInterrupt, p.totalEnemyInterrupt), p.scored)
  {
    hide *;
    ValidWired(p);
    SeenIs(p);
    NotFading(p);
    SceneIs(p);
  }

  method AllStationary(bs: seq<Block>) returns (r: bool)
    ensures r <==> forall b :: b in bs ==> b.state == Stationary
  {
    for i := 0 to |bs|
      invariant forall k :: 0 <= k < i ==> bs[k].state == Stationary
    {
      if bs[i].state != Stationary {
        return false;
      }
    }
    return true;
  }

  // ---------------------------------------------------------------- the end of falling ice

  /** A fall in which nothing moves any more leaves the board at rest. */
  lemma {:induction false} StillIsRest(p: BasePlayer)
    requires Moves(p) && forall b :: b in p.blockList ==> b.state == Stationary
    ensures AtRest(p) && p.Valid() && p.Settled()
  {
    OpenMoves(p);
    forall i | 0 <= i < |p.blockList|
      ensures View(p).bodies[i].state == Stationary
    {
      ViewBody(p, i);
    }
    FallRestsAll(p);
  }

  lemma {:induction false} FallRestsAll(p: BasePlayer)
    requires p.Valid() && FallInvariant(View(p), Heights(View(p)), 0, 0.0)
    requires forall i :: 0 <= i < |p.blockList| && |View(p).bodies| == |p.blockList| ==> View(p).bodies[i].state == Stationary
    ensures AtRest(p) && p.Settled()
  {
    ValidWired(p);
    assert AllRest(View(p));
    hide *;
    FallRests(p, Heights(View(p)));
    OpenRest(p);
  }

  lemma {:induction false} OpenIce(p: BasePlayer)
    requires Inv(p) && p.phase == IceBlocking
    ensures Moves(p) && p.Valid() && MasksExact(p) && ComboClean(p) && CountersFine(p) && p.matchedBlocks == []
  {
    hide Moves, View;
  }

  lemma {:induction false} CloseReady(p: BasePlayer)
    requires Moves(p) && p.matchedBlocks == [] && p.Valid() && p.Settled() && SpawnFree(p) && MasksExact(p) && ComboClean(p)
    requires CountersFine(p) && p.phase == Playing
    ensures Inv(p)
  {
    hide Moves, MasksExact, SpawnFree, ComboClean, CountersFine;
  }

  lemma {:induction false} CloseOver(p: BasePlayer)
    requires (if p.matchedBlocks == [] then Moves(p) else Disappears(p)) && CountersFine(p) && p.phase == GameOver
    ensures Inv(p)
  {
    hide Moves, Disappears, CountersFine;
  }

  lemma {:induction false} NothingTaken(p: BasePlayer)
    requires p.Valid() && p.blockList == []
    ensures p.Settled() && SpawnFree(p)
  {
  }

  /** Once all ice has landed the game ends or goes on (LocalPlayer::UpdateIceBlockPhase). */
  method UpdateIceBlockPhase(p: BasePlayer)
    requires Inv(p) && p.phase == IceBlocking
    modifies p`phase, p`isGameQuit
    ensures Inv(p)
    ensures p.phase ==
      if exists b :: b in p.blockList && b.state != Stationary then IceBlocking
      else if old(SpawnTaken(p)) then GameOver else Playing
  {
    hide *;
    OpenIce(p);
    GroupWaitsIs(p);
    if |p.blockList| > 0 {
      var allStationary := AllStationary(p.blockList);
      if allStationary {
        StillIsRest(p);
        var over := ProcessGameOver(p);
        if !over {
          p.phase := Playing;
          CloseReady(p);
        } else {
          CloseOver(p);
        }
      }
    } else {
      NothingTaken(p);
      p.phase := Playing;
      CloseReady(p);
    }
  }

  /** The same as a step of the player's whole state. */
  method IcePhase(p: BasePlayer)
    requires Inv(p) && p.phase == IceBlocking
    modifies p`phase, p`isGameQuit
    ensures Inv(p) && Logic(old(SceneOf(p)), SceneOf(p))
  {
    hide *;
    OpenIce(p);
    GroupWaitsIs(p);
    ghost var s := SceneOf(p);
    SceneIs(p);
    IceSeen(p);
    UpdateIceBlockPhase(p);
    SceneIs(p);
    NotFading(p);
    IceLogic(s, SceneOf(p));
  }

  lemma {:induction false} IceSeen(p: BasePlayer)
    requires p.Valid() && p.matchedBlocks == []
    ensures AllRest(SeenOf(p)) <==> !exists b :: b in p.blockList && b.state != Stationary
    ensures SpawnHit(SeenOf(p).cells.Keys) <==> SpawnTaken(p)
  {
    hide *;
    ValidWired(p);
    SeenIs(p);
    RestByList(p);
    SpawnSeen(p);
    GroupWaitsIs(p);
  }

  lemma {:induction false} IceLogic(s: Scene, s': Scene)
    requires s.phase == IceBlocking
    requires s' == s.(phase := if !AllRest(s.view) then IceBlocking else if SpawnHit(s.view.cells.Keys) then GameOver else Playing)
    ensures Logic(s, s')
  {
    hide AllRest, SpawnHit;
  }

  lemma {:induction false} RestByList(p: BasePlayer)
    requires p.Wired()
    ensures AllRest(View(p)) <==> forall b :: b in p.blockList ==> b.state == Stationary
  {
    ListSizes(p);
    forall i | 0 <= i < |p.blockList|
      ensures View(p).bodies[i].state == p.blockList[i].state
    {
      ViewBody(p, i);
    }
    hide View;
    if AllRest(View(p)) {
      forall b | b in p.blockList
        ensures b.state == Stationary
      {
        var i :| 0 <= i < |p.blockList| && p.blockList[i] == b;
        assert View(p).bodies[i].state == Stationary;
      }
    }
  }

  // ---------------------------------------------------------------- clearing and settling

  lemma {:induction false} OpenShattering(p: BasePlayer)
    requires Inv(p) && p.phase == Shattering
    ensures CountersFine(p) && ChainCounted(p) && (if p.matchedBlocks == [] then Moves(p) else Disappears(p))
  {
    hide Moves, Disappears, ChainCounted, CountersFine;
  }

  lemma {:induction false} CloseShatteringFall(p: BasePlayer)
    requires Moves(p) && p.matchedBlocks == [] && ChainCounted(p) && CountersFine(p) && p.phase == Shattering
    ensures Inv(p)
  {
    hide Moves, ChainCounted, CountersFine;
  }

  lemma {:induction false} OpenChain(p: BasePlayer)
    requires ChainCounted(p)
    ensures p.comboCount == p.chain && 1 <= p.comboCount && ChainScored(p)
    ensures MIN_MATCH_COUNT * p.comboCount + |p.blockList| - |Flat(p.matchedBlocks)| <= BOARD_CELLS
    ensures p.matchedBlocks == [] ==> Seated(p)
    ensures Flat<Block>([]) == [] && MIN_MATCH_COUNT == 4
  {
  }

  lemma {:induction false} CloseChain(p: BasePlayer)
    requires p.comboCount == p.chain && 1 <= p.comboCount && ChainScored(p) && (p.matchedBlocks == [] ==> Seated(p))
    requires MIN_MATCH_COUNT * p.comboCount + |p.blockList| - |Flat(p.matchedBlocks)| <= BOARD_CELLS
    ensures ChainCounted(p)
  {
  }

  lemma {:induction false} ClearsOf(p: BasePlayer) returns (cells: seq<seq<Cell>>, iceAt: set<Cell>, t: real, over: bool)
    requires Disappears(p)
    ensures Clears(p, cells, iceAt, t, over) && t >= 0.0
  {
    cells, iceAt, t, over :| Clears(p, cells, iceAt, t, over) && t >= 0.0;
  }

  lemma {:induction false} ClearsIsDisappearing(p: BasePlayer, cells: seq<seq<Cell>>, iceAt: set<Cell>, t: real, over: bool)
    requires Clears(p, cells, iceAt, t, over) && p.matchedBlocks != [] && t >= 0.0
    ensures Disappears(p)
  {
    hide Clears;
  }

  lemma {:induction false} OpenMatched(p: BasePlayer, cells: seq<seq<Cell>>, iceAt: set<Cell>)
    requires Matched(p, cells, iceAt)
    ensures p.Valid() && Seated(p) && ColumnSorted(p.blockList) && Packed(p.Layout().Keys)
    ensures cells != [] && (forall i :: 0 <= i < |cells| ==> |cells[i]| >= MIN_MATCH_COUNT) && Distinct(Flat(cells))
    ensures AllPlaced(p.Layout(), p.matchedBlocks, cells)
    ensures iceAt <= p.Layout().Keys && p.iceBlocks == BlocksAt(p.Layout(), iceAt) && iceAt !! SetOf(Flat(cells))
  {
  }

  lemma {:induction false} GoneIs(cells: seq<seq<Cell>>, iceAt: set<Cell>)
    ensures Gone(cells, iceAt) == SetOf(Flat(cells)) + iceAt
  {
  }

  /** The freed cells are known: what was above one of them starts to fall. */
  method FinishRound(p: BasePlayer, indexList: seq<Cell>, ghost bs: seq<Block>, ghost l: map<Cell, Block>, ghost s: States,
                     ghost gone: set<Cell>)
    requires Cleared(p, bs, l, s, gone) && p.matchedBlocks == [] && p.iceBlocks == {} && Clearable(bs, l, s, gone)
    requires SetOf(indexList) == gone && forall i :: 0 <= i < |indexList| ==> InBoard(indexList[i])
    modifies p.blockList`state, p.blockList`link
    ensures RoundDone(p, bs, l, s, gone) && Moves(p) && Seated(p) && |p.blockList| + |gone| == |bs|
    ensures DrivenList(p.blockList, 0.0)
  {
    hide *;
    ClearedLists(p, bs, l, s, gone);
    UpdateFallingBlocks(p, indexList);
    CloseRound(p, bs, l, s, gone);
    RoundEnds(p, bs, l, s, gone);
    RoundDriven(p, bs, l, s, gone);
    ValidWired(p);
    FallStarts(View(p));
    CloseMovesNow(p);
  }

  /** One look at the disappearing groups: either nothing happens yet or all of them are taken off
      the board, with the collected ice, and what was above them starts to fall. */
  method ClearGroups(p: BasePlayer, ghost cells: seq<seq<Cell>>, ghost iceAt: set<Cell>, ghost t: real, ghost over: bool)
    requires Clears(p, cells, iceAt, t, over)
    modifies p`blockList, p.board, p`iceBlocks, p`matchedBlocks, p.blockList`state, p.blockList`link
    ensures over ==> RoundDone(p, old(p.blockList), old(p.Layout()), old(StatesOf(p)), Gone(cells, iceAt))
    ensures over ==> Moves(p) && Seated(p) && |p.blockList| + |Flat(old(p.matchedBlocks))| <= |old(p.blockList)|
    ensures DrivenList(p.blockList, 0.0)
    ensures !over ==>
      && Clears(p, cells, iceAt, t, over) && p.matchedBlocks == old(p.matchedBlocks) != [] && p.blockList == old(p.blockList)
      && p.Valid() && old(p.Valid()) && p.Layout() == old(p.Layout())
    ensures forall i :: 0 <= i < |p.blockList| ==> p.blockList[i] in old(p.blockList)
  {
    hide *;
    OpenClears(p, cells, iceAt, t, over);
    OpenMatched(p, cells, iceAt);
    ClearsReady(p, cells, iceAt, t, over);
    ClearsSurvivors(p, cells, iceAt, t, over);
    GoneIs(cells, iceAt);
    ghost var bs, l, s, gone := p.blockList, p.Layout(), StatesOf(p), Gone(cells, iceAt);
    var indexList := TakeGroups(p, cells, iceAt);
    if p.matchedBlocks == [] {
      FinishRound(p, indexList, bs, l, s, gone);
    } else {
      CloseMatched(p, cells, iceAt);
      CloseClears(p, cells, iceAt, t, over);
      FadingDriven(p, cells, iceAt, t, over);
    }
  }

  /** While matched groups disappear (first half of LocalPlayer::UpdateShatteringPhase). */
  method UpdateMatched(p: BasePlayer, ghost cells: seq<seq<Cell>>, ghost iceAt: set<Cell>, ghost t: real, ghost over: bool)
    requires Inv(p) && p.phase == Shattering && p.matchedBlocks != [] && Clears(p, cells, iceAt, t, over) && t >= 0.0 && p.Valid()
    modifies p`blockList, p.board, p`iceBlocks, p`matchedBlocks, p.blockList`state, p.blockList`link
    ensures Inv(p) && forall i :: 0 <= i < |p.blockList| ==> p.blockList[i] in old(p.blockList)
    ensures over ==>
      && RoundDone(p, old(p.blockList), old(p.Layout()), old(StatesOf(p)), Gone(cells, iceAt))
      && p.matchedBlocks == [] && |p.blockList| + MIN_MATCH_COUNT <= |old(p.blockList)|
    ensures !over ==>
      && Clears(p, cells, iceAt, t, over) && p.matchedBlocks == old(p.matchedBlocks) != [] && p.blockList == old(p.blockList)
      && p.Valid() && p.Layout() == old(p.Layout())
    ensures DrivenList(p.blockList, 0.0)
  {
    hide *;
    OpenShattering(p);
    OpenChain(p);
    ClearsSurvivors(p, cells, iceAt, t, over);
    Numbers();
    ClearGroups(p, cells, iceAt, t, over);
    if over {
      OpenMoves(p);
      CloseChain(p);
      CloseShatteringFall(p);
    } else {
      ClearsIsDisappearing(p, cells, iceAt, t, over);
      CloseChain(p);
      CloseShattering(p);
    }
  }

  ghost function OwnersOf(l: map<Cell, Block>, bs: seq<Block>): map<Cell, int> {
    map c | c in l :: IndexOf(bs, l[c])
  }

  lemma {:induction false} StillByLayout(p: BasePlayer)
    requires p.Valid()
    ensures StillOf(p) == FallState(StillBodies(p.blockList), OwnersOf(p.Layout(), p.blockList))
  {
    ValidWired(p);
    forall c
      ensures c in Owners(p) <==> c in p.Layout()
      ensures c in Owners(p) ==> Owners(p)[c] == IndexOf(p.blockList, p.Layout()[c])
    {
      p.ColouredAt(c);
    }
    hide BasePlayer.Valid, BasePlayer.Layout, BasePlayer.Wired, IndexOf;
    assert Owners(p) == OwnersOf(p.Layout(), p.blockList);
  }

  /** The blocks of a list as a round leaves them. */
  ghost function LoosenedBodies(bs: seq<Block>, gone: set<Cell>): (r: seq<Body>)
    reads bs`kind, bs`x, bs`y, bs`posY, bs`velocity, bs`initialized
    ensures |r| == |bs|
    ensures forall i :: 0 <= i < |bs| ==>
      r[i] == StillBody(bs[i]).(state := if Above(gone, Cell(bs[i].x, bs[i].y)) then DownMoving else Stationary)
  {
    if bs == [] then []
    else
      var b := bs[|bs| - 1];
      LoosenedBodies(bs[..|bs| - 1], gone) + [StillBody(b).(state := if Above(gone, Cell(b.x, b.y)) then DownMoving else Stationary)]
  }

  lemma {:induction false} LoosenedSnoc(bs: seq<Block>, b: Block, gone: set<Cell>)
    ensures LoosenedBodies(bs + [b], gone)
         == LoosenedBodies(bs, gone) + [StillBody(b).(state := if Above(gone, Cell(b.x, b.y)) then DownMoving else Stationary)]
  {
    assert (bs + [b])[..|bs|] == bs;
  }

  lemma {:induction false} StillSnoc(bs: seq<Block>, b: Block)
    ensures StillBodies(bs + [b]) == StillBodies(bs) + [StillBody(b)]
  {
    assert (bs + [b])[..|bs|] == bs;
  }

  lemma {:induction false} SurvivorsSnoc(bs: seq<Body>, b: Body, gone: set<Cell>)
    ensures Survivors(bs + [b], gone)
         == Survivors(bs, gone)
          + if Cell(b.x, b.y) in gone then [] else [b.(state := if Above(gone, Cell(b.x, b.y)) then DownMoving else Stationary)]
  {
    assert (bs + [b])[..|bs|] == bs;
  }

  /** Taking blocks off the list and reading it, or reading it and taking them off. */
  lemma {:induction false} SurvivorsWithout(bs: seq<Block>, taken: set<Block>, gone: set<Cell>)
    requires forall i :: 0 <= i < |bs| ==> (bs[i] in taken <==> Cell(bs[i].x, bs[i].y) in gone)
    ensures Survivors(StillBodies(bs), gone) == LoosenedBodies(Without(bs, taken), gone)
    decreases |bs|
  {
    hide Above, Survivors, StillBodies, LoosenedBodies, Without;
    if bs == [] {
      NoneSurvives(taken, gone);
    } else {
      var front, b := bs[..|bs| - 1], bs[|bs| - 1];
      assert bs == front + [b];
      SurvivorsWithout(front, taken, gone);
      StillSnoc(front, b);
      SurvivorsSnoc(StillBodies(front), StillBody(b), gone);
      WithoutSnoc(front, b, taken);
      LoosenedSnoc(Without(front, taken), b, gone);
    }
  }

  lemma {:induction false} NoneSurvives(taken: set<Block>, gone: set<Cell>)
    ensures Survivors(StillBodies([]), gone) == [] == LoosenedBodies(Without([], taken), gone)
  {
  }

  /** What a round leaves, seen from outside. */
  lemma {:induction false} RoundSeen(p: BasePlayer, bs: seq<Block>, l: map<Cell, Block>, s: States, gone: set<Cell>)
    requires RoundDone(p, bs, l, s, gone) && Clearable(bs, l, s, gone)
    ensures p.Valid() && p.Wired() && p.matchedBlocks == [] && Consistent(View(p))
    ensures View(p).bodies == Survivors(StillBodies(bs), gone)
  {
    hide *;
    OpenRound(p, bs, l, s, gone);
    OpenClearable(bs, l, s, gone);
    ValidWired(p);
    ValidIffConsistent(p);
    forall i | 0 <= i < |bs|
      ensures bs[i] in BlocksAt(l, gone) <==> Cell(bs[i].x, bs[i].y) in gone
    {
      TakenAt(bs, l, gone, i);
    }
    SurvivorsWithout(bs, BlocksAt(l, gone), gone);
    forall i | 0 <= i < |p.blockList|
      ensures View(p).bodies[i] == LoosenedBodies(p.blockList, gone)[i]
    {
      ViewBody(p, i);
      Survivor(p, bs, l, s, gone, i);
      BodyFrom(p.blockList[i]);
    }
    assert View(p).bodies == LoosenedBodies(p.blockList, gone);
  }

  lemma {:induction false} BodyFrom(b: Block)
    ensures BodyOf(b) == StillBody(b).(state := b.state)
  {
  }

  lemma {:induction false} TakenAt(bs: seq<Block>, l: map<Cell, Block>, gone: set<Cell>, i: int)
    requires ListsBoard(bs, l) && 0 <= i < |bs|
    ensures bs[i] in BlocksAt(l, gone) <==> Cell(bs[i].x, bs[i].y) in gone
  {
  }

  /** The frame after which nothing more happens to the groups, or all of them are gone. */
  method GroupPhase(p: BasePlayer)
    requires Inv(p) && p.phase == Shattering && p.matchedBlocks != []
    modifies p`blockList, p.board, p`iceBlocks, p`matchedBlocks, p.blockList`state, p.blockList`link
    ensures Inv(p) && forall i :: 0 <= i < |p.blockList| ==> p.blockList[i] in old(p.blockList)
    ensures DrivenList(p.blockList, 0.0) && Logic(old(SceneOf(p)), SceneOf(p))
  {
    hide *;
    OpenShattering(p);
    ghost var cells, iceAt, t, over := ClearsOf(p);
    ghost var s := SceneOf(p);
    SceneWhileFading(p, cells, iceAt, t, over);
    ghost var bs, l, st := p.blockList, p.Layout(), StatesOf(p);
    UpdateMatched(p, cells, iceAt, t, over);
    if over {
      RoundSeen(p, bs, l, st, Gone(cells, iceAt));
      SceneSeen(p);
      RoundLogic(s, SceneOf(p));
    } else {
      SceneWhileFading(p, cells, iceAt, t, over);
      WaitLogic(s);
    }
  }

  /** The state while groups disappear. */
  lemma {:induction false} SceneWhileFading(p: BasePlayer, cells: seq<seq<Cell>>, iceAt: set<Cell>, t: real, over: bool)
    requires Clears(p, cells, iceAt, t, over)
    ensures p.Valid() && p.matchedBlocks != [] && Clearable(p.blockList, p.Layout(), StatesOf(p), Gone(cells, iceAt))
    ensures Gone(cells, iceAt) == SetOf(Flat(cells)) + iceAt
    ensures SceneOf(p) == Scene(FallState(StillBodies(p.blockList), OwnersOf(p.Layout(), p.blockList)),
                                Fade.Fade(SetOf(Flat(cells)), iceAt, t, over), p.phase, p.comboCount, PurseOf(p), FlagsOf(p), p.playTime)
  {
    hide *;
    FadeIs(p, cells, iceAt, t, over);
    ClearsSurvivors(p, cells, iceAt, t, over);
    OpenClears(p, cells, iceAt, t, over);
    OpenMatched(p, cells, iceAt);
    GoneIs(cells, iceAt);
    StillByLayout(p);
    SeenIs(p);
    SceneIs(p);
  }

  lemma {:induction false} RoundLogic(s: Scene, s': Scene)
    requires s.phase == Shattering && s.fade.Fade? && s.fade.over && Consistent(s'.view)
    requires s'.view.bodies == Survivors(s.view.bodies, s.fade.matched + s.fade.ice) && s' == s.(view := s'.view, fade := NoFade)
    ensures Logic(s, s')
  {
    hide Consistent, Survivors;
    assert RoundOver(s, s');
  }

  lemma {:induction false} WaitLogic(s: Scene)
    requires s.phase == Shattering && s.fade.Fade? && !s.fade.over
    ensures Logic(s, s)
  {
  }

  lemma {:induction false} EmptyReady(p: BasePlayer)
    requires p.Valid() && p.blockList == []
    ensures p.Settled() && SpawnFree(p) && MasksExact(p) && ComboClean(p)
  {
  }

  lemma {:induction false} CloseCheckable(p: BasePlayer)
    requires AtRest(p) && p.Valid() && p.matchedBlocks == [] && p.iceBlocks == {} && Unmarked(p.blockList) && MasksExact(p)
    requires CountersFine(p)
    requires ChainSoFar(p) || |p.Coloured().Keys| < MIN_MATCH_COUNT
    ensures Checkable(p)
  {
    hide AtRest, Unmarked, MasksExact, CountersFine, ChainSoFar;
  }

  lemma {:induction false} SeatedAgain(p: BasePlayer)
    requires p.Valid()
    ensures Seated(p) <==> AllRegistered(View(p))
  {
    RegisteredBlocks(p);
    hide View, AllRegistered;
  }

  /** After a check nothing falls. */
  lemma {:induction false} CheckedDriven(p: BasePlayer, cells: seq<seq<Cell>>, iceAt: set<Cell>)
    requires Clears(p, cells, iceAt, 0.0, false) || AtRest(p)
    ensures DrivenList(p.blockList, 0.0)
  {
    hide *;
    if AtRest(p) {
      RestDriven(p, 0.0);
    } else {
      FadingDriven(p, cells, iceAt, 0.0, false);
    }
  }

  /** The masks are recomputed, and the board can be checked again. */
  method RenewLinks(p: BasePlayer)
    requires AtRest(p) && Moves(p) && CountersFine(p) && ChainCounted(p) && p.matchedBlocks == []
    modifies p.blockList`link
    ensures Checkable(p)
  {
    hide *;
    OpenMoves(p);
    OpenRest(p);
    OpenChain(p);
    CloseChainSoFar(p);
    UpdateBlockLinks(p);
    MasksAre(p);
    CloseCheckable(p);
  }

  /** The masks are recomputed, and the board is checked again. */
  method CheckSettled(p: BasePlayer) returns (ghost made: set<Block>)
    requires AtRest(p) && Moves(p) && CountersFine(p) && ChainCounted(p) && p.matchedBlocks == []
    modifies p`phase, p`comboCount, p`chain, p`scored, p`matchedBlocks, p`iceBlocks, p`isGameQuit
    modifies p`totalScore, p`restScore, p`totalInterrupt, p`addInterrupt, p`totalEnemyInterrupt, p`hasIceBlock
    modifies p`blockList, p`defenseCount
    modifies p.blockList`link, p.blockList`recursionCheck, p.blockList`state, p.blockList`effectTime
    ensures Inv(p) && fresh(made)
    ensures forall i :: 0 <= i < |p.blockList| ==> p.blockList[i] in old(p.blockList) || p.blockList[i] in made
    ensures forall b :: b in old(p.blockList) ==> b in p.blockList
    ensures p.phase ==
      if p.shouldQuit then GameOver
      else if old(GroupWaits(p)) then Shattering
      else if old(SpawnTaken(p)) then GameOver
      else if old(p.totalInterrupt > 0) && !p.isComboAttack && !p.isDefending then IceBlocking
      else Playing
    ensures p.phase != Shattering ==>
      p.totalInterrupt == if p.phase == IceBlocking then AfterDrop(old(p.totalInterrupt)) else old(p.totalInterrupt)
    ensures p.phase == Shattering ==> p.chain == old(p.chain) + 1
    ensures DrivenList(p.blockList, 0.0)
    ensures CheckedOn(old(SceneOf(p)), SceneOf(p))
  {
    hide *;
    made := {};
    ghost var s := SceneOf(p);
    RenewLinks(p);
    var r;
    ghost var cells, iceAt;
    r, cells, iceAt := CheckGameBlockState(p);
    CheckedDriven(p, cells, iceAt);
    ghost var m := SceneOf(p);
    SceneIs(p);
    if !r {
      if !p.shouldQuit {
        made := DropOrNext(p);
      }
    }
    CloseCheckedOn(s, m, SceneOf(p));
  }

  lemma {:induction false} CloseCheckedOn(s: Scene, m: Scene, s': Scene)
    requires Checked(s, m) && if m.phase == Playing then GoesOn(m, s') else s' == m
    ensures CheckedOn(s, s')
  {
    hide Checked, GoesOn;
  }

  lemma {:induction false} StillUnmarked(bs: seq<Block>, bs': seq<Block>)
    requires Unmarked(bs) && forall i :: 0 <= i < |bs'| ==> bs'[i] in bs
    ensures Unmarked(bs')
  {
  }

  lemma {:induction false} OpenFits(s: FallState)
    requires Fits(s)
    ensures NoPuyoOverIce(s)
  {
    hide NoPuyoOverIce, Room;
  }

  lemma {:induction false} RegisteredRoom(s: FallState)
    requires AllRegistered(s)
    ensures Room(s, Heights(s))
  {
  }

  /** The list is sorted in every frame of a fall, which changes nothing that matters. */
  method Resort(p: BasePlayer)
    requires Moves(p) && Seated(p)
    modifies p`blockList
    ensures Moves(p) && Seated(p) && |p.blockList| == |old(p.blockList)|
    ensures forall i :: 0 <= i < |p.blockList| ==> p.blockList[i] in old(p.blockList)
    ensures forall b :: b in old(p.blockList) ==> b in p.blockList
    ensures p.Wired() && old(p.Wired()) && (old(Fits(View(p))) ==> Fits(View(p)))
    ensures Listed(old(View(p)), View(p))
  {
    hide *;
    OpenMoves(p);
    SeatedAgain(p);
    ghost var bs, hs, s := p.blockList, Heights(View(p)), View(p);
    if Fits(s) { OpenFits(s); }
    SortFalling(p, hs);
    RegisteredRoom(View(p));
    if NoPuyoOverIce(View(p)) { CloseFits(View(p)); }
    StillUnmarked(bs, p.blockList);
    CloseMoves(p, hs);
    SeatedAgain(p);
  }

  /** After an all-clear the game goes on at once; the combo count is not reset. */
  method BoardCleared(p: BasePlayer) returns (ghost made: set<Block>)
    requires Moves(p) && CountersFine(p) && p.blockList == [] && p.matchedBlocks == []
    modifies p`phase, p`blockList, p`totalInterrupt, p`hasIceBlock, p`defenseCount
    ensures Inv(p) && fresh(made) && forall i :: 0 <= i < |p.blockList| ==> p.blockList[i] in made
    ensures p.phase ==
      if p.shouldQuit then GameOver
      else if old(p.totalInterrupt) > 0 && !p.isComboAttack && !p.isDefending then IceBlocking
      else Playing
    ensures p.totalInterrupt == if p.phase == IceBlocking then AfterDrop(old(p.totalInterrupt)) else old(p.totalInterrupt)
    ensures |p.blockList| == old(p.totalInterrupt) - p.totalInterrupt
    ensures DrivenList(p.blockList, 0.0)
    ensures SettledStep(old(SceneOf(p)), SceneOf(p))
  {
    hide *;
    made := {};
    EmptyDriven(p.blockList);
    OpenMoves(p);
    EmptyReady(p);
    ghost var s := SceneOf(p);
    SceneMoving(p);
    ListSizes(p);
    if p.shouldQuit {
      p.phase := GameOver;
      CloseOver(p);
      SceneMoving(p);
    } else {
      p.phase := Playing;
      CloseReady(p);
      SceneMoving(p);
      made := DropOrNext(p);
    }
    SettledEmpty(s, SceneOf(p));
  }

  lemma {:induction false} SettledEmpty(s: Scene, s': Scene)
    requires s.view.bodies == [] && if s.flags.shouldQuit then s' == s.(phase := GameOver) else GoesOn(s.(phase := Playing), s')
    ensures SettledStep(s, s')
  {
    hide GoesOn;
  }

  lemma {:induction false} SettledOn(s: Scene, s': Scene)
    requires s.view.bodies != [] && CheckedOn(s, s')
    ensures SettledStep(s, s')
  {
    hide CheckedOn;
  }

  /** The list has been sorted, and nothing else has happened unless all blocks rest. */
  lemma {:induction false} SettlingLogic(s: Scene, v: FallState, s': Scene)
    requires s.phase == Shattering && s.fade.NoFade? && Listed(s.view, v)
    requires if AllRest(v) then SettledStep(s.(view := v), s') else s' == s.(view := v)
    ensures Logic(s, s')
  {
    hide Listed, AllRest, SettledStep;
  }

  lemma {:induction false} EmptyDriven(bs: seq<Block>)
    requires bs == []
    ensures DrivenList(bs, 0.0)
  {
  }

  /** The list has been sorted: if everything rests, the board is checked. */
  method AfterSorting(p: BasePlayer) returns (ghost made: set<Block>)
    requires Moves(p) && ChainCounted(p) && CountersFine(p) && p.phase == Shattering && p.matchedBlocks == []
    modifies p`phase, p`comboCount, p`chain, p`scored, p`matchedBlocks, p`iceBlocks, p`isGameQuit
    modifies p`totalScore, p`restScore, p`totalInterrupt, p`addInterrupt, p`totalEnemyInterrupt, p`hasIceBlock
    modifies p`blockList, p`defenseCount
    modifies p.blockList`link, p.blockList`recursionCheck, p.blockList`state, p.blockList`effectTime
    ensures Inv(p) && fresh(made)
    ensures forall i :: 0 <= i < |p.blockList| ==> p.blockList[i] in old(p.blockList) || p.blockList[i] in made
    ensures forall b :: b in old(p.blockList) ==> b in p.blockList
    ensures old(exists b :: b in p.blockList && b.state != Stationary) ==>
      p.phase == Shattering && p.matchedBlocks == [] && p.chain == old(p.chain) && p.blockList == old(p.blockList)
      && forall b :: b in old(p.blockList) ==> b.state == old(b.state)
    ensures old(DrivenList(p.blockList, 0.0)) ==> DrivenList(p.blockList, 0.0)
    ensures if old(AllRest(SeenOf(p))) then SettledStep(old(SceneOf(p)), SceneOf(p)) else SceneOf(p) == old(SceneOf(p))
  {
    hide *;
    made := {};
    ghost var s := SceneOf(p);
    OpenMoves(p);
    RestSeen(p);
    SceneIs(p);
    if |p.blockList| > 0 {
      var allStationary := AllStationary(p.blockList);
      if allStationary {
        StillIsRest(p);
        made := CheckSettled(p);
        SettledOn(s, SceneOf(p));
      } else {
        CloseShatteringFall(p);
      }
    } else {
      made := BoardCleared(p);
    }
  }

  lemma {:induction false} SceneSeen(p: BasePlayer)
    requires p.Valid() && p.matchedBlocks == []
    ensures p.Wired() && SeenOf(p) == View(p)
    ensures SceneOf(p) == Scene(View(p), NoFade, p.phase, p.comboCount, PurseOf(p), FlagsOf(p), p.playTime)
  {
    hide *;
    SceneMoving(p);
  }

  lemma {:induction false} RestSeen(p: BasePlayer)
    requires p.Valid() && p.matchedBlocks == []
    ensures p.Wired() && SeenOf(p) == View(p) && |SeenOf(p).bodies| == |p.blockList|
    ensures AllRest(SeenOf(p)) <==> forall b :: b in p.blockList ==> b.state == Stationary
  {
    hide *;
    ValidWired(p);
    SeenIs(p);
    RestByList(p);
    ListSizes(p);
  }

  /** While blocks fall, and when they have all landed (second half of LocalPlayer::UpdateShatteringPhase). */
  method UpdateSettling(p: BasePlayer) returns (ghost made: set<Block>)
    requires Inv(p) && p.phase == Shattering && p.matchedBlocks == []
    modifies p`phase, p`comboCount, p`chain, p`scored, p`matchedBlocks, p`iceBlocks, p`isGameQuit
    modifies p`totalScore, p`restScore, p`totalInterrupt, p`addInterrupt, p`totalEnemyInterrupt, p`hasIceBlock
    modifies p`blockList, p`defenseCount
    modifies p.blockList`link, p.blockList`recursionCheck, p.blockList`state, p.blockList`effectTime
    ensures Inv(p) && fresh(made)
    ensures forall i :: 0 <= i < |p.blockList| ==> p.blockList[i] in old(p.blockList) || p.blockList[i] in made
    ensures forall b :: b in old(p.blockList) ==> b in p.blockList
    ensures old(exists b :: b in p.blockList && b.state != Stationary) ==>
      p.phase == Shattering && p.matchedBlocks == [] && p.chain == old(p.chain) && p.Wired() && old(p.Wired())
      && (old(Fits(View(p))) ==> Fits(View(p)))
      && (forall b :: b in old(p.blockList) ==> b in p.blockList && b.state == old(b.state))
      && forall i :: 0 <= i < |p.blockList| ==> p.blockList[i] in old(p.blockList)
    ensures old(DrivenList(p.blockList, 0.0)) ==> DrivenList(p.blockList, 0.0)
    ensures Logic(old(SceneOf(p)), SceneOf(p))
  {
    hide *;
    made := {};
    ghost var bs, driven := p.blockList, DrivenList(p.blockList, 0.0);
    OpenShattering(p);
    OpenMoves(p);
    OpenChain(p);
    ghost var s := SceneOf(p);
    SceneSeen(p);
    Resort(p);
    OpenMoves(p);
    SceneSeen(p);
    ghost var v := View(p);
    if driven { FewerDriven(bs, p.blockList, 0.0); }
    CloseChain(p);
    made := AfterSorting(p);
    SettlingLogic(s, v, SceneOf(p));
  }
}
