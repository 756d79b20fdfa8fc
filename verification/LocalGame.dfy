/** Whole frames of a game, and exactly when a fall starts as the theorems need it. */
module LocalGame {
  import opened Geometry
  import opened Connectivity
  import opened BlockStates
  import opened Matching
  import opened PuyoBlocks
  import opened Players
  import opened Falling
  import opened Gravity
  import opened Clearing
  import opened Rounds
  import opened Settling
  import opened Garbage
  import opened Resting
  import opened Sorting
  import opened Destroying
  import opened Scenes
  import opened LinkStates
  import opened LocalPlayers
  import opened LocalSteps
  import opened LocalFrames
  import opened Driving
  import Ledger
  import Mirror

  // ---------------------------------------------------------------- the start of a game

  lemma {:induction false} NewGame(p: BasePlayer)
    requires p.Valid() && p.blockList == [] && p.matchedBlocks == [] && p.iceBlocks == {} && p.phase == Playing
    requires p.comboCount == 0 && p.restScore == 0 && p.totalInterrupt == 0 && !p.hasIceBlock
    ensures Inv(p)
  {
    EmptyReady(p);
    EmptyMoves(p);
    FineAfterReset(p);
    hide *;
    CloseReady(p);
  }

  lemma {:induction false} EmptyMoves(p: BasePlayer)
    requires p.Valid() && p.blockList == [] && p.matchedBlocks == [] && p.iceBlocks == {}
    ensures Moves(p)
  {
    assert AtRest(p);
    hide *;
    EmptyUnmarked(p.blockList);
    RestMoves(p);
  }

  lemma {:induction false} EmptyUnmarked(bs: seq<Block>)
    requires bs == []
    ensures Unmarked(bs)
  {
  }

  method StartGame(isServer: bool) returns (p: BasePlayer)
    ensures fresh(p) && fresh(p.board) && Inv(p) && p.phase == Playing && p.blockList == []
    ensures p.totalInterrupt == 0 && !p.shouldQuit && DrivenList(p.blockList, 0.0)
  {
    hide *;
    p := new BasePlayer(isServer);
    EmptyDriven(p.blockList);
    NewGame(p);
  }

  /** While the player is thinking, every frame is smooth: nothing moves at all. */
  lemma {:induction false} PlayingIsSmooth(p: BasePlayer, dt: real)
    requires Inv(p) && p.phase == Playing
    ensures Smooth(p, dt)
  {
    InvBoard(p);
    hide *;
    OpenMoves(p);
    SettledIff(p);
    RestFits(View(p), dt);
    SmoothIs(p, dt);
  }

  lemma {:induction false} SmoothIs(p: BasePlayer, dt: real)
    requires p.Wired()
    ensures Smooth(p, dt) <==> Fits(View(p)) && Paced(View(p), 0, dt)
  {
  }

  lemma {:induction false} RestFits(s: FallState, dt: real)
    requires AllRest(s)
    ensures Fits(s) && Paced(s, 0, dt)
  {
    hide Velocity;
  }

  // ---------------------------------------------------------------- steps between frames

  method AddAttack(p: BasePlayer, count: int)
    requires Inv(p)
    modifies p`totalInterrupt, p`hasIceBlock, p`isComboAttack
    ensures Inv(p) && p.totalInterrupt == Scoring.ToInt16(old(p.totalInterrupt) + count) && p.isComboAttack
  {
    hide *;
    InvBoard(p);
    OpenCounters(p);
    Ledger.AddInterruptBlock(p, count);
    CloseCounters(p);
    CloseByPhase(p);
  }

  /** An attack arrives in any phase. */
  method ReceiveAttack(p: BasePlayer, count: int)
    requires Inv(p)
    modifies p`totalInterrupt, p`hasIceBlock, p`isComboAttack
    ensures Inv(p) && p.totalInterrupt == Scoring.ToInt16(old(p.totalInterrupt) + count) && p.isComboAttack
    ensures SceneOf(p) == Attacked(old(SceneOf(p)), count)
  {
    hide *;
    ghost var s := SceneOf(p);
    SceneIs(p);
    AddAttack(p, count);
    SceneIs(p);
    AttackedIs(s, count);
  }

  lemma {:induction false} AttackedIs(s: Scene, count: int)
    ensures Attacked(s, count) ==
      s.(purse := s.purse.(counters := s.purse.counters.(pending := Scoring.ToInt16(s.purse.counters.pending + count))),
         flags := s.flags.(comboAttack := true))
  {
    hide Scoring.ToInt16;
  }

  lemma {:induction false} RelievedIs(s: Scene)
    ensures Relieved(s) == s.(flags := s.flags.(comboAttack := false))
  {
  }

  lemma {:induction false} AnsweredIs(s: Scene, count: int)
    ensures Answered(s, count) == s.(purse := s.purse.(counters := s.purse.counters.(pending := count)))
  {
  }

  /** The opponent's chain is over (GameState::HandleStopCombo): the ice it has sent may come down. */
  method StopCombo(p: BasePlayer)
    requires Inv(p)
    modifies p`isComboAttack
    ensures Inv(p) && !p.isComboAttack && SceneOf(p) == Relieved(old(SceneOf(p)))
  {
    hide *;
    ghost var s := SceneOf(p);
    SceneIs(p);
    p.isComboAttack := false;
    SceneIs(p);
    RelievedIs(s);
  }

  method SetCount(p: BasePlayer, count: int)
    requires Inv(p)
    modifies p`totalInterrupt, p`hasIceBlock
    ensures Inv(p) && p.totalInterrupt == count
  {
    hide *;
    InvBoard(p);
    OpenCounters(p);
    Mirror.UpdateInterruptBlock(p, count);
    CloseCounters(p);
    CloseByPhase(p);
  }

  /** The server answers an attack or a defence with its own count of what is pending here. */
  method SetPending(p: BasePlayer, count: int)
    requires Inv(p)
    modifies p`totalInterrupt, p`hasIceBlock
    ensures Inv(p) && p.totalInterrupt == count && SceneOf(p) == Answered(old(SceneOf(p)), count)
  {
    hide *;
    ghost var s := SceneOf(p);
    SceneIs(p);
    SetCount(p, count);
    SceneIs(p);
    AnsweredIs(s, count);
  }

  /** The game is lost for a reason outside the board. */
  method Lose(p: BasePlayer)
    requires Inv(p)
    modifies p`phase, p`isGameQuit
    ensures Inv(p) && p.phase == GameOver && SceneOf(p) == old(SceneOf(p)).(phase := GameOver)
  {
    hide *;
    InvBoard(p);
    SceneIs(p);
    LoseGame(p);
    CloseByPhase(p);
    SceneIs(p);
  }

  ghost predicate SomethingMoves(p: BasePlayer)
    reads p`blockList, p.blockList`state
  {
    exists b :: b in p.blockList && b.state != Stationary
  }

  /** What a phase does after the blocks have been updated (LocalPlayer::UpdateGameLogic).
      `GameOver` is never left; `Playing` waits for the player. */
  method UpdateGameLogic(p: BasePlayer) returns (ghost made: set<Block>)
    requires Inv(p)
    modifies p`phase, p`comboCount, p`chain, p`scored, p`matchedBlocks, p`iceBlocks, p`isGameQuit, p`blockList, p.board
    modifies p`totalScore, p`restScore, p`totalInterrupt, p`addInterrupt, p`totalEnemyInterrupt, p`hasIceBlock
    modifies p`defenseCount
    modifies p.blockList`link, p.blockList`recursionCheck, p.blockList`state, p.blockList`effectTime
    ensures Inv(p) && fresh(made)
    ensures old(p.phase) == GameOver ==> p.phase == GameOver
    ensures old(p.phase) == Playing ==> p.phase == Playing
    ensures old(DrivenList(p.blockList, 0.0)) ==> DrivenList(p.blockList, 0.0)
    ensures old(p.matchedBlocks) == [] ==> forall b :: b in old(p.blockList) ==> b in p.blockList
    ensures old(p.phase) == Shattering && old(p.matchedBlocks) == [] && old(SomethingMoves(p)) ==>
      p.phase == Shattering && p.Wired() && old(p.Wired()) && (old(Fits(View(p))) ==> Fits(View(p)))
    ensures forall i :: 0 <= i < |p.blockList| ==> p.blockList[i] in old(p.blockList) || p.blockList[i] in made
    ensures Logic(old(SceneOf(p)), SceneOf(p))
  {
    made := {};
    SomethingMovesIs(p);
    hide *;
    QuietLogic(p);
    match p.phase
    case Standing =>
    case GameOver =>
    case Playing =>
    case IceBlocking =>
      IcePhase(p);
    case Shattering =>
      if p.matchedBlocks != [] {
        GroupPhase(p);
      } else {
        made := UpdateSettling(p);
      }
  }

  lemma {:induction false} QuietLogic(p: BasePlayer)
    ensures p.phase == Standing || p.phase == Playing || p.phase == GameOver ==> Logic(SceneOf(p), SceneOf(p))
  {
    hide SeenOf, FadeOf;
  }

  lemma {:induction false} SomethingMovesIs(p: BasePlayer)
    ensures SomethingMoves(p) <==> exists b :: b in p.blockList && b.state != Stationary
  {
  }
}
