/** Whole games: any sequence of frames, placed groups, attacks and losses. */
module Games {
  import opened Geometry
  import opened Connectivity
  import opened BlockStates
  import opened Matching
  import opened PuyoBlocks
  import opened Players
  import opened Falling
  import opened Gravity
  import opened Settling
  import opened Sorting
  import opened Garbage
  import opened Resting
  import opened Destroying
  import opened Scenes
  import opened LocalPlayers
  import opened LocalSteps
  import opened LocalFrames
  import opened LocalPush
  import opened LocalGame
  import opened Smoothness
  import opened FallSpeed
  import opened Driving
  import opened Compaction
  import opened Targets
  import opened Progress
  import Scoring

  /** What can happen to a player: a frame of some length, a control group that comes down over two
      columns (the lower block of an upright group first), an attack, the end of the opponent's chain,
      the server's answer with its count of the pending ice, a loss. */
  datatype Input =
    | Tick(dt: real)
    | Group(kind1: BlockType, x1: int, kind2: BlockType, x2: int)
    | Attack(count: int)
    | ChainOver
    | Answer(count: int)
    | Quit

  lemma {:induction false} CloseLanding(p: BasePlayer, b1: Block, b2: Block)
    requires p.Valid() && b1 != b2 && b1 !in p.blockList && b2 !in p.blockList
    requires LowestFree(p.Layout().Keys, Cell(b1.x, b1.y), Cell(b2.x, b2.y))
    requires b1.kind != Ice && b1.state == Stationary && InItsRow(b1) && b1.link == {} && !b1.recursionCheck
    requires b2.kind != Ice && b2.state == Stationary && InItsRow(b2) && b2.link == {} && !b2.recursionCheck
    ensures LandsOnBoard(p, b1, b2)
  {
    hide BasePlayer.Valid, BasePlayer.Layout, InItsRow, Packed;
  }

  lemma {:induction false} InRowAt(b: Block)
    requires b.posY == RowY(b.y) && b.velocity == 0.0
    ensures InItsRow(b)
  {
  }

  /** On an empty board two blocks neither complete a group nor reach a spawn cell. */
  lemma {:induction false} FirstGroup(p: BasePlayer, b1: Block, b2: Block)
    requires LandsOnBoard(p, b1, b2) && p.blockList == []
    ensures !GroupForms(p, b1, b2) && !OnSpawn(b1) && !OnSpawn(b2)
  {
    OpenLanding(p, b1, b2);
    var c1, c2 := Cell(b1.x, b1.y), Cell(b2.x, b2.y);
    assert p.Layout().Keys == {} && p.Coloured().Keys == {};
    OnlyTwo(p.Coloured(), c1, c2, b1.kind, b2.kind);
    SmallColours(WithGroup(p.Coloured(), b1, b2));
    GroupFormsIs(p, b1, b2);
    LowTwo(c1, c2);
  }

  lemma {:induction false} LowTwo(c1: Cell, c2: Cell)
    requires Packed({c1, c2})
    ensures c1.y <= 1 && c2.y <= 1
  {
    assert c1.y > 0 ==> Neighbour(c1, Bottom) in {c1, c2};
    assert c2.y > 0 ==> Neighbour(c2, Bottom) in {c1, c2};
  }

  ghost predicate Arrived(p: BasePlayer, made: set<Block>, b: Block, kind: BlockType, x: int)
    reads p`blockList, b
  {
    b in made && b in p.blockList && b.kind == kind && b.x == x
  }

  lemma {:induction false} ArrivedIs(p: BasePlayer, made: set<Block>, b: Block)
    requires b in made && b in p.blockList
    ensures Arrived(p, made, b, b.kind, b.x)
  {
  }

  /** The two blocks of a control group on their lowest free cells. */
  method MakeGroup(p: BasePlayer, kind1: BlockType, x1: int, y1: int, kind2: BlockType, x2: int, y2: int) returns (b1: Block, b2: Block)
    requires p.Valid() && LowestFree(p.Layout().Keys, Cell(x1, y1), Cell(x2, y2)) && kind1 != Ice && kind2 != Ice
    ensures fresh(b1) && fresh(b2) && b1 != b2 && LandsOnBoard(p, b1, b2)
    ensures b1.kind == kind1 && b1.x == x1 && b1.y == y1 && b2.kind == kind2 && b2.x == x2 && b2.y == y2
    ensures p.blockList == [] ==> !GroupForms(p, b1, b2) && !OnSpawn(b1) && !OnSpawn(b2)
  {
    hide *;
    b1 := new Block(kind1, x1, y1, RowY(y1), Stationary);
    b2 := new Block(kind2, x2, y2, RowY(y2), Stationary);
    InRowAt(b1);
    InRowAt(b2);
    CloseLanding(p, b1, b2);
    if p.blockList == [] { FirstGroup(p, b1, b2); }
  }

  lemma {:induction false} CellsSeen(p: BasePlayer)
    requires p.Valid() && p.matchedBlocks == []
    ensures SceneOf(p).view.cells.Keys == p.Layout().Keys
  {
    hide *;
    SceneMoving(p);
    ViewByLayout(p);
    OwnerKeys(p.Layout(), p.blockList);
  }

  lemma {:induction false} OwnerKeys(l: map<Cell, Block>, bs: seq<Block>)
    ensures OwnersOf(l, bs).Keys == l.Keys
  {
  }

  lemma {:induction false} GroupLanded(s: Scene, kind1: BlockType, x1: int, y1: int, kind2: BlockType, x2: int, y2: int, s': Scene)
    requires LowestFree(s.view.cells.Keys, Cell(x1, y1), Cell(x2, y2)) && (x1 == x2 ==> y1 < y2)
    requires Pushed(s, s', kind1, Cell(x1, y1), kind2, Cell(x2, y2))
    ensures GroupStep(s, kind1, x1, kind2, x2, s')
  {
    hide LowestFree, Pushed;
  }

  /** The two blocks are made and placed. */
  method LandGroup(p: BasePlayer, kind1: BlockType, x1: int, y1: int, kind2: BlockType, x2: int, y2: int) returns (ghost made: set<Block>)
    requires Inv(p) && p.phase == Playing && kind1 != Ice && kind2 != Ice && p.Valid() && p.matchedBlocks == []
    requires LowestFree(p.Layout().Keys, Cell(x1, y1), Cell(x2, y2)) && (x1 == x2 ==> y1 < y2)
    modifies p, p.board, p.blockList
    ensures Inv(p) && fresh(made)
    ensures forall i :: 0 <= i < |p.blockList| ==> p.blockList[i] in old(p.blockList) || p.blockList[i] in made
    ensures forall b :: b in old(p.blockList) ==> b in p.blockList
    ensures DrivenList(p.blockList, 0.0)
    ensures old(p.blockList == [] && !p.shouldQuit) ==>
      && p.phase == (if old(p.totalInterrupt > 0 && !p.isComboAttack) then IceBlocking else Playing)
      && p.totalInterrupt == (if p.phase == IceBlocking then AfterDrop(old(p.totalInterrupt)) else old(p.totalInterrupt))
      && |p.blockList| == 2 + old(p.totalInterrupt) - p.totalInterrupt
    ensures exists b1, b2 :: Arrived(p, made, b1, kind1, x1) && Arrived(p, made, b2, kind2, x2) && b1 != b2
    ensures GroupStep(old(SceneOf(p)), kind1, x1, kind2, x2, SceneOf(p))
  {
    hide *;
    ghost var s := SceneOf(p);
    CellsSeen(p);
    var b1, b2 := MakeGroup(p, kind1, x1, y1, kind2, x2, y2);
    made := PushBlockInGame(p, b1, b2);
    made := made + {b1, b2};
    ArrivedIs(p, made, b1);
    ArrivedIs(p, made, b2);
    GroupLanded(s, kind1, x1, y1, kind2, x2, y2, SceneOf(p));
  }

  /** A control group comes down, if both of its columns have room. */
  method PlayGroup(p: BasePlayer, kind1: BlockType, x1: int, kind2: BlockType, x2: int) returns (ok: bool, ghost made: set<Block>)
    requires Inv(p) && p.phase == Playing && kind1 != Ice && kind2 != Ice && 0 <= x1 < BOARD_X_COUNT && 0 <= x2 < BOARD_X_COUNT
    modifies p, p.board, p.blockList
    ensures Inv(p) && fresh(made)
    ensures forall i :: 0 <= i < |p.blockList| ==> p.blockList[i] in old(p.blockList) || p.blockList[i] in made
    ensures ok <==> old(HasTargets(p, x1, x2))
    ensures !ok ==> p.phase == Playing && !HasTargets(p, x1, x2)
    ensures forall b :: b in old(p.blockList) ==> b in p.blockList
    ensures old(DrivenList(p.blockList, 0.0)) ==> DrivenList(p.blockList, 0.0)
    ensures ok && old(p.blockList == [] && !p.shouldQuit) ==>
      && p.phase == (if old(p.totalInterrupt > 0 && !p.isComboAttack) then IceBlocking else Playing)
      && p.totalInterrupt == (if p.phase == IceBlocking then AfterDrop(old(p.totalInterrupt)) else old(p.totalInterrupt))
      && |p.blockList| == 2 + old(p.totalInterrupt) - p.totalInterrupt
    ensures ok ==> exists b1, b2 :: Arrived(p, made, b1, kind1, x1) && Arrived(p, made, b2, kind2, x2) && b1 != b2
    ensures if ok then GroupStep(old(SceneOf(p)), kind1, x1, kind2, x2, SceneOf(p)) else SceneOf(p) == old(SceneOf(p))
  {
    hide *;
    made := {};
    OpenPlaying(p);
    PlayingIsSafe(p);
    OpenRest(p);
    Sizes();
    var y1, y2 := UpdateTargetPosIdx(p, x1, x2);
    if y1 == BOARD_Y_COUNT || y2 == BOARD_Y_COUNT {
      return false, made;
    }
    made := LandGroup(p, kind1, x1, y1, kind2, x2, y2);
    ok := true;
  }

  lemma {:induction false} FrameStepIs(s: Scene, dt: real)
    ensures forall s' :: FrameStep(s, dt, s') <==> Logic(Passed(s, dt), s')
  {
    hide Logic, Passed;
  }

  /** One frame: every block is updated, then the phase (GameState::Update). */
  method PlayFrame(p: BasePlayer, dt: real) returns (ok: bool, ghost made: set<Block>)
    requires Inv(p) && dt >= 0.0
    modifies p, p.board, p.blockList
    ensures Inv(p) && fresh(made)
    ensures forall i :: 0 <= i < |p.blockList| ==> p.blockList[i] in old(p.blockList) || p.blockList[i] in made
    ensures ok <==> old(p.matchedBlocks != [] || Smooth(p, dt))
    ensures !ok ==> p.phase == old(p.phase) && p.blockList == old(p.blockList) && !(p.matchedBlocks != [] || Smooth(p, dt))
    ensures old(p.phase) == GameOver ==> p.phase == GameOver
    ensures old(DrivenList(p.blockList, 0.0)) && dt <= SHORT ==> DrivenList(p.blockList, 0.0)
    ensures if ok then FrameStep(old(SceneOf(p)), dt, SceneOf(p)) else SceneOf(p) == old(SceneOf(p))
  {
    hide *;
    made := {};
    FrameStepIs(SceneOf(p), dt);
    InvBoard(p);
    ok := true;
    if p.matchedBlocks == [] {
      ok := IsSmooth(p, dt);
    }
    if ok {
      PassFrame(p, dt);
      made := UpdateGameLogic(p);
    }
  }

  /** Can the input happen now? */
  ghost predicate Possible(p: BasePlayer, input: Input)
    reads p`phase, p`matchedBlocks, p`blockList, p.board
    reads p.blockList`kind, p.blockList`state, p.blockList`x, p.blockList`y, p.blockList`posY, p.blockList`velocity, p.blockList`initialized
  {
    match input
    case Tick(dt) => dt >= 0.0 && (p.matchedBlocks != [] || Smooth(p, dt))
    case Group(k1, x1, k2, x2) => p.phase == Playing && k1 != Ice && k2 != Ice && 0 <= x1 < BOARD_X_COUNT && 0 <= x2 < BOARD_X_COUNT && HasTargets(p, x1, x2)
    case Attack(_) => true
    case ChainOver => true
    case Answer(_) => true
    case Quit => true
  }

  lemma {:induction false} PossibleIs(p: BasePlayer, input: Input)
    ensures !input.Tick? && !input.Group? ==> Possible(p, input)
    ensures input.Tick? ==> (Possible(p, input) <==> input.dt >= 0.0 && (p.matchedBlocks != [] || Smooth(p, input.dt)))
    ensures input.Group? ==>
      (Possible(p, input) <==>
         p.phase == Playing && input.kind1 != Ice && input.kind2 != Ice && 0 <= input.x1 < BOARD_X_COUNT && 0 <= input.x2 < BOARD_X_COUNT
         && HasTargets(p, input.x1, input.x2))
  {
    hide Smooth, HasTargets;
  }

  /** What an input makes of the player's state. */
  ghost predicate Step(s: Scene, input: Input, s': Scene) {
    match input
    case Tick(dt) => dt >= 0.0 && SmoothIn(s, dt) && FrameStep(s, dt, s')
    case Group(k1, x1, k2, x2) => s.phase == Playing && k1 != Ice && k2 != Ice && GroupStep(s, k1, x1, k2, x2, s')
    case Attack(count) => s' == Attacked(s, count)
    case ChainOver => s' == Relieved(s)
    case Answer(count) => s' == Answered(s, count)
    case Quit => s' == s.(phase := GameOver)
  }

  lemma {:induction false} OpenStep(s: Scene, input: Input, s': Scene)
    ensures Step(s, input, s') <==>
      match input
      case Tick(dt) => dt >= 0.0 && SmoothIn(s, dt) && FrameStep(s, dt, s')
      case Group(k1, x1, k2, x2) => s.phase == Playing && k1 != Ice && k2 != Ice && GroupStep(s, k1, x1, k2, x2, s')
      case Attack(count) => s' == Attacked(s, count)
      case ChainOver => s' == Relieved(s)
      case Answer(count) => s' == Answered(s, count)
      case Quit => s' == s.(phase := GameOver)
  {
    hide FrameStep, SmoothIn, GroupStep, Attacked, Relieved, Answered;
  }

  /** The hypotheses on a frame, read off the state. */
  lemma {:induction false} SmoothSeen(p: BasePlayer, dt: real)
    requires Inv(p)
    ensures SceneOf(p).phase == p.phase && (SmoothIn(SceneOf(p), dt) <==> p.matchedBlocks != [] || Smooth(p, dt))
  {
    InvBoard(p);
    hide *;
    SceneIs(p);
    if p.matchedBlocks == [] {
      OpenMoves(p);
      SceneMoving(p);
    } else {
      DisappearingSeen(p);
    }
    SmoothInIs(SceneOf(p), dt);
    SmoothByView(p, dt);
  }

  lemma {:induction false} SmoothByView(p: BasePlayer, dt: real)
    ensures p.Wired() ==> (Smooth(p, dt) <==> Fits(View(p)) && Paced(View(p), 0, dt))
  {
  }

  lemma {:induction false} SmoothInIs(s: Scene, dt: real)
    ensures SmoothIn(s, dt) <==> s.fade.Fade? || (Fits(s.view) && Paced(s.view, 0, dt))
  {
  }

  lemma {:induction false} DisappearingSeen(p: BasePlayer)
    requires Disappears(p)
    ensures SceneOf(p).fade.Fade? && SceneOf(p).fade.time >= 0.0
  {
    hide *;
    var cells, iceAt, t, over := ClearsOf(p);
    FadeIs(p, cells, iceAt, t, over);
    SceneIs(p);
  }

  /** One input: it is refused when it cannot happen now, and keeps the invariant when it can. */
  method PlayInput(p: BasePlayer, input: Input) returns (ok: bool, ghost made: set<Block>)
    requires Inv(p)
    modifies p, p.board, p.blockList
    ensures Inv(p) && fresh(made)
    ensures forall i :: 0 <= i < |p.blockList| ==> p.blockList[i] in old(p.blockList) || p.blockList[i] in made
    ensures ok <==> old(Possible(p, input))
    ensures !ok ==> !Possible(p, input)
    ensures old(p.phase) == GameOver ==> p.phase == GameOver
    ensures old(DrivenList(p.blockList, 0.0)) && (input.Tick? ==> input.dt <= SHORT) ==> DrivenList(p.blockList, 0.0)
    ensures if ok then Step(old(SceneOf(p)), input, SceneOf(p)) else SceneOf(p) == old(SceneOf(p))
  {
    hide *;
    ghost var s := SceneOf(p);
    if input.Tick? { SmoothSeen(p, input.dt); }
    SceneIs(p);
    made := {};
    ok := false;
    Sizes();
    PossibleIs(p, input);
    match input {
      case Tick(dt) =>
        if dt >= 0.0 {
          ok, made := PlayFrame(p, dt);
        }
      case Group(kind1, x1, kind2, x2) =>
        if p.phase == Playing && kind1 != Ice && kind2 != Ice && 0 <= x1 < BOARD_X_COUNT && 0 <= x2 < BOARD_X_COUNT {
          ok, made := PlayGroup(p, kind1, x1, kind2, x2);
        }
      case Attack(count) =>
        ReceiveAttack(p, count);
        ok := true;
      case ChainOver =>
        StopCombo(p);
        ok := true;
      case Answer(count) =>
        SetPending(p, count);
        ok := true;
      case Quit =>
        Lose(p);
        ok := true;
    }
    PossibleIs(p, input);
    OpenStep(s, input, SceneOf(p));
  }

  /** Every frame is a short one. */
  predicate ShortTicks(inputs: seq<Input>) {
    forall k :: 0 <= k < |inputs| && inputs[k].Tick? ==> inputs[k].dt <= SHORT
  }

  lemma {:induction false} ShortTickAt(inputs: seq<Input>, k: int)
    requires ShortTicks(inputs) && 0 <= k < |inputs|
    ensures inputs[k].Tick? ==> inputs[k].dt <= SHORT
  {
  }

  /** What moves can fall in order and has room, as `RoundFitsIff` and `DropFitsIff` describe it. */
  ghost predicate FitsNow(p: BasePlayer)
    reads p`blockList, p.board
    reads p.blockList`kind, p.blockList`state, p.blockList`x, p.blockList`y, p.blockList`posY, p.blockList`velocity, p.blockList`initialized
  {
    p.Wired() && Fits(View(p))
  }

  /** Between short frames, a tick is impossible only if what falls does not fit. */
  lemma {:induction false} ShortTickFits(p: BasePlayer, input: Input)
    requires Inv(p) && DrivenList(p.blockList, 0.0) && input.Tick? && 0.0 <= input.dt <= SHORT && !Possible(p, input)
    ensures !FitsNow(p)
  {
    OpenFitsNow(p);
    hide *;
    InvBoard(p);
    PossibleIs(p, input);
    if FitsNow(p) {
      CloseShort(p, 0.0);
      ShortIsSmooth(p, 0.0, input.dt);
    }
  }

  lemma {:induction false} OpenFitsNow(p: BasePlayer)
    ensures FitsNow(p) ==> p.Wired() && Fits(View(p))
  {
  }

  /** A game as the states between its inputs. */
  ghost predicate Plays(trace: seq<Scene>, inputs: seq<Input>) {
    && |trace| == |inputs| + 1
    && (forall k :: 0 <= k < |trace| ==> Sound(trace[k]))
    && (forall k :: 0 <= k < |inputs| ==> Step(trace[k], inputs[k], trace[k + 1]))
  }

  ghost predicate AllSwift(trace: seq<Scene>) {
    forall k :: 0 <= k < |trace| ==> Swift(trace[k])
  }

  lemma {:induction false} OneMoreInput(trace: seq<Scene>, inputs: seq<Input>, n: int, s: Scene)
    requires 0 <= n < |inputs| && Plays(trace, inputs[..n]) && Sound(s) && Step(trace[n], inputs[n], s)
    ensures Plays(trace + [s], inputs[..n + 1])
    ensures AllSwift(trace) && Swift(s) ==> AllSwift(trace + [s])
  {
    hide Sound, Step, Swift;
    var t, ins := trace + [s], inputs[..n + 1];
    forall k | 0 <= k < |ins|
      ensures Step(t[k], ins[k], t[k + 1])
    {
      assert ins[k] == inputs[k];
      if k < n { assert inputs[..n][k] == inputs[k]; }
    }
  }

  lemma {:induction false} NoInput(s: Scene, inputs: seq<Input>)
    requires Sound(s)
    ensures Plays([s], inputs[..0]) && (Swift(s) ==> AllSwift([s]))
  {
    hide Sound, Step, Swift;
  }

  lemma {:induction false} LastOfTrace(trace: seq<Scene>, s: Scene)
    ensures (trace + [s])[|trace|] == s && (trace != [] ==> (trace + [s])[0] == trace[0]) && |trace + [s]| == |trace| + 1
  {
  }

  lemma {:induction false} TraceSize(trace: seq<Scene>, inputs: seq<Input>)
    requires Plays(trace, inputs)
    ensures |trace| == |inputs| + 1
  {
    hide Sound, Step;
  }

  /** The invariant of the phases, as it shows in the state. */
  lemma {:induction false} SceneIsSound(p: BasePlayer)
    requires Inv(p)
    ensures Sound(SceneOf(p)) && (DrivenList(p.blockList, 0.0) ==> Swift(SceneOf(p)))
  {
    InvBoard(p);
    if p.phase == Shattering { ChainIsBounded(p); }
    hide *;
    SceneIs(p);
    if p.matchedBlocks == [] {
      OpenMoves(p);
      SceneMoving(p);
      ColoursSeated(p);
      DrivenView(p, 0.0);
      SettledIff(p);
      SpawnSeen(p);
      if p.phase == Shattering {
        OpenChain(p);
        SeatedAgain(p);
      }
      OpenFall(View(p), Heights(View(p)));
      SoundMoving(SceneOf(p));
    } else {
      DisappearingSeen(p);
      StillConsistent(p);
      SoundFading(SceneOf(p));
    }
  }

  lemma {:induction false} StillConsistent(p: BasePlayer)
    requires Disappears(p)
    ensures Consistent(SceneOf(p).view) && ColoursRegistered(SceneOf(p).view)
  {
    hide *;
    var cells, iceAt, t, over := ClearsOf(p);
    SceneWhileFading(p, cells, iceAt, t, over);
    ValidWired(p);
    ValidIffConsistent(p);
    ViewByLayout(p);
    StillAlike(p.blockList, OwnersOf(p.Layout(), p.blockList));
  }

  /** Whether blocks rest or not does not matter for where they are. */
  lemma {:induction false} StillAlike(bs: seq<Block>, cells: map<Cell, int>)
    requires Consistent(FallState(Bodies(bs), cells))
    ensures Consistent(FallState(StillBodies(bs), cells)) && ColoursRegistered(FallState(StillBodies(bs), cells))
  {
    hide Bodies, StillBodies;
    forall i | 0 <= i < |bs|
      ensures StillBodies(bs)[i].registered == Bodies(bs)[i].registered
      ensures StillBodies(bs)[i].x == Bodies(bs)[i].x && StillBodies(bs)[i].y == Bodies(bs)[i].y
    {
    }
  }

  lemma {:induction false} SoundMoving(s: Scene)
    requires s.phase != Standing && s.fade.NoFade? && FallInvariant(s.view, Heights(s.view), 0, 0.0)
    requires Consistent(s.view) && ColoursRegistered(s.view)
    requires s.phase == Playing ==> AllRest(s.view) && !SpawnHit(s.view.cells.Keys)
    requires s.phase == IceBlocking ==> OnlyIceFalls(s.view)
    requires s.phase == Shattering ==> 1 <= s.combo <= Scoring.MAX_COMBO && AllRegistered(s.view)
    ensures Sound(s) && (AllDriven(s.view, 0, 0.0, 0.0) ==> Swift(s))
  {
    hide Consistent, FallInvariant, ColoursRegistered, AllRest, SpawnHit, OnlyIceFalls, AllRegistered, AllDriven;
  }

  lemma {:induction false} SoundFading(s: Scene)
    requires s.fade.Fade? && s.fade.time >= 0.0 && (s.phase == Shattering || s.phase == GameOver)
    requires s.phase == Shattering ==> 1 <= s.combo <= Scoring.MAX_COMBO
    requires Consistent(s.view) && ColoursRegistered(s.view)
    ensures Sound(s) && Swift(s)
  {
    hide Consistent, ColoursRegistered;
  }

  /** A whole game, from any state that satisfies the invariant, for any sequence of inputs up to the
      first that cannot happen.  At every boundary between inputs the invariant holds; with it, free
      spawn cells and a packed board in `Playing`, a bounded chain in `Shattering`; and a game that is
      over stays over.  If all frames are short and nothing is too fast at the start, a frame is refused
      only when a coloured block would fall above ice or ice would fall into a full column. */
  method Play(p: BasePlayer, inputs: seq<Input>) returns (played: nat, ghost trace: seq<Scene>)
    requires Inv(p)
    modifies p, p.board, p.blockList
    ensures Inv(p) && played <= |inputs|
    ensures played < |inputs| ==> !Possible(p, inputs[played])
    ensures p.phase == Playing ==> !IsGameOver(p) && AtRest(p) && MasksExact(p)
    ensures p.phase == Shattering ==> 1 <= p.comboCount == p.chain <= Scoring.MAX_COMBO
    ensures old(p.phase) == GameOver ==> p.phase == GameOver
    ensures old(DrivenList(p.blockList, 0.0)) && ShortTicks(inputs) ==> DrivenList(p.blockList, 0.0)
    ensures old(DrivenList(p.blockList, 0.0)) && ShortTicks(inputs) && played < |inputs| && inputs[played].Tick? && inputs[played].dt >= 0.0 ==>
      !FitsNow(p)
    ensures Plays(trace, inputs[..played]) && |trace| == played + 1 && trace[0] == old(SceneOf(p)) && trace[played] == SceneOf(p)
    ensures old(DrivenList(p.blockList, 0.0)) && ShortTicks(inputs) ==> AllSwift(trace)
  {
    hide *;
    played := 0;
    trace := [SceneOf(p)];
    SceneIsSound(p);
    NoInput(SceneOf(p), inputs);
    ghost var bs, all, short := p.blockList, {}, DrivenList(p.blockList, 0.0) && ShortTicks(inputs);
    while played < |inputs|
      modifies p, p.board, p.blockList
      invariant played <= |inputs| && Inv(p) && fresh(all)
      invariant forall i :: 0 <= i < |p.blockList| ==> p.blockList[i] in bs || p.blockList[i] in all
      invariant old(p.phase) == GameOver ==> p.phase == GameOver
      invariant short ==> DrivenList(p.blockList, 0.0) && AllSwift(trace)
      invariant Plays(trace, inputs[..played]) && |trace| == played + 1 && trace[0] == old(SceneOf(p)) && trace[played] == SceneOf(p)
    {
      var ok;
      ghost var made;
      if short { ShortTickAt(inputs, played); }
      ok, made := PlayInput(p, inputs[played]);
      all := all + made;
      SceneIsSound(p);
      if !ok {
        if short && inputs[played].Tick? && inputs[played].dt >= 0.0 { ShortTickFits(p, inputs[played]); }
        break;
      }
      OneMoreInput(trace, inputs, played, SceneOf(p));
      LastOfTrace(trace, SceneOf(p));
      trace := trace + [SceneOf(p)];
      played := played + 1;
    }
    if p.phase == Playing { PlayingIsSafe(p); }
    if p.phase == Shattering { ChainIsBounded(p); }
  }

  function Ticks(dts: seq<real>): (inputs: seq<Input>)
    ensures |inputs| == |dts| && forall k :: 0 <= k < |dts| ==> inputs[k] == Tick(dts[k])
  {
    seq(|dts|, k requires 0 <= k < |dts| => Tick(dts[k]))
  }

  lemma {:induction false} TicksAreShort(dts: seq<real>)
    requires AllShort(dts)
    ensures ShortTicks(Ticks(dts)) && |Ticks(dts)| == |dts|
    ensures forall k :: 0 <= k < |dts| ==> Ticks(dts)[k] == Tick(dts[k]) && 0.0 <= dts[k]
  {
  }

  /** A game of short frames is a run of them. */
  lemma {:induction false} TicksRun(trace: seq<Scene>, dts: seq<real>)
    requires Plays(trace, Ticks(dts)[..|dts|]) && AllSwift(trace) && AllShort(dts)
    ensures Runs(trace, dts)
  {
    hide Sound, Swift, FrameStep, SmoothIn;
    assert Ticks(dts)[..|dts|] == Ticks(dts);
    forall k | 0 <= k < |dts|
      ensures 0.0 <= dts[k] <= SHORT && SmoothIn(trace[k], dts[k]) && FrameStep(trace[k], dts[k], trace[k + 1])
    {
      assert Step(trace[k], Ticks(dts)[k], trace[k + 1]);
    }
  }

  /** Left alone, a game comes to rest: in short frames that last long enough every chain and every drop ends,
      and the next blocks can be played or the game is over, unless ice is under a falling coloured
      block or has no room. */
  method LeaveAlone(p: BasePlayer, dts: seq<real>) returns (played: nat)
    requires Inv(p) && DrivenList(p.blockList, 0.0) && AllShort(dts)
    modifies p, p.board, p.blockList
    ensures Inv(p) && played <= |dts| && (played < |dts| ==> !FitsNow(p))
    ensures played == |dts| && Total(dts) >= LONGEST ==> p.phase == Playing || p.phase == GameOver
  {
    hide *;
    TicksAreShort(dts);
    ghost var trace;
    played, trace := Play(p, Ticks(dts));
    if played == |dts| && Total(dts) >= LONGEST {
      TicksRun(trace, dts);
      EverythingEnds(trace, dts);
      SceneIs(p);
    }
  }

  /** A drop of ice does happen: a new game, an attack, the end of the opponent's chain, and one control
      group are enough. */
  method DropReached(isServer: bool, count: int) returns (p: BasePlayer)
    requires 0 < count < 0x8000
    ensures Inv(p) && p.phase == IceBlocking && p.totalInterrupt == (if count > LARGE_DROP then count - LARGE_DROP else 0)
    ensures |p.blockList| == 2 + if count > LARGE_DROP then LARGE_DROP else count
  {
    hide *;
    p := StartGame(isServer);
    ReceiveAttack(p, count);
    StopCombo(p);
    FitsInt16(count);
    Sizes();
    EmptyTargets(p);
    var ok;
    ghost var made;
    ok, made := PlayGroup(p, Red, 2, Green, 3);
    DropNumbers(count);
  }

  lemma {:induction false} FitsInt16(count: int)
    requires 0 < count < 0x8000
    ensures Scoring.ToInt16(0 + count) == count
  {
  }

  lemma {:induction false} EmptyTargets(p: BasePlayer)
    requires Inv(p) && p.phase == Playing && p.blockList == []
    ensures HasTargets(p, 2, 3)
  {
    PlayingIsSafe(p);
    OpenRest(p);
    hide Inv, AtRest;
    assert FreeCell(p, Cell(2, 0)) && FreeCell(p, Cell(3, 0));
  }
}
