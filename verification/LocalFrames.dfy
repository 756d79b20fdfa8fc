/** One frame of the local player's game (BasePlayer::Update and LocalPlayer::UpdateGameLogic). */
module LocalFrames {
  import opened Geometry
  import opened Connectivity
  import opened BlockStates
  import opened Matching
  import opened PuyoBlocks
  import opened Players
  import opened Falling
  import opened Gravity
  import opened LinkMasks
  import opened LinkStates
  import opened Rounds
  import opened Settling
  import opened Garbage
  import opened Resting
  import opened Sorting
  import opened Destroying
  import opened Scoring
  import opened Scenes
  import opened LocalPlayers
  import opened LocalSteps
  import opened FallSpeed
  import opened Driving

  // ---------------------------------------------------------------- colours and masks while ice falls

  /** When only ice falls, a frame changes neither the colours nor where a coloured block is listed. */
  lemma {:induction false} IceFallKeepsColours(s: FallState, s': FallState)
    requires Consistent(s) && Consistent(s') && WellFormed(s) && OnlyIceFalls(s) && AllMoved(s, s')
    ensures ColouredIn(s') == ColouredIn(s) && forall c :: c in ColouredIn(s) ==> c in s'.cells && s'.cells[c] == s.cells[c]
    ensures OnlyIceFalls(s')
  {
    forall c | c in ColouredIn(s)
      ensures c in ColouredIn(s') && ColouredIn(s')[c] == ColouredIn(s)[c] && s'.cells[c] == s.cells[c]
    {
      assert Moved(s.bodies[s.cells[c]], s'.bodies[s.cells[c]]);
    }
    forall c | c in ColouredIn(s')
      ensures c in ColouredIn(s)
    {
      assert Moved(s.bodies[s'.cells[c]], s'.bodies[s'.cells[c]]);
    }
    forall i | 0 <= i < |s'.bodies| && s'.bodies[i].state == DownMoving
      ensures s'.bodies[i].kind == Ice
    {
      assert Moved(s.bodies[i], s'.bodies[i]);
    }
  }

  /** Exact masks, read off the list. */
  ghost predicate MasksInList(s: FallState, bs: seq<Block>)
    reads bs`link
  {
    |bs| == |s.bodies| && forall c :: c in ColouredIn(s) ==> bs[s.cells[c]].link == Expected(ColouredIn(s), c)
  }

  lemma {:induction false} MasksByList(p: BasePlayer)
    requires p.Valid()
    ensures MasksExact(p) <==> MasksInList(View(p), p.blockList)
  {
    ColouredView(p);
    ValidWired(p);
    var g := ColouredIn(View(p));
    forall c | c in g
      ensures c in Links(p) && Links(p)[c] == p.blockList[View(p).cells[c]].link
    {
      p.ColouredAt(c);
      LinksAt(p, c);
      ViewAt(p, c);
    }
    hide View, Links, BasePlayer.Coloured, BasePlayer.Valid;
  }

  lemma {:induction false} MasksGoOn(s: FallState, s': FallState, bs: seq<Block>)
    requires MasksInList(s, bs) && |s'.bodies| == |s.bodies| && ColouredIn(s') == ColouredIn(s)
    requires forall c :: c in ColouredIn(s) ==> c in s'.cells && s'.cells[c] == s.cells[c]
    ensures MasksInList(s', bs)
  {
  }

  // ---------------------------------------------------------------- one frame of every block

  /** What the theorems about falling ask of a frame: beside that, nothing moves by more than one cell. */
  ghost predicate Smooth(p: BasePlayer, dt: real)
    reads p`blockList, p.board
    reads p.blockList`kind, p.blockList`state, p.blockList`x, p.blockList`y, p.blockList`posY, p.blockList`velocity, p.blockList`initialized
  {
    p.Wired() && Fits(View(p)) && Paced(View(p), 0, dt)
  }

  lemma {:induction false} SmoothIsReady(p: BasePlayer, dt: real)
    requires Moves(p) && Smooth(p, dt) && dt >= 0.0
    ensures FrameReady(View(p), Heights(View(p)), 0, dt)
  {
    var s, hs := View(p), Heights(View(p));
    OpenSmooth(p, dt);
    hide *;
    OrderPreserving(s, hs, 0, 0.0);
    FallInvariantAnyTime(s, hs, dt);
    CloseReadyFrame(s, hs, dt);
  }

  lemma {:induction false} OpenSmooth(p: BasePlayer, dt: real)
    requires Moves(p) && Smooth(p, dt)
    ensures p.Wired() && FallInvariant(View(p), Heights(View(p)), 0, 0.0)
    ensures NoPuyoOverIce(View(p)) && |Heights(View(p))| == BOARD_X_COUNT && Room(View(p), Heights(View(p))) && Paced(View(p), 0, dt)
  {
    hide View, FallInvariant, NoPuyoOverIce, Paced, Room;
  }

  lemma {:induction false} CloseReadyFrame(s: FallState, hs: seq<int>, dt: real)
    requires FallInvariant(s, hs, 0, dt) && |hs| == BOARD_X_COUNT && LowerIsFaster(s) && Room(s, hs) && Paced(s, 0, dt) && dt >= 0.0
    ensures FrameReady(s, hs, 0, dt)
  {
  }

  /** A frame on a board at rest changes nothing. */
  lemma {:induction false} FrameIdle(s: FallState, n: nat, dt: real)
    requires AllRest(s) && n <= |s.bodies|
    ensures Frame(s, n, dt) == s
    decreases |s.bodies| - n
  {
    if n < |s.bodies| {
      FrameUnfold(s, n, dt);
      FrameIdle(s, n + 1, dt);
    } else {
      FrameDone(s, dt);
    }
  }

  lemma {:induction false} StillRegistered(s: FallState, s': FallState)
    requires AllMoved(s, s') && AllRegistered(s)
    ensures AllRegistered(s')
  {
    forall i | 0 <= i < |s'.bodies|
      ensures s'.bodies[i].registered
    {
      assert Moved(s.bodies[i], s'.bodies[i]);
    }
  }

  lemma {:induction false} SpawnByView(p: BasePlayer)
    requires p.Valid()
    ensures SpawnFree(p) <==> forall c: Cell :: 2 <= c.x <= 3 && BOARD_Y_COUNT - 2 <= c.y < BOARD_Y_COUNT ==> c !in View(p).cells
  {
    forall c: Cell | 2 <= c.x <= 3 && BOARD_Y_COUNT - 2 <= c.y < BOARD_Y_COUNT
      ensures c in View(p).cells <==> p.At(c) != null
    {
      ViewAt(p, c);
    }
    hide View;
  }

  /** What a frame of moving blocks keeps: the masks while only ice falls, and everything at rest. */
  method MoveBlocks(p: BasePlayer, dt: real)
    requires Moves(p) && Smooth(p, dt) && dt >= 0.0
    modifies p.board, p.blockList`posY, p.blockList`velocity, p.blockList`y, p.blockList`state, p.blockList`initialized
    ensures Moves(p) && p.Valid() && old(p.Valid())
    ensures AllMoved(old(View(p)), View(p)) && View(p) == Frame(old(View(p)), 0, dt)
    ensures Fits(View(p))
    ensures old(Seated(p)) ==> Seated(p)
    ensures old(OnlyIceFalls(View(p)) && MasksExact(p)) ==> OnlyIceFalls(View(p)) && MasksExact(p)
    ensures old(p.Settled() && SpawnFree(p)) ==> p.Settled() && SpawnFree(p)
    ensures old(DrivenList(p.blockList, 0.0)) && dt <= SHORT ==> DrivenList(p.blockList, 0.0)
  {
    hide *;
    OpenMoves(p);
    DrivenView(p, 0.0);
    ghost var short := DrivenList(p.blockList, 0.0) && dt <= SHORT;
    SeatedAgain(p);
    MasksByList(p);
    SettledIff(p);
    SpawnByView(p);
    ghost var s, hs, bs := View(p), Heights(View(p)), p.blockList;
    OpenFall(s, hs);
    SmoothIsReady(p, dt);
    var hs' := Update(p, dt, hs);
    ValidWired(p);
    CloseMoves(p, hs');
    HeightsUnique(View(p), hs');
    CloseFits(View(p));
    OpenFall(View(p), hs');
    SeatedAgain(p);
    MasksByList(p);
    SettledIff(p);
    SpawnByView(p);
    if AllRegistered(s) { StillRegistered(s, View(p)); }
    if OnlyIceFalls(s) { IceFallKeepsColours(s, View(p)); }
    if MasksInList(s, bs) && OnlyIceFalls(s) { MasksGoOn(s, View(p), bs); }
    if AllRest(s) { FrameIdle(s, 0, dt); }
    if short { FrameDriven(p, s, dt); }
  }

  lemma {:induction false} InvBoard(p: BasePlayer)
    requires Inv(p)
    ensures CountersFine(p) && (if p.matchedBlocks == [] then Moves(p) else Disappears(p)) && p.phase != Standing
    ensures p.phase == Playing ==> p.matchedBlocks == [] && p.Valid() && p.Settled() && SpawnFree(p) && MasksExact(p) && ComboClean(p)
    ensures p.phase == IceBlocking ==> p.matchedBlocks == [] && p.Valid() && OnlyIceFalls(View(p)) && MasksExact(p) && ComboClean(p)
    ensures p.phase == Shattering ==> ChainCounted(p)
  {
    hide Moves, Disappears, ChainCounted, CountersFine, View, OnlyIceFalls, MasksExact, SpawnFree, ComboClean, BasePlayer.Settled;
  }

  lemma {:induction false} CloseByPhase(p: BasePlayer)
    requires CountersFine(p) && (if p.matchedBlocks == [] then Moves(p) else Disappears(p)) && p.phase != Standing
    requires p.phase == Playing ==> p.matchedBlocks == [] && p.Valid() && p.Settled() && SpawnFree(p) && MasksExact(p) && ComboClean(p)
    requires p.phase == IceBlocking ==> p.matchedBlocks == [] && p.Valid() && OnlyIceFalls(View(p)) && MasksExact(p) && ComboClean(p)
    requires p.phase == Shattering ==> ChainCounted(p)
    ensures Inv(p)
  {
    hide Moves, Disappears, ChainCounted, CountersFine, View, OnlyIceFalls, MasksExact, SpawnFree, ComboClean, BasePlayer.Settled;
  }

  lemma {:induction false} RestsOnly(p: BasePlayer)
    requires p.Valid() && p.Settled()
    ensures p.Wired() && OnlyIceFalls(View(p))
  {
    SettledIff(p);
    hide View;
  }

  /** A frame in which matched groups disappear. */
  method FadeBlocks(p: BasePlayer, dt: real)
    requires Disappears(p) && p.matchedBlocks != [] && dt >= 0.0
    modifies p.blockList`state, p.blockList`effectTime
    ensures Disappears(p) && DrivenList(p.blockList, 0.0) 
    ensures FadeOf(p) == FadeAfter(old(FadeOf(p)), dt) && old(FadeOf(p)).Fade?
  {
    hide *;
    ghost var cells, iceAt, t, over := ClearsOf(p);
    ghost var f := FadeOf(p);
    FadeIs(p, cells, iceAt, t, over);
    FadeGoesOn(f, dt);
    t, over := UpdateFading(p, dt, cells, iceAt, t, over);
    FadeIs(p, cells, iceAt, t, over);
    ClearsIsDisappearing(p, cells, iceAt, t, over);
    FadingDriven(p, cells, iceAt, t, over);
  }

  lemma {:induction false} FadeGoesOn(f: Fade, dt: real)
    requires f.Fade? && f.time >= 0.0 && dt >= 0.0
    ensures FadeAfter(f, dt)
         == if f.over then f else Fade.Fade(f.matched, f.ice, Faded(f.time, dt).1, Faded(f.time, dt).0 == PlayOut)
    ensures Faded(f.time, dt).1 >= 0.0
  {
  }

  /** A frame in which blocks move or rest, in any phase. */
  method MoveInPhase(p: BasePlayer, dt: real)
    requires Inv(p) && dt >= 0.0 && p.matchedBlocks == [] && Smooth(p, dt)
    modifies p.board, p.blockList`posY, p.blockList`velocity, p.blockList`y, p.blockList`state, p.blockList`initialized
    ensures Inv(p) && p.Wired() && old(p.Wired()) && Fits(View(p)) && View(p) == Frame(old(View(p)), 0, dt)
    ensures old(DrivenList(p.blockList, 0.0)) && dt <= SHORT ==> DrivenList(p.blockList, 0.0)
  {
    hide *;
    InvBoard(p);
    if p.phase == Playing { RestsOnly(p); }
    if p.phase == Shattering { OpenChain(p); }
    OpenSmooth(p, dt);
    MoveBlocks(p, dt);
    ValidWired(p);
    if p.phase == Shattering { CloseChain(p); }
    CloseByPhase(p);
  }

  /** One frame of every block (BasePlayer::Update): either blocks move or matched groups disappear. */
  method UpdateBlocks(p: BasePlayer, dt: real)
    requires Inv(p) && dt >= 0.0 && (p.matchedBlocks == [] ==> Smooth(p, dt))
    modifies p`playTime, p.board
    modifies p.blockList`posY, p.blockList`velocity, p.blockList`y, p.blockList`state, p.blockList`initialized, p.blockList`effectTime
    ensures Inv(p) && p.playTime == old(p.playTime) + dt
    ensures p.matchedBlocks == [] ==> p.Wired() && old(p.Wired()) && Fits(View(p)) && View(p) == Frame(old(View(p)), 0, dt)
    ensures old(DrivenList(p.blockList, 0.0)) && dt <= SHORT ==> DrivenList(p.blockList, 0.0)
    ensures p.matchedBlocks != [] ==>
      FadeOf(p) == FadeAfter(old(FadeOf(p)), dt) && old(FadeOf(p)).Fade? && StillOf(p) == old(StillOf(p))
  {
    hide *;
    p.playTime := p.playTime + dt;
    if p.matchedBlocks == [] {
      MoveInPhase(p, dt);
    } else {
      InvBoard(p);
      FadeBlocks(p, dt);
      CloseByPhase(p);
    }
  }

  /** The same as a step of the player's whole state. */
  method PassFrame(p: BasePlayer, dt: real)
    requires Inv(p) && dt >= 0.0 && (p.matchedBlocks == [] ==> Smooth(p, dt))
    modifies p`playTime, p.board
    modifies p.blockList`posY, p.blockList`velocity, p.blockList`y, p.blockList`state, p.blockList`initialized, p.blockList`effectTime
    ensures Inv(p) && SceneOf(p) == Passed(old(SceneOf(p)), dt)
    ensures old(DrivenList(p.blockList, 0.0)) && dt <= SHORT ==> DrivenList(p.blockList, 0.0)
  {
    hide *;
    InvBoard(p);
    ghost var s := SceneOf(p);
    SceneIs(p);
    SeenIs(p);
    if p.matchedBlocks == [] { NotFading(p); }
    PassedIs(s, dt);
    UpdateBlocks(p, dt);
    SceneIs(p);
    SeenIs(p);
    if p.matchedBlocks == [] { NotFading(p); }
  }

  lemma {:induction false} PassedIs(s: Scene, dt: real)
    ensures Passed(s, dt) ==
      s.(playTime := s.playTime + dt, fade := FadeAfter(s.fade, dt), view := if s.fade.NoFade? then Frame(s.view, 0, dt) else s.view)
    ensures s.fade.NoFade? ==> FadeAfter(s.fade, dt) == NoFade
  {
    hide Frame;
  }

  lemma {:induction false} FrameDriven(p: BasePlayer, s: FallState, dt: real)
    requires p.Wired() && View(p) == Frame(s, 0, dt) && AllDriven(s, 0, 0.0, 0.0) && 0.0 <= dt <= SHORT
    ensures DrivenList(p.blockList, 0.0)
  {
    hide *;
    NextDriven(s, 0.0, dt);
    DrivenView(p, 0.0 + dt);
    DrivenAnyTime(p.blockList, 0.0 + dt);
  }
}
