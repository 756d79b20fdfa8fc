/** A player's state as a value, and the phase machine as a relation between such values: what every step of
    the program is proved to refine. */
module Scenes {
  import opened Geometry
  import opened Connectivity
  import opened BlockStates
  import opened Matching
  import opened PuyoBlocks
  import opened Players
  import opened Falling
  import opened Gravity
  import opened LinkMasks
  import opened Clearing
  import opened Rounds
  import opened Settling
  import opened Garbage
  import opened Resting
  import opened Sorting
  import opened Destroying
  import opened Scoring
  import opened Targets

  /** Matched cells and ice that are disappearing, for how long, and whether they are over. */
  datatype Fade = NoFade | Fade(matched: set<Cell>, ice: set<Cell>, time: real, over: bool)

  datatype Flags = Flags(comboAttack: bool, defending: bool, defenseCount: int, shouldQuit: bool, isServer: bool)

  /** Everything of a player that a step goes by.  In `view`, blocks that are disappearing count as resting; `fade`
      says which they are. */
  datatype Scene = Scene(view: FallState, fade: Fade, phase: GamePhase, combo: int, purse: Purse, flags: Flags, playTime: real)

  // ---------------------------------------------------------------- what a board shows

  /** The colours the flood fill sees in a fall. */
  ghost function ColouredIn(s: FallState): Colours {
    map c | c in s.cells && 0 <= s.cells[c] < |s.bodies| && s.bodies[s.cells[c]].state == Stationary && s.bodies[s.cells[c]].kind != Ice
      :: s.bodies[s.cells[c]].kind
  }

  lemma {:induction false} ColouredView(p: BasePlayer)
    requires p.Valid()
    ensures p.Coloured() == ColouredIn(View(p))
  {
    hide *;
    ValidWired(p);
    forall c
      ensures SameAt(p.Coloured(), ColouredIn(View(p)), c)
    {
      ColouredViewAt(p, c);
    }
    SameColours(p.Coloured(), ColouredIn(View(p)));
  }

  lemma {:induction false} ViewSizes(p: BasePlayer)
    requires p.Valid() && p.Wired()
    ensures |View(p).bodies| == |p.blockList|
  {
    ValidWired(p);
  }

  ghost predicate SameAt(g: Colours, g': Colours, c: Cell) {
    (c in g <==> c in g') && (c in g ==> g[c] == g'[c])
  }

  lemma {:induction false} SameColours(g: Colours, g': Colours)
    requires forall c :: SameAt(g, g', c)
    ensures g == g'
  {
    forall c
      ensures (c in g <==> c in g') && (c in g ==> g[c] == g'[c])
    {
      assert SameAt(g, g', c);
    }
  }

  lemma {:induction false} ColouredViewAt(p: BasePlayer, c: Cell)
    requires p.Valid() && p.Wired()
    ensures SameAt(p.Coloured(), ColouredIn(View(p)), c)
  {
    ViewSizes(p);
    hide View, BasePlayer.Coloured, BasePlayer.Valid, BasePlayer.Layout, BasePlayer.Marks, BasePlayer.Wired;
    ViewAt(p, c);
    p.ColouredAt(c);
  }

  /** What a check goes by, read off a view. */
  ghost function BoardIn(s: FallState): BoardView {
    BoardView(ColouredIn(s),
              set c | c in s.cells && 0 <= s.cells[c] < |s.bodies| && s.bodies[s.cells[c]].kind == Ice,
              map c | c in s.cells && 0 <= s.cells[c] < |s.bodies| :: s.bodies[s.cells[c]].state)
  }

  lemma {:induction false} BoardSeen(p: BasePlayer)
    requires p.Valid()
    ensures p.Wired() && ViewOf(p) == BoardIn(View(p))
  {
    hide *;
    ValidWired(p);
    ViewOfIs(p);
    ColouredView(p);
    forall c
      ensures SeenAlike(p, c)
    {
      SeenAt(p, c);
    }
    SeenTogether(p);
  }

  ghost predicate SeenAlike(p: BasePlayer, c: Cell)
    requires p.Valid() && p.Wired()
    reads p`blockList, p.board
    reads p.blockList`kind, p.blockList`state, p.blockList`x, p.blockList`y, p.blockList`posY, p.blockList`velocity, p.blockList`initialized
  {
    var v := BoardIn(View(p));
    && (c in v.ice <==> c in IceCells(p)) && (c in v.states <==> c in StatesOf(p))
    && (c in v.states ==> v.states[c] == StatesOf(p)[c])
  }

  lemma {:induction false} SeenAt(p: BasePlayer, c: Cell)
    requires p.Valid() && p.Wired()
    ensures SeenAlike(p, c)
  {
    ViewSizes(p);
    BoardAt(View(p), c);
    hide View, BasePlayer.Valid, BasePlayer.Layout, BasePlayer.Wired, BasePlayer.Coloured, BasePlayer.Marks, StatesOf, IceCells, BoardIn;
    ViewAt(p, c);
    StateAt(p, c);
  }

  lemma {:induction false} BoardAt(s: FallState, c: Cell)
    ensures
      var v, there := BoardIn(s), c in s.cells && 0 <= s.cells[c] < |s.bodies|;
      && (c in v.ice <==> there && s.bodies[s.cells[c]].kind == Ice)
      && (c in v.states <==> there) && (there ==> v.states[c] == s.bodies[s.cells[c]].state)
  {
    hide ColouredIn;
  }

  lemma {:induction false} SeenTogether(p: BasePlayer)
    requires p.Valid() && p.Wired() && p.Coloured() == ColouredIn(View(p)) && forall c :: SeenAlike(p, c)
    ensures BoardView(p.Coloured(), IceCells(p), StatesOf(p)) == BoardIn(View(p))
  {
    hide View, BasePlayer.Valid, BasePlayer.Coloured, BasePlayer.Wired, StatesOf, IceCells;
    var v := BoardIn(View(p));
    forall c
      ensures c in v.ice <==> c in IceCells(p)
      ensures (c in v.states <==> c in StatesOf(p)) && (c in v.states ==> v.states[c] == StatesOf(p)[c])
    {
      assert SeenAlike(p, c);
    }
    assert v.ice == IceCells(p) && v.states == StatesOf(p);
  }

  /** Some group is large enough to be cleared. */
  ghost predicate HasGroup(g: Colours) {
    exists c :: c in g && |Component(g, c)| >= MIN_MATCH_COUNT
  }

  /** One of the four cells that new blocks come from is taken. */
  ghost predicate SpawnHit(cells: set<Cell>) {
    exists c: Cell :: c in cells && 2 <= c.x <= 3 && c.y >= BOARD_Y_COUNT - 2
  }

  lemma {:induction false} SpawnSeen(p: BasePlayer)
    requires p.Valid()
    ensures p.Wired() && (SpawnFree(p) <==> !SpawnHit(View(p).cells.Keys))
  {
    ValidWired(p);
    forall c
      ensures c in View(p).cells.Keys <==> p.At(c) != null
    {
      ViewAt(p, c);
    }
    hide View, BasePlayer.Valid, BasePlayer.Wired;
    if c: Cell :| c in View(p).cells.Keys && 2 <= c.x <= 3 && c.y >= BOARD_Y_COUNT - 2 {
      assert p.At(c) != null;
    }
  }

  // ---------------------------------------------------------------- the state as a value

  ghost function StillBody(b: Block): Body
    reads b`kind, b`x, b`y, b`posY, b`velocity, b`initialized
  {
    Body(b.kind, Stationary, b.x, b.y, b.posY, b.velocity, b.kind == Ice ==> b.initialized)
  }

  ghost function StillBodies(bs: seq<Block>): (r: seq<Body>)
    reads bs`kind, bs`x, bs`y, bs`posY, bs`velocity, bs`initialized
    ensures |r| == |bs| && forall i :: 0 <= i < |bs| ==> r[i] == StillBody(bs[i])
  {
    if bs == [] then [] else StillBodies(bs[..|bs| - 1]) + [StillBody(bs[|bs| - 1])]
  }

  /** The view with every block taken to rest. */
  ghost function StillOf(p: BasePlayer): FallState
    reads p`blockList, p.board
    reads p.blockList`kind, p.blockList`x, p.blockList`y, p.blockList`posY, p.blockList`velocity, p.blockList`initialized
  {
    if p.Wired() then FallState(StillBodies(p.blockList), Owners(p)) else FallState([], map[])
  }

  ghost function SeenOf(p: BasePlayer): FallState
    reads p`blockList, p.board, p`matchedBlocks
    reads p.blockList`kind, p.blockList`state, p.blockList`x, p.blockList`y, p.blockList`posY, p.blockList`velocity, p.blockList`initialized
  {
    if p.matchedBlocks == [] && p.Wired() then View(p) else StillOf(p)
  }

  lemma {:induction false} SeenIs(p: BasePlayer)
    ensures p.matchedBlocks == [] && p.Wired() ==> SeenOf(p) == View(p)
    ensures p.matchedBlocks != [] ==> SeenOf(p) == StillOf(p)
  {
  }

  lemma {:induction false} StillIsView(p: BasePlayer)
    requires p.Wired() && forall b :: b in p.blockList ==> b.state == Stationary
    ensures StillOf(p) == View(p)
  {
    hide BasePlayer.Wired;
    forall i | 0 <= i < |p.blockList|
      ensures StillBodies(p.blockList)[i] == Bodies(p.blockList)[i]
    {
    }
    assert StillBodies(p.blockList) == Bodies(p.blockList);
  }

  ghost function FadeOf(p: BasePlayer): Fade
    reads p`blockList, p.board, p`matchedBlocks, p`iceBlocks
    reads p.blockList`x, p.blockList`y, p.blockList`kind, p.blockList`initialized, p.blockList`state, p.blockList`effectTime
  {
    if p.matchedBlocks == [] || !p.Valid() then NoFade
    else
      var group := p.matchedBlocks[0];
      var look := if group != [] && group[0] in p.blockList then Look(group[0]) else (Stationary, 0.0);
      Fade((set c | c in p.Layout() && p.Layout()[c] in Flat(p.matchedBlocks)),
           (set c | c in p.Layout() && p.Layout()[c] in p.iceBlocks),
           look.1, look.0 == PlayOut)
  }

  lemma {:induction false} NotFading(p: BasePlayer)
    requires p.matchedBlocks == []
    ensures FadeOf(p) == NoFade
  {
  }

  /** What is disappearing, in terms of the cells that were matched. */
  lemma {:induction false} FadeIs(p: BasePlayer, cells: seq<seq<Cell>>, iceAt: set<Cell>, t: real, over: bool)
    requires Clears(p, cells, iceAt, t, over)
    ensures p.matchedBlocks != [] && FadeOf(p) == Fade(SetOf(Flat(cells)), iceAt, t, over)
  {
    hide *;
    OpenClears(p, cells, iceAt, t, over);
    OpenFading(p, cells, iceAt);
    FlatAlike(p.Layout(), p.matchedBlocks, cells);
    FirstLook(p, cells, iceAt, t, over);
    CloseFade(p, cells, iceAt, t, over);
  }

  lemma {:induction false} OpenFading(p: BasePlayer, cells: seq<seq<Cell>>, iceAt: set<Cell>)
    requires Matched(p, cells, iceAt)
    ensures p.Valid() && Seated(p) && AllPlaced(p.Layout(), p.matchedBlocks, cells)
    ensures cells != [] && forall i :: 0 <= i < |cells| ==> |cells[i]| >= 4
    ensures iceAt <= p.Layout().Keys && p.iceBlocks == BlocksAt(p.Layout(), iceAt)
    ensures forall c :: c in p.Layout() ==> p.Layout()[c] in p.blockList && Cell(p.Layout()[c].x, p.Layout()[c].y) == c
  {
    RegisteredDiffer(p);
    hide BasePlayer.Layout, Seated, AllPlaced, Packed, ColumnSorted, BasePlayer.Valid;
  }

  /** The blocks of the groups are the blocks on their cells. */
  lemma {:induction false} FlatAlike(l: map<Cell, Block>, groups: seq<seq<Block>>, cells: seq<seq<Cell>>)
    requires AllPlaced(l, groups, cells)
    ensures |Flat(groups)| == |Flat(cells)|
    ensures forall k :: 0 <= k < |Flat(cells)| ==> Flat(cells)[k] in l && l[Flat(cells)[k]] == Flat(groups)[k]
    decreases |groups|
  {
    if groups != [] {
      var n := |groups| - 1;
      assert AllPlaced(l, groups[..n], cells[..n]);
      FlatAlike(l, groups[..n], cells[..n]);
      FlatLast(groups);
      FlatLast(cells);
      assert Placed(l, groups[n], cells[n]);
      hide Flat, AllPlaced;
    }
  }

  lemma {:induction false} FirstLook(p: BasePlayer, cells: seq<seq<Cell>>, iceAt: set<Cell>, t: real, over: bool)
    requires p.Valid() && AllPlaced(p.Layout(), p.matchedBlocks, cells) && cells != [] && |cells[0]| >= 4
    requires forall c :: c in p.Layout() ==> p.Layout()[c] in p.blockList && Cell(p.Layout()[c].x, p.Layout()[c].y) == c
    requires Fading(p.blockList, SetOf(Flat(cells)), iceAt, t, over)
    ensures p.matchedBlocks != [] && p.matchedBlocks[0] != [] && p.matchedBlocks[0][0] in p.blockList
    ensures Look(p.matchedBlocks[0][0]) == (if over then PlayOut else BlockState.Destroying, t)
  {
    hide BasePlayer.Layout, BasePlayer.Valid, InItsRow, Flat;
    assert Placed(p.Layout(), p.matchedBlocks[0], cells[0]);
    FlatIndex(cells, 0, 0);
    FlatStart(cells);
    assert cells[0][0] in SetOf(Flat(cells));
    var b := p.matchedBlocks[0][0];
    assert b == p.Layout()[cells[0][0]] && Cell(b.x, b.y) == cells[0][0];
  }

  lemma {:induction false} CloseFade(p: BasePlayer, cells: seq<seq<Cell>>, iceAt: set<Cell>, t: real, over: bool)
    requires p.Valid() && p.matchedBlocks != [] && p.matchedBlocks[0] != [] && p.matchedBlocks[0][0] in p.blockList
    requires Look(p.matchedBlocks[0][0]) == (if over then PlayOut else BlockState.Destroying, t)
    requires |Flat(p.matchedBlocks)| == |Flat(cells)|
    requires forall k :: 0 <= k < |Flat(cells)| ==> Flat(cells)[k] in p.Layout() && p.Layout()[Flat(cells)[k]] == Flat(p.matchedBlocks)[k]
    requires forall c :: c in p.Layout() ==> p.Layout()[c] in p.blockList && Cell(p.Layout()[c].x, p.Layout()[c].y) == c
    requires iceAt <= p.Layout().Keys && p.iceBlocks == BlocksAt(p.Layout(), iceAt)
    ensures FadeOf(p) == Fade(SetOf(Flat(cells)), iceAt, t, over)
  {
    hide BasePlayer.Layout, BasePlayer.Valid, Flat, Look;
    var l := p.Layout();
    assert (set c | c in l && l[c] in Flat(p.matchedBlocks)) == SetOf(Flat(cells)) by {
      forall c | c in l && l[c] in Flat(p.matchedBlocks)
        ensures c in SetOf(Flat(cells))
      {
        var k :| 0 <= k < |Flat(p.matchedBlocks)| && Flat(p.matchedBlocks)[k] == l[c];
        assert l[Flat(cells)[k]] == l[c];
      }
      forall c | c in SetOf(Flat(cells))
        ensures c in l && l[c] in Flat(p.matchedBlocks)
      {
        var k :| 0 <= k < |Flat(cells)| && Flat(cells)[k] == c;
      }
    }
    assert (set c | c in l && l[c] in p.iceBlocks) == iceAt by {
      forall c | c in l && l[c] in p.iceBlocks
        ensures c in iceAt
      {
        var d :| d in iceAt && d in l && l[d] == l[c];
      }
    }
  }

  ghost function FlagsOf(p: BasePlayer): Flags
    reads p`isComboAttack, p`isDefending, p`defenseCount, p`shouldQuit
  {
    Flags(p.isComboAttack, p.isDefending, p.defenseCount, p.shouldQuit, p.isServer)
  }

  ghost function SceneOf(p: BasePlayer): Scene
    reads p`blockList, p.board, p`matchedBlocks, p`iceBlocks, p`phase, p`comboCount, p`playTime
    reads p`totalScore, p`restScore, p`totalInterrupt, p`addInterrupt, p`totalEnemyInterrupt, p`scored
    reads p`isComboAttack, p`isDefending, p`defenseCount, p`shouldQuit
    reads p.blockList`kind, p.blockList`state, p.blockList`x, p.blockList`y, p.blockList`posY, p.blockList`velocity
    reads p.blockList`initialized, p.blockList`effectTime
  {
    Scene(SeenOf(p), FadeOf(p), p.phase, p.comboCount, PurseOf(p), FlagsOf(p), p.playTime)
  }

  lemma {:induction false} SceneIs(p: BasePlayer)
    ensures SceneOf(p) == Scene(SeenOf(p), FadeOf(p), p.phase, p.comboCount, PurseOf(p), FlagsOf(p), p.playTime)
    ensures FlagsOf(p) == Flags(p.isComboAttack, p.isDefending, p.defenseCount, p.shouldQuit, p.isServer)
    ensures PurseOf(p) == Purse(p.totalScore, p.restScore, Counters(p.totalInterrupt, p.addInterrupt, p.totalEnemyInterrupt), p.scored)
  {
    hide SeenOf, FadeOf;
  }

  // ---------------------------------------------------------------- a check of the board

  /** A round starts: it takes all groups that are large enough and the ice beside them, and is scored. */
  ghost predicate RoundStarts(s: Scene, s': Scene, cells: seq<seq<Cell>>, iceAt: set<Cell>) {
    && TakesRound(BoardIn(s.view), cells, iceAt) && cells != []
    && s' == s.(phase := Shattering, combo := s.combo + 1, fade := Fade(SetOf(Flat(cells)), iceAt, 0.0, false),
                purse := Earn(s.purse, RoundOf(Sizes(cells), s.combo + 1, Margin(s.playTime, 0)), s.flags.isServer))
  }

  /** The chain is over. */
  function ChainEnded(s: Scene): Scene {
    s.(combo := 0, purse := s.purse.(rest := 0))
  }

  /** A board at rest is checked (LocalPlayer::CheckGameBlockState). */
  ghost predicate Checked(s: Scene, s': Scene) {
    if s.flags.shouldQuit then s' == ChainEnded(s).(phase := GameOver)
    else if HasGroup(BoardIn(s.view).colours) then exists cells, iceAt :: RoundStarts(s, s', cells, iceAt)
    else s' == ChainEnded(s).(phase := if SpawnHit(s.view.cells.Keys) then GameOver else Playing)
  }

  /** Ice that is pending comes down. */
  ghost predicate IceDrops(s: Scene, s': Scene, cs: seq<Cell>) {
    && IsDrop(cs, s.purse.counters.pending)
    && s' == s.(view := Dropped(s.view, cs), phase := IceBlocking, flags := s.flags.(defenseCount := 0),
                purse := s.purse.(counters := s.purse.counters.(pending := AfterDrop(s.purse.counters.pending))))
  }

  /** Play goes on, unless ice is pending and nothing holds it back. */
  ghost predicate GoesOn(s: Scene, s': Scene) {
    if s.purse.counters.pending > 0 && !s.flags.comboAttack && !s.flags.defending then exists cs :: IceDrops(s, s', cs)
    else s' == s
  }

  /** A check, and what follows it if the game goes on. */
  ghost predicate CheckedOn(s: Scene, s': Scene) {
    exists m :: Checked(s, m) && if m.phase == Playing then GoesOn(m, s') else s' == m
  }

  /** Everything has come to rest after a round; a board that has become empty is not checked and keeps the combo. */
  ghost predicate SettledStep(s: Scene, s': Scene) {
    if s.view.bodies == [] then
      if s.flags.shouldQuit then s' == s.(phase := GameOver) else GoesOn(s.(phase := Playing), s')
    else CheckedOn(s, s')
  }

  // ---------------------------------------------------------------- a control group

  function RestingOn(kind: BlockType, c: Cell): Body {
    Body(kind, Stationary, c.x, c.y, RowY(c.y), 0.0, true)
  }

  /** One more block at the end of the list and on its cell. */
  function WithOne(s: FallState, kind: BlockType, c: Cell): FallState {
    FallState(s.bodies + [RestingOn(kind, c)], s.cells[c := |s.bodies|])
  }

  function WithTwo(s: FallState, kind1: BlockType, c1: Cell, kind2: BlockType, c2: Cell): FallState {
    WithOne(WithOne(s, kind1, c1), kind2, c2)
  }

  /** Two blocks have come to rest and a chain may begin. */
  ghost predicate Placed2(s: Scene, s': Scene, kind1: BlockType, c1: Cell, kind2: BlockType, c2: Cell) {
    && Listed(WithTwo(s.view, kind1, c1, kind2, c2), s'.view)
    && s' == s.(view := s'.view, purse := s.purse.(scored := ChainScore([], s.purse.total, 0)))
  }

  /** A round that leaves ice pending puts the ice off, but not twice in a row. */
  function PutOff(s: Scene): Scene {
    if s.purse.counters.pending <= 0 then s
    else if s.flags.defenseCount >= 1 && !s.flags.comboAttack then s.(flags := s.flags.(defending := false, defenseCount := 0))
    else s.(flags := s.flags.(defending := true, defenseCount := s.flags.defenseCount + 1))
  }

  /** Without a round, nothing is put off any longer. */
  function DefenceOver(s: Scene): Scene {
    if s.flags.defending then s.(flags := s.flags.(defending := false, defenseCount := 0)) else s
  }

  /** The check after a control group has been placed. */
  ghost predicate GroupChecked(s: Scene, s': Scene) {
    exists m :: Checked(s, m) && if m.phase == Playing then GoesOn(DefenceOver(m), s') else s' == PutOff(m)
  }

  ghost predicate Pushed(s: Scene, s': Scene, kind1: BlockType, c1: Cell, kind2: BlockType, c2: Cell) {
    exists m :: Placed2(s, m, kind1, c1, kind2, c2) && GroupChecked(m, s')
  }

  /** A control group comes to rest on the lowest free cells of its columns (LocalPlayer::PushBlockInGame). */
  ghost predicate GroupStep(s: Scene, kind1: BlockType, x1: int, kind2: BlockType, x2: int, s': Scene) {
    exists y1, y2 ::
      && LowestFree(s.view.cells.Keys, Cell(x1, y1), Cell(x2, y2)) && (x1 == x2 ==> y1 < y2)
      && Pushed(s, s', kind1, Cell(x1, y1), kind2, Cell(x2, y2))
  }

  // ---------------------------------------------------------------- the end of a round

  /** What a round leaves of the list: everything above a freed cell falls. */
  ghost function Survivors(bs: seq<Body>, gone: set<Cell>): seq<Body> {
    if bs == [] then []
    else
      var b := bs[|bs| - 1];
      Survivors(bs[..|bs| - 1], gone)
      + if Cell(b.x, b.y) in gone then [] else [b.(state := if Above(gone, Cell(b.x, b.y)) then DownMoving else Stationary)]
  }

  ghost predicate RoundOver(s: Scene, s': Scene) {
    s.fade.Fade?
    && exists v :: Consistent(v) && v.bodies == Survivors(s.view.bodies, s.fade.matched + s.fade.ice) && s' == s.(view := v, fade := NoFade)
  }

  // ---------------------------------------------------------------- one frame

  /** What the phase makes of the board once its blocks have been updated (LocalPlayer::UpdateGameLogic). */
  ghost predicate Logic(s: Scene, s': Scene) {
    match s.phase
    case Standing => s' == s
    case Playing => s' == s
    case GameOver => s' == s
    case IceBlocking =>
      s' == s.(phase := if !AllRest(s.view) then IceBlocking else if SpawnHit(s.view.cells.Keys) then GameOver else Playing)
    case Shattering =>
      if s.fade.Fade? then if s.fade.over then RoundOver(s, s') else s' == s
      else exists v :: Listed(s.view, v) && if AllRest(v) then SettledStep(s.(view := v), s') else s' == s.(view := v)
  }

  function FadeAfter(f: Fade, dt: real): Fade {
    if f.NoFade? || f.over then f
    else Fade(f.matched, f.ice, Faded(f.time, dt).1, Faded(f.time, dt).0 == PlayOut)
  }

  /** What a frame makes of the blocks (BasePlayer::Update). */
  function Passed(s: Scene, dt: real): Scene {
    s.(playTime := s.playTime + dt, fade := FadeAfter(s.fade, dt), view := if s.fade.NoFade? then Frame(s.view, 0, dt) else s.view)
  }

  /** What the theorems about falling ask of a frame. */
  ghost predicate SmoothIn(s: Scene, dt: real) {
    s.fade.Fade? || (Fits(s.view) && Paced(s.view, 0, dt))
  }

  // ---------------------------------------------------------------- between frames

  /** An attack arrives. */
  function Attacked(s: Scene, count: int): Scene {
    s.(purse := s.purse.(counters := s.purse.counters.(pending := ToInt16(s.purse.counters.pending + count))),
       flags := s.flags.(comboAttack := true))
  }

  /** The opponent's chain is over. */
  function Relieved(s: Scene): Scene {
    s.(flags := s.flags.(comboAttack := false))
  }

  /** The server's answer sets the pending count. */
  function Answered(s: Scene, count: int): Scene {
    s.(purse := s.purse.(counters := s.purse.counters.(pending := count)))
  }

  /** One frame (GameState::Update). */
  ghost predicate FrameStep(s: Scene, dt: real, s': Scene) {
    Logic(Passed(s, dt), s')
  }

  // ---------------------------------------------------------------- what these relations say

  lemma {:induction false} GoesOnOutcome(s: Scene, s': Scene)
    requires GoesOn(s, s')
    ensures
      var t, drops := s.purse.counters.pending, s.purse.counters.pending > 0 && !s.flags.comboAttack && !s.flags.defending;
      && s'.phase == (if drops then IceBlocking else s.phase) && s'.combo == s.combo
      && s'.purse.counters.pending == (if drops then if t > 30 then t - 30 else 0 else t)
      && |s'.view.bodies| == |s.view.bodies| + t - s'.purse.counters.pending && s'.flags.shouldQuit == s.flags.shouldQuit
  {
    hide IsDrop, Dropped;
    if s.purse.counters.pending > 0 && !s.flags.comboAttack && !s.flags.defending {
      var cs :| IceDrops(s, s', cs);
      DropIsExact(cs, s.purse.counters.pending);
      DroppedSize(s.view, cs);
    }
  }

  lemma {:induction false} DroppedSize(s: FallState, cs: seq<Cell>)
    ensures |Dropped(s, cs).bodies| == |s.bodies| + |cs| && LARGE_DROP == 30
  {
  }

  lemma {:induction false} CheckedOutcome(s: Scene, s': Scene)
    requires Checked(s, s')
    ensures s'.phase ==
      if s.flags.shouldQuit then GameOver
      else if HasGroup(BoardIn(s.view).colours) then Shattering
      else if SpawnHit(s.view.cells.Keys) then GameOver
      else Playing
    ensures s'.view == s.view && s'.flags == s.flags
    ensures s'.phase != Shattering ==> s'.combo == 0 && s'.purse == s.purse.(rest := 0)
    ensures s'.phase == Shattering ==>
      && s'.combo == s.combo + 1 && s'.fade.Fade? && !s'.fade.over && s'.fade.time == 0.0
      && |s'.purse.scored.rounds| == |s.purse.scored.rounds| + 1
  {
    hide HasGroup, BoardIn, SpawnHit, TakesRound, RoundOf, Margin, Offset, Attack, RestAfter, ToUint32, ToInt16;
  }

  /** When everything has come to rest: the next round starts if some group is large enough, the game is over if the player
      quits or a spawn cell is taken, pending ice comes down unless an attack or a defence goes on, and otherwise the
      next blocks are played.  An empty board has neither groups nor taken cells, and keeps the combo count. */
  lemma {:induction false} SettledOutcome(s: Scene, s': Scene)
    requires SettledStep(s, s')
    ensures
      var t, empty := s.purse.counters.pending, s.view.bodies == [];
      var held := s.flags.comboAttack || s.flags.defending;
      && s'.phase ==
         (if s.flags.shouldQuit then GameOver
          else if !empty && HasGroup(BoardIn(s.view).colours) then Shattering
          else if !empty && SpawnHit(s.view.cells.Keys) then GameOver
          else if t > 0 && !held then IceBlocking
          else Playing)
      && (s'.phase != Shattering ==>
            && s'.purse.counters.pending == (if s'.phase == IceBlocking then if t > 30 then t - 30 else 0 else t)
            && |s'.view.bodies| == |s.view.bodies| + t - s'.purse.counters.pending && s'.combo == if empty then s.combo else 0)
      && (s'.phase == Shattering ==> s'.view == s.view && s'.combo == s.combo + 1 && |s'.purse.scored.rounds| == |s.purse.scored.rounds| + 1)
      && (s'.phase == GameOver ==> s'.view == s.view) && s'.flags.shouldQuit == s.flags.shouldQuit
  {
    hide Checked, GoesOn, HasGroup, BoardIn, SpawnHit;
    if s.view.bodies == [] {
      if !s.flags.shouldQuit { GoesOnOutcome(s.(phase := Playing), s'); }
    } else {
      var m :| Checked(s, m) && if m.phase == Playing then GoesOn(m, s') else s' == m;
      CheckedOutcome(s, m);
      if m.phase == Playing { GoesOnOutcome(m, s'); }
    }
  }
}
