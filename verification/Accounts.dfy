/** Whole games: every coloured block that has come down is on the board, or its round has been paid for. */
module Accounts {
  import opened Geometry
  import opened Connectivity
  import opened BlockStates
  import opened Matching
  import opened Players
  import opened Falling
  import opened FallSpeed
  import opened Clearing
  import opened Rounds
  import opened Settling
  import opened Garbage
  import opened Sorting
  import opened Destroying
  import opened Scoring
  import opened Scenes
  import opened SortedRuns
  import opened RoundAgreement
  import opened LocalFrames
  import opened Progress
  import opened Games
  import Targets

  // ---------------------------------------------------------------- counting coloured blocks

  function ColourCount(bs: seq<Body>): nat {
    if bs == [] then 0 else ColourCount(bs[..|bs| - 1]) + if bs[|bs| - 1].kind == Ice then 0 else 1
  }

  ghost function Indices(bs: seq<Body>): set<int> {
    set i | 0 <= i < |bs| && bs[i].kind != Ice
  }

  ghost function ColouredCells(s: FallState): set<Cell> {
    set c | c in s.cells && 0 <= s.cells[c] < |s.bodies| && s.bodies[s.cells[c]].kind != Ice
  }

  lemma {:induction false} CountIndices(bs: seq<Body>)
    ensures |Indices(bs)| == ColourCount(bs)
    decreases |bs|
  {
    if bs == [] {
      assert Indices(bs) == {};
    } else {
      var n := |bs| - 1;
      CountIndices(bs[..n]);
      if bs[n].kind == Ice {
        assert Indices(bs) == Indices(bs[..n]);
      } else {
        assert Indices(bs) == Indices(bs[..n]) + {n};
      }
    }
  }

  lemma {:induction false} CountCells(s: FallState)
    requires Consistent(s) && ColoursRegistered(s)
    ensures ColourCount(s.bodies) == |ColouredCells(s)|
  {
    CountIndices(s.bodies);
    var ks, cells := Indices(s.bodies), ColouredCells(s);
    forall k | k in ks
      ensures 0 <= k < |s.bodies| && Cell(s.bodies[k].x, s.bodies[k].y) in cells && s.cells[Cell(s.bodies[k].x, s.bodies[k].y)] == k
    {
      assert s.bodies[k].registered;
    }
    forall c | c in cells
      ensures exists k :: k in ks && 0 <= k < |s.bodies| && Cell(s.bodies[k].x, s.bodies[k].y) == c
    {
      assert s.cells[c] in ks;
    }
    AsManyCells(s.bodies, ks, cells);
  }

  lemma {:induction false} SameKindsCount(a: seq<Body>, b: seq<Body>)
    requires |a| == |b| && forall i :: 0 <= i < |a| ==> a[i].kind == b[i].kind
    ensures ColourCount(a) == ColourCount(b)
    decreases |a|
  {
    if a != [] { SameKindsCount(a[..|a| - 1], b[..|a| - 1]); }
  }

  lemma {:induction false} CountMore(a: seq<Body>, b: seq<Body>)
    ensures ColourCount(a + b) == ColourCount(a) + ColourCount(b)
    decreases |b|
  {
    if b == [] {
      assert a + b == a;
    } else {
      assert (a + b)[..|a + b| - 1] == a + b[..|b| - 1];
      CountMore(a, b[..|b| - 1]);
    }
  }

  lemma {:induction false} NoColours(bs: seq<Body>)
    requires forall i :: 0 <= i < |bs| ==> bs[i].kind == Ice
    ensures ColourCount(bs) == 0
    decreases |bs|
  {
    if bs != [] { NoColours(bs[..|bs| - 1]); }
  }

  // ---------------------------------------------------------------- what a step does to them

  lemma {:induction false} StepKinds(s: FallState, n: int, dt: real)
    requires 0 <= n < |s.bodies|
    ensures |StepBody(s, n, dt).bodies| == |s.bodies|
    ensures forall i :: 0 <= i < |s.bodies| ==> StepBody(s, n, dt).bodies[i].kind == s.bodies[i].kind
  {
    hide Outcome, Velocity, LandingRow;
  }

  lemma {:induction false} FrameKinds(s: FallState, n: nat, dt: real)
    requires n <= |s.bodies|
    ensures |Frame(s, n, dt).bodies| == |s.bodies|
    ensures forall i :: 0 <= i < |s.bodies| ==> Frame(s, n, dt).bodies[i].kind == s.bodies[i].kind
    decreases |s.bodies| - n
  {
    if n < |s.bodies| {
      FrameUnfold(s, n, dt);
      StepKinds(s, n, dt);
      FrameKinds(StepBody(s, n, dt), n + 1, dt);
      hide StepBody;
    } else {
      FrameDone(s, dt);
    }
  }

  lemma {:induction false} FrameCount(s: FallState, dt: real)
    ensures ColourCount(Frame(s, 0, dt).bodies) == ColourCount(s.bodies)
  {
    FrameKinds(s, 0, dt);
    SameKindsCount(Frame(s, 0, dt).bodies, s.bodies);
  }

  lemma {:induction false} DropCount(s: FallState, cs: seq<Cell>)
    ensures ColourCount(Dropped(s, cs).bodies) == ColourCount(s.bodies)
  {
    CountMore(s.bodies, DropBodies(cs));
    NoColours(DropBodies(cs));
  }

  lemma {:induction false} TwoCount(s: FallState, kind1: BlockType, c1: Cell, kind2: BlockType, c2: Cell)
    requires kind1 != Ice && kind2 != Ice
    ensures ColourCount(WithTwo(s, kind1, c1, kind2, c2).bodies) == ColourCount(s.bodies) + 2
  {
    hide RowY;
    CountMore(s.bodies, [RestingOn(kind1, c1)]);
    CountMore(s.bodies + [RestingOn(kind1, c1)], [RestingOn(kind2, c2)]);
    assert [RestingOn(kind1, c1)][..0] == [] && [RestingOn(kind2, c2)][..0] == [];
  }

  /** The same blocks on the same cells. */
  lemma {:induction false} ListedCount(s: FallState, s': FallState)
    requires Consistent(s) && ColoursRegistered(s) && Listed(s, s') && ColoursRegistered(s')
    ensures ColourCount(s'.bodies) == ColourCount(s.bodies)
  {
    ListedIs(s, s');
    CountCells(s);
    CountCells(s');
    SameColouredCells(s, s');
  }

  lemma {:induction false} SameColouredCells(s: FallState, s': FallState)
    requires SameBoard(s, s')
    ensures ColouredCells(s') == ColouredCells(s)
  {
  }

  ghost function TakenFrom(bs: seq<Body>, gone: set<Cell>): set<int> {
    set i | 0 <= i < |bs| && bs[i].kind != Ice && Cell(bs[i].x, bs[i].y) in gone
  }

  lemma {:induction false} SurvivorsCount(bs: seq<Body>, gone: set<Cell>)
    ensures ColourCount(Survivors(bs, gone)) + |TakenFrom(bs, gone)| == ColourCount(bs)
    decreases |bs|
  {
    if bs == [] {
      assert TakenFrom(bs, gone) == {};
    } else {
      var n := |bs| - 1;
      var b, front := bs[n], bs[..n];
      SurvivorsCount(front, gone);
      var last := if Cell(b.x, b.y) in gone then [] else [b.(state := if Above(gone, Cell(b.x, b.y)) then DownMoving else Stationary)];
      assert Survivors(bs, gone) == Survivors(front, gone) + last;
      CountMore(Survivors(front, gone), last);
      if b.kind != Ice && Cell(b.x, b.y) in gone {
        assert TakenFrom(bs, gone) == TakenFrom(front, gone) + {n};
      } else {
        assert TakenFrom(bs, gone) == TakenFrom(front, gone);
      }
      if last != [] { assert last[..0] == []; }
    }
  }

  lemma {:induction false} RoundCount(s: FallState, matched: set<Cell>, ice: set<Cell>)
    requires Consistent(s) && ColoursRegistered(s) && matched <= ColouredCells(s) && ice !! ColouredCells(s)
    ensures ColourCount(Survivors(s.bodies, matched + ice)) + |matched| == ColourCount(s.bodies)
  {
    SurvivorsCount(s.bodies, matched + ice);
    var ks := TakenFrom(s.bodies, matched + ice);
    forall k | k in ks
      ensures 0 <= k < |s.bodies| && Cell(s.bodies[k].x, s.bodies[k].y) in matched && s.cells[Cell(s.bodies[k].x, s.bodies[k].y)] == k
    {
      assert s.bodies[k].registered;
      assert Cell(s.bodies[k].x, s.bodies[k].y) in ColouredCells(s);
    }
    forall c | c in matched
      ensures exists k :: k in ks && 0 <= k < |s.bodies| && Cell(s.bodies[k].x, s.bodies[k].y) == c
    {
      assert c in ColouredCells(s) && s.cells[c] in ks;
    }
    AsManyCells(s.bodies, ks, matched);
  }

  // ---------------------------------------------------------------- one step

  /** The blocks of the groups that are disappearing. */
  function Owed(s: Scene): int {
    if s.fade.Fade? then |s.fade.matched| else 0
  }

  /** What is disappearing was coloured blocks and ice, as many blocks as the round was scored for. */
  ghost predicate Tidy(s: Scene) {
    s.fade.Fade? ==>
      && s.fade.matched <= ColouredCells(s.view) && s.fade.ice !! ColouredCells(s.view)
      && s.purse.scored.rounds != [] && Owed(s) == Sum(s.purse.scored.rounds[|s.purse.scored.rounds| - 1].sizes)
  }

  /** The coloured blocks that leave the board, and the points that a round earns, in one step. */
  function BlocksGone(s: Scene, s': Scene): int {
    if s.fade.Fade? && s'.fade.NoFade? then Owed(s) else 0
  }

  function Gained(s: Scene, s': Scene): int {
    var rounds := s'.purse.scored.rounds;
    if s.fade.NoFade? && s'.fade.Fade? && rounds != [] then rounds[|rounds| - 1].score else 0
  }

  /** Points are added in 32 bits. */
  predicate Adds(total: int, total': int, points: int) {
    total' == total + points || total' == ToUint32(total + points)
  }

  ghost predicate SameOrDropped(v: FallState, v': FallState) {
    v' == v || exists cs :: v' == Dropped(v, cs)
  }

  lemma {:induction false} DroppedOnto(v: FallState, v': FallState)
    requires SameOrDropped(v, v')
    ensures ColourCount(v'.bodies) == ColourCount(v.bodies)
    ensures ColoursRegistered(v') ==> ColoursRegistered(v)
  {
    if v' != v {
      var cs :| v' == Dropped(v, cs);
      DropCount(v, cs);
      DroppedBodies(v, cs);
      hide Dropped, ColourCount;
      if ColoursRegistered(v') {
        forall i | 0 <= i < |v.bodies| && v.bodies[i].kind != Ice
          ensures v.bodies[i].registered
        {
          assert v'.bodies[i] == v.bodies[i];
        }
      }
    }
  }

  lemma {:induction false} OpenRoundStart(s: Scene, s': Scene, cells: seq<seq<Cell>>, iceAt: set<Cell>)
    requires RoundStarts(s, s', cells, iceAt)
    ensures AllGroups(BoardIn(s.view).colours, cells) && iceAt == IceAt(BoardIn(s.view).ice, BoardIn(s.view).states, cells)
    ensures s'.view == s.view && s'.fade == Fade.Fade(SetOf(Flat(cells)), iceAt, 0.0, false)
    ensures s'.purse == Earn(s.purse, RoundOf(Sizes(cells), s.combo + 1, Margin(s.playTime, 0)), s.flags.isServer)
  {
    hide Earn, Sizes, RoundOf, Margin, BoardIn, AllGroups, IceAt, Flat, SetOf;
  }

  /** The points and the sizes of a round that starts. */
  lemma {:induction false} RoundEarned(b: Purse, b': Purse, sizes: seq<int>, combo: int, margin: int, isServer: bool)
    requires (forall i :: 0 <= i < |sizes| ==> 0 <= sizes[i]) && margin > 0
    requires b' == Earn(b, RoundOf(sizes, combo, margin), isServer)
    ensures b'.scored.rounds != []
    ensures
      var r := b'.scored.rounds[|b'.scored.rounds| - 1];
      r.sizes == sizes && r.score >= 10 * Sum(sizes) && b'.total == ToUint32(b.total + r.score)
  {
    TenPerBlock(sizes, combo);
    RoundOfIs(sizes, combo, margin);
    EarnIs(b, RoundOf(sizes, combo, margin), isServer);
    hide *;
  }

  lemma {:induction false} MatchedSize(g: Colours, cells: seq<seq<Cell>>)
    requires AllGroups(g, cells)
    ensures |SetOf(Flat(cells))| == Sum(Sizes(cells))
  {
    GroupSizes(g, cells);
    DistinctSize(Flat(cells));
    FlatSize(cells);
    hide AllGroups, Sum, Sizes, Flat;
  }

  lemma {:induction false} RoundStartsTidy(s: Scene, s': Scene, cells: seq<seq<Cell>>, iceAt: set<Cell>)
    requires RoundStarts(s, s', cells, iceAt)
    ensures Tidy(s') && s'.view == s.view && s'.fade.Fade? && (s.fade.NoFade? ==> Gained(s, s') >= 10 * Owed(s'))
    ensures s.fade.NoFade? ==> Adds(s.purse.total, s'.purse.total, Gained(s, s'))
  {
    OpenRoundStart(s, s', cells, iceAt);
    MatchedSize(BoardIn(s.view).colours, cells);
    RoundEarned(s.purse, s'.purse, Sizes(cells), s.combo + 1, Margin(s.playTime, 0), s.flags.isServer);
    MatchedAreColoured(s.view, cells);
    IceIsNotColoured(s.view, cells);
    hide RoundStarts, Margin, RoundOf, Earn, Sum, Sizes, BoardIn, AllGroups, IceAt, Flat, SetOf, ToUint32, ColouredCells;
  }

  lemma {:induction false} MatchedAreColoured(v: FallState, cells: seq<seq<Cell>>)
    requires AllGroups(BoardIn(v).colours, cells)
    ensures SetOf(Flat(cells)) <= ColouredCells(v)
  {
    forall c | c in SetOf(Flat(cells))
      ensures c in ColouredCells(v)
    {
      InFlat(cells, c);
      var i :| 0 <= i < |cells| && c in cells[i];
      assert IsGroup(BoardIn(v).colours, cells[i]);
    }
  }

  lemma {:induction false} IceIsNotColoured(v: FallState, cells: seq<seq<Cell>>)
    ensures IceAt(BoardIn(v).ice, BoardIn(v).states, cells) !! ColouredCells(v)
  {
    forall c | c in IceAt(BoardIn(v).ice, BoardIn(v).states, cells)
      ensures c !in ColouredCells(v)
    {
      assert RestingIce(BoardIn(v).ice, BoardIn(v).states, c);
    }
  }

  /** What a check of the board comes to, and whatever follows it in the same step. */
  ghost predicate Accounted(s: Scene, s': Scene) {
    && SameOrDropped(s.view, s'.view) && Tidy(s')
    && Adds(s.purse.total, s'.purse.total, Gained(s, s')) && Gained(s, s') >= 10 * Owed(s')
  }

  lemma {:induction false} CheckedAccounted(s: Scene, s': Scene)
    requires Checked(s, s') && s.fade.NoFade?
    ensures Accounted(s, s') && s'.view == s.view && (s'.phase == Playing ==> s'.fade.NoFade? && s'.purse.total == s.purse.total)
  {
    hide RoundStarts, HasGroup, BoardIn, SpawnHit, ToUint32, ColouredCells;
    if !s.flags.shouldQuit && HasGroup(BoardIn(s.view).colours) {
      var cells, iceAt :| RoundStarts(s, s', cells, iceAt);
      RoundStartsTidy(s, s', cells, iceAt);
      CheckedOutcome(s, s');
    }
  }

  lemma {:induction false} GoesOnAccounted(s: Scene, s': Scene)
    requires GoesOn(s, s') && s.fade.NoFade?
    ensures SameOrDropped(s.view, s'.view) && s'.fade.NoFade? && s'.purse.total == s.purse.total
  {
    hide IsDrop, Dropped, AfterDrop;
  }

  lemma {:induction false} QuietAccounted(s: Scene, m: Scene, s': Scene)
    requires s.fade.NoFade? && s'.fade.NoFade? && m.view == s.view && m.purse.total == s.purse.total
    requires SameOrDropped(m.view, s'.view) && s'.purse.total == m.purse.total
    ensures Accounted(s, s')
  {
    hide SameOrDropped, ToUint32;
  }

  lemma {:induction false} CheckedOnAccounted(s: Scene, s': Scene)
    requires CheckedOn(s, s') && s.fade.NoFade?
    ensures Accounted(s, s')
  {
    hide Checked, GoesOn, Accounted, SameOrDropped, Tidy, Adds, Gained;
    var m :| Checked(s, m) && if m.phase == Playing then GoesOn(m, s') else s' == m;
    CheckedAccounted(s, m);
    if m.phase == Playing {
      GoesOnAccounted(m, s');
      QuietAccounted(s, m, s');
    }
  }

  lemma {:induction false} SettledAccounted(s: Scene, s': Scene)
    requires SettledStep(s, s') && s.fade.NoFade?
    ensures Accounted(s, s')
  {
    hide CheckedOn, GoesOn, Accounted, SameOrDropped, Tidy, Adds, Gained;
    if s.view.bodies != [] {
      CheckedOnAccounted(s, s');
    } else if s.flags.shouldQuit {
      ViewKept(s.view);
      QuietAccounted(s, s, s');
    } else {
      GoesOnAccounted(s.(phase := Playing), s');
      QuietAccounted(s, s.(phase := Playing), s');
    }
  }

  lemma {:induction false} ViewKept(v: FallState)
    ensures SameOrDropped(v, v)
  {
  }

  lemma {:induction false} GroupCheckedAccounted(s: Scene, s': Scene)
    requires GroupChecked(s, s') && s.fade.NoFade?
    ensures Accounted(s, s')
  {
    hide Checked, GoesOn, Accounted, SameOrDropped, DefenceOver, PutOff;
    var m :| Checked(s, m) && if m.phase == Playing then GoesOn(DefenceOver(m), s') else s' == PutOff(m);
    CheckedAccounted(s, m);
    FlagsOnly(m);
    if m.phase == Playing {
      GoesOnAccounted(DefenceOver(m), s');
      QuietAccounted(s, DefenceOver(m), s');
    } else {
      PutOffAccounted(s, m);
    }
  }

  lemma {:induction false} FlagsOnly(s: Scene)
    ensures DefenceOver(s) == s.(flags := DefenceOver(s).flags) && PutOff(s) == s.(flags := PutOff(s).flags)
  {
  }

  lemma {:induction false} PutOffAccounted(s: Scene, m: Scene)
    requires Accounted(s, m)
    ensures Accounted(s, PutOff(m))
  {
    FlagsOnly(m);
    hide PutOff, SameOrDropped, ToUint32, ColouredCells;
  }

  /** In one step: coloured blocks come with control groups and leave with rounds, and a round that starts earns ten
      points at least for each block of its groups. */
  ghost predicate StepBalanced(s: Scene, s': Scene, placed: int) {
    && ColourCount(s'.view.bodies) + BlocksGone(s, s') == ColourCount(s.view.bodies) + placed
    && Adds(s.purse.total, s'.purse.total, Gained(s, s'))
    && Gained(s, s') >= 10 * (Owed(s') - Owed(s) + BlocksGone(s, s'))
  }

  lemma {:induction false} NothingGone(s: Scene, s': Scene, placed: int)
    requires ColourCount(s'.view.bodies) == ColourCount(s.view.bodies) + placed && Owed(s') == Owed(s) && s'.purse == s.purse
    requires s.fade.NoFade? <==> s'.fade.NoFade?
    ensures StepBalanced(s, s', placed)
  {
    hide ColourCount, ToUint32;
  }

  lemma {:induction false} FadeAccounts(s: Scene, dt: real, s': Scene)
    requires Sound(s) && Tidy(s) && s.fade.Fade? && FrameStep(s, dt, s')
    ensures Tidy(s') && StepBalanced(s, s', 0)
  {
    hide *;
    FadePassed(s, dt);
    FadeLogic(s, dt, s');
    if s'.fade.NoFade? {
      RoundTaken(s);
      RoundBalanced(s, s');
    } else {
      SameTidy(s, s');
      NothingGone(s, s', 0);
    }
  }

  lemma {:induction false} FadePassed(s: Scene, dt: real)
    requires s.fade.Fade?
    ensures
      var m := Passed(s, dt);
      && m.fade.Fade? && m.fade.matched == s.fade.matched && m.fade.ice == s.fade.ice && m.view == s.view && m.purse == s.purse && m.phase == s.phase
  {
    hide Frame, Faded;
  }

  lemma {:induction false} FadeLogic(s: Scene, dt: real, s': Scene)
    requires Sound(s) && s.fade.Fade? && FrameStep(s, dt, s')
    ensures s'.purse == s.purse
    ensures if s'.fade.NoFade? then s'.view.bodies == Survivors(s.view.bodies, s.fade.matched + s.fade.ice)
            else s'.view == s.view && s'.fade.matched == s.fade.matched && s'.fade.ice == s.fade.ice
  {
    FadePassed(s, dt);
    hide Passed, Survivors, Consistent, FallInvariant, ColoursRegistered, AllRest, SpawnHit, OnlyIceFalls, AllRegistered, SettledStep, Listed;
  }

  lemma {:induction false} SameTidy(s: Scene, s': Scene)
    requires Tidy(s) && s.fade.Fade? && s'.fade.Fade? && s'.view == s.view && s'.purse == s.purse
    requires s'.fade.matched == s.fade.matched && s'.fade.ice == s.fade.ice
    ensures Tidy(s') && Owed(s') == Owed(s)
  {
    hide ColouredCells, Sum;
  }

  lemma {:induction false} RoundTaken(s: Scene)
    requires Sound(s) && Tidy(s) && s.fade.Fade?
    ensures ColourCount(Survivors(s.view.bodies, s.fade.matched + s.fade.ice)) + Owed(s) == ColourCount(s.view.bodies)
  {
    hide ColourCount, Survivors, ColouredCells, Consistent, ColoursRegistered, Sum;
    RoundCount(s.view, s.fade.matched, s.fade.ice);
  }

  lemma {:induction false} RoundBalanced(s: Scene, s': Scene)
    requires s.fade.Fade? && s'.fade.NoFade? && s'.purse == s.purse
    requires ColourCount(s'.view.bodies) + Owed(s) == ColourCount(s.view.bodies)
    ensures Tidy(s') && StepBalanced(s, s', 0)
  {
    hide ColourCount, ToUint32;
  }

  lemma {:induction false} FallAccounts(s: Scene, dt: real, s': Scene)
    requires Sound(s) && Sound(s') && s.fade.NoFade? && dt >= 0.0 && SmoothIn(s, dt) && FrameStep(s, dt, s')
    ensures Tidy(s') && StepBalanced(s, s', 0)
  {
    hide *;
    SmoothFits(s, dt);
    OpenSound(s);
    OpenSound(s');
    FrameConsistent(s.view, dt);
    FrameCount(s.view, dt);
    var m := Passed(s, dt);
    PassedIs(s, dt);
    if s.phase == Shattering {
      var v := FallLogic(s, dt, s');
      ListedStep(s, m, v, s');
    } else {
      QuietStep(s, dt, s');
      NotFadingTidy(s);
      NotFadingTidy(s');
      NothingGone(s, s', 0);
    }
  }

  lemma {:induction false} NotFadingTidy(s: Scene)
    requires s.fade.NoFade?
    ensures Tidy(s) && Owed(s) == 0
  {
  }

  lemma {:induction false} OpenSound(s: Scene)
    requires Sound(s)
    ensures Consistent(s.view) && ColoursRegistered(s.view)
    ensures s.fade.NoFade? ==> FallInvariant(s.view, Heights(s.view), 0, 0.0)
  {
    hide Consistent, ColoursRegistered, FallInvariant, AllRest, SpawnHit, OnlyIceFalls, AllRegistered;
  }

  lemma {:induction false} FallLogic(s: Scene, dt: real, s': Scene) returns (v: FallState)
    requires s.phase == Shattering && s.fade.NoFade? && FrameStep(s, dt, s')
    ensures
      var m := Passed(s, dt);
      Listed(m.view, v) && if AllRest(v) then SettledStep(m.(view := v), s') else s' == m.(view := v)
  {
    PassedIs(s, dt);
    hide Passed, Listed, AllRest, SettledStep, RoundOver;
    var m := Passed(s, dt);
    v :| Listed(m.view, v) && if AllRest(v) then SettledStep(m.(view := v), s') else s' == m.(view := v);
  }

  lemma {:induction false} QuietStep(s: Scene, dt: real, s': Scene)
    requires Sound(s) && s.phase != Shattering && s.fade.NoFade? && FrameStep(s, dt, s')
    ensures s'.view == Frame(s.view, 0, dt) && s'.purse == s.purse && s'.fade.NoFade?
  {
    PassedIs(s, dt);
    hide Passed, Consistent, FallInvariant, ColoursRegistered, AllRest, SpawnHit, OnlyIceFalls, AllRegistered, Frame;
  }

  lemma {:induction false} ListedStep(s: Scene, m: Scene, v: FallState, s': Scene)
    requires s.fade.NoFade? && m.fade.NoFade? && m.purse == s.purse && ColourCount(m.view.bodies) == ColourCount(s.view.bodies)
    requires Consistent(m.view) && ColoursRegistered(m.view) && ColoursRegistered(s'.view)
    requires Listed(m.view, v) && if AllRest(v) then SettledStep(m.(view := v), s') else s' == m.(view := v)
    ensures Tidy(s') && StepBalanced(s, s', 0)
  {
    hide *;
    if AllRest(v) {
      SettledAccounted(m.(view := v), s');
    } else {
      ViewKept(v);
      QuietAccounted(m.(view := v), m.(view := v), s');
    }
    OpenAccounted(m.(view := v), s');
    DroppedOnto(v, s'.view);
    ListedCount(m.view, v);
    AccountedBalance(s, m.(view := v), s', 0);
  }

  lemma {:induction false} OpenAccounted(s: Scene, s': Scene)
    requires Accounted(s, s')
    ensures SameOrDropped(s.view, s'.view) && Tidy(s')
  {
    hide SameOrDropped, Tidy;
  }

  lemma {:induction false} AccountedBalance(s: Scene, m: Scene, s': Scene, placed: int)
    requires Accounted(m, s') && s.fade.NoFade? && m.fade.NoFade? && m.purse.total == s.purse.total
    requires ColourCount(s'.view.bodies) == ColourCount(s.view.bodies) + placed
    ensures StepBalanced(s, s', placed)
  {
    hide ColourCount, ToUint32, SameOrDropped, Tidy;
  }

  // ---------------------------------------------------------------- a control group

  lemma {:induction false} WithTwoConsistent(v: FallState, kind1: BlockType, c1: Cell, kind2: BlockType, c2: Cell)
    requires Consistent(v) && ColoursRegistered(v) && InBoard(c1) && InBoard(c2) && c1 != c2 && c1 !in v.cells && c2 !in v.cells
    ensures Consistent(WithTwo(v, kind1, c1, kind2, c2)) && ColoursRegistered(WithTwo(v, kind1, c1, kind2, c2))
  {
    hide RowY;
  }

  lemma {:induction false} GroupAccounts(s: Scene, kind1: BlockType, x1: int, kind2: BlockType, x2: int, s': Scene)
    requires Sound(s) && Sound(s') && s.fade.NoFade? && kind1 != Ice && kind2 != Ice && GroupStep(s, kind1, x1, kind2, x2, s')
    ensures Tidy(s') && StepBalanced(s, s', 2)
  {
    hide *;
    OpenSound(s);
    OpenSound(s');
    var c1, c2, m := OpenGroup(s, kind1, x1, kind2, x2, s');
    WithTwoConsistent(s.view, kind1, c1, kind2, c2);
    TwoCount(s.view, kind1, c1, kind2, c2);
    GroupCheckedAccounted(m, s');
    OpenAccounted(m, s');
    DroppedOnto(m.view, s'.view);
    ListedCount(WithTwo(s.view, kind1, c1, kind2, c2), m.view);
    AccountedBalance(s, m, s', 2);
  }

  lemma {:induction false} OpenGroup(s: Scene, kind1: BlockType, x1: int, kind2: BlockType, x2: int, s': Scene)
    returns (c1: Cell, c2: Cell, m: Scene)
    requires GroupStep(s, kind1, x1, kind2, x2, s')
    ensures InBoard(c1) && InBoard(c2) && c1 != c2 && c1 !in s.view.cells && c2 !in s.view.cells
    ensures Listed(WithTwo(s.view, kind1, c1, kind2, c2), m.view) && GroupChecked(m, s')
    ensures m.fade == s.fade && m.purse.total == s.purse.total && m.flags == s.flags
  {
    hide Targets.LowestFree, Pushed;
    var y1, y2 :| Targets.LowestFree(s.view.cells.Keys, Cell(x1, y1), Cell(x2, y2)) && Pushed(s, s', kind1, Cell(x1, y1), kind2, Cell(x2, y2));
    c1, c2 := Cell(x1, y1), Cell(x2, y2);
    FreeCells(s.view.cells.Keys, c1, c2);
    m := OpenPushed(s, kind1, c1, kind2, c2, s');
  }

  lemma {:induction false} FreeCells(cells: set<Cell>, c1: Cell, c2: Cell)
    requires Targets.LowestFree(cells, c1, c2)
    ensures InBoard(c1) && InBoard(c2) && c1 != c2 && c1 !in cells && c2 !in cells
  {
  }

  lemma {:induction false} OpenPushed(s: Scene, kind1: BlockType, c1: Cell, kind2: BlockType, c2: Cell, s': Scene) returns (m: Scene)
    requires Pushed(s, s', kind1, c1, kind2, c2)
    ensures Listed(WithTwo(s.view, kind1, c1, kind2, c2), m.view) && GroupChecked(m, s')
    ensures m.fade == s.fade && m.purse.total == s.purse.total && m.flags == s.flags
  {
    hide Listed, WithTwo, GroupChecked;
    m :| Placed2(s, m, kind1, c1, kind2, c2) && GroupChecked(m, s');
  }

  // ---------------------------------------------------------------- whole games

  lemma {:induction false} StepAccounts(s: Scene, input: Input, s': Scene)
    requires Step(s, input, s') && Sound(s) && Sound(s') && Tidy(s)
    ensures Tidy(s') && StepBalanced(s, s', if input.Group? then 2 else 0)
  {
    OpenStep(s, input, s');
    match input
    case Tick(dt) =>
      hide *;
      if s.fade.Fade? { FadeAccounts(s, dt, s'); } else { FallAccounts(s, dt, s'); }
    case Group(k1, x1, k2, x2) =>
      PlayingIsQuiet(s);
      hide *;
      GroupAccounts(s, k1, x1, k2, x2, s');
    case Attack(_) => BetweenAccounts(s, s');
    case ChainOver => BetweenAccounts(s, s');
    case Answer(_) => BetweenAccounts(s, s');
    case Quit => BetweenAccounts(s, s');
  }

  lemma {:induction false} PlayingIsQuiet(s: Scene)
    requires Sound(s)
    ensures s.phase == Playing ==> s.fade.NoFade?
  {
    hide Consistent, ColoursRegistered, FallInvariant, AllRest, SpawnHit, OnlyIceFalls, AllRegistered;
  }

  lemma {:induction false} BetweenAccounts(s: Scene, s': Scene)
    requires Tidy(s) && s'.view == s.view && s'.fade == s.fade && s'.purse.total == s.purse.total && s'.purse.scored == s.purse.scored
    ensures Tidy(s') && StepBalanced(s, s', 0)
  {
    hide ColouredCells, ColourCount, ToUint32, Sum;
  }

  /** The coloured blocks that have left the board, the points of all rounds, and the blocks of all groups placed. */
  function BlocksTaken(trace: seq<Scene>, n: nat): int
    requires n < |trace|
  {
    if n == 0 then 0 else BlocksTaken(trace, n - 1) + BlocksGone(trace[n - 1], trace[n])
  }

  function PointsGained(trace: seq<Scene>, n: nat): int
    requires n < |trace|
  {
    if n == 0 then 0 else PointsGained(trace, n - 1) + Gained(trace[n - 1], trace[n])
  }

  function BlocksPlaced(inputs: seq<Input>, n: nat): int
    requires n <= |inputs|
  {
    if n == 0 then 0 else BlocksPlaced(inputs, n - 1) + if inputs[n - 1].Group? then 2 else 0
  }

  /** Over every game, however frames, control groups, attacks, answers and losses follow each other: the coloured
      blocks that have come down are on the board or were taken by rounds, each of these has been paid with ten
      points at least, and the total score is the sum of all points in 32 bits. */
  lemma {:induction false} AccountsBalance(trace: seq<Scene>, inputs: seq<Input>, n: nat)
    requires Plays(trace, inputs) && n <= |inputs| && Tidy(trace[0])
    ensures |trace| == |inputs| + 1 && Tidy(trace[n])
    ensures ColourCount(trace[n].view.bodies) + BlocksTaken(trace, n) == ColourCount(trace[0].view.bodies) + BlocksPlaced(inputs, n)
    ensures PointsGained(trace, n) >= 10 * (BlocksTaken(trace, n) + Owed(trace[n]) - Owed(trace[0]))
    ensures ToUint32(trace[n].purse.total - trace[0].purse.total - PointsGained(trace, n)) == 0
    decreases n
  {
    hide *;
    TraceSize(trace, inputs);
    if n == 0 {
      NoSums(trace, inputs);
    } else {
      AccountsBalance(trace, inputs, n - 1);
      TraceAt(trace, inputs, n - 1);
      StepAccounts(trace[n - 1], inputs[n - 1], trace[n]);
      NextSums(trace, inputs, n);
      AddsUp(trace[0].purse.total, trace[n - 1].purse.total, trace[n].purse.total, PointsGained(trace, n - 1), Gained(trace[n - 1], trace[n]));
    }
  }

  lemma {:induction false} TraceAt(trace: seq<Scene>, inputs: seq<Input>, k: int)
    requires Plays(trace, inputs) && 0 <= k < |inputs|
    ensures Sound(trace[k]) && Sound(trace[k + 1]) && Step(trace[k], inputs[k], trace[k + 1])
  {
    hide Sound, Step;
  }

  lemma {:induction false} NoSums(trace: seq<Scene>, inputs: seq<Input>)
    requires trace != []
    ensures BlocksTaken(trace, 0) == 0 && PointsGained(trace, 0) == 0 && BlocksPlaced(inputs, 0) == 0 && ToUint32(0) == 0
  {
  }

  lemma {:induction false} NextSums(trace: seq<Scene>, inputs: seq<Input>, n: int)
    requires 0 < n < |trace| == |inputs| + 1
    requires StepBalanced(trace[n - 1], trace[n], if inputs[n - 1].Group? then 2 else 0)
    ensures BlocksTaken(trace, n) == BlocksTaken(trace, n - 1) + BlocksGone(trace[n - 1], trace[n])
    ensures PointsGained(trace, n) == PointsGained(trace, n - 1) + Gained(trace[n - 1], trace[n])
    ensures BlocksPlaced(inputs, n) == BlocksPlaced(inputs, n - 1) + if inputs[n - 1].Group? then 2 else 0
    ensures
      var s, s' := trace[n - 1], trace[n];
      && ColourCount(s'.view.bodies) + BlocksGone(s, s') == ColourCount(s.view.bodies) + (if inputs[n - 1].Group? then 2 else 0)
      && Adds(s.purse.total, s'.purse.total, Gained(s, s')) && Gained(s, s') >= 10 * (Owed(s') - Owed(s) + BlocksGone(s, s'))
  {
    hide BlocksGone, Gained, Adds, ColourCount, Owed;
  }

  lemma {:induction false} AddsUp(start: int, before: int, after: int, sum: int, points: int)
    requires ToUint32(before - start - sum) == 0 && Adds(before, after, points)
    ensures ToUint32(after - start - (sum + points)) == 0
  {
    if after != before + points { TotalAdded(before, start, sum, points); }
  }

  // ---------------------------------------------------------------- how a game ends

  /** What ends a game. */
  ghost predicate EndsRightly(s: Scene, input: Input, s': Scene) {
    && s'.flags.shouldQuit == s.flags.shouldQuit
    && (s'.phase == GameOver ==> s.phase == GameOver || input.Quit? || s.flags.shouldQuit || SpawnHit(s'.view.cells.Keys))
  }

  lemma {:induction false} GroupEnds(m: Scene, s': Scene)
    requires GroupChecked(m, s')
    ensures s'.flags.shouldQuit == m.flags.shouldQuit
    ensures s'.phase == GameOver ==> m.flags.shouldQuit || SpawnHit(s'.view.cells.Keys)
  {
    hide Checked, GoesOn, DefenceOver, PutOff, SpawnHit;
    var n :| Checked(m, n) && if n.phase == Playing then GoesOn(DefenceOver(n), s') else s' == PutOff(n);
    CheckedOutcome(m, n);
    FlagsOnly(n);
    FlagsKept(n);
    if n.phase == Playing { GoesOnOutcome(DefenceOver(n), s'); }
  }

  lemma {:induction false} FlagsKept(s: Scene)
    ensures DefenceOver(s).flags.shouldQuit == PutOff(s).flags.shouldQuit == s.flags.shouldQuit
  {
  }

  lemma {:induction false} FrameEnds(s: Scene, dt: real, s': Scene)
    requires FrameStep(s, dt, s')
    ensures s'.flags.shouldQuit == s.flags.shouldQuit
    ensures s'.phase == GameOver ==> s.phase == GameOver || s.flags.shouldQuit || SpawnHit(s'.view.cells.Keys)
  {
    hide Frame, Faded, Survivors, Consistent, Listed, SettledStep, AllRest, SpawnHit;
    var m := Passed(s, dt);
    if s.phase == Shattering && m.fade.NoFade? {
      var v :| Listed(m.view, v) && if AllRest(v) then SettledStep(m.(view := v), s') else s' == m.(view := v);
      if AllRest(v) { SettledOutcome(m.(view := v), s'); }
    }
  }

  lemma {:induction false} StepEnds(s: Scene, input: Input, s': Scene)
    requires Step(s, input, s')
    ensures EndsRightly(s, input, s')
  {
    OpenStep(s, input, s');
    match input
    case Tick(dt) =>
      hide *;
      FrameEnds(s, dt, s');
      CloseEnds(s, input, s');
    case Group(k1, x1, k2, x2) =>
      hide *;
      var c1, c2, m := OpenGroup(s, k1, x1, k2, x2, s');
      GroupEnds(m, s');
      CloseEnds(s, input, s');
    case Attack(_) => CloseEnds(s, input, s');
    case ChainOver => CloseEnds(s, input, s');
    case Answer(_) => CloseEnds(s, input, s');
    case Quit => CloseEnds(s, input, s');
  }

  lemma {:induction false} CloseEnds(s: Scene, input: Input, s': Scene)
    requires s'.flags.shouldQuit == s.flags.shouldQuit
    requires s'.phase == GameOver ==> s.phase == GameOver || input.Quit? || s.flags.shouldQuit || SpawnHit(s'.view.cells.Keys)
    ensures EndsRightly(s, input, s')
  {
    hide SpawnHit;
  }

  lemma {:induction false} OpenEnds(s: Scene, input: Input, s': Scene)
    requires EndsRightly(s, input, s') && !input.Quit? && !s.flags.shouldQuit
    ensures !s'.flags.shouldQuit && (s'.phase == GameOver ==> s.phase == GameOver || SpawnHit(s'.view.cells.Keys))
  {
    hide SpawnHit;
  }

  /** A player who neither quits nor is told of a loss loses only with a spawn cell taken. */
  lemma {:induction false} LostOnTheBoard(trace: seq<Scene>, inputs: seq<Input>, n: nat)
    requires Plays(trace, inputs) && n <= |inputs| && trace[0].phase != GameOver && !trace[0].flags.shouldQuit
    requires forall k :: 0 <= k < n ==> !inputs[k].Quit?
    ensures |trace| == |inputs| + 1 && !trace[n].flags.shouldQuit
    ensures trace[n].phase == GameOver ==>
      exists k :: 0 < k <= n && trace[k].phase == GameOver && SpawnHit(trace[k].view.cells.Keys)
    decreases n
  {
    hide *;
    TraceSize(trace, inputs);
    if n > 0 {
      LostOnTheBoard(trace, inputs, n - 1);
      TraceAt(trace, inputs, n - 1);
      StepEnds(trace[n - 1], inputs[n - 1], trace[n]);
      OpenEnds(trace[n - 1], inputs[n - 1], trace[n]);
    }
  }
}
