/** Whole runs of frames: everything that falls or disappears comes to an end. */
module Progress {
  import opened Geometry
  import opened Connectivity
  import opened BlockStates
  import opened Matching
  import opened Players
  import opened Falling
  import opened FallSpeed
  import opened Settling
  import opened Garbage
  import opened Sorting
  import opened Destroying
  import opened Scoring
  import opened Scenes
  import opened SortedRuns
  import opened LocalFrames
  import opened LocalSteps

  /** What the invariant of the phases says of the state as a value. */
  ghost predicate Sound(s: Scene) {
    && s.phase != Standing && Consistent(s.view) && ColoursRegistered(s.view)
    && (s.fade.NoFade? ==> FallInvariant(s.view, Heights(s.view), 0, 0.0))
    && (s.fade.Fade? ==> s.fade.time >= 0.0)
    && (s.phase == Playing ==> s.fade.NoFade? && AllRest(s.view) && !SpawnHit(s.view.cells.Keys))
    && (s.phase == IceBlocking ==> s.fade.NoFade? && OnlyIceFalls(s.view))
    && (s.phase == Shattering ==> 1 <= s.combo <= MAX_COMBO && (s.fade.NoFade? ==> AllRegistered(s.view)))
  }

  /** Nothing is faster than a fall from rest in short frames can have made it. */
  ghost predicate Swift(s: Scene) {
    s.fade.NoFade? ==> AllDriven(s.view, 0, 0.0, 0.0)
  }

  /** A run of short frames, as states between the frames. */
  ghost predicate Runs(ss: seq<Scene>, dts: seq<real>) {
    && |ss| == |dts| + 1
    && (forall k :: 0 <= k < |ss| ==> Sound(ss[k]) && Swift(ss[k]))
    && (forall k :: 0 <= k < |dts| ==> 0.0 <= dts[k] <= SHORT && SmoothIn(ss[k], dts[k]) && FrameStep(ss[k], dts[k], ss[k + 1]))
  }

  /** How far a chain and the ice after it have come: every round disappears and falls, then ice may come down. */
  function StageOf(s: Scene): int {
    match s.phase
    case Shattering => 2 * s.combo + if s.fade.Fade? then 0 else 1
    case IceBlocking => 40
    case _ => 41
  }

  /** The player has been in this part of the chain for the time `t`. */
  ghost predicate InStage(s: Scene, t: real) {
    && 0.0 <= t <= 310.02
    && (s.phase == Shattering && s.fade.Fade? ==> if s.fade.over then t == 0.0 else t <= s.fade.time)
    && ((s.phase == Shattering || s.phase == IceBlocking) && s.fade.NoFade? ==> AllDriven(s.view, 0, t, t))
  }

  lemma {:induction false} StageBounds(s: Scene)
    requires Sound(s)
    ensures 2 <= StageOf(s) <= 41 && (StageOf(s) == 41 <==> s.phase == Playing || s.phase == GameOver)
    ensures s.phase == Shattering ==> StageOf(s) < 40
  {
    hide Consistent, FallInvariant, SpawnHit, OnlyIceFalls, AllRest, AllRegistered, ColoursRegistered;
  }

  // ---------------------------------------------------------------- one frame

  /** At the end of a frame the blocks on the board are again those on the list. */
  lemma {:induction false} FrameConsistent(v: FallState, dt: real)
    requires FallInvariant(v, Heights(v), 0, 0.0) && Fits(v) && Paced(v, 0, dt) && dt >= 0.0
    ensures Consistent(Frame(v, 0, dt)) && (ColoursRegistered(v) ==> ColoursRegistered(Frame(v, 0, dt)))
  {
    hide *;
    var hs := Heights(v);
    FitsIs(v);
    OrderPreserving(v, hs, 0, 0.0);
    FallInvariantAnyTime(v, hs, dt);
    CloseFrame(v, hs, 0, dt);
    var hs' := FrameKeeps(v, hs, 0, dt);
    OpenFrame(Frame(v, 0, dt), hs', |v.bodies|, dt);
    ConsistentInFall(Frame(v, 0, dt), hs', |v.bodies|, dt);
    if ColoursRegistered(v) { StillColours(v, Frame(v, 0, dt)); }
  }

  lemma {:induction false} ConsistentInFall(v: FallState, hs: seq<int>, n: int, dt: real)
    requires FallInvariant(v, hs, n, dt)
    ensures Consistent(v)
  {
    hide Consistent, Apart;
  }

  /** A fall that has lasted for 310 units has ended. */
  lemma {:induction false} LongFallRests(s: Scene, t: real)
    requires Sound(s) && s.fade.NoFade? && Fits(s.view) && AllDriven(s.view, 0, t, t) && t >= 310.0
    ensures AllRest(s.view)
  {
    FitsIs(s.view);
    hide Fits, Consistent, FallInvariant, OnlyIceFalls, SpawnHit, AllRegistered, ColoursRegistered, AllDriven, AllRest;
    FallIsOver(s.view, Heights(s.view), t);
  }

  /** While the same blocks go on falling, the time in the stage grows by the frame. */
  lemma {:induction false} FallGoesOn(s: Scene, t: real, dt: real)
    requires Sound(s) && s.fade.NoFade? && SmoothIn(s, dt) && 0.0 <= dt <= SHORT && AllDriven(s.view, 0, t, t)
    ensures AllDriven(Frame(s.view, 0, dt), 0, t + dt, t + dt)
    ensures t < 310.0 || AllRest(Frame(s.view, 0, dt))
  {
    hide *;
    SmoothFits(s, dt);
    NextDriven(s.view, t, dt);
    if t >= 310.0 {
      LongFallRests(s, t);
      FrameIdle(s.view, 0, dt);
    }
  }

  lemma {:induction false} SmoothFits(s: Scene, dt: real)
    requires SmoothIn(s, dt) && s.fade.NoFade?
    ensures Fits(s.view) && Paced(s.view, 0, dt)
  {
    hide Fits, Paced;
  }

  lemma {:induction false} ListedDriven(v: FallState, v': FallState, t: real)
    requires Consistent(v) && Listed(v, v') && AllRegistered(v') && AllDriven(v, 0, t, t)
    ensures AllDriven(v', 0, t, t)
  {
    hide *;
    ListedIs(v, v');
    Resorted(v, v');
    MappedDriven(v, v', t);
  }

  /** Once everything rests the phase changes, or the next round begins. */
  lemma {:induction false} SettledStage(s: Scene, s': Scene)
    requires SettledStep(s, s') && s.phase == Shattering && s.fade.NoFade?
    ensures s'.phase == Playing || s'.phase == GameOver || s'.phase == IceBlocking
         || (s'.phase == Shattering && s'.combo == s.combo + 1 && s'.fade.Fade? && s'.fade.time == 0.0 && !s'.fade.over)
  {
    hide HasGroup, BoardIn, SpawnHit, IsDrop, Dropped, AfterDrop, TakesRound, Earn, RoundOf, Margin;
  }

  /** A frame either stays in the stage, or goes on to a later one. */
  lemma {:induction false} StageStep(s: Scene, dt: real, s': Scene, t: real) returns (t': real)
    requires Sound(s) && Swift(s) && Sound(s') && Swift(s') && InStage(s, t)
    requires 0.0 <= dt <= SHORT && SmoothIn(s, dt) && FrameStep(s, dt, s')
    ensures InStage(s', t') && StageOf(s) <= StageOf(s')
    ensures StageOf(s) == StageOf(s') ==> StageOf(s) == 41 || t' == t + dt
    ensures StageOf(s) < StageOf(s') ==> t' == 0.0
  {
    match s.phase
    case Playing => t' := QuietStage(s, dt, s');
    case GameOver => t' := QuietStage(s, dt, s');
    case IceBlocking => t' := IceStage(s, dt, s', t);
    case Shattering =>
      if s.fade.Fade? {
        t' := FadeStage(s, dt, s', t);
      } else {
        t' := FallStage(s, dt, s', t);
      }
  }

  lemma {:induction false} QuietStage(s: Scene, dt: real, s': Scene) returns (t': real)
    requires (s.phase == Playing || s.phase == GameOver) && FrameStep(s, dt, s')
    ensures t' == 0.0 && InStage(s', t') && StageOf(s') == StageOf(s) == 41
  {
    t' := 0.0;
    hide AllDriven, Frame, Faded;
  }

  lemma {:induction false} IceStage(s: Scene, dt: real, s': Scene, t: real) returns (t': real)
    requires Sound(s) && Swift(s') && InStage(s, t) && s.phase == IceBlocking
    requires 0.0 <= dt <= SHORT && SmoothIn(s, dt) && FrameStep(s, dt, s')
    ensures InStage(s', t') && StageOf(s) <= StageOf(s')
    ensures StageOf(s) == StageOf(s') ==> t' == t + dt
    ensures StageOf(s) < StageOf(s') ==> t' == 0.0
  {
    hide Consistent, FallInvariant, OnlyIceFalls, SpawnHit, AllDriven, AllRest, Frame, SmoothIn, ColoursRegistered;
    FallGoesOn(s, t, dt);
    t' := if s'.phase == IceBlocking then t + dt else 0.0;
  }

  lemma {:induction false} FadeStage(s: Scene, dt: real, s': Scene, t: real) returns (t': real)
    requires Swift(s') && InStage(s, t) && s.phase == Shattering && s.fade.Fade?
    requires 0.0 <= dt <= SHORT && FrameStep(s, dt, s')
    ensures InStage(s', t') && StageOf(s) <= StageOf(s')
    ensures StageOf(s) == StageOf(s') ==> t' == t + dt
    ensures StageOf(s) < StageOf(s') ==> t' == 0.0
  {
    hide AllDriven, Frame, Survivors;
    t' := if s'.fade.NoFade? then 0.0 else t + dt;
  }

  lemma {:induction false} FallStage(s: Scene, dt: real, s': Scene, t: real) returns (t': real)
    requires Sound(s) && Sound(s') && Swift(s') && InStage(s, t) && s.phase == Shattering && s.fade.NoFade?
    requires 0.0 <= dt <= SHORT && SmoothIn(s, dt) && FrameStep(s, dt, s')
    ensures InStage(s', t') && StageOf(s) <= StageOf(s')
    ensures StageOf(s) == StageOf(s') ==> t' == t + dt
    ensures StageOf(s) < StageOf(s') ==> t' == 0.0
  {
    hide Consistent, FallInvariant, OnlyIceFalls, SpawnHit, AllDriven, AllRest, Frame, SmoothIn, ColoursRegistered, SettledStep, Listed, AllRegistered;
    FallGoesOn(s, t, dt);
    SmoothFits(s, dt);
    FrameConsistent(s.view, dt);
    var m := Passed(s, dt);
    var v :| Listed(m.view, v) && if AllRest(v) then SettledStep(m.(view := v), s') else s' == m.(view := v);
    if AllRest(v) {
      SettledStage(m.(view := v), s');
      StageBounds(s);
      t' := 0.0;
    } else {
      ListedDriven(m.view, v, t + dt);
      if AllRest(m.view) { ListedRest(m.view, v); }
      t' := t + dt;
    }
  }

  lemma {:induction false} ListedRest(v: FallState, v': FallState)
    requires Consistent(v) && Listed(v, v') && AllRest(v) && AllRegistered(v')
    ensures AllRest(v')
  {
    hide *;
    ListedIs(v, v');
    Resorted(v, v');
    MappedRest(v, v');
  }

  lemma {:induction false} MappedRest(v: FallState, v': FallState)
    requires Mapped(v, v') && AllRest(v)
    ensures AllRest(v')
  {
    forall i | 0 <= i < |v'.bodies|
      ensures v'.bodies[i].state == Stationary
    {
      assert v.bodies[Was(v, v', i)] == v'.bodies[i];
    }
  }

  // ---------------------------------------------------------------- whole runs

  /** The time of a run is bounded by the stages it has gone through and the time in the last one. */
  lemma {:induction false} RunStages(ss: seq<Scene>, dts: seq<real>, n: nat) returns (t: real)
    requires Runs(ss, dts) && n <= |dts|
    ensures |ss| == |dts| + 1 && InStage(ss[n], t) && StageOf(ss[0]) <= StageOf(ss[n]) <= 41
    ensures StageOf(ss[n]) < 41 ==> Total(dts[..n]) <= 311.0 * (StageOf(ss[n]) - StageOf(ss[0])) as real + t
    decreases n
  {
    hide *;
    RunLength(ss, dts);
    if n == 0 {
      StageStart(ss, dts);
      RunAt(ss, dts, 0);
      StageBounds(ss[0]);
      TotalStart(dts);
      t := 0.0;
    } else {
      var before := RunStages(ss, dts, n - 1);
      RunAt(ss, dts, n - 1);
      RunAt(ss, dts, n);
      TotalNext(dts, n - 1);
      StageBounds(ss[n]);
      StageTime(ss[n - 1], before);
      ShortIs();
      t := StageStep(ss[n - 1], dts[n - 1], ss[n], before);
      if StageOf(ss[n - 1]) < StageOf(ss[n]) {
        NextStage(StageOf(ss[n - 1]) - StageOf(ss[0]), StageOf(ss[n]) - StageOf(ss[0]));
      }
    }
  }

  lemma {:induction false} NextStage(a: int, b: int)
    requires a < b
    ensures 311.0 * a as real + 311.0 <= 311.0 * b as real
  {
  }

  lemma {:induction false} ShortIs()
    ensures SHORT == 0.02
  {
  }

  lemma {:induction false} StageTime(s: Scene, t: real)
    requires InStage(s, t)
    ensures 0.0 <= t <= 310.02
  {
    hide AllDriven;
  }

  lemma {:induction false} RunLength(ss: seq<Scene>, dts: seq<real>)
    requires Runs(ss, dts)
    ensures |ss| == |dts| + 1
  {
    hide Sound, Swift, SmoothIn, FrameStep;
  }

  lemma {:induction false} RunAt(ss: seq<Scene>, dts: seq<real>, n: int)
    requires Runs(ss, dts) && 0 <= n <= |dts|
    ensures |ss| == |dts| + 1 && Sound(ss[n]) && Swift(ss[n])
    ensures n < |dts| ==> 0.0 <= dts[n] <= SHORT && SmoothIn(ss[n], dts[n]) && FrameStep(ss[n], dts[n], ss[n + 1])
  {
    hide Sound, Swift, SmoothIn, FrameStep;
  }

  lemma {:induction false} StageStart(ss: seq<Scene>, dts: seq<real>)
    requires Runs(ss, dts)
    ensures |ss| > 0 && InStage(ss[0], 0.0)
  {
    RunAt(ss, dts, 0);
    hide Runs, AllDriven, Consistent, FallInvariant, OnlyIceFalls, SpawnHit, AllRest, AllRegistered, ColoursRegistered;
  }

  const LONGEST := 12200.0

  /** Every chain and every drop ends: in a run of short frames that lasts long enough play goes on, or the game is
      over.  At most nineteen rounds disappear and fall, and at most one drop comes after them. */
  lemma {:induction false} EverythingEnds(ss: seq<Scene>, dts: seq<real>)
    requires Runs(ss, dts) && Total(dts) >= LONGEST
    ensures |ss| == |dts| + 1 && (ss[|dts|].phase == Playing || ss[|dts|].phase == GameOver)
  {
    hide *;
    RunLength(ss, dts);
    RunAt(ss, dts, 0);
    RunAt(ss, dts, |dts|);
    StageBounds(ss[0]);
    StageBounds(ss[|dts|]);
    TotalStart(dts);
    var t := RunStages(ss, dts, |dts|);
    StageTime(ss[|dts|], t);
    if StageOf(ss[|dts|]) < 41 {
      StagesBound(StageOf(ss[|dts|]) - StageOf(ss[0]));
    }
  }

  lemma {:induction false} StagesBound(n: int)
    requires n <= 38
    ensures 311.0 * n as real + 310.02 < LONGEST
  {
  }
}
