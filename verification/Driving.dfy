/** The speeds of the blocks on the board: what falls has started from rest and has fallen in short frames. */
module Driving {
  import opened Geometry
  import opened Connectivity
  import opened BlockStates
  import opened Matching
  import opened PuyoBlocks
  import opened Players
  import opened Falling
  import opened FallSpeed
  import opened Gravity
  import opened Clearing
  import opened Rounds
  import opened Settling
  import opened Garbage
  import opened Resting
  import opened Destroying

  lemma {:induction false} BodiesOfList(p: BasePlayer)
    requires p.Wired()
    ensures |View(p).bodies| == |p.blockList|
    ensures forall i :: 0 <= i < |p.blockList| ==> View(p).bodies[i] == BodyOf(p.blockList[i])
    ensures forall i :: 0 <= i < |p.blockList| ==>
      var b, c := View(p).bodies[i], p.blockList[i];
      b.x == c.x && b.state == c.state && b.kind == c.kind && b.registered == p.Registered(c)
  {
    forall i | 0 <= i < |p.blockList|
      ensures View(p).bodies[i] == BodyOf(p.blockList[i]) && View(p).bodies[i].registered == p.Registered(p.blockList[i])
    {
      ViewBody(p, i);
    }
  }

  /** Whatever falls has been falling from rest for the time `t`, in short frames. */
  ghost predicate DrivenList(bs: seq<Block>, t: real)
    reads bs`kind, bs`state, bs`x, bs`y, bs`posY, bs`velocity, bs`initialized
  {
    forall b :: b in bs ==> Driven(BodyOf(b), t)
  }

  lemma {:induction false} DrivenView(p: BasePlayer, t: real)
    requires p.Wired()
    ensures DrivenList(p.blockList, t) <==> AllDriven(View(p), 0, t, t)
    ensures |View(p).bodies| == |p.blockList|
  {
    BodiesOfList(p);
    hide View, BasePlayer.Wired, Driven, BodyOf;
    if AllDriven(View(p), 0, t, t) {
      forall b | b in p.blockList
        ensures Driven(BodyOf(b), t)
      {
        var i :| 0 <= i < |p.blockList| && p.blockList[i] == b;
        assert Driven(View(p).bodies[i], t);
      }
    }
  }

  lemma {:induction false} ColoursSeated(p: BasePlayer)
    requires p.Wired()
    ensures ColoursRegistered(View(p))
  {
    BodiesOfList(p);
    hide View, BasePlayer.Wired, BodyOf;
  }

  lemma {:induction false} Weaker(b: Body, t: real)
    requires Driven(b, t)
    ensures Driven(b, 0.0)
  {
    hide Acceleration, StartY, Square, Earned;
  }

  lemma {:induction false} DrivenAnyTime(bs: seq<Block>, t: real)
    requires DrivenList(bs, t)
    ensures DrivenList(bs, 0.0)
  {
    hide Driven, BodyOf;
    forall b | b in bs
      ensures Driven(BodyOf(b), 0.0)
    {
      Weaker(BodyOf(b), t);
    }
  }

  /** What stands still is driven. */
  lemma {:induction false} NothingFalls(bs: seq<Block>, t: real)
    requires forall b :: b in bs ==> b.state != DownMoving
    ensures DrivenList(bs, t)
  {
    hide Driven;
    forall b | b in bs
      ensures Driven(BodyOf(b), t)
    {
      NotFalling(BodyOf(b), t);
    }
  }

  lemma {:induction false} RestDriven(p: BasePlayer, t: real)
    requires AtRest(p)
    ensures DrivenList(p.blockList, t)
  {
    OpenRest(p);
    NothingFalls(p.blockList, t);
  }

  lemma {:induction false} SettledDriven(p: BasePlayer, t: real)
    requires p.Settled()
    ensures DrivenList(p.blockList, t)
  {
    NothingFalls(p.blockList, t);
  }

  lemma {:induction false} FadingDriven(p: BasePlayer, cells: seq<seq<Cell>>, iceAt: set<Cell>, t: real, over: bool)
    requires Clears(p, cells, iceAt, t, over)
    ensures DrivenList(p.blockList, 0.0)
  {
    OpenClears(p, cells, iceAt, t, over);
    NothingFalls(p.blockList, 0.0);
  }

  /** What a round sets falling starts from rest. */
  lemma {:induction false} RoundDriven(p: BasePlayer, bs: seq<Block>, l: map<Cell, Block>, s: States, gone: set<Cell>)
    requires RoundDone(p, bs, l, s, gone) && Clearable(bs, l, s, gone)
    ensures DrivenList(p.blockList, 0.0)
  {
    hide *;
    forall i | 0 <= i < |p.blockList|
      ensures Driven(BodyOf(p.blockList[i]), 0.0)
    {
      SurvivorDriven(p, bs, l, s, gone, i);
    }
    CloseDrivenList(p.blockList, 0.0);
  }

  lemma {:induction false} CloseDrivenList(bs: seq<Block>, t: real)
    requires forall i :: 0 <= i < |bs| ==> Driven(BodyOf(bs[i]), t)
    ensures DrivenList(bs, t)
  {
    hide Driven, BodyOf;
  }

  lemma {:induction false} SurvivorDriven(p: BasePlayer, bs: seq<Block>, l: map<Cell, Block>, s: States, gone: set<Cell>, i: int)
    requires RoundDone(p, bs, l, s, gone) && Clearable(bs, l, s, gone) && 0 <= i < |p.blockList|
    ensures Driven(BodyOf(p.blockList[i]), 0.0)
  {
    OpenClearable(bs, l, s, gone);
    Survivor(p, bs, l, s, gone, i);
    InWithout(bs, BlocksAt(l, gone), p.blockList[i]);
    var b := p.blockList[i];
    assert b.kind == Ice ==> b.initialized;
    assert InBoard(Cell(b.x, b.y));
    hide RoundDone, Clearable, Without, Driven, BasePlayer.Layout;
    StartDriven(BodyOf(b));
  }

  /** So does ice that has just been made. */
  lemma {:induction false} DropDriven(s: FallState, cs: seq<Cell>)
    requires WellFormed(s) && AllRest(s) && forall k :: 0 <= k < |cs| ==> 0 <= cs[k].x < BOARD_X_COUNT && 0 <= cs[k].y <= 4
    ensures AllDriven(Dropped(s, cs), 0, 0.0, 0.0) && ColoursRegistered(Dropped(s, cs))
  {
    var s', n := Dropped(s, cs), |s.bodies|;
    forall i | 0 <= i < |s'.bodies|
      ensures Driven(s'.bodies[i], 0.0) && (s'.bodies[i].kind != Ice ==> s'.bodies[i].registered)
    {
      if i < n {
        NotFalling(s'.bodies[i], 0.0);
      } else {
        assert s'.bodies[i] == DropBody(cs[i - n]);
        StartDriven(s'.bodies[i]);
      }
    }
    hide Driven, Dropped;
  }

  /** The blocks look as `bodies` says. */
  ghost predicate LookLike(bs: seq<Block>, bodies: map<Block, Body>)
    reads bs`kind, bs`state, bs`x, bs`y, bs`posY, bs`velocity, bs`initialized
  {
    forall b :: b in bs ==> b in bodies && bodies[b] == BodyOf(b)
  }

  ghost function LooksOf(bs: seq<Block>): (bodies: map<Block, Body>)
    reads bs`kind, bs`state, bs`x, bs`y, bs`posY, bs`velocity, bs`initialized
    ensures LookLike(bs, bodies)
  {
    map b | b in bs :: BodyOf(b)
  }

  lemma {:induction false} LookLikeIs(bs: seq<Block>, bodies: map<Block, Body>)
    ensures LookLike(bs, bodies) <==> forall b :: b in bs ==>
      && b in bodies && bodies[b].kind == b.kind && bodies[b].state == b.state && bodies[b].x == b.x && bodies[b].y == b.y
      && bodies[b].posY == b.posY && bodies[b].velocity == b.velocity && bodies[b].registered == (b.kind == Ice ==> b.initialized)
  {
  }

  lemma {:induction false} DrivenByLooks(bs: seq<Block>, bodies: map<Block, Body>, t: real)
    requires LookLike(bs, bodies)
    ensures DrivenList(bs, t) <==> forall b :: b in bs ==> b in bodies && Driven(bodies[b], t)
  {
    hide Driven, BodyOf;
  }

  lemma {:induction false} FewerLook(bs: seq<Block>, bs': seq<Block>, bodies: map<Block, Body>)
    requires LookLike(bs, bodies) && forall i :: 0 <= i < |bs'| ==> bs'[i] in bs
    ensures LookLike(bs', bodies)
  {
  }

  lemma {:induction false} FewerDriven(bs: seq<Block>, bs': seq<Block>, t: real)
    requires DrivenList(bs, t) && forall i :: 0 <= i < |bs'| ==> bs'[i] in bs
    ensures DrivenList(bs', t)
  {
    hide Driven, BodyOf;
  }
}
